/** What a profile that has been read permits, and how that agrees with the gate's own test
    of a path. */
module SandboxMeaning {
  import opened Text
  import opened SandboxText
  import opened SandboxProfile
  import SecretStore

  datatype Target = File(path: string) | UnixSocket | Host(name: string)

  // --- regexes ---

  /** How many letters stand before the first other char. */
  function Letters(r: string): (n: nat)
    ensures n <= |r|
  {
    if r == "" || !IsLetter(r[0]) then 0 else 1 + Letters(r[1..])
  }

  function CharsOf(s: string): set<char> {
    set i | 0 <= i < |s| :: s[i]
  }

  /** The regexes made of literal chars, escaped chars and classes of letters: for each char
      to match, the set it may come from. Anything else is not read. */
  function CharSets(r: string): Option<seq<set<char>>>
    decreases |r|
  {
    if r == "" then Some([])
    else if r[0] == '\\' then
      if |r| < 2 then None
      else
        var rest := CharSets(r[2..]);
        if rest.Some? then Some([{r[1]}] + rest.value) else None
    else if r[0] == '[' then
      var n := Letters(r[1..]);
      if n == 0 || n + 1 >= |r| || r[n + 1] != ']' then None
      else
        var rest := CharSets(r[n + 2..]);
        if rest.Some? then Some([CharsOf(r[1..n + 1])] + rest.value) else None
    else if IsMeta(r[0]) then None
    else
      var rest := CharSets(r[1..]);
      if rest.Some? then Some([{r[0]}] + rest.value) else None
  }

  predicate MatchesAt(sets: seq<set<char>>, s: string, i: nat) {
    i + |sets| <= |s| && forall k :: 0 <= k < |sets| ==> s[i + k] in sets[k]
  }

  /** An unanchored search. */
  predicate Finds(regex: string, s: string) {
    var sets := CharSets(regex);
    sets.Some? && exists i: nat :: i <= |s| && MatchesAt(sets.value, s, i)
  }

  /** The chars that equal this one, letter case aside. */
  function AnyCase(c: char): (r: set<char>)
    ensures forall x :: x in r <==> Lower(x) == Lower(c)
  {
    if IsLetter(c) then {Upper(c), Lower(c)} else {c}
  }

  function AnyCases(pattern: string): (r: seq<set<char>>)
    ensures |r| == |pattern| && forall k :: 0 <= k < |r| ==> r[k] == AnyCase(pattern[k])
  {
    seq(|pattern|, k requires 0 <= k < |pattern| => AnyCase(pattern[k]))
  }

  lemma TwoLetters(a: char, b: char, rest: string)
    requires IsLetter(a) && IsLetter(b)
    ensures Letters([a, b, ']'] + rest) == 2
  {
    var inner := [a, b, ']'] + rest;
    assert inner[1..] == [b, ']'] + rest;
    assert inner[1..][1..] == "]" + rest;
    assert Letters(inner[1..][1..]) == 0;
    assert Letters(inner[1..]) == 1;
  }

  lemma BothCases(c: char)
    requires IsLetter(c)
    ensures CharsOf([Upper(c), Lower(c)]) == AnyCase(c)
  {
    var chars := [Upper(c), Lower(c)];
    assert chars[0] in CharsOf(chars) && chars[1] in CharsOf(chars);
  }

  lemma FrontClass(c: char, rest: string)
    requires IsLetter(c) && CharSets(rest).Some?
    ensures CharSets(['[', Upper(c), Lower(c), ']'] + rest) == Some([AnyCase(c)] + CharSets(rest).value)
  {
    var r := ['[', Upper(c), Lower(c), ']'] + rest;
    TwoLetters(Upper(c), Lower(c), rest);
    assert r[1..] == [Upper(c), Lower(c), ']'] + rest;
    assert r[4..] == rest;
    assert r[1..3] == [Upper(c), Lower(c)];
    BothCases(c);
  }

  lemma FrontSet(c: char, rest: string)
    requires CharSets(rest).Some?
    ensures CharSets(CharRegex(c) + rest) == Some([AnyCase(c)] + CharSets(rest).value)
  {
    if IsLetter(c) {
      FrontClass(c, rest);
    } else {
      var r := CharRegex(c) + rest;
      assert r[|CharRegex(c)|..] == rest;
    }
  }

  lemma {:induction false} PatternSets(pattern: string)
    ensures CharSets(PatternRegex(pattern)) == Some(AnyCases(pattern))
  {
    if pattern == "" {
    } else {
      PatternSets(pattern[1..]);
      FrontSet(pattern[0], PatternRegex(pattern[1..]));
      assert AnyCases(pattern) == [AnyCase(pattern[0])] + AnyCases(pattern[1..]);
    }
  }

  /** For every pattern and path, the printed regex finds the pattern exactly when the gate's
      case-insensitive substring test does. */
  lemma RegexMeansSubstring(pattern: string, path: string)
    ensures Finds(PatternRegex(pattern), path) <==> Contains(LowerAll(path), LowerAll(pattern))
  {
    PatternSets(pattern);
    forall i: nat | i <= |path|
      ensures MatchesAt(AnyCases(pattern), path, i) <==> OccursAt(LowerAll(path), LowerAll(pattern), i)
    {
      if i + |pattern| <= |path| {
        var part := LowerAll(path)[i..i + |pattern|];
        assert forall k :: 0 <= k < |pattern| ==> part[k] == Lower(path[i + k]);
        if MatchesAt(AnyCases(pattern), path, i) {
          assert part == LowerAll(pattern);
        }
      }
    }
    if Contains(LowerAll(path), LowerAll(pattern)) {
      var i :| 0 <= i <= |path| && OccursAt(LowerAll(path), LowerAll(pattern), i);
      assert MatchesAt(AnyCases(pattern), path, i);
    }
  }

  // --- clauses ---

  /** A subpath is the directory itself and everything below it. */
  predicate Under(dir: string, path: string) {
    path == dir || StartsWith(path, dir + "/") || (dir != "" && dir[|dir| - 1] == '/' && StartsWith(path, dir))
  }

  predicate FilterHolds(f: seq<Token>, t: Target) {
    match t
    case File(path) =>
      && |f| == 2
      && (|| (f[0] == Word("literal") && f[1].Quoted? && path == f[1].text)
          || (f[0] == Word("subpath") && f[1].Quoted? && Under(f[1].text, path))
          || (f[0] == Word("regex") && f[1].Raw? && Finds(f[1].regex, path)))
    case UnixSocket => f == [Word("remote"), Word("unix")]
    case Host(name) => f == [Word("remote"), Word("ip"), Quoted(name)]
  }

  /** What one form says of an operation on a target, if it says anything. */
  function Says(f: Form, op: string, t: Target): Option<bool> {
    if |f.head| == 2 && (f.head[1] == Word("default") || f.head[1] == Word(op))
       && (f.filters == [] || exists i :: 0 <= i < |f.filters| && FilterHolds(f.filters[i], t))
    then
      if f.head[0] == Word("allow") then Some(true)
      else if f.head[0] == Word("deny") then Some(false)
      else None
    else None
  }

  /** The last form that says anything decides. */
  function Decision(fs: seq<Form>, op: string, t: Target): Option<bool> {
    if fs == [] then None
    else
      var later := Decision(fs[1..], op, t);
      if later.Some? then later else Says(fs[0], op, t)
  }

  predicate Permits(fs: seq<Form>, op: string, t: Target) {
    Decision(fs, op, t) == Some(true)
  }

  function Later(a: Option<bool>, b: Option<bool>): Option<bool> {
    if b.Some? then b else a
  }

  lemma {:induction false} DecisionJoin(a: seq<Form>, b: seq<Form>, op: string, t: Target)
    ensures Decision(a + b, op, t) == Later(Decision(a, op, t), Decision(b, op, t))
  {
    if a == [] {
      assert a + b == b;
    } else {
      assert (a + b)[1..] == a[1..] + b;
      DecisionJoin(a[1..], b, op, t);
    }
  }

  lemma DecisionOne(f: Form, op: string, t: Target)
    ensures Decision([f], op, t) == Says(f, op, t)
  {
    assert [f][1..] == [];
  }

  lemma DecisionTwo(f: Form, g: Form, op: string, t: Target)
    ensures Decision([f, g], op, t) == Later(Says(f, op, t), Says(g, op, t))
  {
    assert [f, g] == [f] + [g];
    DecisionJoin([f], [g], op, t);
    DecisionOne(f, op, t);
    DecisionOne(g, op, t);
  }

  /** Some pattern occurs in the path, letter case aside. */
  predicate Hit(patterns: seq<string>, path: string) {
    exists i :: 0 <= i < |patterns| && Contains(LowerAll(path), LowerAll(patterns[i]))
  }

  predicate Writable(writable: seq<string>, path: string) {
    || path == "/dev/null" || path == "/dev/stdout" || path == "/dev/stderr"
    || exists i :: 0 <= i < |writable| && Under(writable[i], path)
  }

  lemma SinksAre(path: string)
    ensures path in DEV_WRITE_SINKS <==> path == "/dev/null" || path == "/dev/stdout" || path == "/dev/stderr"
  {}

  predicate NetworkOpen(policy: Policy, t: Target)
    requires !t.File?
  {
    policy.allowNetwork || t.UnixSocket? || t.name in policy.allowlist
  }

  lemma DenyDecides(denied: string, op: string, patterns: seq<string>, t: Target)
    requires denied != "default" && (op == denied ==> t.File?)
    ensures Decision(DenyForms(denied, patterns), op, t)
      == if op == denied && Hit(patterns, t.path) then Some(false) else None
  {
    if patterns != [] {
      var fs := Each(RegexFilter, patterns);
      DecisionOne(Form([Word("deny"), Word(denied)], fs), op, t);
      if op == denied {
        forall i | 0 <= i < |patterns|
          ensures FilterHolds(fs[i], t) <==> Contains(LowerAll(t.path), LowerAll(patterns[i]))
        {
          RegexMeansSubstring(patterns[i], t.path);
        }
      }
    }
  }

  lemma WritesDecide(writable: seq<string>, op: string, t: Target)
    requires op != "default" && (op == "file-write*" ==> t.File?)
    ensures Decision(WritesForms(writable), op, t)
      == if op == "file-write*" then Some(Writable(writable, t.path)) else None
  {
    var sinks, paths := Each(LiteralFilter, DEV_WRITE_SINKS), Each(SubpathFilter, writable);
    DecisionTwo(Form([Word("deny"), Word("file-write*")], []),
      Form([Word("allow"), Word("file-write*")], sinks + paths), op, t);
    if op == "file-write*" {
      SinksAre(t.path);
      forall i | 0 <= i < |DEV_WRITE_SINKS|
        ensures FilterHolds((sinks + paths)[i], t) <==> t.path == DEV_WRITE_SINKS[i] {}
      forall i | 0 <= i < |writable|
        ensures FilterHolds((sinks + paths)[|DEV_WRITE_SINKS| + i], t) <==> Under(writable[i], t.path) {}
    }
  }

  lemma {:induction false} HostsDecide(hosts: seq<string>, op: string, t: Target)
    requires op != "default" && (op == "network-outbound" ==> !t.File?)
    ensures Decision(Each(HostForm, hosts), op, t)
      == if op == "network-outbound" && t.Host? && t.name in hosts then Some(true) else None
    decreases |hosts|
  {
    if hosts != [] {
      HostsDecide(hosts[1..], op, t);
      assert Each(HostForm, hosts)[1..] == Each(HostForm, hosts[1..]);
      assert HostForm(hosts[0]).filters[0] == [Word("remote"), Word("ip"), Quoted(hosts[0])];
    }
  }

  lemma EgressDecides(policy: Policy, op: string, t: Target)
    requires op != "default" && (op == "network-outbound" ==> !t.File?)
    ensures Decision(EgressForms(policy), op, t)
      == if op != "network-outbound" || policy.allowNetwork then None
         else Some(t.UnixSocket? || t.name in policy.allowlist)
  {
    if !policy.allowNetwork {
      var deny := Form([Word("deny"), Word("network-outbound")], []);
      var unix := RemoteForm([Word("remote"), Word("unix")]);
      DecisionTwo(deny, unix, op, t);
      HostsDecide(policy.allowlist, op, t);
      DecisionJoin([deny, unix], Each(HostForm, policy.allowlist), op, t);
      assert unix.filters[0] == [Word("remote"), Word("unix")];
    }
  }

  lemma ProfileDecides(patterns: seq<string>, policy: Policy, op: string, t: Target)
    requires op != "default"
    requires op == "file-write*" || op == "file-read*" ==> t.File?
    requires op == "network-outbound" ==> !t.File?
    ensures Decision(ProfileForms(patterns, policy), op, t)
      == Later(Later(Later(Later(Some(true),
           if op == "file-write*" then Some(Writable(policy.writable, t.path)) else None),
           if op == "file-write*" && Hit(patterns, t.path) then Some(false) else None),
           if op == "file-read*" && Hit(patterns, t.path) then Some(false) else None),
           if op != "network-outbound" || policy.allowNetwork then None
           else Some(t.UnixSocket? || t.name in policy.allowlist))
  {
    var a, b := HeaderForms(), WritesForms(policy.writable);
    var c, d := DenyForms("file-write*", patterns), DenyForms("file-read*", patterns);
    DecisionTwo(Form([Word("version"), Word("1")], []), Form([Word("allow"), Word("default")], []), op, t);
    WritesDecide(policy.writable, op, t);
    DenyDecides("file-write*", op, patterns, t);
    DenyDecides("file-read*", op, patterns, t);
    EgressDecides(policy, op, t);
    DecisionJoin(a, b, op, t);
    DecisionJoin(a + b, c, op, t);
    DecisionJoin(a + b + c, d, op, t);
    DecisionJoin(a + b + c + d, EgressForms(policy), op, t);
  }

  lemma FilesPermitted(patterns: seq<string>, policy: Policy)
    ensures var fs := ProfileForms(patterns, policy);
      && (forall path :: Permits(fs, "file-read*", File(path)) <==> !Hit(patterns, path))
      && (forall path ::
            Permits(fs, "file-write*", File(path)) <==> Writable(policy.writable, path) && !Hit(patterns, path))
  {
    var fs := ProfileForms(patterns, policy);
    forall path ensures Permits(fs, "file-read*", File(path)) <==> !Hit(patterns, path) {
      ProfileDecides(patterns, policy, "file-read*", File(path));
    }
    forall path
      ensures Permits(fs, "file-write*", File(path)) <==> Writable(policy.writable, path) && !Hit(patterns, path)
    {
      ProfileDecides(patterns, policy, "file-write*", File(path));
    }
  }

  lemma NetworkPermitted(patterns: seq<string>, policy: Policy)
    ensures forall t: Target | !t.File? ::
      Permits(ProfileForms(patterns, policy), "network-outbound", t) <==> NetworkOpen(policy, t)
  {
    forall t: Target | !t.File?
      ensures Permits(ProfileForms(patterns, policy), "network-outbound", t) <==> NetworkOpen(policy, t)
    {
      ProfileDecides(patterns, policy, "network-outbound", t);
    }
  }

  /** The printed profile, read back: a read is permitted exactly when no pattern occurs in
      the path; a write exactly when, besides, the path is a device sink or lies in a
      writable tree; a connection exactly when the network is on, or it stays on a local
      socket, or the host is listed. */
  lemma ProfileMeaning(patterns: seq<string>, policy: Policy)
    ensures var read := ReadProfile(ProfileText(patterns, policy));
      && read.Some?
      && (forall path :: Permits(read.value, "file-read*", File(path)) <==> !Hit(patterns, path))
      && (forall path ::
            Permits(read.value, "file-write*", File(path)) <==> Writable(policy.writable, path) && !Hit(patterns, path))
      && (forall t: Target | !t.File? ::
            Permits(read.value, "network-outbound", t) <==> NetworkOpen(policy, t))
  {
    ProfileReadsBack(patterns, policy);
    FilesPermitted(patterns, policy);
    NetworkPermitted(patterns, policy);
  }

  /** The kernel's test and the gate's differ only over an empty pattern, which the gate
      ignores and the regex finds everywhere. */
  lemma HitIsSensitive(patterns: seq<string>, path: string)
    ensures Hit(patterns, path) <==> SecretStore.IsSensitivePath(path, patterns) || "" in patterns
  {
    if "" in patterns {
      var i :| 0 <= i < |patterns| && patterns[i] == "";
      assert OccursAt(LowerAll(path), LowerAll(patterns[i]), 0);
    } else if path == "" {
      forall i | 0 <= i < |patterns| ensures !Contains(LowerAll(path), LowerAll(patterns[i])) {
        assert patterns[i] != "";
      }
    } else if Hit(patterns, path) {
      var i :| 0 <= i < |patterns| && Contains(LowerAll(path), LowerAll(patterns[i]));
      assert patterns[i] != "";
    }
  }

  /** For the patterns a store can hold, the sandbox denies reads and writes of exactly the
      paths the gate flags, inside a writable tree as well. */
  lemma SandboxDeniesWhatTheGateFlags(store: SecretStore.Secrets, policy: Policy, path: string)
    requires store.Valid()
    ensures var read := ReadProfile(ProfileText(store.sensitivePaths, policy));
      var flagged := SecretStore.IsSensitivePath(path, store.sensitivePaths);
      && read.Some?
      && (Permits(read.value, "file-read*", File(path)) <==> !flagged)
      && (Permits(read.value, "file-write*", File(path)) <==> Writable(policy.writable, path) && !flagged)
  {
    ProfileMeaning(store.sensitivePaths, policy);
    HitIsSensitive(store.sensitivePaths, path);
  }
}
