/** The verdict on a command, read off its text. */
module CommandText {
  import opened Text
  import opened Command
  import opened Risk
  import opened Policy

  /** The chars that mean something to a shell; besides them, every control char does. */
  const SIGNS := ";&|`$(){}<*?[]!'\"\\"

  predicate HoldsSign(text: string) {
    exists i :: 0 <= i < |text| && (text[i] in SIGNS || text[i] < ' ' || text[i] == '\U{007F}')
  }

  predicate NameChars(s: string) {
    forall i :: 0 <= i < |s| ==> '0' <= s[i] <= '9' || 'a' <= s[i] <= 'z' || 'A' <= s[i] <= 'Z' || s[i] == '_'
  }

  /** A name of `n` chars and `=` or `+=` after it. */
  predicate AssignsAt(w: string, n: nat) {
    0 < n < |w| && NameChars(w[..n]) && (w[n] == '=' || (n + 1 < |w| && w[n] == '+' && w[n + 1] == '='))
  }

  predicate Assigns(w: string) {
    exists n :: 0 < n < |w| && AssignsAt(w, n)
  }

  lemma NameCharsMeaning(w: string, n: nat)
    requires n <= |w|
    ensures NameChars(w[..n]) <==> forall i :: 0 <= i < n ==> IsNameChar(w[i])
  {
    if NameChars(w[..n]) {
      forall i | 0 <= i < n ensures IsNameChar(w[i]) { assert w[..n][i] == w[i]; }
    }
  }

  lemma AssignsMeaning(w: string)
    ensures IsAssignment(w) <==> Assigns(w)
  {
    if IsAssignment(w) {
      var n :| 0 < n <= |w| && AssignmentNameEnds(w, n);
      NameCharsMeaning(w, n);
      assert w[n] == w[n..][0];
      assert w[n] == '+' ==> w[n + 1] == w[n..][1];
      assert AssignsAt(w, n);
    }
    if n :| 0 < n < |w| && AssignsAt(w, n) {
      NameCharsMeaning(w, n);
      assert w[n..][0] == w[n];
      assert w[n] == '+' ==> w[n..][1] == w[n + 1];
      assert AssignmentNameEnds(w, n);
    }
  }

  /** The command stands at `at`, behind assignments only; past the end there is none. */
  predicate CommandAt(words: seq<string>, at: nat) {
    && at <= |words|
    && (forall i :: 0 <= i < at ==> Assigns(words[i]))
    && (at < |words| ==> !Assigns(words[at]))
  }

  function NameAt(words: seq<string>, at: nat): string {
    if at < |words| then Base(words[at]) else ""
  }

  predicate AnyBase(words: seq<string>, s: set<string>) {
    exists i :: 0 <= i < |words| && Base(words[i]) in s
  }

  predicate LaterIn(words: seq<string>, at: nat, s: set<string>) {
    exists i :: at < i < |words| && words[i] in s
  }

  predicate SomeStarts(words: seq<string>, c: char) {
    exists i :: 0 <= i < |words| && words[i] != "" && words[i][0] == c
  }

  function Squeezed(s: string): string {
    if s == "" then "" else (if IsWhitespace(s[0]) then "" else [s[0]]) + Squeezed(s[1..])
  }

  /** What is read of a command: its whole text, its words, and where the command stands. */
  datatype Reading = Reading(text: string, words: seq<string>, at: nat)

  ghost predicate Reads(command: seq<string>, r: Reading) {
    && r.text == Join(command, " ")
    && SplitsInto(r.text, r.words)
    && CommandAt(r.words, r.at)
  }

  predicate ChainsText(r: Reading, t: Tables) {
    || HoldsSign(r.text)
    || (r.words != [] && Assigns(r.words[0]))
    || (r.at < |r.words| && r.words[r.at] != "" && r.words[r.at][0] == '=')
    || NameAt(r.words, r.at) in t.introducers
    || SomeStarts(r.words, '~')
    || (r.words != [] && r.words[0] != "" && r.words[0][0] == '^')
  }

  /** An argument that an interpreter may run: not a flag, or a flag that takes code. */
  predicate CarriesCode(w: string, t: Tables) {
    w == "" || w[0] != '-' || w in t.codeFlags || exists p :: p in t.inlineCodePrefixes && p <= w
  }

  predicate NamesRelative(w: string) {
    w == "" || (w[0] != '-' && w[0] != '/' && w[0] != '~')
  }

  predicate Mentions(s: string, p: string) {
    Contains(LowerAll(s), LowerAll(p))
  }

  /** Some pattern of the deny-set is in the words, or in the directory and the paths named from
      there, letter case aside. */
  predicate NamesSecret(words: seq<string>, cwd: Option<string>, deny: seq<string>)
    requires words != []
  {
    exists k :: 0 <= k < |deny| && deny[k] != "" && Mentions(PathHaystack(words, cwd), deny[k])
  }

  predicate RunsCodeText(r: Reading, t: Tables) {
    var name := NameAt(r.words, r.at);
    || (name in t.codeInterpreters && exists i :: r.at < i < |r.words| && CarriesCode(r.words[i], t))
    || name in t.execTools
    || (name == "find" && LaterIn(r.words, r.at, t.findExecFlags))
  }

  /** A remote command whose directory is unknown names a path relative to it. */
  predicate UnknownPathText(r: Reading) {
    || (exists i :: r.at < i < |r.words| && NamesRelative(r.words[i]))
    || (r.words != [] && '/' in r.words[0] && r.words[0][0] != '/' && r.words[0][0] != '~')
  }

  /** When a command's text calls for a reason. */
  predicate Says(reason: Reason, r: Reading, cwd: Option<string>, remote: Option<RemoteContext>, deny: seq<string>,
                 t: Tables)
    requires r.words != []
  {
    var name := NameAt(r.words, r.at);
    match reason
    case Destructive => AnyBase(r.words, t.destructive)
    case Network => AnyBase(r.words, t.network)
    case Privilege =>
      || AnyBase(r.words, t.privilege)
      || (name == "chmod" && exists i :: 0 <= i < |r.words| && Contains(r.words[i], "777"))
    case PackageMutator => name in t.packageManagers && LaterIn(r.words, r.at, t.packageMutating)
    case SecretAccess =>
      || AnyBase(r.words, t.secretTools)
      || name in t.envDump
      || (remote.Some? && remote.value.cwd.None? && UnknownPathText(r))
      || NamesSecret(r.words, cwd, deny)
    case RedirectOverwrite => '>' in r.text
    case ShellChaining => ChainsText(r, t)
    case ForkBomb => Contains(Squeezed(r.text), ":(){:|:&};:")
    case CodeExecution => RunsCodeText(r, t)
    case FileWrite => name in t.writeTools
    case RemoteExecution => remote.Some?
    case McpTool => false
  }

  // --- the parse and the text agree ---

  lemma ReadingIsParse(command: seq<string>, r: Reading)
    requires Reads(command, r)
    ensures AllWords(command) == r.words && CommandIndex(r.words) == r.at
  {
    WordsOfArgv(command);
    WordsMeaning(r.text);
    SplitsOneWay(r.text, Words(r.text), r.words);
    forall w ensures IsAssignment(w) <==> Assigns(w) { AssignsMeaning(w); }
    SameIndex(r.words, r.at);
  }

  lemma SameIndex(words: seq<string>, at: nat)
    requires at <= |words|
    requires forall i :: 0 <= i < at ==> IsAssignment(words[i])
    requires at < |words| ==> !IsAssignment(words[at])
    ensures CommandIndex(words) == at
  {}

  /** Every command can be read, and in one way. */
  lemma EveryCommandReads(command: seq<string>) returns (r: Reading)
    ensures Reads(command, r)
  {
    var words := Words(Join(command, " "));
    r := Reading(Join(command, " "), words, CommandIndex(words));
    WordsMeaning(r.text);
    forall w ensures IsAssignment(w) <==> Assigns(w) { AssignsMeaning(w); }
  }

  lemma SignMeaning(text: string)
    ensures HasSignificant(text) <==> HoldsSign(text)
  {
    forall c: char ensures IsShellSignificant(c) <==> c in SIGNS || c < ' ' || c == '\U{007F}' { SignChar(c); }
  }

  lemma SignChar(c: char)
    ensures IsShellSignificant(c) <==> c in SIGNS || c < ' ' || c == '\U{007F}'
  {}

  function Concat(ws: seq<string>): string {
    if ws == [] then "" else ws[0] + Concat(ws[1..])
  }

  lemma {:induction false} SqueezedJoin(a: string, b: string)
    ensures Squeezed(a + b) == Squeezed(a) + Squeezed(b)
    decreases |a|
  {
    if a == "" {
      assert a + b == b;
    } else {
      assert (a + b)[1..] == a[1..] + b;
      SqueezedJoin(a[1..], b);
      Associate(if IsWhitespace(a[0]) then "" else [a[0]], Squeezed(a[1..]), Squeezed(b));
    }
  }

  lemma {:induction false} SqueezedBlank(s: string)
    requires IsBlank(s)
    ensures Squeezed(s) == ""
  {
    if s != "" {
      assert IsWhitespace(s[0]) && forall i :: 0 <= i < |s| - 1 ==> s[1..][i] == s[i + 1];
      SqueezedBlank(s[1..]);
    }
  }

  lemma {:induction false} SqueezedWord(s: string)
    requires NoSpace(s)
    ensures Squeezed(s) == s == WithoutSpaces(s)
  {
    if s != "" {
      assert !IsWhitespace(s[0]) && forall i :: 0 <= i < |s| - 1 ==> s[1..][i] == s[i + 1];
      SqueezedWord(s[1..]);
    }
  }

  lemma {:induction false} WithoutSpacesJoin(a: string, b: string)
    ensures WithoutSpaces(a + b) == WithoutSpaces(a) + WithoutSpaces(b)
    decreases |a|
  {
    if a == "" {
      assert a + b == b;
    } else {
      assert (a + b)[1..] == a[1..] + b;
      WithoutSpacesJoin(a[1..], b);
      Associate(if a[0] == ' ' then "" else [a[0]], WithoutSpaces(a[1..]), WithoutSpaces(b));
    }
  }

  lemma {:induction false} SqueezedIsWords(s: string, ws: seq<string>)
    requires SplitsInto(s, ws)
    ensures Squeezed(s) == Concat(ws) && forall i :: 0 <= i < |ws| ==> NoSpace(ws[i])
    decreases |ws|
  {
    if ws == [] {
      SqueezedBlank(s);
    } else {
      var i: nat, j: nat :| FirstWord(s, i, j) && s[i..j] == ws[0] && SplitsInto(s[j..], ws[1..]);
      SqueezedFirst(s, i, j);
      SqueezedIsWords(s[j..], ws[1..]);
    }
  }

  lemma SqueezedFirst(s: string, i: nat, j: nat)
    requires FirstWord(s, i, j)
    ensures Squeezed(s) == s[i..j] + Squeezed(s[j..])
  {
    assert s == s[..i] + (s[i..j] + s[j..]);
    SqueezedJoin(s[..i], s[i..j] + s[j..]);
    SqueezedJoin(s[i..j], s[j..]);
    SqueezedBlank(s[..i]);
    SqueezedWord(s[i..j]);
  }

  lemma {:induction false} SpacesOnlyJoin(ws: seq<string>)
    requires forall i :: 0 <= i < |ws| ==> NoSpace(ws[i])
    ensures WithoutSpaces(Join(ws, " ")) == Concat(ws)
  {
    if ws != [] {
      SqueezedWord(ws[0]);
      if |ws| == 1 {
        assert ws[0] + Concat(ws[1..]) == ws[0];
      } else {
        SpacesOnlyJoin(ws[1..]);
        WithoutSpacesJoin(ws[0] + " ", Join(ws[1..], " "));
        WithoutSpacesJoin(ws[0], " ");
        assert WithoutSpaces(" ") == "" && ws[0] + "" == ws[0];
      }
    }
  }

  /** The text without its blanks is what the fork bomb is looked for in. */
  lemma SqueezedMeaning(r: Reading, command: seq<string>)
    requires Reads(command, r)
    ensures WithoutSpaces(Join(r.words, " ")) == Squeezed(r.text)
  {
    SqueezedIsWords(r.text, r.words);
    SpacesOnlyJoin(r.words);
  }

  /** What the parse of a command holds, in terms of its text. */
  ghost predicate Holds(c: ShellCommand, r: Reading, cwd: Option<string>, t: Tables) {
    && r.words != [] && c.words == r.words && c.head == NameAt(r.words, r.at)
    && c.rest == (if r.at < |r.words| then r.words[r.at + 1..] else [])
    && (Chains(c) <==> ChainsText(r, t))
    && (c.hasRedirect <==> '>' in r.text)
    && (c.isForkBomb <==> Contains(Squeezed(r.text), ":(){:|:&};:"))
    && c.pathHaystack == PathHaystack(r.words, cwd)
    && |c.bases| == |r.words| && forall i :: 0 <= i < |r.words| ==> c.bases[i] == Base(r.words[i])
  }

  lemma ParseOnText(command: seq<string>, cwd: Option<string>, r: Reading, t: Tables)
    requires Reads(command, r) && r.words != []
    ensures Holds(Parsed(command, cwd, t.introducers), r, cwd, t)
  {
    ReadingIsParse(command, r);
    SqueezedMeaning(r, command);
    ChainsOnText(command, cwd, r, t);
    assert Base("") == "";
  }

  lemma ChainsOnText(command: seq<string>, cwd: Option<string>, r: Reading, t: Tables)
    requires Reads(command, r) && r.words != []
    ensures Chains(Parsed(command, cwd, t.introducers)) <==> ChainsText(r, t)
  {
    ReadingIsParse(command, r);
    SignMeaning(r.text);
    assert Base("") == "";
    assert r.at > 0 <==> Assigns(r.words[0]);
    forall w: string, c: char ensures StartsWith(w, [c]) <==> w != "" && w[0] == c {}
  }

  lemma LaterMeaning(r: Reading, rest: seq<string>, s: set<string>)
    requires rest == if r.at < |r.words| then r.words[r.at + 1..] else []
    ensures AnyWord(rest, s) <==> LaterIn(r.words, r.at, s)
  {
    if i :| 0 <= i < |rest| && rest[i] in s { assert r.words[r.at + 1 + i] in s; }
    if i :| r.at < i < |r.words| && r.words[i] in s { assert rest[i - r.at - 1] in s; }
  }

  lemma CodeArgMeaning(w: string, t: Tables)
    ensures IsCodeArg(w, t) <==> CarriesCode(w, t)
  {}

  lemma LaterCode(r: Reading, rest: seq<string>, t: Tables)
    requires rest == if r.at < |r.words| then r.words[r.at + 1..] else []
    ensures (exists i :: 0 <= i < |rest| && IsCodeArg(rest[i], t))
       <==> (exists i :: r.at < i < |r.words| && CarriesCode(r.words[i], t))
  {
    forall w: string ensures IsCodeArg(w, t) <==> CarriesCode(w, t) { CodeArgMeaning(w, t); }
    if i :| 0 <= i < |rest| && IsCodeArg(rest[i], t) { assert CarriesCode(r.words[r.at + 1 + i], t); }
    if i :| r.at < i < |r.words| && CarriesCode(r.words[i], t) { assert IsCodeArg(rest[i - r.at - 1], t); }
  }

  lemma LaterPath(r: Reading, rest: seq<string>)
    requires rest == if r.at < |r.words| then r.words[r.at + 1..] else []
    ensures (exists i :: 0 <= i < |rest| && IsRelativePath(rest[i]))
       <==> (exists i :: r.at < i < |r.words| && NamesRelative(r.words[i]))
  {
    if i :| 0 <= i < |rest| && IsRelativePath(rest[i]) { assert NamesRelative(r.words[r.at + 1 + i]); }
    if i :| r.at < i < |r.words| && NamesRelative(r.words[i]) { assert IsRelativePath(rest[i - r.at - 1]); }
  }

  lemma BasesMeaning(words: seq<string>, bases: seq<string>, s: set<string>)
    requires |bases| == |words| && forall i :: 0 <= i < |words| ==> bases[i] == Base(words[i])
    ensures AnyWord(bases, s) <==> AnyBase(words, s)
  {
    if i :| 0 <= i < |words| && Base(words[i]) in s { assert bases[i] in s; }
    if i :| 0 <= i < |bases| && bases[i] in s { assert Base(words[i]) in s; }
  }

  lemma SecretOnText(c: ShellCommand, cwd: Option<string>, remote: Option<RemoteContext>, deny: seq<string>,
                     t: Tables, r: Reading)
    requires Holds(c, r, cwd, t)
    ensures Flagged(SecretAccess, c, remote, deny, t) <==> Says(SecretAccess, r, cwd, remote, deny, t)
  {
    BasesMeaning(r.words, c.bases, t.secretTools);
    UnknownPathMeaning(c, cwd, t, r);
  }

  lemma UnknownPathMeaning(c: ShellCommand, cwd: Option<string>, t: Tables, r: Reading)
    requires Holds(c, r, cwd, t)
    ensures UnknownRemotePath(c) <==> UnknownPathText(r)
  {
    LaterPath(r, c.rest);
  }

  lemma CodeOnText(c: ShellCommand, cwd: Option<string>, t: Tables, r: Reading)
    requires Holds(c, r, cwd, t)
    ensures RunsCode(c, t) <==> RunsCodeText(r, t)
  {
    LaterCode(r, c.rest, t);
    LaterMeaning(r, c.rest, t.findExecFlags);
  }

  /** The rule of a reason holds of the parse exactly when the text calls for it. */
  lemma RuleOnText(reason: Reason, c: ShellCommand, cwd: Option<string>, remote: Option<RemoteContext>,
                   deny: seq<string>, t: Tables, r: Reading)
    requires Holds(c, r, cwd, t)
    ensures Flagged(reason, c, remote, deny, t) <==> Says(reason, r, cwd, remote, deny, t)
  {
    match reason {
      case Destructive => BasesMeaning(r.words, c.bases, t.destructive);
      case Network => BasesMeaning(r.words, c.bases, t.network);
      case Privilege => BasesMeaning(r.words, c.bases, t.privilege);
      case PackageMutator => LaterMeaning(r, c.rest, t.packageMutating);
      case SecretAccess => SecretOnText(c, cwd, remote, deny, t, r);
      case CodeExecution => CodeOnText(c, cwd, t, r);
      case _ =>
    }
  }

  /** A verdict carries a reason if and only if there is a word and the text calls for it. */
  ghost predicate VerdictIs(a: Assessment, r: Reading, cwd: Option<string>, remote: Option<RemoteContext>,
                            deny: seq<string>, t: Tables) {
    forall reason :: reason in a.reasons <==> (r.words != [] && Says(reason, r, cwd, remote, deny, t))
  }

  lemma VerdictOnText(command: seq<string>, cwd: Option<string>, remote: Option<RemoteContext>, deny: seq<string>,
                      t: Tables, r: Reading)
    requires Reads(command, r)
    ensures VerdictIs(Classified(command, cwd, remote, deny, t), r, if remote.Some? then remote.value.cwd else cwd,
                      remote, deny, t)
  {
    var at := if remote.Some? then remote.value.cwd else cwd;
    var c := Parsed(command, at, t.introducers);
    ClassifiedMeaning(command, cwd, remote, deny, t);
    ReadingIsParse(command, r);
    if r.words != [] {
      ParseOnText(command, at, r, t);
      forall reason ensures Flagged(reason, c, remote, deny, t) <==> Says(reason, r, at, remote, deny, t) {
        RuleOnText(reason, c, at, remote, deny, t, r);
      }
    }
  }

  /** The level follows from the reasons. */
  lemma LevelOnText(command: seq<string>, cwd: Option<string>, remote: Option<RemoteContext>, deny: seq<string>,
                    t: Tables)
    ensures var a := Classified(command, cwd, remote, deny, t);
      && (a.level == Safe <==> a.reasons == [])
      && (a.level == Dangerous <==>
            (Destructive in a.reasons || Privilege in a.reasons || SecretAccess in a.reasons
             || ForkBomb in a.reasons || CodeExecution in a.reasons))
  {
    var a := Classified(command, cwd, remote, deny, t);
    ClassifiedMeaning(command, cwd, remote, deny, t);
    if r :| r in a.reasons && r.IsDangerous() {
      var i :| 0 <= i < |a.reasons| && a.reasons[i] == r;
      assert a.reasons[i].IsDangerous();
    }
  }

  // --- where sensitive paths are looked for ---

  lemma LowerMiddle(pre: string, mid: string, post: string)
    ensures LowerAll(pre + mid + post)[|pre|..|pre| + |mid|] == LowerAll(mid)
  {}

  lemma LowerContains(pre: string, mid: string, post: string, p: string)
    requires Contains(LowerAll(mid), LowerAll(p))
    ensures Contains(LowerAll(pre + mid + post), LowerAll(p))
  {
    var i :| 0 <= i <= |LowerAll(mid)| && OccursAt(LowerAll(mid), LowerAll(p), i);
    var all, part, low := LowerAll(pre + mid + post), LowerAll(mid), LowerAll(p);
    LowerMiddle(pre, mid, post);
    assert all[|pre| + i..|pre| + i + |low|] == all[|pre|..|pre| + |mid|][i..i + |low|];
    assert OccursAt(all, low, |pre| + i);
  }

  lemma {:induction false} ArgInHaystack(cwd: string, args: seq<string>, i: nat) returns (pre: string, post: string)
    requires i < |args| && !StartsWith(args[i], "-")
    ensures ResolvedArgs(cwd, args) == pre + ResolveAgainst(cwd, args[i]) + post
    decreases i
  {
    ResolvedFront(cwd, args);
    if i == 0 {
      pre, post := " ", ResolvedArgs(cwd, args[1..]);
    } else {
      pre, post := ArgInHaystack(cwd, args[1..], i - 1);
      if !StartsWith(args[0], "-") {
        var first := " " + ResolveAgainst(cwd, args[0]);
        Associate(first, pre + ResolveAgainst(cwd, args[i]), post);
        Associate(first, pre, ResolveAgainst(cwd, args[i]));
        pre := first + pre;
      }
    }
  }

  /** The pattern is in the words of the command, in the directory it runs in, or in a path
      that an argument names from there. */
  predicate Touches(words: seq<string>, cwd: Option<string>, p: string) {
    || Mentions(Join(words, " "), p)
    || (cwd.Some? && !IsBlank(cwd.value) && (Mentions(cwd.value, p) || ArgumentTouches(words, cwd.value, p)))
  }

  predicate ArgumentTouches(words: seq<string>, cwd: string, p: string) {
    exists i :: 1 <= i < |words| && !StartsWith(words[i], "-") && Mentions(ResolveAgainst(cwd, words[i]), p)
  }

  lemma InWords(words: seq<string>, cwd: Option<string>, p: string)
    requires words != [] && Mentions(Join(words, " "), p)
    ensures Mentions(PathHaystack(words, cwd), p)
  {
    var joined := Join(words, " ");
    var rest := if cwd.Some? && !IsBlank(cwd.value) then " " + cwd.value + ResolvedArgs(cwd.value, words[1..]) else "";
    LowerContains("", joined, rest, p);
    assert "" + joined + rest == PathHaystack(words, cwd);
  }

  lemma InDirectory(words: seq<string>, cwd: string, p: string)
    requires words != [] && !IsBlank(cwd) && Mentions(cwd, p)
    ensures Mentions(PathHaystack(words, Some(cwd)), p)
  {
    var joined, args := Join(words, " "), ResolvedArgs(cwd, words[1..]);
    LowerContains(joined + " ", cwd, args, p);
    assert joined + " " + cwd + args == joined + (" " + cwd + args);
  }

  lemma InArgument(words: seq<string>, cwd: string, p: string)
    requires words != [] && !IsBlank(cwd) && ArgumentTouches(words, cwd, p)
    ensures Mentions(PathHaystack(words, Some(cwd)), p)
  {
    var i :| 1 <= i < |words| && !StartsWith(words[i], "-") && Mentions(ResolveAgainst(cwd, words[i]), p);
    var pre, post := NamedInHaystack(words, cwd, i);
    LowerContains(pre, ResolveAgainst(cwd, words[i]), post, p);
  }

  lemma NamedInHaystack(words: seq<string>, cwd: string, i: nat) returns (pre: string, post: string)
    requires 1 <= i < |words| && !IsBlank(cwd) && !StartsWith(words[i], "-")
    ensures PathHaystack(words, Some(cwd)) == pre + ResolveAgainst(cwd, words[i]) + post
  {
    assert words[1..][i - 1] == words[i];
    var before, after := ArgInHaystack(cwd, words[1..], i - 1);
    Regrouped(Join(words, " "), " " + cwd, before, ResolveAgainst(cwd, words[i]), after);
    pre, post := Join(words, " ") + (" " + cwd + before), after;
  }

  lemma Regrouped(joined: string, dir: string, pre: string, named: string, post: string)
    ensures joined + (dir + pre) + named + post == joined + (dir + (pre + named + post))
  {}

  lemma TouchesIsHit(words: seq<string>, cwd: Option<string>, deny: seq<string>, k: nat)
    requires words != [] && k < |deny| && deny[k] != "" && Touches(words, cwd, deny[k])
    ensures NamesSecret(words, cwd, deny)
  {
    if Mentions(Join(words, " "), deny[k]) {
      InWords(words, cwd, deny[k]);
    } else if Mentions(cwd.value, deny[k]) {
      InDirectory(words, cwd.value, deny[k]);
    } else {
      InArgument(words, cwd.value, deny[k]);
    }
  }

  lemma NoSpaceBetween(a: string, b: string, p: string)
    requires ' ' !in p && Mentions(a + " " + b, p)
    ensures Mentions(a, p) || Mentions(b, p)
  {
    var hay, low := LowerAll(a + " " + b), LowerAll(p);
    var i :| 0 <= i <= |hay| && OccursAt(hay, low, i);
    forall j | i <= j < i + |low| ensures hay[j] != ' ' {
      assert p[j - i] in p;
      assert hay[i..i + |low|][j - i] == hay[j] == low[j - i];
    }
    assert hay[|a|] == ' ';
    if i + |low| <= |a| {
      assert LowerAll(a)[i..i + |low|] == low;
      assert OccursAt(LowerAll(a), low, i);
    } else {
      assert LowerAll(b)[i - |a| - 1..i - |a| - 1 + |low|] == low;
      assert OccursAt(LowerAll(b), low, i - |a| - 1);
    }
  }

  lemma {:induction false} InResolved(cwd: string, args: seq<string>, front: string, p: string)
    requires ' ' !in p && Mentions(front + ResolvedArgs(cwd, args), p)
    ensures Mentions(front, p)
         || exists i :: 0 <= i < |args| && !StartsWith(args[i], "-") && Mentions(ResolveAgainst(cwd, args[i]), p)
    decreases |args|
  {
    if args == [] {
      assert front + "" == front;
    } else {
      ResolvedFront(cwd, args);
      var rest := args[1..];
      if StartsWith(args[0], "-") {
        InResolved(cwd, rest, front, p);
      } else {
        var first := ResolveAgainst(cwd, args[0]);
        assert front + ((" " + first) + ResolvedArgs(cwd, rest)) == front + " " + (first + ResolvedArgs(cwd, rest));
        NoSpaceBetween(front, first + ResolvedArgs(cwd, rest), p);
        if !Mentions(front, p) { InResolved(cwd, rest, first, p); }
      }
      if i :| 0 <= i < |rest| && !StartsWith(rest[i], "-") && Mentions(ResolveAgainst(cwd, rest[i]), p) {
        assert args[i + 1] == rest[i];
      }
    }
  }

  /** And no other text is looked at: a pattern without spaces is found exactly in what the
      command touches. */
  lemma FoundIsTouched(words: seq<string>, cwd: Option<string>, p: string)
    requires words != [] && ' ' !in p
    ensures Mentions(PathHaystack(words, cwd), p) <==> Touches(words, cwd, p)
  {
    if Touches(words, cwd, p) {
      if Mentions(Join(words, " "), p) {
        InWords(words, cwd, p);
      } else if Mentions(cwd.value, p) {
        InDirectory(words, cwd.value, p);
      } else {
        InArgument(words, cwd.value, p);
      }
    }
    if Mentions(PathHaystack(words, cwd), p) { FoundInPlace(words, cwd, p); }
  }

  lemma FoundInPlace(words: seq<string>, cwd: Option<string>, p: string)
    requires words != [] && ' ' !in p && Mentions(PathHaystack(words, cwd), p)
    ensures Touches(words, cwd, p)
  {
    var joined := Join(words, " ");
    if cwd.Some? && !IsBlank(cwd.value) {
      var args := words[1..];
      var tail := cwd.value + ResolvedArgs(cwd.value, args);
      assert PathHaystack(words, cwd) == joined + " " + tail;
      NoSpaceBetween(joined, tail, p);
      if !Mentions(joined, p) {
        InResolved(cwd.value, args, cwd.value, p);
        if i :| 0 <= i < |args| && !StartsWith(args[i], "-") && Mentions(ResolveAgainst(cwd.value, args[i]), p) {
          assert words[i + 1] == args[i];
        }
      }
    } else {
      assert joined + "" == joined;
    }
  }

  /** A command that touches a pattern of the deny-set is flagged, letter case aside. */
  lemma SensitivePathIsFlagged(command: seq<string>, cwd: Option<string>, deny: seq<string>, t: Tables, r: Reading,
                               k: nat)
    requires Reads(command, r) && r.words != [] && k < |deny| && deny[k] != "" && Touches(r.words, cwd, deny[k])
    ensures SecretAccess in Classified(command, cwd, None, deny, t).reasons
  {
    TouchesIsHit(r.words, cwd, deny, k);
    VerdictOnText(command, cwd, None, deny, t, r);
    assert Says(SecretAccess, r, cwd, None, deny, t);
  }

  /** What a relative argument names. */
  lemma RelativeArgument(cwd: string, slashes: string, arg: string)
    requires !StartsWith(arg, "/") && !StartsWith(arg, "~")
    requires (cwd != "" ==> cwd[|cwd| - 1] != '/') && forall i :: 0 <= i < |slashes| ==> slashes[i] == '/'
    ensures ResolveAgainst(cwd + slashes, arg) == cwd + "/" + arg
  {
    TrimmedSlashes(cwd, slashes);
  }

  lemma {:induction false} TrimmedSlashes(cwd: string, slashes: string)
    requires (cwd != "" ==> cwd[|cwd| - 1] != '/') && forall i :: 0 <= i < |slashes| ==> slashes[i] == '/'
    ensures TrimSlashes(cwd + slashes) == cwd
    decreases |slashes|
  {
    if slashes == "" {
      assert cwd + slashes == cwd;
    } else {
      var s := cwd + slashes;
      assert s[|s| - 1] == slashes[|slashes| - 1] && s[..|s| - 1] == cwd + slashes[..|slashes| - 1];
      TrimmedSlashes(cwd, slashes[..|slashes| - 1]);
    }
  }

  // --- what a command that calls for nothing looks like ---

  lemma QuietText(r: Reading, cwd: Option<string>, deny: seq<string>, t: Tables)
    requires SplitsInto(r.text, r.words) && CommandAt(r.words, r.at) && r.words != []
    requires !Says(ShellChaining, r, cwd, None, deny, t) && !Says(RedirectOverwrite, r, cwd, None, deny, t)
    ensures forall i :: 0 <= i < |r.text| ==>
      r.text[i] !in ";&|`$(){}<>*?[]!'\"\\" && ' ' <= r.text[i] && r.text[i] != '\U{007F}'
    ensures !Assigns(r.words[0]) && !("=" <= r.words[0]) && !("^" <= r.words[0])
    ensures forall i :: 0 <= i < |r.words| ==> !("~" <= r.words[i])
    ensures Base(r.words[0]) !in t.introducers
  {
    WordsAreWords(r.text, r.words);
    NoSigns(r.text);
  }

  lemma NoSigns(text: string)
    requires !HoldsSign(text) && '>' !in text
    ensures forall i :: 0 <= i < |text| ==>
      text[i] !in ";&|`$(){}<>*?[]!'\"\\" && ' ' <= text[i] && text[i] != '\U{007F}'
  {}

  lemma PlainWords(r: Reading, cwd: Option<string>, deny: seq<string>, t: Tables)
    requires r.words != []
    requires !Says(Destructive, r, cwd, None, deny, t) && !Says(Privilege, r, cwd, None, deny, t)
    requires !Says(SecretAccess, r, cwd, None, deny, t)
    ensures forall i :: 0 <= i < |r.words| ==>
      var base := Base(r.words[i]);
      base !in t.destructive && base !in t.privilege && base !in t.secretTools
    ensures forall k :: 0 <= k < |deny| && deny[k] != "" ==> !Touches(r.words, cwd, deny[k])
  {
    forall k | 0 <= k < |deny| && deny[k] != "" ensures !Touches(r.words, cwd, deny[k]) {
      if Touches(r.words, cwd, deny[k]) { TouchesIsHit(r.words, cwd, deny, k); }
    }
  }

  // --- what runs without asking ---

  /** The reasons that stop every tier. */
  predicate AlwaysStops(reason: Reason) {
    match reason
    case Destructive => true
    case Privilege => true
    case SecretAccess => true
    case ForkBomb => true
    case CodeExecution => true
    case ShellChaining => true
    case RedirectOverwrite => true
    case RemoteExecution => true
    case _ => false
  }

  /** The text calls for nothing that stops the tier: at the widest one that is one of these
      reasons, at the one below any reason at all. */
  ghost predicate NothingStops(m: Mode, r: Reading, cwd: Option<string>, remote: Option<RemoteContext>,
                               deny: seq<string>, t: Tables)
    requires r.words != []
  {
    forall reason :: m != AutoRunInSession || AlwaysStops(reason) ==> !Says(reason, r, cwd, remote, deny, t)
  }

  /** A command runs unasked exactly at a tier above ask-always, and when its text is blank or
      calls for nothing that stops the tier. */
  lemma RunsUnaskedOnText(m: Mode, command: seq<string>, x: Context, r: Reading)
    requires Reads(command, r)
    ensures DecideCommand(m, command, x).AutoApprove?
      <==> m != AskAlways
           && (r.words == [] || NothingStops(m, r, if x.remote.Some? then x.remote.value.cwd else x.cwd, x.remote,
                                             x.deny, x.tables))
  {
    var a := Classified(command, x.cwd, x.remote, x.deny, x.tables);
    VerdictOnText(command, x.cwd, x.remote, x.deny, x.tables, r);
    ClassifiedMeaning(command, x.cwd, x.remote, x.deny, x.tables);
    if m != AskAlways {
      AutoRunsByReason(m, a);
      StoppedOnText(m, a, r, if x.remote.Some? then x.remote.value.cwd else x.cwd, x.remote, x.deny, x.tables);
    }
  }

  lemma StoppedOnText(m: Mode, a: Assessment, r: Reading, cwd: Option<string>, remote: Option<RemoteContext>,
                      deny: seq<string>, t: Tables)
    requires m != AskAlways && VerdictIs(a, r, cwd, remote, deny, t)
    ensures (forall reason :: reason in a.reasons ==> !Stops(m, reason))
        <==> r.words == [] || NothingStops(m, r, cwd, remote, deny, t)
  {
    if r.words != [] {
      forall reason ensures reason in a.reasons <==> Says(reason, r, cwd, remote, deny, t) {}
      forall reason ensures Stops(m, reason) <==> (m != AutoRunInSession || AlwaysStops(reason)) {}
    }
  }
}
