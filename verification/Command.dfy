/**
 The parse of a proposed command that every risk rule reads. The argv is read as a real
 shell would see it: joined by spaces and split again on whitespace.
*/
module Command {
  import opened Text

  datatype ShellCommand = ShellCommand(
    words: seq<string>,
    rawJoined: string,
    bases: seq<string>,
    head: string,
    rest: seq<string>,
    hasAssignmentPrefix: bool,
    hasEqualsExpansion: bool,
    isIntroducer: bool,
    hasShellMetachar: bool,
    hasRedirect: bool,
    hasLeadingTilde: bool,
    hasHistoryExpansion: bool,
    isForkBomb: bool,
    pathHaystack: string)

  const NoCommand :=
    ShellCommand([], "", [], "", [], false, false, false, false, false, false, false, false, "")

  const SHELL_METACHARS: set<char> :=
    {';', '&', '|', '`', '$', '(', ')', '{', '}', '<', '*', '?', '[', ']', '!'}

  const FORK_BOMB := ":(){:|:&};:"

  predicate IsControl(c: char) {
    c < ' ' || c == '\U{007F}'
  }

  predicate IsShellSignificant(c: char) {
    c in SHELL_METACHARS || c == '\'' || c == '\"' || c == '\\' || IsControl(c)
  }

  predicate IsNameChar(c: char) {
    '0' <= c <= '9' || 'a' <= c <= 'z' || 'A' <= c <= 'Z' || c == '_'
  }

  /** The assignment grammar: one or more name chars, an optional `+`, then `=`. */
  predicate IsAssignment(tok: string) {
    exists n :: 0 < n <= |tok| && AssignmentNameEnds(tok, n)
  }

  predicate AssignmentNameEnds(tok: string, n: nat)
    requires n <= |tok|
  {
    && (forall i :: 0 <= i < n ==> IsNameChar(tok[i]))
    && (StartsWith(tok[n..], "=") || StartsWith(tok[n..], "+="))
  }

  lemma NameEnd(tok: string, m: nat, n: nat)
    requires m <= |tok| && AssignmentNameEnds(tok, m)
    requires n <= |tok| && (forall i :: 0 <= i < n ==> IsNameChar(tok[i])) && (n < |tok| ==> !IsNameChar(tok[n]))
    ensures m == n
  {
    assert tok[m] == tok[m..][0];
  }

  method IsAssignmentPrefix(tok: string) returns (r: bool)
    ensures r == IsAssignment(tok)
  {
    var i := 0;
    while i < |tok| && IsNameChar(tok[i])
      invariant i <= |tok|
      invariant forall k :: 0 <= k < i ==> IsNameChar(tok[k])
    {
      i := i + 1;
    }
    if i == 0 {
      return false;
    }
    // A name ends where the name chars do: neither `+` nor `=` is one.
    ghost var n := i;
    forall m | 0 < m <= |tok| && AssignmentNameEnds(tok, m) ensures m == n {
      NameEnd(tok, m, n);
    }
    if i < |tok| && tok[i] == '+' {
      i := i + 1;
    }
    r := i < |tok| && tok[i] == '=';
    assert r <==> AssignmentNameEnds(tok, n);
  }

  /** The first word that is not an assignment, or the number of words. */
  function CommandIndex(words: seq<string>): (r: nat)
    ensures r <= |words|
    ensures forall i :: 0 <= i < r ==> IsAssignment(words[i])
    ensures r < |words| ==> !IsAssignment(words[r])
  {
    if words == [] || !IsAssignment(words[0]) then 0 else 1 + CommandIndex(words[1..])
  }

  // --- the bare command name ---

  predicate IsNoise(c: char) {
    IsControl(c) || c == '\'' || c == '\"'
  }

  function Quiet(s: string): (r: string)
    ensures forall i :: 0 <= i < |r| ==> !IsNoise(r[i])
  {
    if s == "" then "" else if IsNoise(s[0]) then Quiet(s[1..]) else [s[0]] + Quiet(s[1..])
  }

  /** Only the noise goes, wherever it stands. */
  lemma {:induction false} QuietMeaning(s: string)
    ensures (forall i :: 0 <= i < |s| ==> !IsNoise(s[i])) ==> Quiet(s) == s
    ensures forall c :: !IsNoise(c) ==> multiset(Quiet(s))[c] == multiset(s)[c]
  {
    if s != "" {
      QuietMeaning(s[1..]);
      assert s == [s[0]] + s[1..];
    }
  }

  lemma {:induction false} QuietJoin(a: string, b: string)
    ensures Quiet(a + b) == Quiet(a) + Quiet(b)
    decreases |a|
  {
    if a == "" {
      assert a + b == b;
    } else {
      assert (a + b)[1..] == a[1..] + b;
      QuietJoin(a[1..], b);
      Associate(if IsNoise(a[0]) then "" else [a[0]], Quiet(a[1..]), Quiet(b));
    }
  }

  function DropOne(s: string, c: char): string {
    if s != "" && s[0] == c then s[1..] else s
  }

  function AfterLastSlash(s: string): string {
    if '/' !in s then s
    else if s[0] == '/' && '/' !in s[1..] then s[1..]
    else AfterLastSlash(s[1..])
  }

  function Base(token: string): string {
    AfterLastSlash(DropOne(DropOne(Quiet(token), '\\'), '='))
  }

  method CommandBase(token: string) returns (r: string)
    ensures r == Base(token)
  {
    var s := Quiet(token);
    if s != "" && s[0] == '\\' {
      s := s[1..];
    }
    if s != "" && s[0] == '=' {
      s := s[1..];
    }
    var i := LastSlash(s);
    r := s[i..];
  }

  /** `rfind('/')` as the position just past it, `0` when there is none. */
  method LastSlash(s: string) returns (i: nat)
    ensures i <= |s| && s[i..] == AfterLastSlash(s)
  {
    i := |s|;
    while i > 0 && s[i - 1] != '/'
      invariant 0 <= i <= |s|
      invariant '/' !in s[i..]
    {
      assert s[i - 1..] == [s[i - 1]] + s[i..];
      i := i - 1;
    }
    LastSlashAt(s, i);
  }

  lemma {:induction false} LastSlashAt(s: string, i: nat)
    requires i <= |s| && '/' !in s[i..] && (i > 0 ==> s[i - 1] == '/')
    ensures AfterLastSlash(s) == s[i..]
    decreases |s|
  {
    if i == 0 {
      assert s[0..] == s;
    } else if i == 1 {
      assert s[0] in s;
    } else {
      assert s[1..][i - 2] == '/' && s[1..][i - 1..] == s[i..];
      assert s[i - 1] in s && s[i - 1] in s[1..];
      LastSlashAt(s[1..], i - 1);
    }
  }

  predicate IsPlainName(w: string) {
    '/' !in w && (w != "" ==> w[0] != '\\' && w[0] != '=')
  }

  lemma DropBeforeSlash(dir: string, w: string, c: char) returns (dir': string)
    requires c != '/'
    ensures DropOne(dir + "/" + w, c) == dir' + "/" + w
  {
    if dir != "" && dir[0] == c {
      dir' := dir[1..];
      assert (dir + "/" + w)[1..] == dir' + "/" + w;
    } else {
      dir' := dir;
      assert (dir + "/" + w)[0] == if dir == "" then '/' else dir[0];
    }
  }

  /** Quotes and control chars anywhere and any directory in front leave the base of a
      command at its plain name. */
  lemma BaseOfPath(token: string, dir: string, w: string)
    requires IsPlainName(w) && Quiet(token) == dir + "/" + w
    ensures Base(token) == w
  {
    var dir1 := DropBeforeSlash(dir, w, '\\');
    var dir2 := DropBeforeSlash(dir1, w, '=');
    var s := dir2 + "/" + w;
    assert s[|dir2| + 1..] == w;
    LastSlashAt(s, |dir2| + 1);
  }

  /** So does a leading `\`, a leading `=`, or the two in that order. */
  lemma BaseOfMarked(token: string, alias: bool, equals: bool, w: string)
    requires IsPlainName(w)
    requires Quiet(token) == (if alias then "\\" else "") + ((if equals then "=" else "") + w)
    ensures Base(token) == w
  {
    var named := (if equals then "=" else "") + w;
    assert !equals ==> named == w;
    assert DropOne(Quiet(token), '\\') == named by {
      if alias { assert Quiet(token)[1..] == named; } else { assert Quiet(token) == named; }
    }
    assert DropOne(named, '=') == w;
    assert w[0..] == w;
    LastSlashAt(w, 0);
  }

  // --- the whole parse ---

  function TrimSlashes(s: string): string {
    if s != "" && s[|s| - 1] == '/' then TrimSlashes(s[..|s| - 1]) else s
  }

  function ResolveAgainst(cwd: string, arg: string): string {
    if StartsWith(arg, "/") || StartsWith(arg, "~") then arg else TrimSlashes(cwd) + "/" + arg
  }

  /** Each argument that is not a flag, as the path it names from `cwd`. */
  function ResolvedArgs(cwd: string, args: seq<string>): string {
    if args == [] then ""
    else (if StartsWith(args[0], "-") then "" else " " + ResolveAgainst(cwd, args[0])) + ResolvedArgs(cwd, args[1..])
  }

  function PathHaystack(words: seq<string>, cwd: Option<string>): string
    requires words != []
  {
    Join(words, " ")
    + (if cwd.Some? && !IsBlank(cwd.value) then " " + cwd.value + ResolvedArgs(cwd.value, words[1..]) else "")
  }

  function AllWords(command: seq<string>): seq<string> {
    if command == [] then [] else Words(command[0]) + AllWords(command[1..])
  }

  function Bases(words: seq<string>): (r: seq<string>)
    ensures |r| == |words|
  {
    seq(|words|, i requires 0 <= i < |words| => Base(words[i]))
  }

  function WithoutSpaces(s: string): string {
    if s == "" then "" else if s[0] == ' ' then WithoutSpaces(s[1..]) else [s[0]] + WithoutSpaces(s[1..])
  }

  predicate HasSignificant(s: string) {
    exists i :: 0 <= i < |s| && IsShellSignificant(s[i])
  }

  predicate HasTilde(words: seq<string>) {
    exists i :: 0 <= i < |words| && StartsWith(words[i], "~")
  }

  function FromWords(words: seq<string>, rawJoined: string, cwd: Option<string>, introducers: set<string>)
    : ShellCommand
  {
    if words == [] then NoCommand
    else
      var at := CommandIndex(words);
      var headToken := if at < |words| then words[at] else "";
      var head := Base(headToken);
      ShellCommand(
        words, rawJoined, Bases(words), head,
        if at < |words| then words[at + 1..] else [],
        at > 0,
        StartsWith(headToken, "="),
        head in introducers,
        HasSignificant(rawJoined),
        '>' in rawJoined,
        HasTilde(words),
        StartsWith(words[0], "^"),
        Contains(WithoutSpaces(Join(words, " ")), FORK_BOMB),
        PathHaystack(words, cwd))
  }

  /** The words that introduce another command are a table of the program, left open here. */
  function Parsed(command: seq<string>, cwd: Option<string>, introducers: set<string>): ShellCommand {
    FromWords(AllWords(command), Join(command, " "), cwd, introducers)
  }

  method SplitArgv(command: seq<string>) returns (words: seq<string>)
    ensures words == AllWords(command)
  {
    words := [];
    for i := 0 to |command|
      invariant words + AllWords(command[i..]) == AllWords(command)
    {
      assert command[i..][1..] == command[i + 1..];
      words := words + Words(command[i]);
    }
    assert command[|command|..] == [];
  }

  method FindCommand(words: seq<string>) returns (at: nat)
    ensures at == CommandIndex(words)
  {
    at := 0;
    while at < |words|
      invariant at <= |words|
      invariant CommandIndex(words) == at + CommandIndex(words[at..])
    {
      var isPrefix := IsAssignmentPrefix(words[at]);
      if !isPrefix { return; }
      assert words[at..][1..] == words[at + 1..];
      at := at + 1;
    }
  }

  lemma ResolvedFront(cwd: string, args: seq<string>)
    requires args != []
    ensures var rest := ResolvedArgs(cwd, args[1..]);
      ResolvedArgs(cwd, args)
      == if StartsWith(args[0], "-") then rest else (" " + ResolveAgainst(cwd, args[0])) + rest
  {
    assert "" + ResolvedArgs(cwd, args[1..]) == ResolvedArgs(cwd, args[1..]);
  }

  method BuildHaystack(words: seq<string>, cwd: Option<string>) returns (r: string)
    requires words != []
    ensures r == PathHaystack(words, cwd)
  {
    r := Join(words, " ");
    if cwd.Some? && !IsBlank(cwd.value) {
      r := r + (" " + cwd.value);
      ghost var start := r;
      ghost var args := ResolvedArgs(cwd.value, words[1..]);
      for i := 1 to |words|
        invariant r + ResolvedArgs(cwd.value, words[i..]) == start + args
      {
        ResolvedFront(cwd.value, words[i..]);
        assert words[i..][1..] == words[i + 1..];
        if !StartsWith(words[i], "-") {
          Associate(r, " " + ResolveAgainst(cwd.value, words[i]), ResolvedArgs(cwd.value, words[i + 1..]));
          r := r + (" " + ResolveAgainst(cwd.value, words[i]));
        }
      }
      assert words[|words|..] == [];
      assert r == start + args;
      Associate(Join(words, " "), " " + cwd.value, args);
    }
  }

  method BuildBases(words: seq<string>) returns (r: seq<string>)
    ensures r == Bases(words)
  {
    r := [];
    for i := 0 to |words|
      invariant r == Bases(words)[..i]
    {
      var b := CommandBase(words[i]);
      r := r + [b];
    }
  }

  /** Split into words, find the command among them, and compute each field in a pass over them. */
  method Parse(command: seq<string>, cwd: Option<string>, introducers: set<string>) returns (r: ShellCommand)
    ensures r == Parsed(command, cwd, introducers)
  {
    var words := SplitArgv(command);
    if words == [] {
      return NoCommand;
    }
    var raw := Join(command, " ");
    var at := FindCommand(words);
    var headToken := if at < |words| then words[at] else "";
    var head := CommandBase(headToken);
    var haystack := BuildHaystack(words, cwd);
    var bases := BuildBases(words);
    var bomb := Contains(WithoutSpaces(Join(words, " ")), FORK_BOMB);
    r := ShellCommand(
      words, raw, bases, head, if at < |words| then words[at + 1..] else [],
      at > 0, StartsWith(headToken, "="), head in introducers,
      HasSignificant(raw), '>' in raw, HasTilde(words), StartsWith(words[0], "^"),
      bomb, haystack);
  }

  lemma {:induction false} WordsOfArgv(command: seq<string>)
    ensures AllWords(command) == Words(Join(command, " "))
  {
    if |command| == 1 {
      assert AllWords(command) == Words(command[0]);
    } else if |command| > 1 {
      WordsOfArgv(command[1..]);
      WordsOfJoin(command[0], ' ', Join(command[1..], " "));
    }
  }

  /** How a command is cut into argv elements changes nothing: the parse is that of the
      joined string. */
  lemma ParseDependsOnJoin(command: seq<string>, cwd: Option<string>, introducers: set<string>)
    ensures Parsed(command, cwd, introducers) == Parsed([Join(command, " ")], cwd, introducers)
  {
    WordsOfArgv(command);
    WordsOfArgv([Join(command, " ")]);
  }
}
