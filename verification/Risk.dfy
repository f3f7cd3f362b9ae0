/** The deterministic risk gate. */
module Risk {
  import opened Text
  import opened Command

  // One command, or a multi-line buffer of commands, is classified against word tables and
  // the shared deny-set. The tables are parameters, so what is proved holds for any contents.

  datatype Level = Safe | Caution | Dangerous {
    function Rank(): nat {
      match this case Safe => 0 case Caution => 1 case Dangerous => 2
    }
  }

  datatype Reason =
    | Destructive | Network | Privilege | PackageMutator | SecretAccess | RedirectOverwrite
    | ShellChaining | ForkBomb | CodeExecution | FileWrite | RemoteExecution | McpTool
  {
    predicate IsDangerous() {
      Destructive? || Privilege? || SecretAccess? || ForkBomb? || CodeExecution?
    }

    predicate IsShellActive() {
      ShellChaining? || RedirectOverwrite? || ForkBomb? || RemoteExecution?
    }
  }

  datatype Assessment = Assessment(level: Level, reasons: seq<Reason>) {
    predicate IsShellActive() {
      exists i :: 0 <= i < |reasons| && reasons[i].IsShellActive()
    }
  }

  datatype RemoteContext = RemoteContext(host: string, cwd: Option<string>)

  datatype Tables = Tables(
    destructive: set<string>, network: set<string>, privilege: set<string>, secretTools: set<string>,
    envDump: set<string>, codeInterpreters: set<string>, codeFlags: set<string>, inlineCodePrefixes: set<string>,
    execTools: set<string>, findExecFlags: set<string>, packageManagers: set<string>,
    packageMutating: set<string>, writeTools: set<string>, introducers: set<string>)

  // --- the reason accumulator ---

  predicate NoRepeats(rs: seq<Reason>) {
    forall i, j :: 0 <= i < j < |rs| ==> rs[i] != rs[j]
  }

  function Add(rs: seq<Reason>, r: Reason): (out: seq<Reason>)
    ensures forall q :: q in out <==> q in rs || q == r
    ensures NoRepeats(rs) ==> NoRepeats(out)
  {
    if r in rs then rs else rs + [r]
  }

  function AddIf(rs: seq<Reason>, c: bool, r: Reason): (out: seq<Reason>)
    ensures forall q :: q in out <==> q in rs || (c && q == r)
    ensures NoRepeats(rs) ==> NoRepeats(out)
  {
    if c then Add(rs, r) else rs
  }

  function AddAll(rs: seq<Reason>, more: seq<Reason>): (out: seq<Reason>)
    ensures forall q :: q in out <==> q in rs || q in more
    ensures NoRepeats(rs) ==> NoRepeats(out)
    decreases |more|
  {
    if more == [] then rs else AddAll(Add(rs, more[0]), more[1..])
  }

  predicate AnyDangerous(rs: seq<Reason>) {
    exists i :: 0 <= i < |rs| && rs[i].IsDangerous()
  }

  function LevelOf(rs: seq<Reason>): Level {
    if AnyDangerous(rs) then Dangerous else if rs == [] then Safe else Caution
  }

  // --- the rules, one per reason ---

  predicate AnyWord(ws: seq<string>, s: set<string>) {
    exists i :: 0 <= i < |ws| && ws[i] in s
  }

  predicate IsRelativePath(w: string) {
    !StartsWith(w, "-") && !StartsWith(w, "/") && !StartsWith(w, "~")
  }

  predicate UnknownRemotePath(c: ShellCommand) {
    || (exists i :: 0 <= i < |c.rest| && IsRelativePath(c.rest[i]))
    || (c.words != [] && '/' in c.words[0] && !StartsWith(c.words[0], "/") && !StartsWith(c.words[0], "~"))
  }

  predicate Chains(c: ShellCommand) {
    || c.hasAssignmentPrefix || c.hasEqualsExpansion || c.isIntroducer
    || c.hasShellMetachar || c.hasLeadingTilde || c.hasHistoryExpansion
  }

  predicate IsCodeArg(w: string, t: Tables) {
    !StartsWith(w, "-") || w in t.codeFlags || exists p :: p in t.inlineCodePrefixes && StartsWith(w, p)
  }

  predicate RunsCode(c: ShellCommand, t: Tables) {
    || (c.head in t.codeInterpreters && exists i :: 0 <= i < |c.rest| && IsCodeArg(c.rest[i], t))
    || c.head in t.execTools
    || (c.head == "find" && AnyWord(c.rest, t.findExecFlags))
  }

  predicate OpensUp(c: ShellCommand) {
    c.head == "chmod" && exists i :: 0 <= i < |c.words| && Contains(c.words[i], "777")
  }

  predicate HitsDenySet(haystack: string, deny: seq<string>) {
    exists i :: 0 <= i < |deny| && deny[i] != "" && Contains(LowerAll(haystack), LowerAll(deny[i]))
  }

  /** Exactly when a command carries a reason. */
  predicate Flagged(r: Reason, c: ShellCommand, remote: Option<RemoteContext>, deny: seq<string>, t: Tables) {
    match r
    case Destructive => AnyWord(c.bases, t.destructive)
    case Network => AnyWord(c.bases, t.network)
    case Privilege => AnyWord(c.bases, t.privilege) || OpensUp(c)
    case PackageMutator => c.head in t.packageManagers && AnyWord(c.rest, t.packageMutating)
    case SecretAccess =>
      || (remote.Some? && remote.value.cwd.None? && UnknownRemotePath(c))
      || AnyWord(c.bases, t.secretTools)
      || c.head in t.envDump
      || HitsDenySet(c.pathHaystack, deny)
    case RedirectOverwrite => c.hasRedirect
    case ShellChaining => Chains(c)
    case ForkBomb => c.isForkBomb
    case CodeExecution => RunsCode(c, t)
    case FileWrite => c.head in t.writeTools
    case RemoteExecution => remote.Some?
    case McpTool => false
  }

  function BaseReasons(rs: seq<Reason>, b: string, t: Tables): seq<Reason> {
    AddIf(AddIf(AddIf(AddIf(rs, b in t.destructive, Destructive), b in t.network, Network),
                b in t.privilege, Privilege), b in t.secretTools, SecretAccess)
  }

  function AllBaseReasons(rs: seq<Reason>, bases: seq<string>, t: Tables): seq<Reason>
    decreases |bases|
  {
    if bases == [] then rs else AllBaseReasons(BaseReasons(rs, bases[0], t), bases[1..], t)
  }

  function GrammarReasons(c: ShellCommand, remote: Option<RemoteContext>): seq<Reason> {
    var rs := AddIf([], remote.Some?, RemoteExecution);
    var rs := AddIf(rs, remote.Some? && remote.value.cwd.None? && UnknownRemotePath(c), SecretAccess);
    var rs := AddIf(rs, Chains(c), ShellChaining);
    var rs := AddIf(rs, c.hasRedirect, RedirectOverwrite);
    AddIf(rs, c.isForkBomb, ForkBomb)
  }

  function HeadReasons(rs: seq<Reason>, c: ShellCommand, deny: seq<string>, t: Tables): seq<Reason> {
    var rs := AddIf(rs, RunsCode(c, t), CodeExecution);
    var rs := AddIf(rs, c.head in t.envDump, SecretAccess);
    var rs := AddIf(rs, c.head in t.packageManagers && AnyWord(c.rest, t.packageMutating), PackageMutator);
    var rs := AddIf(rs, OpensUp(c), Privilege);
    var rs := AddIf(rs, c.head in t.writeTools, FileWrite);
    AddIf(rs, HitsDenySet(c.pathHaystack, deny), SecretAccess)
  }

  function Reasons(c: ShellCommand, remote: Option<RemoteContext>, deny: seq<string>, t: Tables): seq<Reason> {
    HeadReasons(AllBaseReasons(GrammarReasons(c, remote), c.bases, t), c, deny, t)
  }

  function EffectiveCwd(cwd: Option<string>, remote: Option<RemoteContext>): Option<string> {
    if remote.Some? then remote.value.cwd else cwd
  }

  function Classified(command: seq<string>, cwd: Option<string>, remote: Option<RemoteContext>,
                      deny: seq<string>, t: Tables): Assessment {
    var c := Parsed(command, EffectiveCwd(cwd, remote), t.introducers);
    if c.words == [] then Assessment(Safe, [])
    else
      var rs := Reasons(c, remote, deny, t);
      Assessment(LevelOf(rs), rs)
  }

  /** Parse once, then let each rule in turn push its reason. */
  method Classify(command: seq<string>, cwd: Option<string>, remote: Option<RemoteContext>,
                  deny: seq<string>, t: Tables) returns (a: Assessment)
    ensures a == Classified(command, cwd, remote, deny, t)
  {
    var c := Parse(command, EffectiveCwd(cwd, remote), t.introducers);
    if c.words == [] {
      return Assessment(Safe, []);
    }
    var rs := GrammarReasons(c, remote);
    ghost var start := rs;
    for i := 0 to |c.bases|
      invariant AllBaseReasons(rs, c.bases[i..], t) == AllBaseReasons(start, c.bases, t)
    {
      assert c.bases[i..][1..] == c.bases[i + 1..];
      rs := BaseReasons(rs, c.bases[i], t);
    }
    assert c.bases[|c.bases|..] == [];
    rs := HeadReasons(rs, c, deny, t);
    a := Assessment(LevelOf(rs), rs);
  }

  lemma {:induction false} BaseReasonsMeaning(rs: seq<Reason>, bases: seq<string>, t: Tables)
    ensures forall q :: q in AllBaseReasons(rs, bases, t) <==>
      || q in rs
      || (q == Destructive && AnyWord(bases, t.destructive))
      || (q == Network && AnyWord(bases, t.network))
      || (q == Privilege && AnyWord(bases, t.privilege))
      || (q == SecretAccess && AnyWord(bases, t.secretTools))
    ensures NoRepeats(rs) ==> NoRepeats(AllBaseReasons(rs, bases, t))
    decreases |bases|
  {
    if bases != [] {
      BaseReasonsMeaning(BaseReasons(rs, bases[0], t), bases[1..], t);
      AnyWordSplit(bases, t.destructive);
      AnyWordSplit(bases, t.network);
      AnyWordSplit(bases, t.privilege);
      AnyWordSplit(bases, t.secretTools);
    }
  }

  lemma AnyWordSplit(ws: seq<string>, s: set<string>)
    requires ws != []
    ensures AnyWord(ws, s) <==> ws[0] in s || AnyWord(ws[1..], s)
  {
    if AnyWord(ws[1..], s) {
      var i :| 0 <= i < |ws[1..]| && ws[1..][i] in s;
      assert ws[i + 1] in s;
    }
    if AnyWord(ws, s) && ws[0] !in s {
      var i :| 0 <= i < |ws| && ws[i] in s;
      assert ws[1..][i - 1] in s;
    }
  }

  lemma GrammarMeaning(r: Reason, c: ShellCommand, remote: Option<RemoteContext>)
    ensures r in GrammarReasons(c, remote) <==>
      || (r == RemoteExecution && remote.Some?)
      || (r == SecretAccess && remote.Some? && remote.value.cwd.None? && UnknownRemotePath(c))
      || (r == ShellChaining && Chains(c))
      || (r == RedirectOverwrite && c.hasRedirect)
      || (r == ForkBomb && c.isForkBomb)
    ensures NoRepeats(GrammarReasons(c, remote))
  {}

  lemma HeadMeaning(r: Reason, rs: seq<Reason>, c: ShellCommand, deny: seq<string>, t: Tables)
    requires NoRepeats(rs)
    ensures r in HeadReasons(rs, c, deny, t) <==>
      || r in rs
      || (r == CodeExecution && RunsCode(c, t))
      || (r == SecretAccess && (c.head in t.envDump || HitsDenySet(c.pathHaystack, deny)))
      || (r == PackageMutator && c.head in t.packageManagers && AnyWord(c.rest, t.packageMutating))
      || (r == Privilege && OpensUp(c))
      || (r == FileWrite && c.head in t.writeTools)
    ensures NoRepeats(HeadReasons(rs, c, deny, t))
  {}

  lemma ReasonMeaning(r: Reason, c: ShellCommand, remote: Option<RemoteContext>, deny: seq<string>, t: Tables)
    ensures r in Reasons(c, remote, deny, t) <==> Flagged(r, c, remote, deny, t)
    ensures NoRepeats(Reasons(c, remote, deny, t))
  {
    var grammar := GrammarReasons(c, remote);
    GrammarMeaning(r, c, remote);
    BaseReasonsMeaning(grammar, c.bases, t);
    HeadMeaning(r, AllBaseReasons(grammar, c.bases, t), c, deny, t);
  }

  /** The verdict carries each reason exactly when its rule holds, once, and its level is
      the one those reasons determine. */
  lemma ClassifiedMeaning(command: seq<string>, cwd: Option<string>, remote: Option<RemoteContext>,
                          deny: seq<string>, t: Tables)
    ensures var a := Classified(command, cwd, remote, deny, t);
      var c := Parsed(command, EffectiveCwd(cwd, remote), t.introducers);
      && (forall r :: r in a.reasons <==> c.words != [] && Flagged(r, c, remote, deny, t))
      && NoRepeats(a.reasons)
      && a.level == LevelOf(a.reasons)
  {
    var c := Parsed(command, EffectiveCwd(cwd, remote), t.introducers);
    forall r ensures r in Reasons(c, remote, deny, t) <==> Flagged(r, c, remote, deny, t) {
      ReasonMeaning(r, c, remote, deny, t);
    }
    ReasonMeaning(McpTool, c, remote, deny, t);
  }

  /** Only the joined command string matters, not how it is cut into argv elements. */
  lemma VerdictDependsOnJoin(command: seq<string>, cwd: Option<string>, remote: Option<RemoteContext>,
                             deny: seq<string>, t: Tables)
    ensures Classified(command, cwd, remote, deny, t)
         == Classified([Join(command, " ")], cwd, remote, deny, t)
  {
    ParseDependsOnJoin(command, EffectiveCwd(cwd, remote), t.introducers);
  }

  predicate Covers(more: seq<string>, less: seq<string>) {
    forall p :: p in less ==> p in more
  }

  lemma SameLevelOrHigher(less: seq<Reason>, more: seq<Reason>)
    requires forall r :: r in less ==> r in more
    ensures LevelOf(less).Rank() <= LevelOf(more).Rank()
  {
    if AnyDangerous(less) {
      var i :| 0 <= i < |less| && less[i].IsDangerous();
      assert less[i] in more;
    } else if less != [] {
      assert less[0] in more;
    }
  }

  /** Extending the deny-set never removes a reason and never lowers the level. */
  lemma DenySetMonotone(command: seq<string>, cwd: Option<string>, remote: Option<RemoteContext>,
                        deny: seq<string>, more: seq<string>, t: Tables)
    requires Covers(more, deny)
    ensures var a, b := Classified(command, cwd, remote, deny, t), Classified(command, cwd, remote, more, t);
      (forall r :: r in a.reasons ==> r in b.reasons) && a.level.Rank() <= b.level.Rank()
  {
    var a, b := Classified(command, cwd, remote, deny, t), Classified(command, cwd, remote, more, t);
    var c := Parsed(command, EffectiveCwd(cwd, remote), t.introducers);
    ClassifiedMeaning(command, cwd, remote, deny, t);
    ClassifiedMeaning(command, cwd, remote, more, t);
    assert HitsDenySet(c.pathHaystack, deny) ==> HitsDenySet(c.pathHaystack, more) by {
      if i :| 0 <= i < |deny| && deny[i] != "" && Contains(LowerAll(c.pathHaystack), LowerAll(deny[i])) {
        assert deny[i] in more;
      }
    }
    forall r | r in a.reasons ensures r in b.reasons {
      assert Flagged(r, c, remote, deny, t);
    }
    SameLevelOrHigher(a.reasons, b.reasons);
  }

  // --- multi-line buffers ---

  function CommandLines(buffer: string): (r: seq<string>)
    ensures forall i :: 0 <= i < |r| ==> !IsBlank(r[i])
  {
    NonBlank(Split(buffer, '\n'))
  }

  function NonBlank(lines: seq<string>): (r: seq<string>)
    ensures forall i :: 0 <= i < |r| ==> !IsBlank(r[i])
  {
    if lines == [] then []
    else if IsBlank(lines[0]) then NonBlank(lines[1..])
    else [lines[0]] + NonBlank(lines[1..])
  }

  datatype Context = Context(cwd: Option<string>, remote: Option<RemoteContext>, deny: seq<string>, tables: Tables)

  function LineVerdict(line: string, x: Context): Assessment {
    Classified([line], x.cwd, x.remote, x.deny, x.tables)
  }

  function Worse(a: Level, b: Level): Level {
    if b.Rank() > a.Rank() then b else a
  }

  function LinesVerdict(so: Assessment, lines: seq<string>, x: Context): Assessment
    decreases |lines|
  {
    if lines == [] then so
    else
      var a := LineVerdict(lines[0], x);
      LinesVerdict(Assessment(Worse(so.level, a.level), AddAll(so.reasons, a.reasons)), lines[1..], x)
  }

  function BufferVerdict(buffer: string, x: Context): Assessment {
    LinesVerdict(Assessment(Safe, []), CommandLines(buffer), x)
  }

  method ClassifyBuffer(buffer: string, x: Context) returns (a: Assessment)
    ensures a == BufferVerdict(buffer, x)
  {
    var lines := CommandLines(buffer);
    if lines == [] {
      return Assessment(Safe, []);
    }
    var level, reasons := Safe, [];
    for i := 0 to |lines|
      invariant LinesVerdict(Assessment(level, reasons), lines[i..], x) == BufferVerdict(buffer, x)
    {
      assert lines[i..][1..] == lines[i + 1..];
      var line := Classify([lines[i]], x.cwd, x.remote, x.deny, x.tables);
      if line.level.Rank() > level.Rank() {
        level := line.level;
      }
      ghost var before := reasons;
      for k := 0 to |line.reasons|
        invariant AddAll(reasons, line.reasons[k..]) == AddAll(before, line.reasons)
      {
        assert line.reasons[k..][1..] == line.reasons[k + 1..];
        reasons := Add(reasons, line.reasons[k]);
      }
      assert line.reasons[|line.reasons|..] == [];
    }
    assert lines[|lines|..] == [];
    a := Assessment(level, reasons);
  }

  predicate SomeLineHas(r: Reason, lines: seq<string>, x: Context) {
    exists i :: 0 <= i < |lines| && LineHas(r, lines[i], x)
  }

  predicate LineHas(r: Reason, line: string, x: Context) {
    r in LineVerdict(line, x).reasons
  }

  lemma LevelOfUnion(a: seq<Reason>, b: seq<Reason>)
    ensures LevelOf(AddAll(a, b)) == Worse(LevelOf(a), LevelOf(b))
  {
    var u := AddAll(a, b);
    SameLevelOrHigher(a, u);
    SameLevelOrHigher(b, u);
    if AnyDangerous(u) {
      var i :| 0 <= i < |u| && u[i].IsDangerous();
      assert u[i] in a || u[i] in b;
    } else if u != [] {
      assert u[0] in a || u[0] in b;
    }
  }

  lemma {:induction false} LinesMeaning(so: Assessment, lines: seq<string>, x: Context)
    requires so.level == LevelOf(so.reasons) && NoRepeats(so.reasons)
    ensures var a := LinesVerdict(so, lines, x);
      && (forall r :: r in a.reasons <==> r in so.reasons || SomeLineHas(r, lines, x))
      && NoRepeats(a.reasons)
      && a.level == LevelOf(a.reasons)
    decreases |lines|
  {
    if lines != [] {
      var v := LineVerdict(lines[0], x);
      ClassifiedMeaning([lines[0]], x.cwd, x.remote, x.deny, x.tables);
      LevelOfUnion(so.reasons, v.reasons);
      var next := Assessment(Worse(so.level, v.level), AddAll(so.reasons, v.reasons));
      LinesMeaning(next, lines[1..], x);
      forall r ensures SomeLineHas(r, lines, x) <==> r in v.reasons || SomeLineHas(r, lines[1..], x) {
        SomeLineSplit(r, lines, x);
      }
    }
  }

  lemma SomeSplit<T>(p: T -> bool, xs: seq<T>, rest: seq<T>)
    requires xs != [] && rest == xs[1..]
    ensures (exists i :: 0 <= i < |xs| && p(xs[i])) <==> p(xs[0]) || exists i :: 0 <= i < |rest| && p(rest[i])
  {
    assert xs == [xs[0]] + rest;
    if i :| 0 <= i < |xs| && p(xs[i]) {
      assert i > 0 ==> rest[i - 1] == xs[i];
    }
  }

  lemma SomeLineSplit(r: Reason, lines: seq<string>, x: Context)
    requires lines != []
    ensures SomeLineHas(r, lines, x) <==> LineHas(r, lines[0], x) || SomeLineHas(r, lines[1..], x)
  {
    SomeSplit(line => LineHas(r, line, x), lines, lines[1..]);
  }

  /** A buffer carries exactly the reasons its lines carry, and the level those determine. */
  lemma BufferMeaning(buffer: string, x: Context)
    ensures var a := BufferVerdict(buffer, x);
      && (forall r :: r in a.reasons <==> SomeLineHas(r, CommandLines(buffer), x))
      && NoRepeats(a.reasons)
      && a.level == LevelOf(a.reasons)
  {
    LinesMeaning(Assessment(Safe, []), CommandLines(buffer), x);
  }

  /** A buffer of one line classifies exactly as that line, reasons in the same order. */
  lemma OneLineBuffer(line: string, x: Context)
    requires '\n' !in line
    ensures BufferVerdict(line, x) == LineVerdict(line, x)
  {
    SplitWithout(line, '\n');
    if IsBlank(line) {
      BlankLine(line, x);
      assert CommandLines(line) == [];
    } else {
      assert NonBlank([line]) == [line] + NonBlank([line][1..]);
      assert CommandLines(line) == [line];
      VerdictOfOne(line, x);
    }
  }

  lemma BlankLine(line: string, x: Context)
    requires IsBlank(line)
    ensures LineVerdict(line, x) == Assessment(Safe, [])
  {
    WordsOfBlank(line);
    assert AllWords([line]) == [];
  }

  lemma VerdictOfOne(line: string, x: Context)
    ensures LinesVerdict(Assessment(Safe, []), [line], x) == LineVerdict(line, x)
  {
    var v := LineVerdict(line, x);
    LineNamesOnce(line, x);
    OneMoreLine(line, x);
    assert [] + v.reasons == v.reasons;
    AddAllToNothing([], v.reasons);
  }

  lemma LineNamesOnce(line: string, x: Context)
    ensures NoRepeats(LineVerdict(line, x).reasons)
  {
    ClassifiedMeaning([line], x.cwd, x.remote, x.deny, x.tables);
  }

  lemma OneMoreLine(line: string, x: Context)
    ensures var v := LineVerdict(line, x);
      LinesVerdict(Assessment(Safe, []), [line], x) == Assessment(v.level, AddAll([], v.reasons))
  {
    assert [line][1..] == [];
  }

  lemma {:induction false} AddAllToNothing(a: seq<Reason>, b: seq<Reason>)
    requires NoRepeats(a + b)
    ensures AddAll(a, b) == a + b
    decreases |b|
  {
    if b == [] {
      assert a + b == a;
    } else {
      assert (a + b)[|a|] == b[0];
      assert forall i :: 0 <= i < |a| ==> (a + b)[i] == a[i];
      assert b[0] !in a;
      assert a + [b[0]] + b[1..] == a + b;
      AddAllToNothing(a + [b[0]], b[1..]);
    }
  }

  lemma SomeLineOfEither(r: Reason, la: seq<string>, lb: seq<string>, x: Context)
    ensures SomeLineHas(r, la + lb, x) <==> SomeLineHas(r, la, x) || SomeLineHas(r, lb, x)
  {
    if SomeLineHas(r, la, x) {
      var i :| 0 <= i < |la| && LineHas(r, la[i], x);
      assert (la + lb)[i] == la[i];
    }
    if SomeLineHas(r, lb, x) {
      var i :| 0 <= i < |lb| && LineHas(r, lb[i], x);
      assert (la + lb)[|la| + i] == lb[i];
    }
  }

  lemma LinesOfBoth(a: string, b: string)
    ensures CommandLines(a + "\n" + b) == CommandLines(a) + CommandLines(b)
  {
    SplitOfJoin(a, '\n', b);
    NonBlankConcat(Split(a, '\n'), Split(b, '\n'));
  }

  /** Putting two buffers one after the other combines their verdicts: no line can hide
      another, and more lines never lower the level. */
  lemma BuffersCombine(a: string, b: string, x: Context)
    ensures var u := BufferVerdict(a + "\n" + b, x);
      && (forall r :: r in u.reasons <==> r in BufferVerdict(a, x).reasons || r in BufferVerdict(b, x).reasons)
      && u.level == Worse(BufferVerdict(a, x).level, BufferVerdict(b, x).level)
  {
    BufferMeaning(a, x);
    BufferMeaning(b, x);
    BufferMeaning(a + "\n" + b, x);
    LinesOfBoth(a, b);
    var u, ra, rb := BufferVerdict(a + "\n" + b, x), BufferVerdict(a, x).reasons, BufferVerdict(b, x).reasons;
    forall r ensures r in u.reasons <==> r in ra || r in rb {
      SomeLineOfEither(r, CommandLines(a), CommandLines(b), x);
    }
    SameReasonsSameLevel(u.reasons, AddAll(ra, rb));
    LevelOfUnion(ra, rb);
  }

  lemma SameReasonsSameLevel(a: seq<Reason>, b: seq<Reason>)
    requires forall r :: r in a <==> r in b
    ensures LevelOf(a) == LevelOf(b)
  {
    SameLevelOrHigher(a, b);
    SameLevelOrHigher(b, a);
  }

  lemma {:induction false} NonBlankConcat(a: seq<string>, b: seq<string>)
    ensures NonBlank(a + b) == NonBlank(a) + NonBlank(b)
  {
    if a == [] {
      assert a + b == b;
    } else {
      assert (a + b)[1..] == a[1..] + b;
      NonBlankConcat(a[1..], b);
    }
  }
}
