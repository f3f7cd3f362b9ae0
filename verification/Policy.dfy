/** The graduated approval decision: which verdicts run without asking, at which tier. */
module Policy {
  import opened Risk

  datatype Mode = AskAlways | AutoSafe | AutoRunInSession

  /** Two refusals hold at every tier; only then does the tier widen what auto-runs. */
  predicate AutoApproves(m: Mode, a: Assessment) {
    && !a.IsShellActive() && a.level != Dangerous
    && match m
       case AskAlways => false
       case AutoSafe => a.level == Safe
       case AutoRunInSession => a.level == Safe || a.level == Caution
  }

  datatype Approval = AutoApprove | RequireConfirm(assessment: Assessment)

  function DecideAssessment(m: Mode, a: Assessment): Approval {
    if AutoApproves(m, a) then AutoApprove else RequireConfirm(a)
  }

  function DecideBuffer(m: Mode, buffer: string, x: Context): Approval {
    DecideAssessment(m, BufferVerdict(buffer, x))
  }

  function DecideCommand(m: Mode, command: seq<string>, x: Context): Approval {
    DecideAssessment(m, Classified(command, x.cwd, x.remote, x.deny, x.tables))
  }

  predicate LineAutoRuns(m: Mode, line: string, x: Context) {
    AutoApproves(m, LineVerdict(line, x))
  }

  predicate EveryLineAutoRuns(m: Mode, buffer: string, x: Context) {
    var lines := CommandLines(buffer);
    forall i :: 0 <= i < |lines| ==> LineAutoRuns(m, lines[i], x)
  }

  /** Whether a reason alone stops a tier from auto-running. */
  predicate Stops(m: Mode, r: Reason) {
    r.IsShellActive() || r.IsDangerous() || m != AutoRunInSession
  }

  /** A verdict whose level is the one its reasons determine auto-runs at a tier above
      ask-always exactly when it carries no reason that stops that tier. */
  lemma AutoRunsByReason(m: Mode, a: Assessment)
    requires a.level == LevelOf(a.reasons) && m != AskAlways
    ensures AutoApproves(m, a) <==> forall r :: r in a.reasons ==> !Stops(m, r)
  {
    if AutoApproves(m, a) {
      forall r | r in a.reasons ensures !Stops(m, r) {
        var i :| 0 <= i < |a.reasons| && a.reasons[i] == r;
        assert !a.reasons[i].IsShellActive() && !a.reasons[i].IsDangerous();
      }
    } else if a.IsShellActive() {
      var i :| 0 <= i < |a.reasons| && a.reasons[i].IsShellActive();
      assert a.reasons[i] in a.reasons;
    } else if AnyDangerous(a.reasons) {
      var i :| 0 <= i < |a.reasons| && a.reasons[i].IsDangerous();
      assert a.reasons[i] in a.reasons;
    } else {
      assert a.reasons[0] in a.reasons;
    }
  }

  lemma LineAutoRunsByReason(m: Mode, line: string, x: Context)
    requires m != AskAlways
    ensures LineAutoRuns(m, line, x) <==> forall r :: LineHas(r, line, x) ==> !Stops(m, r)
  {
    ClassifiedMeaning([line], x.cwd, x.remote, x.deny, x.tables);
    AutoRunsByReason(m, LineVerdict(line, x));
  }

  /** A buffer auto-runs exactly when each of its command lines alone would: no second line
      can hide behind a newline. The one exception is a buffer without any command line,
      which has nothing to run line by line but still asks at the ask-always tier. */
  lemma BufferAutoRunsLineByLine(m: Mode, buffer: string, x: Context)
    ensures (DecideBuffer(m, buffer, x).AutoApprove? <==> EveryLineAutoRuns(m, buffer, x))
        <==> (CommandLines(buffer) != [] || m != AskAlways)
  {
    var lines := CommandLines(buffer);
    if m == AskAlways {
      if lines != [] { assert !LineAutoRuns(m, lines[0], x); }
    } else {
      BufferMeaning(buffer, x);
      AutoRunsByReason(m, BufferVerdict(buffer, x));
      forall i | 0 <= i < |lines|
        ensures LineAutoRuns(m, lines[i], x) <==> forall r :: LineHas(r, lines[i], x) ==> !Stops(m, r)
      {
        LineAutoRunsByReason(m, lines[i], x);
      }
      assert forall i, r :: 0 <= i < |lines| && LineHas(r, lines[i], x) ==> SomeLineHas(r, lines, x);
    }
  }

  function TierRank(m: Mode): nat {
    match m case AskAlways => 0 case AutoSafe => 1 case AutoRunInSession => 2
  }

  /** Extending the deny-set, or stepping down the ladder, never lets more auto-run. */
  lemma NarrowingIsSafe(m: Mode, n: Mode, command: seq<string>, x: Context, deny: seq<string>)
    requires TierRank(n) <= TierRank(m) && Covers(deny, x.deny)
    requires DecideCommand(n, command, x.(deny := deny)).AutoApprove?
    ensures DecideCommand(m, command, x).AutoApprove?
  {
    DenySetMonotone(command, x.cwd, x.remote, x.deny, deny, x.tables);
    var a := Classified(command, x.cwd, x.remote, x.deny, x.tables);
    var b := Classified(command, x.cwd, x.remote, deny, x.tables);
    ClassifiedMeaning(command, x.cwd, x.remote, x.deny, x.tables);
    ClassifiedMeaning(command, x.cwd, x.remote, deny, x.tables);
    AutoRunsByReason(n, b);
    AutoRunsByReason(m, a);
  }
}
