/** A turn run to its end, recorded, and its history derived; and how it says that it ended. */
module WholeTurn {
  import opened Text
  import opened Provider
  import opened Turn
  import opened Round
  import opened TurnLoop
  import opened Transcript
  import opened TurnHistory
  import opened HistoryEnds

  /** Where a turn that was neither cancelled nor failed says how it ended. */
  predicate CompletesAt(es: seq<AgentEvent>, i: int, end: TurnEnd) {
    end.Ended? && !end.cancelled && i == |es| - 1 && es != [] && es[i] == TurnComplete(end.stop)
  }

  /** A turn puts exactly one completion on its channel, as the last event, unless it is
      cancelled or fails; then it puts none. */
  ghost predicate SaysOnceHowItEnded(es: seq<AgentEvent>, end: TurnEnd) {
    && (forall i :: 0 <= i < |es| && es[i].TurnComplete? ==> CompletesAt(es, i, end))
    && (end.Ended? && !end.cancelled ==> CompletesAt(es, |es| - 1, end))
  }

  predicate NoCompletion(es: seq<AgentEvent>) {
    forall i :: 0 <= i < |es| ==> !es[i].TurnComplete?
  }

  lemma {:induction false} ForwardSwallows(es: seq<AgentEvent>, secrets: seq<string>)
    ensures NoCompletion(Forwarded(es, secrets))
  {
    if es != [] { ForwardSwallows(es[1..], secrets); }
  }

  lemma RoundSwallows(s: Setup, w: World, d: RoundData)
    ensures NoCompletion(Relayed(s, w))
    ensures NoCompletion(RoundEvents(s, w, d))
  {
    var fs, report := Relayed(s, w), ReportEvents(s, w, d);
    ForwardSwallows(StreamEvents(s, w.stream), s.secrets);
    EveryCallEmitted(s, w, d.proposed);
    assert NoCompletion(report);
  }

  lemma {:induction false} RoundsSwallow(s: Setup, log: seq<RoundLog>)
    ensures NoCompletion(AllEvents(s, log))
    decreases |log|
  {
    if log != [] {
      RoundsSwallow(s, log[..|log| - 1]);
      RoundSwallows(s, log[|log| - 1].world, log[|log| - 1].data);
    }
  }

  lemma TailSwallows(s: Setup, w: World, tail: seq<AgentEvent>)
    requires TailOf(s, w, tail)
    ensures NoCompletion(tail)
  {
    RoundSwallows(s, w, Streamed(s, w));
    var fs, all := Relayed(s, w), RoundEvents(s, w, Streamed(s, w));
    if tail <= fs {
      assert forall i :: 0 <= i < |tail| ==> tail[i] == fs[i];
    } else {
      assert forall i :: 0 <= i < |tail| ==> tail[i] == all[i];
    }
  }

  lemma ClosingIsLast(before: seq<AgentEvent>, end: TurnEnd)
    requires NoCompletion(before)
    ensures SaysOnceHowItEnded(before + Closing(end), end)
  {}

  /** The boundaries of rounds are swallowed, so a reader of the channel sees one end of turn. */
  lemma OneCompletion(s: Setup, log: seq<RoundLog>, last: World, tail: seq<AgentEvent>, end: TurnEnd)
    requires IsRun(s, log, last, tail, end)
    ensures SaysOnceHowItEnded(RunEvents(s, log, tail, end), end)
  {
    RoundsSwallow(s, log);
    EndsWithTail(s, last, |log|, tail, end);
    TailSwallows(s, last, tail);
    ClosingIsLast(AllEvents(s, log) + tail, end);
  }

  lemma CompletionRecorded(es: seq<AgentEvent>, end: TurnEnd)
    requires SaysOnceHowItEnded(es, end)
    ensures Completes(es) <==> end.Ended? && !end.cancelled
  {
    if end.Ended? && !end.cancelled {
      assert es[|es| - 1].TurnComplete?;
    }
  }

  // --- nothing a round streamed is lost ---

  function WithoutResults(es: seq<AgentEvent>): seq<AgentEvent> {
    if es == [] then [] else (if es[0].ToolResult? then [] else [es[0]]) + WithoutResults(es[1..])
  }

  lemma {:induction false} WithoutResultsConcat(a: seq<AgentEvent>, b: seq<AgentEvent>)
    ensures WithoutResults(a + b) == WithoutResults(a) + WithoutResults(b)
  {
    if a == [] {
      assert a + b == b;
    } else {
      assert (a + b)[1..] == a[1..] + b;
      WithoutResultsConcat(a[1..], b);
      Associate(if a[0].ToolResult? then [] else [a[0]], WithoutResults(a[1..]), WithoutResults(b));
    }
  }

  lemma {:induction false} NoResultsToDrop(es: seq<AgentEvent>)
    requires NoResults(es)
    ensures WithoutResults(es) == es
  {
    if es != [] { NoResultsToDrop(es[1..]); }
  }

  lemma {:induction false} OnlyResultsDrop(es: seq<AgentEvent>)
    requires forall i :: 0 <= i < |es| ==> es[i].ToolResult?
    ensures WithoutResults(es) == []
  {
    if es != [] { OnlyResultsDrop(es[1..]); }
  }

  /** The streams of the first rounds, one after the other. */
  function AllRelayed(s: Setup, worlds: nat -> World, rounds: nat): seq<AgentEvent> {
    if rounds == 0 then [] else AllRelayed(s, worlds, rounds - 1) + Relayed(s, worlds(rounds - 1))
  }

  lemma RelayedOfRound(s: Setup, w: World, d: RoundData)
    ensures WithoutResults(Relayed(s, w)) == Relayed(s, w) == WithoutResults(RoundEvents(s, w, d))
  {
    StreamIsFresh(s, w);
    EveryCallEmitted(s, w, d.proposed);
    WithoutResultsConcat(Relayed(s, w), ReportEvents(s, w, d));
    NoResultsToDrop(Relayed(s, w));
    OnlyResultsDrop(ReportEvents(s, w, d));
  }

  function LogRelayed(s: Setup, log: seq<RoundLog>): seq<AgentEvent> {
    if log == [] then [] else LogRelayed(s, log[..|log| - 1]) + Relayed(s, log[|log| - 1].world)
  }

  lemma {:induction false} LogIsRelayed(s: Setup, log: seq<RoundLog>)
    ensures WithoutResults(AllEvents(s, log)) == LogRelayed(s, log)
    decreases |log|
  {
    if log != [] {
      LogIsRelayed(s, log[..|log| - 1]);
      RelayedOfLast(s, log);
    }
  }

  lemma {:induction false} RelayedByWorlds(s: Setup, worlds: nat -> World, log: seq<RoundLog>)
    requires forall k :: 0 <= k < |log| ==> log[k].world == worlds(k)
    ensures LogRelayed(s, log) == AllRelayed(s, worlds, |log|)
    decreases |log|
  {
    if log != [] { RelayedByWorlds(s, worlds, log[..|log| - 1]); }
  }

  lemma RelayedOfLast(s: Setup, log: seq<RoundLog>)
    requires log != []
    ensures WithoutResults(AllEvents(s, log))
         == WithoutResults(AllEvents(s, log[..|log| - 1])) + Relayed(s, log[|log| - 1].world)
  {
    var init, l := log[..|log| - 1], log[|log| - 1];
    AllEventsLast(s, log);
    WithoutResultsConcat(AllEvents(s, init), RoundEvents(s, l.world, l.data));
    RelayedOfRound(s, l.world, l.data);
  }

  lemma TailIsRelayed(s: Setup, worlds: nat -> World, rounds: nat, tail: seq<AgentEvent>, end: TurnEnd)
    requires EndsIn(s, worlds(rounds), rounds, tail, end) && end.Ended? && !end.cancelled
    ensures AllRelayed(s, worlds, rounds) + WithoutResults(tail) == AllRelayed(s, worlds, end.rounds)
  {
    if tail == [] && end.rounds == rounds {
      assert AllRelayed(s, worlds, rounds) + [] == AllRelayed(s, worlds, rounds);
    } else {
      RelayedOfRound(s, worlds(rounds), NoData);
      assert AllRelayed(s, worlds, rounds + 1) == AllRelayed(s, worlds, rounds) + Relayed(s, worlds(rounds));
    }
  }

  /** A turn that ended by itself put everything its rounds streamed on the channel, in order,
      and besides only results and the one completion. */
  lemma EveryEventIsRelayed(s: Setup, worlds: nat -> World, log: seq<RoundLog>, tail: seq<AgentEvent>, end: TurnEnd)
    requires TurnOf(s, worlds, log, tail, end) && end.Ended? && !end.cancelled
    ensures WithoutResults(RunEvents(s, log, tail, end)) == AllRelayed(s, worlds, end.rounds) + [TurnComplete(end.stop)]
  {
    WithoutResultsConcat(AllEvents(s, log) + tail, Closing(end));
    WithoutResultsConcat(AllEvents(s, log), tail);
    LogIsRelayed(s, log);
    RelayedByWorlds(s, worlds, log);
    TailIsRelayed(s, worlds, |log|, tail, end);
    NoResultsToDrop(Closing(end));
  }

  /** Run a turn, record its events and derive the history from the record. */
  method RunAndDerive(s: Setup, prompt: string, worlds: nat -> World)
    returns (sent: seq<Message>, derived: seq<Message>, events: seq<AgentEvent>, end: TurnEnd,
             usage: Usage, status: Status, ghost log: seq<RoundLog>, ghost tail: seq<AgentEvent>)
    ensures TurnOf(s, worlds, log, tail, end)
    ensures sent == Sent(s, prompt, log) && events == RunEvents(s, log, tail, end)
    ensures SaysOnceHowItEnded(events, end)
    ensures usage == Capped(TotalUsage(events))
    ensures status == if end.Ended? && !end.cancelled then Completed else Running
    ensures AllAnswered(derived)
    ensures OpensUpToOrder(sent, derived) && NoSharedCalls(s, log, events) <==> AllWellFormed(log)
    ensures sent <= derived && NoSharedCalls(s, log, events) <==> AllWellFormed(log) && AllReportedAsSent(s, log)
    ensures TailOf(s, worlds(|log|), tail)
    ensures AllWellFormed(log) ==>
      derived == [UserMessage(prompt)] + ReportedPairs(s, log) + TailMessages(s, worlds(|log|), tail)
    ensures EveryUseAnswered(derived)
        <==> Uses(tail) == [] || tail == RoundEvents(s, worlds(|log|), Streamed(s, worlds(|log|)))
  {
    var rounds, rest;
    sent, events, end, rounds, rest := Run(s, [UserMessage(prompt)], worlds);
    log, tail := rounds, rest;
    var t := RecordTurn(prompt, events);
    derived := t.DeriveHistory();
    usage, status := t.usage, t.status;
    ghost var last := worlds(|log|);
    assert events == RunEvents(s, log, tail, end) && derived == Derived(prompt, events);
    TurnIsRun(s, worlds, log, tail, end);
    EndsWithTail(s, last, |log|, tail, end);
    OneCompletion(s, log, last, tail, end);
    CompletionRecorded(events, end);
    EveryResultJoined(s, prompt, log, last, tail, end);
    HistoryAgrees(s, prompt, log, last, tail, end);
    HistoryAgreesExactly(s, prompt, log, last, tail, end);
    if AllWellFormed(log) { WholeHistory(s, prompt, log, last, tail, end); }
    AnsweredExactly(s, prompt, log, last, tail, end);
  }
}
