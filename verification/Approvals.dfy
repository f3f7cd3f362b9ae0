/** The approval seam as a step system. */
module Approvals {
  import opened Text
  import opened Turn

  // The turn loop, the bridge task that parks requests for the keyboard, the keyboard itself,
  // cancellation, and the end of the turn take steps in any interleaving. What is proved
  // holds in every reachable state.

  /** What matters of a proposed call here: whether it parsed, whether the gate clears it,
      and whether it may run beside others. */
  datatype Call = Call(parsed: bool, auto: bool, parallelSafe: bool)

  /** The calls of each round, whatever the model proposes. */
  type Plan = seq<seq<Call>>

  datatype CallRef = CallRef(round: nat, idx: nat)

  /** A one-shot reply as its receiver sees it. */
  datatype Reply = Open | Answered(decision: Decision) | Dropped

  datatype Request = Request(ticket: nat, call: CallRef)

  datatype Phase =
    | Gating(idx: nat)
    | Awaiting(at: nat, ticket: nat)
    | RunningParallel
    | RunningSerial(k: nat)
    | Over

  /** What the loop itself holds. */
  datatype Loop = Loop(
    round: nat,
    phase: Phase,
    toRun: seq<nat>,
    started: seq<CallRef>,
    done: set<CallRef>)

  datatype Teardown = NotYet | Denied1 | Inactive

  /** The keyboard is cancelling between setting the flag and denying what is parked; it does
      nothing else meanwhile. */
  datatype State = State(
    loop: Loop,
    owners: seq<CallRef>,
    replies: seq<Reply>,
    channel: seq<Request>,
    slot: Option<Request>,
    bridgeAlive: bool,
    cancelled: bool,
    cancelling: bool,
    teardown: Teardown)

  const CHANNEL_DEPTH := 16

  const Initial := State(Loop(0, Gating(0), [], [], {}), [], [], [], None, true, false, false, NotYet)

  predicate Active(s: State) { !s.teardown.Inactive? }

  datatype Action =
    | Reject | ClearAuto | Ask | AskClosed | Hear
    | BeginRun | StartParallel(idx: nat) | FinishParallel(idx: nat)
    | BeginSerial | StartSerial | FinishSerial | NextRound
    | Stop | Interrupted
    | Park | CloseChannel | DropSlot
    | Approve | Deny | Cancel | CancelDenies
    | DenyParked | ClearActive

  function Calls(plan: Plan, r: nat): seq<Call> {
    if r < |plan| then plan[r] else []
  }

  function SerialOf(plan: Plan, l: Loop): seq<nat> {
    Filtered(Calls(plan, l.round), l.toRun)
  }

  /** The calls that run alone, in proposal order. */
  function Filtered(calls: seq<Call>, xs: seq<nat>): (r: seq<nat>)
    ensures forall x :: x in r <==> x in xs && !(x < |calls| && calls[x].parallelSafe)
  {
    if xs == [] then []
    else if xs[0] < |calls| && calls[xs[0]].parallelSafe then Filtered(calls, xs[1..])
    else [xs[0]] + Filtered(calls, xs[1..])
  }

  predicate IsParallel(plan: Plan, l: Loop, i: nat) {
    i in l.toRun && i < |Calls(plan, l.round)| && Calls(plan, l.round)[i].parallelSafe
  }

  predicate AllParallelDone(plan: Plan, l: Loop) {
    forall i :: i in l.toRun && IsParallel(plan, l, i) ==> CallRef(l.round, i) in l.done
  }

  function Ref(l: Loop, i: nat): CallRef { CallRef(l.round, i) }

  predicate GatingCall(plan: Plan, s: State) {
    s.loop.phase.Gating? && s.loop.phase.idx < |Calls(plan, s.loop.round)|
  }

  function CurrentCall(plan: Plan, s: State): Call
    requires GatingCall(plan, s)
  {
    Calls(plan, s.loop.round)[s.loop.phase.idx]
  }

  predicate MayStartSerial(plan: Plan, s: State) {
    && s.loop.phase.RunningSerial? && s.loop.phase.k < |SerialOf(plan, s.loop)|
    && Ref(s.loop, SerialOf(plan, s.loop)[s.loop.phase.k]) !in s.loop.started
  }

  predicate MayFinishSerial(plan: Plan, s: State) {
    && s.loop.phase.RunningSerial? && s.loop.phase.k < |SerialOf(plan, s.loop)|
    && Ref(s.loop, SerialOf(plan, s.loop)[s.loop.phase.k]) in s.loop.started
  }

  predicate RoundDone(plan: Plan, s: State) {
    s.loop.phase.RunningSerial? && s.loop.phase.k >= |SerialOf(plan, s.loop)|
  }

  predicate Enabled(plan: Plan, s: State, a: Action) {
    match a
    case Reject => GatingCall(plan, s) && !CurrentCall(plan, s).parsed
    case ClearAuto => GatingCall(plan, s) && CurrentCall(plan, s).parsed && CurrentCall(plan, s).auto
    case Ask =>
      && GatingCall(plan, s) && CurrentCall(plan, s).parsed && !CurrentCall(plan, s).auto
      && s.bridgeAlive && |s.channel| < CHANNEL_DEPTH
    case AskClosed =>
      GatingCall(plan, s) && CurrentCall(plan, s).parsed && !CurrentCall(plan, s).auto && !s.bridgeAlive
    case Hear => s.loop.phase.Awaiting? && s.loop.phase.ticket < |s.replies| && !s.replies[s.loop.phase.ticket].Open?
    case BeginRun => s.loop.phase.Gating? && s.loop.phase.idx == |Calls(plan, s.loop.round)|
    case StartParallel(i) =>
      s.loop.phase.RunningParallel? && IsParallel(plan, s.loop, i) && Ref(s.loop, i) !in s.loop.started
    case FinishParallel(i) =>
      s.loop.phase.RunningParallel? && IsParallel(plan, s.loop, i) && Ref(s.loop, i) in s.loop.started
    case BeginSerial => s.loop.phase.RunningParallel? && AllParallelDone(plan, s.loop)
    case StartSerial => MayStartSerial(plan, s)
    case FinishSerial => MayFinishSerial(plan, s)
    case NextRound => RoundDone(plan, s)
    case Stop => RoundDone(plan, s)
    case Interrupted => s.cancelled && !s.loop.phase.Over?
    case Park => s.bridgeAlive && s.channel != []
    case CloseChannel => s.bridgeAlive
    case DropSlot => s.slot.Some?
    case Approve => s.slot.Some? && !s.cancelling
    case Deny => s.slot.Some? && !s.cancelling
    case Cancel => !s.cancelling
    case CancelDenies => s.cancelling
    case DenyParked => s.loop.phase.Over? && s.teardown.NotYet?
    case ClearActive => s.teardown.Denied1?
  }

  /** Deliver to a one-shot reply, once. */
  function Deliver(replies: seq<Reply>, t: nat, r: Reply): (out: seq<Reply>)
    ensures |out| == |replies|
  {
    if t < |replies| && replies[t].Open? then replies[t := r] else replies
  }

  function ResolveSlot(s: State, r: Reply): State {
    if s.slot.Some? then s.(replies := Deliver(s.replies, s.slot.value.ticket, r), slot := None) else s
  }

  function DropAll(replies: seq<Reply>, reqs: seq<Request>): (out: seq<Reply>)
    ensures |out| == |replies|
    decreases |reqs|
  {
    if reqs == [] then replies else DropAll(Deliver(replies, reqs[0].ticket, Dropped), reqs[1..])
  }

  function Advance(l: Loop, run: bool): Loop
    requires l.phase.Gating? || l.phase.Awaiting?
  {
    var i := if l.phase.Gating? then l.phase.idx else l.phase.at;
    l.(phase := Gating(i + 1), toRun := if run then l.toRun + [i] else l.toRun)
  }

  function Do(plan: Plan, s: State, a: Action): State
    requires Enabled(plan, s, a)
  {
    var l := s.loop;
    match a
    case Reject => s.(loop := Advance(l, false))
    case ClearAuto => s.(loop := Advance(l, true))
    case Ask =>
      var t := |s.replies|;
      s.(loop := l.(phase := Awaiting(l.phase.idx, t)), owners := s.owners + [Ref(l, l.phase.idx)],
         replies := s.replies + [Open], channel := s.channel + [Request(t, Ref(l, l.phase.idx))])
    case AskClosed => s.(loop := Advance(l, false))
    case Hear => s.(loop := Advance(l, s.replies[l.phase.ticket] == Answered(Approved)))
    case BeginRun => s.(loop := l.(phase := RunningParallel))
    case StartParallel(i) => s.(loop := l.(started := l.started + [Ref(l, i)]))
    case FinishParallel(i) => s.(loop := l.(done := l.done + {Ref(l, i)}))
    case BeginSerial => s.(loop := l.(phase := RunningSerial(0)))
    case StartSerial => s.(loop := l.(started := l.started + [Ref(l, SerialOf(plan, l)[l.phase.k])]))
    case FinishSerial =>
      s.(loop := l.(done := l.done + {Ref(l, SerialOf(plan, l)[l.phase.k])}, phase := RunningSerial(l.phase.k + 1)))
    case NextRound => s.(loop := l.(round := l.round + 1, phase := Gating(0), toRun := []))
    case Stop => s.(loop := l.(phase := Over))
    case Interrupted => s.(loop := l.(phase := Over))
    case Park =>
      ResolveSlot(s, Answered(Denied)).(channel := s.channel[1..], slot := Some(s.channel[0]))
    case CloseChannel => s.(replies := DropAll(s.replies, s.channel), channel := [], bridgeAlive := false)
    case DropSlot => ResolveSlot(s, Dropped)
    case Approve => ResolveSlot(s, Answered(Approved))
    case Deny => ResolveSlot(s, Answered(Denied))
    case Cancel => s.(cancelled := true, cancelling := true)
    case CancelDenies => ResolveSlot(s, Answered(Denied)).(cancelling := false)
    case DenyParked => ResolveSlot(s, Answered(Denied)).(teardown := Denied1)
    case ClearActive => s.(teardown := Inactive)
  }

  /** The state after a list of actions, if each is enabled in turn. */
  function After(plan: Plan, s: State, actions: seq<Action>): Option<State>
    decreases |actions|
  {
    if actions == [] then Some(s)
    else if !Enabled(plan, s, actions[0]) then None
    else After(plan, Do(plan, s, actions[0]), actions[1..])
  }

  ghost predicate Reachable(plan: Plan, s: State) {
    exists actions :: After(plan, Initial, actions) == Some(s)
  }

  // --- what every state keeps ---

  /** At most one request is anywhere between the loop and an answer. */
  function Outstanding(s: State): seq<Request> {
    s.channel + if s.slot.Some? then [s.slot.value] else []
  }

  predicate TicketsKept(s: State) {
    && |s.owners| == |s.replies|
    && |Outstanding(s)| <= 1
    && (forall i :: 0 <= i < |Outstanding(s)| ==>
          var q := Outstanding(s)[i];
          q.ticket + 1 == |s.replies| && s.replies[q.ticket].Open? && q.call == s.owners[q.ticket])
    && (forall t :: 0 <= t < |s.replies| && s.replies[t].Open? ==>
          Outstanding(s) != [] && Outstanding(s)[0].ticket == t)
    && (!s.bridgeAlive ==> s.channel == [])
    && (s.loop.phase.Awaiting? ==>
          && s.loop.phase.ticket == |s.replies| - 1
          && s.owners[s.loop.phase.ticket] == Ref(s.loop, s.loop.phase.at))
    && (!s.loop.phase.Awaiting? && !s.loop.phase.Over? ==> Outstanding(s) == [])
    && (s.teardown.NotYet? || s.loop.phase.Over?)
  }

  /** A call the gate cleared, or one whose own request the user approved. */
  ghost predicate Cleared(plan: Plan, s: State, c: CallRef) {
    && c.idx < |Calls(plan, c.round)|
    && Calls(plan, c.round)[c.idx].parsed
    && (Calls(plan, c.round)[c.idx].auto || exists t :: 0 <= t < |s.replies| && ApprovedFor(s, t, c))
  }

  predicate ApprovedFor(s: State, t: nat, c: CallRef)
    requires t < |s.replies|
  {
    t < |s.owners| && s.owners[t] == c && s.replies[t] == Answered(Approved)
  }

  /** How far gating has come in the current round. */
  function GatedUpTo(plan: Plan, l: Loop): nat {
    match l.phase
    case Gating(i) => i
    case Awaiting(i, _) => i
    case _ => |Calls(plan, l.round)|
  }

  ghost predicate LoopKept(plan: Plan, s: State) {
    var l := s.loop;
    && (l.phase.Gating? || l.phase.Awaiting? ==> GatedUpTo(plan, l) <= |Calls(plan, l.round)|)
    && (l.phase.Awaiting? ==> l.phase.at < |Calls(plan, l.round)| && Calls(plan, l.round)[l.phase.at].parsed)
    && (forall a :: 0 <= a < |l.toRun| ==> l.toRun[a] < GatedUpTo(plan, l) && Cleared(plan, s, Ref(l, l.toRun[a])))
    && (forall a, b :: 0 <= a < b < |l.toRun| ==> l.toRun[a] < l.toRun[b])
    && (forall a :: 0 <= a < |l.started| ==> Cleared(plan, s, l.started[a]) && l.started[a].round <= l.round)
    && (forall a, b :: 0 <= a < b < |l.started| ==> l.started[a] != l.started[b])
    && (l.phase.Gating? || l.phase.Awaiting? ==> forall a :: 0 <= a < |l.started| ==> l.started[a].round < l.round)
    && (forall a :: 0 <= a < |l.started| && l.started[a].round == l.round ==> l.started[a].idx in l.toRun)
    && (forall c :: c in l.done ==> c in l.started)
  }

  /** The calls that may run together all end before the first of the others starts; those
      run one at a time, in proposal order; and rounds do not overlap. */
  ghost predicate OrderKept(plan: Plan, s: State) {
    var l := s.loop;
    && (forall c :: c in l.started && c.round < l.round ==> c in l.done)
    && (l.phase.RunningParallel? ==> forall c :: c in l.started && c.round == l.round ==> IsParallel(plan, l, c.idx))
    && (l.phase.RunningSerial? ==> AllParallelDone(plan, l) && SerialKept(l, SerialOf(plan, l), l.phase.k))
  }

  /** The first `k` serial calls are done, and none after the next is started. */
  ghost predicate SerialKept(l: Loop, serial: seq<nat>, k: nat) {
    && k <= |serial|
    && (forall j :: 0 <= j < k ==> Ref(l, serial[j]) in l.done)
    && (forall j :: k < j < |serial| ==> Ref(l, serial[j]) !in l.started)
    && (forall j :: k <= j < |serial| ==> Ref(l, serial[j]) !in l.done)
  }

  ghost predicate Inv(plan: Plan, s: State) {
    TicketsKept(s) && LoopKept(plan, s) && OrderKept(plan, s)
  }

  lemma TicketsPark(plan: Plan, s: State)
    requires TicketsKept(s) && Enabled(plan, s, Park)
    ensures TicketsKept(Do(plan, s, Park))
  {
    assert Outstanding(s)[0] == s.channel[0] && s.slot == None && s.channel[1..] == [];
  }

  lemma TicketsClose(plan: Plan, s: State)
    requires TicketsKept(s) && Enabled(plan, s, CloseChannel)
    ensures TicketsKept(Do(plan, s, CloseChannel))
  {
    if s.channel != [] {
      assert Outstanding(s)[0] == s.channel[0];
      assert s.channel[1..] == [];
      assert DropAll(s.replies, s.channel) == Deliver(s.replies, s.channel[0].ticket, Dropped);
    }
  }

  lemma TicketsAsk(plan: Plan, s: State)
    requires TicketsKept(s) && Enabled(plan, s, Ask)
    ensures TicketsKept(Do(plan, s, Ask))
  {
    assert Outstanding(Do(plan, s, Ask)) == [Request(|s.replies|, Ref(s.loop, s.loop.phase.idx))];
  }

  predicate AnswersSlot(a: Action) {
    a.DropSlot? || a.Approve? || a.Deny? || a.CancelDenies? || a.DenyParked?
  }

  lemma TicketsResolved(s: State, r: Reply)
    requires TicketsKept(s) && !r.Open?
    ensures TicketsKept(ResolveSlot(s, r))
  {
    if s.slot.Some? {
      assert Outstanding(s)[|s.channel|] == s.slot.value;
    }
  }

  lemma TicketsAnswer(plan: Plan, s: State, a: Action)
    requires TicketsKept(s) && Enabled(plan, s, a) && AnswersSlot(a)
    ensures TicketsKept(Do(plan, s, a))
  {
    var r := if a.DropSlot? then Dropped else if a.Approve? then Answered(Approved) else Answered(Denied);
    TicketsResolved(s, r);
    assert Outstanding(Do(plan, s, a)) == Outstanding(ResolveSlot(s, r));
  }

  lemma OutstandingIsOpen(s: State)
    requires TicketsKept(s)
    ensures Outstanding(s) != [] ==> |s.replies| > 0 && s.replies[|s.replies| - 1].Open?
  {
    if Outstanding(s) != [] {
      assert Outstanding(s)[0].ticket + 1 == |s.replies|;
    }
  }

  /** The answered request is the only one there was. */
  lemma TicketsHear(plan: Plan, s: State)
    requires TicketsKept(s) && Enabled(plan, s, Hear)
    ensures TicketsKept(Do(plan, s, Hear))
  {
    OutstandingIsOpen(s);
    assert Outstanding(Do(plan, s, Hear)) == Outstanding(s);
  }

  /** The loop's other steps leave the requests alone. */
  lemma TicketsMove(plan: Plan, s: State, a: Action)
    requires TicketsKept(s) && Enabled(plan, s, a)
    requires !AnswersSlot(a) && !a.Park? && !a.CloseChannel? && !a.Ask? && !a.Hear?
    ensures TicketsKept(Do(plan, s, a))
  {
    assert Outstanding(Do(plan, s, a)) == Outstanding(s);
  }

  lemma TicketsStep(plan: Plan, s: State, a: Action)
    requires TicketsKept(s) && Enabled(plan, s, a)
    ensures TicketsKept(Do(plan, s, a))
  {
    if a.Park? {
      TicketsPark(plan, s);
    } else if a.CloseChannel? {
      TicketsClose(plan, s);
    } else if a.Ask? {
      TicketsAsk(plan, s);
    } else if AnswersSlot(a) {
      TicketsAnswer(plan, s, a);
    } else if a.Hear? {
      TicketsHear(plan, s);
    } else {
      TicketsMove(plan, s, a);
    }
  }

  /** Replies are given once and never taken back. */
  ghost predicate RepliesGrow(s: State, s': State) {
    && |s.owners| == |s.replies| && |s'.owners| == |s'.replies|
    && s.owners <= s'.owners
    && |s.replies| <= |s'.replies|
    && forall t :: 0 <= t < |s.replies| && !s.replies[t].Open? ==> s'.replies[t] == s.replies[t]
  }

  lemma {:induction false} DropAllKeeps(replies: seq<Reply>, reqs: seq<Request>)
    ensures forall t :: 0 <= t < |replies| && !replies[t].Open? ==> DropAll(replies, reqs)[t] == replies[t]
    decreases |reqs|
  {
    if reqs != [] { DropAllKeeps(Deliver(replies, reqs[0].ticket, Dropped), reqs[1..]); }
  }

  lemma RepliesStep(plan: Plan, s: State, a: Action)
    requires TicketsKept(s) && Enabled(plan, s, a)
    ensures RepliesGrow(s, Do(plan, s, a))
  {
    if a.CloseChannel? {
      DropAllKeeps(s.replies, s.channel);
    } else if AnswersSlot(a) {
      RepliesAnswer(plan, s, a);
    }
  }

  lemma RepliesAnswer(plan: Plan, s: State, a: Action)
    requires TicketsKept(s) && Enabled(plan, s, a) && AnswersSlot(a)
    ensures RepliesGrow(s, Do(plan, s, a))
  {}

  lemma ClearedKept(plan: Plan, s: State, s': State, c: CallRef)
    requires RepliesGrow(s, s') && Cleared(plan, s, c)
    ensures Cleared(plan, s', c)
  {
    if !Calls(plan, c.round)[c.idx].auto {
      var t :| 0 <= t < |s.replies| && ApprovedFor(s, t, c);
      assert ApprovedFor(s', t, c);
    }
  }

  /** An answered request clears exactly the call it was raised for. */
  lemma HeardClears(plan: Plan, s: State)
    requires TicketsKept(s) && LoopKept(plan, s) && Enabled(plan, s, Hear)
    requires s.replies[s.loop.phase.ticket] == Answered(Approved)
    ensures Cleared(plan, s, Ref(s.loop, s.loop.phase.at))
  {
    assert ApprovedFor(s, s.loop.phase.ticket, Ref(s.loop, s.loop.phase.at));
  }

  predicate IsLoopAction(a: Action) {
    || a.Reject? || a.ClearAuto? || a.Ask? || a.AskClosed? || a.Hear?
    || a.BeginRun? || a.StartParallel? || a.FinishParallel?
    || a.BeginSerial? || a.StartSerial? || a.FinishSerial? || a.NextRound? || a.Stop? || a.Interrupted?
  }

  /** The bridge, the keyboard and the teardown never touch what the loop holds. */
  lemma OthersLeaveTheLoop(plan: Plan, s: State, a: Action)
    requires Enabled(plan, s, a) && !IsLoopAction(a)
    ensures Do(plan, s, a).loop == s.loop
  {}

  lemma LoopKeptByOthers(plan: Plan, s: State, s': State)
    requires LoopKept(plan, s) && RepliesGrow(s, s') && s'.loop == s.loop
    ensures LoopKept(plan, s')
  {
    var l := s.loop;
    forall i | 0 <= i < |l.toRun| ensures Cleared(plan, s', Ref(l, l.toRun[i])) {
      ClearedKept(plan, s, s', Ref(l, l.toRun[i]));
    }
    forall i | 0 <= i < |l.started| ensures Cleared(plan, s', l.started[i]) {
      ClearedKept(plan, s, s', l.started[i]);
    }
  }

  /** Moving to the next call, taking the current one along only if it is cleared. */
  lemma LoopKeptAdvancing(plan: Plan, s: State, run: bool)
    requires LoopKept(plan, s) && (s.loop.phase.Gating? || s.loop.phase.Awaiting?)
    requires GatedUpTo(plan, s.loop) < |Calls(plan, s.loop.round)|
    requires run ==> Cleared(plan, s, Ref(s.loop, GatedUpTo(plan, s.loop)))
    ensures LoopKept(plan, s.(loop := Advance(s.loop, run)))
  {
    var s' := s.(loop := Advance(s.loop, run));
    forall c | Cleared(plan, s, c) ensures Cleared(plan, s', c) { SameReplies(plan, s, s', c); }
  }

  lemma SameReplies(plan: Plan, s: State, s': State, c: CallRef)
    requires s'.replies == s.replies && s'.owners == s.owners && Cleared(plan, s, c)
    ensures Cleared(plan, s', c)
  {
    if !Calls(plan, c.round)[c.idx].auto {
      var t :| 0 <= t < |s.replies| && ApprovedFor(s, t, c);
      assert ApprovedFor(s', t, c);
    }
  }

  lemma LoopKeptStarting(plan: Plan, s: State, i: nat)
    requires LoopKept(plan, s) && (s.loop.phase.RunningParallel? || s.loop.phase.RunningSerial?)
    requires i in s.loop.toRun && Ref(s.loop, i) !in s.loop.started
    ensures LoopKept(plan, s.(loop := s.loop.(started := s.loop.started + [Ref(s.loop, i)])))
  {
    var s' := s.(loop := s.loop.(started := s.loop.started + [Ref(s.loop, i)]));
    forall c | Cleared(plan, s, c) ensures Cleared(plan, s', c) { SameReplies(plan, s, s', c); }
    var a :| 0 <= a < |s.loop.toRun| && s.loop.toRun[a] == i;
    assert Cleared(plan, s, Ref(s.loop, i));
  }

  /** Bookkeeping that adds no call to run and none started. */
  lemma LoopKeptMoving(plan: Plan, s: State, phase: Phase, done: set<CallRef>)
    requires LoopKept(plan, s) && !phase.Gating? && !phase.Awaiting?
    requires forall c :: c in done ==> c in s.loop.started
    ensures LoopKept(plan, s.(loop := s.loop.(phase := phase, done := done)))
  {
    var s' := s.(loop := s.loop.(phase := phase, done := done));
    forall c | Cleared(plan, s, c) ensures Cleared(plan, s', c) { SameReplies(plan, s, s', c); }
  }

  lemma LoopKeptAsking(plan: Plan, s: State)
    requires TicketsKept(s) && LoopKept(plan, s) && Enabled(plan, s, Ask)
    ensures LoopKept(plan, Do(plan, s, Ask))
  {
    var s' := Do(plan, s, Ask);
    RepliesStep(plan, s, Ask);
    var asked := s'.(loop := s.loop);
    LoopKeptByOthers(plan, s, asked);
    forall c | Cleared(plan, asked, c) ensures Cleared(plan, s', c) { SameReplies(plan, asked, s', c); }
  }

  lemma LoopKeptNextRound(plan: Plan, s: State)
    requires LoopKept(plan, s) && Enabled(plan, s, NextRound)
    ensures LoopKept(plan, Do(plan, s, NextRound))
  {
    var s' := Do(plan, s, NextRound);
    forall c | Cleared(plan, s, c) ensures Cleared(plan, s', c) { SameReplies(plan, s, s', c); }
  }

  predicate IsGating(a: Action) {
    a.Reject? || a.ClearAuto? || a.AskClosed? || a.Hear? || a.Ask?
  }

  lemma LoopGates(plan: Plan, s: State, a: Action)
    requires TicketsKept(s) && LoopKept(plan, s) && Enabled(plan, s, a) && IsGating(a)
    ensures LoopKept(plan, Do(plan, s, a))
  {
    match a {
      case Reject => LoopKeptAdvancing(plan, s, false);
      case ClearAuto => LoopKeptAdvancing(plan, s, true);
      case AskClosed => LoopKeptAdvancing(plan, s, false);
      case Hear =>
        var run := s.replies[s.loop.phase.ticket] == Answered(Approved);
        if run { HeardClears(plan, s); }
        LoopKeptAdvancing(plan, s, run);
      case Ask => LoopKeptAsking(plan, s);
    }
  }

  lemma LoopStartsSerial(plan: Plan, s: State)
    requires LoopKept(plan, s) && Enabled(plan, s, StartSerial)
    ensures LoopKept(plan, Do(plan, s, StartSerial))
  {
    var i := SerialOf(plan, s.loop)[s.loop.phase.k];
    assert i in SerialOf(plan, s.loop);
    LoopKeptStarting(plan, s, i);
  }

  lemma LoopFinishesSerial(plan: Plan, s: State)
    requires LoopKept(plan, s) && Enabled(plan, s, FinishSerial)
    ensures LoopKept(plan, Do(plan, s, FinishSerial))
  {
    var phase, c := RunningSerial(s.loop.phase.k + 1), Ref(s.loop, SerialOf(plan, s.loop)[s.loop.phase.k]);
    LoopKeptMoving(plan, s, phase, s.loop.done + {c});
    assert Do(plan, s, FinishSerial) == s.(loop := s.loop.(phase := phase, done := s.loop.done + {c}));
  }

  lemma LoopMoves(plan: Plan, s: State, a: Action)
    requires TicketsKept(s) && LoopKept(plan, s) && Enabled(plan, s, a)
    requires a.BeginRun? || a.FinishParallel? || a.BeginSerial? || a.Stop? || a.Interrupted?
    ensures LoopKept(plan, Do(plan, s, a))
  {
    if a.BeginRun? {
      LoopKeptMoving(plan, s, RunningParallel, s.loop.done);
    } else if a.FinishParallel? {
      LoopKeptMoving(plan, s, s.loop.phase, s.loop.done + {Ref(s.loop, a.idx)});
    } else if a.BeginSerial? {
      LoopKeptMoving(plan, s, RunningSerial(0), s.loop.done);
    } else {
      LoopKeptMoving(plan, s, Over, s.loop.done);
    }
  }

  lemma LoopStep(plan: Plan, s: State, a: Action)
    requires TicketsKept(s) && LoopKept(plan, s) && Enabled(plan, s, a)
    ensures LoopKept(plan, Do(plan, s, a))
  {
    if IsGating(a) {
      LoopGates(plan, s, a);
    } else if a.StartSerial? {
      LoopStartsSerial(plan, s);
    } else if a.FinishSerial? {
      LoopFinishesSerial(plan, s);
    } else if a.BeginRun? || a.FinishParallel? || a.BeginSerial? || a.Stop? || a.Interrupted? {
      LoopMoves(plan, s, a);
    } else if a.StartParallel? {
      LoopKeptStarting(plan, s, a.idx);
    } else if a.NextRound? {
      LoopKeptNextRound(plan, s);
    } else {
      OthersLeaveTheLoop(plan, s, a);
      RepliesStep(plan, s, a);
      LoopKeptByOthers(plan, s, Do(plan, s, a));
    }
  }

  // --- order ---

  predicate Ascending(xs: seq<nat>) {
    forall a, b :: 0 <= a < b < |xs| ==> xs[a] < xs[b]
  }

  lemma {:induction false} FilteredAscends(calls: seq<Call>, xs: seq<nat>)
    requires Ascending(xs)
    ensures Ascending(Filtered(calls, xs))
  {
    if xs != [] {
      FilteredAscends(calls, xs[1..]);
      var rest := Filtered(calls, xs[1..]);
      forall b | 0 <= b < |rest| ensures xs[0] < rest[b] {
        assert rest[b] in rest;
        var k :| 0 <= k < |xs[1..]| && xs[1..][k] == rest[b];
        assert xs[k + 1] == rest[b];
      }
    }
  }

  lemma SerialDistinct(plan: Plan, s: State)
    requires LoopKept(plan, s)
    ensures Ascending(SerialOf(plan, s.loop))
    ensures forall i: nat :: i in SerialOf(plan, s.loop) <==> i in s.loop.toRun && !IsParallel(plan, s.loop, i)
  {
    FilteredAscends(Calls(plan, s.loop.round), s.loop.toRun);
  }

  lemma OrderStartSerial(plan: Plan, s: State)
    requires LoopKept(plan, s) && OrderKept(plan, s) && Enabled(plan, s, StartSerial)
    ensures OrderKept(plan, Do(plan, s, StartSerial))
  {
    SerialDistinct(plan, s);
    var l, l' := s.loop, Do(plan, s, StartSerial).loop;
    assert SerialOf(plan, l') == SerialOf(plan, l);
  }

  lemma OrderFinishSerial(plan: Plan, s: State)
    requires LoopKept(plan, s) && OrderKept(plan, s) && Enabled(plan, s, FinishSerial)
    ensures OrderKept(plan, Do(plan, s, FinishSerial))
  {
    var l := s.loop;
    var serial, k := SerialOf(plan, l), l.phase.k;
    SerialDistinct(plan, s);
    NextSerial(l, serial, k);
    MoreDone(plan, l, Ref(l, serial[k]), RunningSerial(k + 1));
    assert Do(plan, s, FinishSerial).loop == l.(done := l.done + {Ref(l, serial[k])}, phase := RunningSerial(k + 1));
  }

  lemma MoreDone(plan: Plan, l: Loop, c: CallRef, phase: Phase)
    requires AllParallelDone(plan, l)
    ensures var l' := l.(done := l.done + {c}, phase := phase);
      AllParallelDone(plan, l') && SerialOf(plan, l') == SerialOf(plan, l)
  {}

  lemma NextSerial(l: Loop, serial: seq<nat>, k: nat)
    requires SerialKept(l, serial, k) && k < |serial| && Ascending(serial)
    ensures SerialKept(l.(done := l.done + {Ref(l, serial[k])}, phase := RunningSerial(k + 1)), serial, k + 1)
  {}

  lemma OrderNextRound(plan: Plan, s: State)
    requires LoopKept(plan, s) && OrderKept(plan, s) && Enabled(plan, s, NextRound)
    ensures OrderKept(plan, Do(plan, s, NextRound))
  {
    SerialDistinct(plan, s);
    var l := s.loop;
    forall c | c in l.started && c.round <= l.round ensures c in l.done {
      if c.round == l.round {
        StartedThisRound(plan, s, c);
        if !IsParallel(plan, l, c.idx) {
          assert c.idx in SerialOf(plan, l);
          var j :| 0 <= j < |SerialOf(plan, l)| && SerialOf(plan, l)[j] == c.idx;
          assert Ref(l, SerialOf(plan, l)[j]) in l.done;
        }
      }
    }
  }

  lemma StartedThisRound(plan: Plan, s: State, c: CallRef)
    requires LoopKept(plan, s) && c in s.loop.started && c.round == s.loop.round
    ensures c.idx in s.loop.toRun && c == Ref(s.loop, c.idx)
  {
    var a :| 0 <= a < |s.loop.started| && s.loop.started[a] == c;
  }

  lemma OrderBeginSerial(plan: Plan, s: State)
    requires LoopKept(plan, s) && OrderKept(plan, s) && Enabled(plan, s, BeginSerial)
    ensures OrderKept(plan, Do(plan, s, BeginSerial))
  {
    SerialDistinct(plan, s);
    var l, l' := s.loop, Do(plan, s, BeginSerial).loop;
    assert SerialOf(plan, l') == SerialOf(plan, l);
    forall j | 0 <= j < |SerialOf(plan, l)| ensures Ref(l, SerialOf(plan, l)[j]) !in l.started {
      assert SerialOf(plan, l)[j] in SerialOf(plan, l);
    }
  }

  lemma OrderStep(plan: Plan, s: State, a: Action)
    requires LoopKept(plan, s) && OrderKept(plan, s) && Enabled(plan, s, a)
    ensures OrderKept(plan, Do(plan, s, a))
  {
    match a {
      case StartSerial => OrderStartSerial(plan, s);
      case FinishSerial => OrderFinishSerial(plan, s);
      case NextRound => OrderNextRound(plan, s);
      case BeginSerial => OrderBeginSerial(plan, s);
      case _ =>
    }
  }

  lemma InvStep(plan: Plan, s: State, a: Action)
    requires Inv(plan, s) && Enabled(plan, s, a)
    ensures Inv(plan, Do(plan, s, a))
  {
    TicketsStep(plan, s, a);
    LoopStep(plan, s, a);
    OrderStep(plan, s, a);
  }

  lemma {:induction false} InvAfter(plan: Plan, s: State, actions: seq<Action>)
    requires Inv(plan, s) && After(plan, s, actions).Some?
    ensures Inv(plan, After(plan, s, actions).value)
    decreases |actions|
  {
    if actions != [] {
      InvStep(plan, s, actions[0]);
      InvAfter(plan, Do(plan, s, actions[0]), actions[1..]);
    }
  }

  lemma InvReachable(plan: Plan, s: State)
    requires Reachable(plan, s)
    ensures Inv(plan, s)
  {
    var actions :| After(plan, Initial, actions) == Some(s);
    InvAfter(plan, Initial, actions);
  }

  // --- the results ---

  /** Over every interleaving: a call is started at most once, and only if it parsed and the
      gate cleared it or the user approved the request raised for that very call. */
  lemma StartedOnceAndCleared(plan: Plan, s: State)
    requires Reachable(plan, s)
    ensures forall a, b :: 0 <= a < b < |s.loop.started| ==> s.loop.started[a] != s.loop.started[b]
    ensures forall c :: c in s.loop.started ==> Cleared(plan, s, c)
  {
    InvReachable(plan, s);
  }

  /** Fail closed: a call that needs the user never starts while no request raised for it
      was approved, be they pending, denied, dropped or never heard. */
  lemma UnapprovedNeverStarts(plan: Plan, s: State, c: CallRef)
    requires Reachable(plan, s)
    requires c.idx < |Calls(plan, c.round)| && !Calls(plan, c.round)[c.idx].auto
    requires forall t :: 0 <= t < |s.replies| ==> !ApprovedFor(s, t, c)
    ensures c !in s.loop.started
  {
    StartedOnceAndCleared(plan, s);
  }

  lemma StartedHasEnded(plan: Plan, s: State, c: CallRef)
    requires Inv(plan, s) && Enabled(plan, s, StartSerial) && c in s.loop.started
    ensures c in s.loop.done
  {
    var l := s.loop;
    var a :| 0 <= a < |l.started| && l.started[a] == c;
    if c.round == l.round {
      SerialDistinct(plan, s);
      StartedThisRound(plan, s, c);
      if !IsParallel(plan, l, c.idx) {
        assert c.idx in SerialOf(plan, l);
        var j :| 0 <= j < |SerialOf(plan, l)| && SerialOf(plan, l)[j] == c.idx;
        assert Ref(l, SerialOf(plan, l)[j]) == c;
      }
    }
  }

  /** A call that runs alone starts only when nothing else is running: everything started
      before, in this round and earlier ones, has ended, and all parallel calls are done. */
  lemma SerialStartsAlone(plan: Plan, s: State)
    requires Reachable(plan, s) && Enabled(plan, s, StartSerial)
    ensures forall c :: c in s.loop.started ==> c in s.loop.done
    ensures AllParallelDone(plan, s.loop)
    ensures forall j :: 0 <= j < s.loop.phase.k ==> Ref(s.loop, SerialOf(plan, s.loop)[j]) in s.loop.done
  {
    InvReachable(plan, s);
    forall c | c in s.loop.started ensures c in s.loop.done {
      StartedHasEnded(plan, s, c);
    }
  }

  /** While such a call runs nothing else starts. */
  lemma NothingBesideSerial(plan: Plan, s: State, c: CallRef, i: nat)
    requires Reachable(plan, s)
    requires c in s.loop.started && c !in s.loop.done
    requires c.idx < |Calls(plan, c.round)| && !Calls(plan, c.round)[c.idx].parallelSafe
    ensures !Enabled(plan, s, StartSerial) && !Enabled(plan, s, StartParallel(i))
  {
    InvReachable(plan, s);
    var a :| 0 <= a < |s.loop.started| && s.loop.started[a] == c;
    if Enabled(plan, s, StartSerial) {
      SerialStartsAlone(plan, s);
    }
  }

  /** The bridge never finds the slot taken: at most one request is on its way at a time, so
      its denial of an older one is never needed. */
  lemma NeverTwoRequests(plan: Plan, s: State)
    requires Reachable(plan, s)
    ensures |s.channel| + (if s.slot.Some? then 1 else 0) <= 1
    ensures Enabled(plan, s, Park) ==> s.slot == None
  {
    InvReachable(plan, s);
  }

  // --- nothing gets stuck ---

  /** An enabled step of the loop that gets it somewhere, other than being interrupted. */
  ghost predicate Moves(plan: Plan, s: State, a: Action) {
    IsLoopAction(a) && !a.Interrupted? && Enabled(plan, s, a) && Do(plan, s, a).loop != s.loop
  }

  /** The request the loop waits for is parked for the keyboard, or in the channel of a live
      bridge. */
  predicate RequestIsThere(s: State)
    requires s.loop.phase.Awaiting?
  {
    || (s.slot.Some? && s.slot.value.ticket == s.loop.phase.ticket)
    || (s.bridgeAlive && s.channel != [] && s.channel[0].ticket == s.loop.phase.ticket)
  }

  lemma GatingMoves(plan: Plan, s: State)
    requires Inv(plan, s) && s.loop.phase.Gating?
    ensures exists a :: Moves(plan, s, a)
  {
    if s.loop.phase.idx == |Calls(plan, s.loop.round)| {
      assert Moves(plan, s, BeginRun);
    } else if !CurrentCall(plan, s).parsed {
      assert Moves(plan, s, Reject);
    } else if CurrentCall(plan, s).auto {
      assert Moves(plan, s, ClearAuto);
    } else if s.bridgeAlive {
      assert Outstanding(s) == [];
      assert Moves(plan, s, Ask);
    } else {
      assert Moves(plan, s, AskClosed);
    }
  }

  lemma WaitingMoves(plan: Plan, s: State)
    requires Inv(plan, s) && s.loop.phase.Awaiting?
    ensures Moves(plan, s, Hear) || RequestIsThere(s)
  {
    var t := s.loop.phase.ticket;
    if s.replies[t].Open? {
      assert Outstanding(s)[0].ticket == t;
    } else {
      assert Moves(plan, s, Hear);
    }
  }

  lemma ParallelMoves(plan: Plan, s: State)
    requires Inv(plan, s) && s.loop.phase.RunningParallel?
    ensures exists a :: Moves(plan, s, a)
  {
    if AllParallelDone(plan, s.loop) {
      assert Moves(plan, s, BeginSerial);
    } else {
      var i :| i in s.loop.toRun && IsParallel(plan, s.loop, i) && Ref(s.loop, i) !in s.loop.done;
      if Ref(s.loop, i) in s.loop.started {
        assert Moves(plan, s, FinishParallel(i));
      } else {
        var s' := Do(plan, s, StartParallel(i));
        assert |s'.loop.started| != |s.loop.started|;
        assert Moves(plan, s, StartParallel(i));
      }
    }
  }

  lemma SerialMoves(plan: Plan, s: State)
    requires Inv(plan, s) && s.loop.phase.RunningSerial?
    ensures exists a :: Moves(plan, s, a)
  {
    if RoundDone(plan, s) {
      assert Moves(plan, s, Stop);
    } else if MayFinishSerial(plan, s) {
      assert Moves(plan, s, FinishSerial);
    } else {
      assert |Do(plan, s, StartSerial).loop.started| != |s.loop.started|;
      assert Moves(plan, s, StartSerial);
    }
  }

  /** In every reachable state before the end, the loop has a step to take or waits for a
      request that the keyboard has or will get; a request is never lost, and the loop never
      waits for room in the channel. */
  lemma NeverStuck(plan: Plan, s: State)
    requires Reachable(plan, s) && !s.loop.phase.Over?
    ensures (exists a :: Moves(plan, s, a)) || (s.loop.phase.Awaiting? && RequestIsThere(s))
  {
    InvReachable(plan, s);
    match s.loop.phase {
      case Gating(_) => GatingMoves(plan, s);
      case Awaiting(_, _) => WaitingMoves(plan, s);
      case RunningParallel => ParallelMoves(plan, s);
      case RunningSerial(_) => SerialMoves(plan, s);
    }
  }

  /** The keyboard's answer reaches the loop, whichever it is. */
  lemma AnswerArrives(plan: Plan, s: State, d: Decision) returns (actions: seq<Action>)
    requires Reachable(plan, s) && s.loop.phase.Awaiting? && !Enabled(plan, s, Hear) && !s.cancelling
    ensures 0 < |actions| <= 2 && After(plan, s, actions).Some?
    ensures actions[|actions| - 1] == if d == Approved then Approve else Deny
    ensures var s' := After(plan, s, actions).value;
      && s'.loop == s.loop && Enabled(plan, s', Hear)
      && s'.replies[s.loop.phase.ticket] == Answered(d)
  {
    InvReachable(plan, s);
    WaitingMoves(plan, s);
    var answer := if d == Approved then Approve else Deny;
    if s.slot.Some? {
      actions := [answer] + [];
      AfterFront(plan, s, answer, []);
    } else {
      var parked := Do(plan, s, Park);
      actions := [Park] + ([answer] + []);
      AfterFront(plan, s, Park, [answer] + []);
      AfterFront(plan, parked, answer, []);
      assert s.channel[0] == Outstanding(s)[0];
    }
  }

  // --- every round ends ---

  /** Of the first `n` calls of the round, how many have yet to start and yet to end. */
  function Missing(l: Loop, n: nat): nat {
    if n == 0 then 0
    else
      Missing(l, n - 1) + (if Ref(l, n - 1) in l.started then 0 else 1) + (if Ref(l, n - 1) in l.done then 0 else 1)
  }

  lemma {:induction false} MissingDrops(l: Loop, l': Loop, n: nat, i: nat)
    requires l'.round == l.round && i < n
    requires forall k: nat :: Ref(l, k) in l'.started <==> Ref(l, k) in l.started || (k == i && Ref(l, i) in l'.started)
    requires forall k: nat :: Ref(l, k) in l'.done <==> Ref(l, k) in l.done || (k == i && Ref(l, i) in l'.done)
    requires (Ref(l, i) in l'.started && Ref(l, i) !in l.started) || (Ref(l, i) in l'.done && Ref(l, i) !in l.done)
    ensures Missing(l', n) < Missing(l, n)
    decreases n
  {
    if i < n - 1 {
      MissingDrops(l, l', n - 1, i);
    } else {
      MissingSame(l, l', n - 1);
    }
  }

  lemma {:induction false} MissingSame(l: Loop, l': Loop, n: nat)
    requires l'.round == l.round
    requires forall k: nat :: k < n ==> (Ref(l, k) in l'.started <==> Ref(l, k) in l.started)
    requires forall k: nat :: k < n ==> (Ref(l, k) in l'.done <==> Ref(l, k) in l.done)
    ensures Missing(l', n) == Missing(l, n)
  {
    if n > 0 { MissingSame(l, l', n - 1); }
  }

  /** What is left of a round: the stages to come, and the work left in this one. */
  function Stage(l: Loop): nat {
    match l.phase
    case Gating(_) => 3
    case Awaiting(_, _) => 3
    case RunningParallel => 2
    case RunningSerial(_) => 1
    case Over => 0
  }

  function Left(plan: Plan, l: Loop): int {
    var n := |Calls(plan, l.round)|;
    match l.phase
    case Gating(i) => 2 * (n - i) + 1
    case Awaiting(i, _) => 2 * (n - i)
    case RunningParallel => Missing(l, n)
    case RunningSerial(k) =>
      var serial := SerialOf(plan, l);
      2 * (|serial| - k) + if k < |serial| && Ref(l, serial[k]) in l.started then 0 else 1
    case Over => 0
  }

  lemma LeftIsBounded(plan: Plan, s: State)
    requires Inv(plan, s)
    ensures Left(plan, s.loop) >= 0
  {}

  predicate Nearer(plan: Plan, l: Loop, l': Loop) {
    Stage(l') < Stage(l) || (Stage(l') == Stage(l) && Left(plan, l') < Left(plan, l))
  }

  lemma ParallelNearer(plan: Plan, s: State, a: Action)
    requires Inv(plan, s) && (a.StartParallel? || a.FinishParallel?) && Moves(plan, s, a)
    ensures Nearer(plan, s.loop, Do(plan, s, a).loop)
  {
    var l, l' := s.loop, Do(plan, s, a).loop;
    MissingDrops(l, l', |Calls(plan, l.round)|, a.idx);
  }

  lemma SerialNearer(plan: Plan, s: State, a: Action)
    requires Inv(plan, s) && (a.StartSerial? || a.FinishSerial?) && Moves(plan, s, a)
    ensures Nearer(plan, s.loop, Do(plan, s, a).loop)
  {
    var l, l' := s.loop, Do(plan, s, a).loop;
    assert SerialOf(plan, l') == SerialOf(plan, l);
  }

  /** Every step of the loop inside a round brings the round nearer to its end, so that with
      its requests answered a round ends after finitely many. */
  lemma RoundGetsNearer(plan: Plan, s: State, a: Action)
    requires Reachable(plan, s) && Moves(plan, s, a) && !a.NextRound?
    ensures Left(plan, s.loop) >= 0 && Nearer(plan, s.loop, Do(plan, s, a).loop)
  {
    InvReachable(plan, s);
    LeftIsBounded(plan, s);
    if a.StartParallel? || a.FinishParallel? {
      ParallelNearer(plan, s, a);
    } else if a.StartSerial? || a.FinishSerial? {
      SerialNearer(plan, s, a);
    }
  }

  // --- after the turn ---

  lemma {:induction false} OverIsFinal(plan: Plan, s: State, actions: seq<Action>)
    requires s.loop.phase.Over? && After(plan, s, actions).Some?
    ensures After(plan, s, actions).value.loop == s.loop
    decreases |actions|
  {
    if actions != [] {
      assert !IsLoopAction(actions[0]);
      OthersLeaveTheLoop(plan, s, actions[0]);
      OverIsFinal(plan, Do(plan, s, actions[0]), actions[1..]);
    }
  }

  /** Once the loop has ended, no answer to a late request makes any difference to what ran. */
  lemma LateAnswersDoNothing(plan: Plan, s: State, late: Action, rest: seq<Action>)
    requires Reachable(plan, s) && s.loop.phase.Over?
    requires Enabled(plan, s, late) && After(plan, Do(plan, s, late), rest).Some?
    ensures After(plan, Do(plan, s, late), rest).value.loop.started == s.loop.started
  {
    OverIsFinal(plan, s, [late] + rest);
    assert ([late] + rest)[1..] == rest;
  }

  ghost predicate StaysEmpty(plan: Plan, s: State) {
    forall actions :: After(plan, s, actions).Some? ==> After(plan, s, actions).value.slot == None
  }

  /** A request parked on the keyboard of a turn that is no longer active. */
  predicate ParkedWhileInactive(s: State) {
    !Active(s) && s.slot.Some?
  }

  /** The teardown is meant to leave no parked request on an inactive turn. It does so
      exactly when the channel is empty at the moment the parked request is denied. */
  lemma TeardownIsCleanIff(plan: Plan, s: State)
    requires Reachable(plan, s) && Enabled(plan, s, DenyParked)
    ensures StaysEmpty(plan, Do(plan, s, DenyParked)) <==> s.channel == []
    ensures s.channel != [] ==>
      exists actions :: After(plan, s, actions).Some? && ParkedWhileInactive(After(plan, s, actions).value)
  {
    InvReachable(plan, s);
    var s' := Do(plan, s, DenyParked);
    if s.channel == [] {
      forall actions | After(plan, s', actions).Some? ensures After(plan, s', actions).value.slot == None {
        StaysIdle(plan, s', actions);
      }
    } else {
      ParkedLate(plan, s);
      assert After(plan, s', [Park]) == After(plan, Do(plan, s', Park), []);
      assert After(plan, s', [Park]).value.slot.Some?;
    }
  }

  lemma {:induction false} StaysIdle(plan: Plan, s: State, actions: seq<Action>)
    requires s.loop.phase.Over? && s.channel == [] && s.slot == None && After(plan, s, actions).Some?
    ensures After(plan, s, actions).value.slot == None
    decreases |actions|
  {
    if actions != [] { StaysIdle(plan, Do(plan, s, actions[0]), actions[1..]); }
  }

  lemma AfterFront(plan: Plan, s: State, a: Action, rest: seq<Action>)
    requires Enabled(plan, s, a)
    ensures After(plan, s, [a] + rest) == After(plan, Do(plan, s, a), rest)
  {
    assert ([a] + rest)[1..] == rest;
  }

  const LATE_PARK: seq<Action> := [DenyParked] + ([ClearActive] + ([Park] + []))

  lemma ParkedLate(plan: Plan, s: State)
    requires TicketsKept(s) && Enabled(plan, s, DenyParked) && s.channel != []
    ensures After(plan, s, LATE_PARK).Some?
    ensures ParkedWhileInactive(After(plan, s, LATE_PARK).value)
    ensures After(plan, s, LATE_PARK).value.cancelling == s.cancelling
  {
    var s1 := Do(plan, s, DenyParked);
    var s2 := Do(plan, s1, ClearActive);
    AfterFront(plan, s, DenyParked, [ClearActive] + ([Park] + []));
    AfterFront(plan, s1, ClearActive, [Park] + []);
    AfterFront(plan, s2, Park, []);
  }

  const ONE_WRITE: Plan := [[Call(true, false, false)]]

  /** The one call asks, and the turn is cancelled before anyone answers. */
  lemma AskedThenCancelled() returns (s: State)
    ensures Reachable(ONE_WRITE, s) && Enabled(ONE_WRITE, s, DenyParked) && s.channel != [] && !s.cancelling
  {
    var s1 := Do(ONE_WRITE, Initial, Ask);
    var s2 := Do(ONE_WRITE, s1, Cancel);
    var s3 := Do(ONE_WRITE, s2, CancelDenies);
    s := Do(ONE_WRITE, s3, Interrupted);
    AfterFront(ONE_WRITE, Initial, Ask, [Cancel] + ([CancelDenies] + ([Interrupted] + [])));
    AfterFront(ONE_WRITE, s1, Cancel, [CancelDenies] + ([Interrupted] + []));
    AfterFront(ONE_WRITE, s2, CancelDenies, [Interrupted] + []);
    AfterFront(ONE_WRITE, s3, Interrupted, []);
  }

  lemma ReachedFurther(plan: Plan, s: State, more: seq<Action>)
    requires Reachable(plan, s) && After(plan, s, more).Some?
    ensures Reachable(plan, After(plan, s, more).value)
  {
    var actions :| After(plan, Initial, actions) == Some(s);
    AfterConcat(plan, Initial, actions, more);
  }

  /** And that moment is reached: a turn cancelled right after it asks. */
  lemma LateParkHappens()
    ensures exists plan, s :: Reachable(plan, s) && ParkedWhileInactive(s) && !s.cancelling
  {
    var s := AskedThenCancelled();
    InvReachable(ONE_WRITE, s);
    ParkedLate(ONE_WRITE, s);
    ReachedFurther(ONE_WRITE, s, LATE_PARK);
  }

  lemma {:induction false} AfterConcat(plan: Plan, s: State, a: seq<Action>, b: seq<Action>)
    requires After(plan, s, a).Some?
    ensures After(plan, s, a + b) == After(plan, After(plan, s, a).value, b)
    decreases |a|
  {
    if a == [] {
      assert a + b == b;
    } else {
      assert (a + b)[1..] == a[1..] + b;
      AfterConcat(plan, Do(plan, s, a[0]), a[1..], b);
    }
  }
}
