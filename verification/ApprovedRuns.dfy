/** What a round runs: exactly the calls that were cleared. */
module ApprovedRuns {
  import opened Text
  import opened Turn
  import opened Approvals

  /** The call was raised for in an earlier round, or earlier in this one, or is being waited for. */
  predicate RaisedBefore(plan: Plan, l: Loop, c: CallRef) {
    || c.round < l.round
    || (c.round == l.round && c.idx < GatedUpTo(plan, l))
    || (c.round == l.round && l.phase.Awaiting? && c.idx == l.phase.at)
  }

  predicate WaitsForUser(plan: Plan, l: Loop) {
    l.phase.Awaiting? ==> l.phase.at < |Calls(plan, l.round)| && !Calls(plan, l.round)[l.phase.at].auto
  }

  /** No call raises two requests, only one of the current round can be unanswered, and the
      loop waits only for calls that need the user. */
  ghost predicate OwnersKept(plan: Plan, s: State) {
    && |s.owners| == |s.replies| && WaitsForUser(plan, s.loop)
    && (forall t, u :: 0 <= t < u < |s.owners| ==> s.owners[t] != s.owners[u])
    && (forall t :: 0 <= t < |s.owners| ==> RaisedBefore(plan, s.loop, s.owners[t]))
    && (forall t :: 0 <= t < |s.owners| && s.replies[t].Open? ==> s.owners[t].round == s.loop.round)
  }

  /** The calls taken along so far are exactly those that were cleared. */
  ghost predicate ToRunKept(plan: Plan, s: State) {
    !s.loop.phase.Over? ==>
      forall i: nat :: i < GatedUpTo(plan, s.loop) ==>
        (i in s.loop.toRun <==> Cleared(plan, s, Ref(s.loop, i)))
  }

  /** In earlier rounds every cleared call was started. */
  ghost predicate PastKept(plan: Plan, s: State) {
    forall c: CallRef :: c.round < s.loop.round && Cleared(plan, s, c) ==> c in s.loop.started
  }

  ghost predicate RunsKept(plan: Plan, s: State) {
    OwnersKept(plan, s) && ToRunKept(plan, s) && PastKept(plan, s)
  }

  lemma OwnersStep(plan: Plan, s: State, a: Action)
    requires Inv(plan, s) && OwnersKept(plan, s) && Enabled(plan, s, a)
    ensures OwnersKept(plan, Do(plan, s, a))
  {
    RepliesStep(plan, s, a);
    OwnersGrow(plan, s, a);
    if a.Ask? {
      OwnersAsk(plan, s);
    } else if a.NextRound? {
      assert Outstanding(s) == [];
    }
  }

  lemma OwnersAsk(plan: Plan, s: State)
    requires Inv(plan, s) && OwnersKept(plan, s) && Enabled(plan, s, Ask)
    ensures OwnersKept(plan, Do(plan, s, Ask))
  {
    assert Outstanding(s) == [];
  }

  /** A reply that changes is the one being waited for. */
  lemma OnlyTheAwaited(plan: Plan, s: State, a: Action, t: nat)
    requires Inv(plan, s) && Enabled(plan, s, a) && t < |s.replies|
    requires Do(plan, s, a).replies[t] != s.replies[t]
    ensures s.replies[t].Open?
    ensures s.loop.phase.Over? || (s.loop.phase.Awaiting? && s.owners[t] == Ref(s.loop, s.loop.phase.at))
  {
    RepliesStep(plan, s, a);
  }

  lemma ApprovedBefore(plan: Plan, s: State, a: Action, c: CallRef, t: nat)
    requires Inv(plan, s) && OwnersKept(plan, s) && Enabled(plan, s, a)
    requires t < |Do(plan, s, a).replies| && ApprovedFor(Do(plan, s, a), t, c)
    requires s.loop.phase.Over? ==> c.round != s.loop.round
    requires s.loop.phase.Awaiting? ==> c != Ref(s.loop, s.loop.phase.at)
    requires a.Ask? ==> c != Ref(s.loop, s.loop.phase.idx)
    ensures t < |s.replies| && ApprovedFor(s, t, c)
  {
    var s' := Do(plan, s, a);
    RepliesStep(plan, s, a);
    if t < |s.replies| && s'.replies[t] != s.replies[t] {
      OnlyTheAwaited(plan, s, a, t);
    }
  }

  /** No step clears a call after the fact. */
  lemma ClearedBefore(plan: Plan, s: State, a: Action, c: CallRef)
    requires Inv(plan, s) && OwnersKept(plan, s) && Enabled(plan, s, a) && Cleared(plan, Do(plan, s, a), c)
    requires s.loop.phase.Over? ==> c.round != s.loop.round
    requires s.loop.phase.Awaiting? ==> c != Ref(s.loop, s.loop.phase.at)
    requires a.Ask? ==> c != Ref(s.loop, s.loop.phase.idx)
    ensures Cleared(plan, s, c)
  {
    var s' := Do(plan, s, a);
    if !Calls(plan, c.round)[c.idx].auto {
      var t :| 0 <= t < |s'.replies| && ApprovedFor(s', t, c);
      ApprovedBefore(plan, s, a, c, t);
    }
  }

  lemma SameCleared(plan: Plan, s: State, a: Action, c: CallRef)
    requires Inv(plan, s) && OwnersKept(plan, s) && Enabled(plan, s, a)
    requires s.loop.phase.Over? ==> c.round != s.loop.round
    requires s.loop.phase.Awaiting? ==> c != Ref(s.loop, s.loop.phase.at)
    requires a.Ask? ==> c != Ref(s.loop, s.loop.phase.idx)
    ensures Cleared(plan, Do(plan, s, a), c) <==> Cleared(plan, s, c)
  {
    RepliesStep(plan, s, a);
    if Cleared(plan, s, c) {
      ClearedKept(plan, s, Do(plan, s, a), c);
    } else if Cleared(plan, Do(plan, s, a), c) {
      ClearedBefore(plan, s, a, c);
    }
  }

  /** Of the call being gated, nothing was asked yet. */
  lemma NotAskedYet(plan: Plan, s: State)
    requires Inv(plan, s) && OwnersKept(plan, s) && GatingCall(plan, s)
    ensures var c := Ref(s.loop, s.loop.phase.idx);
      Cleared(plan, s, c) <==> CurrentCall(plan, s).parsed && CurrentCall(plan, s).auto
  {
    var c := Ref(s.loop, s.loop.phase.idx);
    forall t | 0 <= t < |s.replies| ensures !ApprovedFor(s, t, c) {
      assert RaisedBefore(plan, s.loop, s.owners[t]);
    }
  }

  /** The answer that is heard decides the call, as no other request was raised for it. */
  lemma HeardDecides(plan: Plan, s: State)
    requires Inv(plan, s) && OwnersKept(plan, s) && Enabled(plan, s, Hear)
    ensures var l := s.loop;
      Cleared(plan, s, Ref(l, l.phase.at)) <==> s.replies[l.phase.ticket] == Answered(Approved)
  {
    var l := s.loop;
    var c := Ref(l, l.phase.at);
    if s.replies[l.phase.ticket] == Answered(Approved) {
      assert ApprovedFor(s, l.phase.ticket, c);
    } else {
      forall t | 0 <= t < |s.replies| ensures !ApprovedFor(s, t, c) {
        assert t < l.phase.ticket ==> s.owners[t] != s.owners[l.phase.ticket];
      }
    }
  }

  /** Calls gated before stay as they were. */
  lemma EarlierStay(plan: Plan, s: State, a: Action, i: nat)
    requires Inv(plan, s) && RunsKept(plan, s) && Enabled(plan, s, a) && !s.loop.phase.Over? && !a.NextRound?
    requires i < GatedUpTo(plan, s.loop)
    ensures i in s.loop.toRun <==> Cleared(plan, Do(plan, s, a), Ref(s.loop, i))
  {
    SameCleared(plan, s, a, Ref(s.loop, i));
  }

  /** The call that a gating step decides is taken along exactly if it is cleared. */
  lemma DecidedNow(plan: Plan, s: State, a: Action)
    requires Inv(plan, s) && OwnersKept(plan, s) && Enabled(plan, s, a)
    requires a.Reject? || a.ClearAuto? || a.AskClosed? || a.Hear?
    ensures var i, s' := GatedUpTo(plan, s.loop), Do(plan, s, a);
      && GatedUpTo(plan, s'.loop) == i + 1 && s'.loop.round == s.loop.round
      && (i in s'.loop.toRun <==> Cleared(plan, s', Ref(s.loop, i)))
      && forall k :: k != i ==> (k in s'.loop.toRun <==> k in s.loop.toRun)
  {
    var i, s' := GatedUpTo(plan, s.loop), Do(plan, s, a);
    assert i !in s.loop.toRun;
    if a.Hear? {
      HeardDecides(plan, s);
    } else {
      NotAskedYet(plan, s);
    }
    if Cleared(plan, s, Ref(s.loop, i)) { SameReplies(plan, s, s', Ref(s.loop, i)); }
    if Cleared(plan, s', Ref(s.loop, i)) { SameReplies(plan, s', s, Ref(s.loop, i)); }
  }

  lemma ToRunStep(plan: Plan, s: State, a: Action)
    requires Inv(plan, s) && RunsKept(plan, s) && Enabled(plan, s, a)
    ensures ToRunKept(plan, Do(plan, s, a))
  {
    var s' := Do(plan, s, a);
    if s'.loop.phase.Over? || a.NextRound? {
    } else {
      forall i: nat | i < GatedUpTo(plan, s'.loop)
        ensures i in s'.loop.toRun <==> Cleared(plan, s', Ref(s'.loop, i))
      {
        if i < GatedUpTo(plan, s.loop) { EarlierStay(plan, s, a, i); }
        if a.Reject? || a.ClearAuto? || a.AskClosed? || a.Hear? { DecidedNow(plan, s, a); }
      }
    }
  }

  /** When a round is done, what was taken along was started and has ended. */
  lemma TakenHasRun(plan: Plan, s: State, i: nat)
    requires Inv(plan, s) && RoundDone(plan, s) && i in s.loop.toRun
    ensures Ref(s.loop, i) in s.loop.done && Ref(s.loop, i) in s.loop.started
  {
    SerialDistinct(plan, s);
    if !IsParallel(plan, s.loop, i) {
      var serial := SerialOf(plan, s.loop);
      assert i in serial;
      var j :| 0 <= j < |serial| && serial[j] == i;
      assert Ref(s.loop, serial[j]) in s.loop.done;
    }
  }

  lemma PastStep(plan: Plan, s: State, a: Action)
    requires Inv(plan, s) && RunsKept(plan, s) && Enabled(plan, s, a)
    ensures PastKept(plan, Do(plan, s, a))
  {
    var s' := Do(plan, s, a);
    forall c: CallRef | c.round < s'.loop.round && Cleared(plan, s', c) ensures c in s'.loop.started {
      ClearedBefore(plan, s, a, c);
      if c.round == s.loop.round {
        assert c == Ref(s.loop, c.idx) && c.idx < GatedUpTo(plan, s.loop);
        TakenHasRun(plan, s, c.idx);
      }
    }
  }

  lemma RunsStep(plan: Plan, s: State, a: Action)
    requires Inv(plan, s) && RunsKept(plan, s) && Enabled(plan, s, a)
    ensures RunsKept(plan, Do(plan, s, a))
  {
    OwnersStep(plan, s, a);
    ToRunStep(plan, s, a);
    PastStep(plan, s, a);
  }

  lemma {:induction false} RunsAfter(plan: Plan, s: State, actions: seq<Action>)
    requires Inv(plan, s) && RunsKept(plan, s) && After(plan, s, actions).Some?
    ensures RunsKept(plan, After(plan, s, actions).value)
    decreases |actions|
  {
    if actions != [] {
      InvStep(plan, s, actions[0]);
      RunsStep(plan, s, actions[0]);
      RunsAfter(plan, Do(plan, s, actions[0]), actions[1..]);
    }
  }

  lemma RunsReachable(plan: Plan, s: State)
    requires Reachable(plan, s)
    ensures Inv(plan, s) && RunsKept(plan, s)
  {
    InvReachable(plan, s);
    var actions :| After(plan, Initial, actions) == Some(s);
    RunsAfter(plan, Initial, actions);
  }

  /** The call parsed and either needs no one or was approved by its own request. */
  ghost predicate MayRun(plan: Plan, s: State, c: CallRef)
    requires c.idx < |Calls(plan, c.round)|
  {
    var call := Calls(plan, c.round)[c.idx];
    && call.parsed
    && (call.auto || exists t :: 0 <= t < |s.owners| && t < |s.replies| && OwnApproval(s, t, c))
  }

  predicate OwnApproval(s: State, t: nat, c: CallRef)
    requires t < |s.owners| && t < |s.replies|
  {
    s.owners[t] == c && s.replies[t] == Answered(Approved)
  }

  lemma MayRunIsCleared(plan: Plan, s: State, c: CallRef)
    requires c.idx < |Calls(plan, c.round)|
    ensures MayRun(plan, s, c) <==> Cleared(plan, s, c)
  {
    if t :| 0 <= t < |s.replies| && ApprovedFor(s, t, c) { assert OwnApproval(s, t, c); }
    if t :| 0 <= t < |s.owners| && t < |s.replies| && OwnApproval(s, t, c) { assert ApprovedFor(s, t, c); }
  }

  /** When a round is done, before the next begins or the turn ends: a call of it was started
      if and only if it may run, and then it has ended. No approval is dropped. */
  lemma RoundRunsTheApproved(plan: Plan, s: State, i: nat)
    requires Reachable(plan, s) && RoundDone(plan, s) && i < |Calls(plan, s.loop.round)|
    ensures var c := Ref(s.loop, i);
      && (c in s.loop.started <==> MayRun(plan, s, c))
      && (c in s.loop.started ==> c in s.loop.done)
  {
    var c := Ref(s.loop, i);
    RunsReachable(plan, s);
    MayRunIsCleared(plan, s, c);
    if c in s.loop.started { StartedThisRound(plan, s, c); }
    if i in s.loop.toRun { TakenHasRun(plan, s, i); }
  }

  /** And so it stays for every round that is behind, whatever happens later. */
  lemma PastRoundsRanTheApproved(plan: Plan, s: State, c: CallRef)
    requires Reachable(plan, s) && c.round < s.loop.round && c.idx < |Calls(plan, c.round)|
    ensures c in s.loop.started <==> MayRun(plan, s, c)
    ensures c in s.loop.started ==> c in s.loop.done
  {
    RunsReachable(plan, s);
    MayRunIsCleared(plan, s, c);
  }

  lemma {:induction false} CancelledByCancel(plan: Plan, s: State, actions: seq<Action>)
    requires After(plan, s, actions).Some? && After(plan, s, actions).value.cancelled
    ensures s.cancelled || Cancel in actions
    decreases |actions|
  {
    if actions != [] {
      CancelledByCancel(plan, Do(plan, s, actions[0]), actions[1..]);
      if Do(plan, s, actions[0]).cancelled { OnlyCancelCancels(plan, s, actions[0]); }
      assert actions == [actions[0]] + actions[1..];
    }
  }

  lemma OnlyCancelCancels(plan: Plan, s: State, a: Action)
    requires Enabled(plan, s, a) && Do(plan, s, a).cancelled
    ensures s.cancelled || a == Cancel
  {}

  /** A round is left, for the next one or because the turn ends, only when it is done, unless
      the user has cancelled. */
  lemma LeavesOnlyDone(plan: Plan, actions: seq<Action>, a: Action)
    requires After(plan, Initial, actions).Some?
    requires var s := After(plan, Initial, actions).value;
      && Enabled(plan, s, a) && !s.loop.phase.Over?
      && (Do(plan, s, a).loop.round != s.loop.round || Do(plan, s, a).loop.phase.Over?)
    ensures RoundDone(plan, After(plan, Initial, actions).value) || Cancel in actions
  {
    var s := After(plan, Initial, actions).value;
    LoopLeaves(plan, s, a);
    if s.cancelled { CancelledByCancel(plan, Initial, actions); }
  }

  lemma LoopLeaves(plan: Plan, s: State, a: Action)
    requires Enabled(plan, s, a) && !s.loop.phase.Over?
    requires Do(plan, s, a).loop.round != s.loop.round || Do(plan, s, a).loop.phase.Over?
    ensures RoundDone(plan, s) || s.cancelled
  {}

  // --- only the user approves ---

  lemma {:induction false} DropsAreNoApprovals(replies: seq<Reply>, reqs: seq<Request>, t: nat)
    requires t < |replies|
    ensures DropAll(replies, reqs)[t] == Answered(Approved) <==> replies[t] == Answered(Approved)
    decreases |reqs|
  {
    if reqs != [] { DropsAreNoApprovals(Deliver(replies, reqs[0].ticket, Dropped), reqs[1..], t); }
  }

  predicate Says(s: State, t: nat, d: Decision) {
    t < |s.replies| && s.replies[t] == Answered(d)
  }

  /** The request of this ticket stands in the slot, for the user to answer. */
  predicate InSlot(s: State, t: nat) {
    s.slot.Some? && s.slot.value.ticket == t
  }

  lemma ApprovedStep(plan: Plan, s: State, a: Action, t: nat)
    requires TicketsKept(s) && Enabled(plan, s, a)
    ensures Says(Do(plan, s, a), t, Approved) <==> Says(s, t, Approved) || (a.Approve? && InSlot(s, t))
  {
    if a.CloseChannel? {
      if t < |s.replies| { DropsAreNoApprovals(s.replies, s.channel, t); }
    } else if AnswersSlot(a) {
      ApprovedInSlot(plan, s, a, t);
    } else if a.Park? {
      ParkAnswersNothing(s);
    } else {
      NoAnswerHere(plan, s, a, t);
    }
  }

  lemma ApprovedInSlot(plan: Plan, s: State, a: Action, t: nat)
    requires TicketsKept(s) && Enabled(plan, s, a) && AnswersSlot(a)
    ensures Says(Do(plan, s, a), t, Approved) <==> Says(s, t, Approved) || (a.Approve? && InSlot(s, t))
  {
    SlotIsOutstanding(s);
    var r := if a.Approve? then Answered(Approved) else if a.DropSlot? then Dropped else Answered(Denied);
    assert Do(plan, s, a).replies == ResolveSlot(s, r).replies;
  }

  lemma NoAnswerHere(plan: Plan, s: State, a: Action, t: nat)
    requires Enabled(plan, s, a) && !a.CloseChannel? && !AnswersSlot(a) && !a.Park?
    ensures Says(Do(plan, s, a), t, Approved) <==> Says(s, t, Approved)
  {
    assert Do(plan, s, a).replies == if a.Ask? then s.replies + [Open] else s.replies;
  }

  lemma SlotIsOutstanding(s: State)
    requires TicketsKept(s)
    ensures s.slot.Some? ==>
      var q := s.slot.value; q.ticket < |s.replies| && s.replies[q.ticket].Open? && q.call == s.owners[q.ticket]
  {
    if s.slot.Some? { assert Outstanding(s)[|Outstanding(s)| - 1] == s.slot.value; }
  }

  lemma ParkAnswersNothing(s: State)
    requires TicketsKept(s) && s.channel != []
    ensures s.slot == None
  {
    assert |Outstanding(s)| == |s.channel| + if s.slot.Some? then 1 else 0;
  }

  /** The `k`-th action is the user's approval of the request with this ticket, or of the
      call. */
  ghost predicate Pressed(plan: Plan, actions: seq<Action>, k: nat, t: nat)
    requires k < |actions|
  {
    var before := After(plan, Initial, actions[..k]);
    actions[k].Approve? && before.Some? && InSlot(before.value, t)
  }

  ghost predicate PressedFor(plan: Plan, actions: seq<Action>, k: nat, c: CallRef)
    requires k < |actions|
  {
    var before := After(plan, Initial, actions[..k]);
    actions[k].Approve? && before.Some? && before.value.slot.Some? && before.value.slot.value.call == c
  }

  ghost predicate UserApproved(plan: Plan, actions: seq<Action>, c: CallRef) {
    exists k: nat :: k < |actions| && PressedFor(plan, actions, k, c)
  }

  lemma {:induction false} BeforeLast(plan: Plan, s: State, init: seq<Action>, a: Action)
    requires After(plan, s, init + [a]).Some?
    ensures var before := After(plan, s, init);
      before.Some? && Enabled(plan, before.value, a) && After(plan, s, init + [a]) == Some(Do(plan, before.value, a))
    decreases |init|
  {
    if init == [] {
      assert init + [a] == [a] && [a][1..] == [];
    } else {
      assert (init + [a])[1..] == init[1..] + [a];
      BeforeLast(plan, Do(plan, s, init[0]), init[1..], a);
    }
  }

  lemma KeptAfter(plan: Plan, actions: seq<Action>)
    requires After(plan, Initial, actions).Some?
    ensures Inv(plan, After(plan, Initial, actions).value)
  {
    InvReachable(plan, After(plan, Initial, actions).value);
  }

  /** A reply reads approved exactly when the user approved that request. */
  lemma {:induction false} ApprovedWhenPressed(plan: Plan, actions: seq<Action>, t: nat)
    requires After(plan, Initial, actions).Some?
    ensures Says(After(plan, Initial, actions).value, t, Approved)
      <==> exists k: nat :: k < |actions| && Pressed(plan, actions, k, t)
    decreases |actions|
  {
    if actions != [] {
      var init, a := actions[..|actions| - 1], actions[|actions| - 1];
      assert actions == init + [a];
      BeforeLast(plan, Initial, init, a);
      KeptAfter(plan, init);
      ApprovedWhenPressed(plan, init, t);
      ApprovedStep(plan, After(plan, Initial, init).value, a, t);
      OneMorePress(plan, init, a, t);
    }
  }

  lemma OneMorePress(plan: Plan, init: seq<Action>, a: Action, t: nat)
    requires After(plan, Initial, init).Some?
    ensures var all := init + [a];
      (exists k: nat :: k < |all| && Pressed(plan, all, k, t))
      <==> || (exists k: nat :: k < |init| && Pressed(plan, init, k, t))
           || (a.Approve? && InSlot(After(plan, Initial, init).value, t))
  {
    var all := init + [a];
    assert all[..|init|] == init;
    forall k: nat | k < |init| ensures Pressed(plan, all, k, t) <==> Pressed(plan, init, k, t) {
      assert all[..k] == init[..k];
    }
    assert Pressed(plan, all, |init|, t) <==> a.Approve? && InSlot(After(plan, Initial, init).value, t);
  }

  /** The owners of requests do not change, and the slot holds the owner's call. */
  lemma {:induction false} OwnersStay(plan: Plan, s: State, actions: seq<Action>)
    requires Inv(plan, s) && After(plan, s, actions).Some?
    ensures s.owners <= After(plan, s, actions).value.owners
    decreases |actions|
  {
    if actions != [] {
      InvStep(plan, s, actions[0]);
      OwnersGrow(plan, s, actions[0]);
      OwnersStay(plan, Do(plan, s, actions[0]), actions[1..]);
      PrefixOfPrefix(s.owners, Do(plan, s, actions[0]).owners, After(plan, s, actions).value.owners);
    }
  }

  lemma PrefixOfPrefix(a: seq<CallRef>, b: seq<CallRef>, c: seq<CallRef>)
    requires a <= b && b <= c
    ensures a <= c
  {}

  lemma OwnersGrow(plan: Plan, s: State, a: Action)
    requires Enabled(plan, s, a)
    ensures Do(plan, s, a).owners == if a.Ask? then s.owners + [Ref(s.loop, s.loop.phase.idx)] else s.owners
  {}

  lemma PressedIsForOwner(plan: Plan, actions: seq<Action>, k: nat)
    requires After(plan, Initial, actions).Some? && k < |actions|
    ensures var s := After(plan, Initial, actions).value;
      && (forall t: nat :: Pressed(plan, actions, k, t) ==>
            t < |s.owners| && PressedFor(plan, actions, k, s.owners[t]))
      && (forall c :: PressedFor(plan, actions, k, c) ==>
            exists t :: 0 <= t < |s.owners| && s.owners[t] == c && Pressed(plan, actions, k, t))
  {
    var before := After(plan, Initial, actions[..k]);
    if before.Some? {
      assert actions == actions[..k] + actions[k..];
      AfterConcat(plan, Initial, actions[..k], actions[k..]);
      KeptAfter(plan, actions[..k]);
      SlotIsOutstanding(before.value);
      OwnersStay(plan, before.value, actions[k..]);
      if before.value.slot.Some? && actions[k].Approve? {
        assert Pressed(plan, actions, k, before.value.slot.value.ticket);
      }
    }
  }

  lemma ApprovedIffPressedFor(plan: Plan, actions: seq<Action>, c: CallRef)
    requires After(plan, Initial, actions).Some?
    ensures (exists t :: 0 <= t < |After(plan, Initial, actions).value.owners| && OwnerSays(plan, actions, t, c))
      <==> UserApproved(plan, actions, c)
  {
    var s := After(plan, Initial, actions).value;
    KeptAfter(plan, actions);
    if t :| 0 <= t < |s.owners| && OwnerSays(plan, actions, t, c) {
      ApprovedWhenPressed(plan, actions, t);
      var k: nat :| k < |actions| && Pressed(plan, actions, k, t);
      PressedIsForOwner(plan, actions, k);
    }
    if UserApproved(plan, actions, c) {
      var k: nat :| k < |actions| && PressedFor(plan, actions, k, c);
      PressedIsForOwner(plan, actions, k);
      var t :| 0 <= t < |s.owners| && s.owners[t] == c && Pressed(plan, actions, k, t);
      ApprovedWhenPressed(plan, actions, t);
      assert OwnerSays(plan, actions, t, c);
    }
  }

  ghost predicate OwnerSays(plan: Plan, actions: seq<Action>, t: nat, c: CallRef)
    requires After(plan, Initial, actions).Some? && t < |After(plan, Initial, actions).value.owners|
  {
    var s := After(plan, Initial, actions).value;
    s.owners[t] == c && Says(s, t, Approved)
  }

  /** In every run, when a round is done: a call of it was started if and only if it parsed and
      either needs no one, or the user approved it while its own request stood in the slot. */
  lemma RoundRunsWhatTheUserApproved(plan: Plan, actions: seq<Action>, i: nat)
    requires After(plan, Initial, actions).Some?
    requires var s := After(plan, Initial, actions).value; RoundDone(plan, s) && i < |Calls(plan, s.loop.round)|
    ensures var l := After(plan, Initial, actions).value.loop;
      var call := Calls(plan, l.round)[i];
      Ref(l, i) in l.started <==> call.parsed && (call.auto || UserApproved(plan, actions, Ref(l, i)))
  {
    var s := After(plan, Initial, actions).value;
    var c := Ref(s.loop, i);
    RoundRunsTheApproved(plan, s, i);
    KeptAfter(plan, actions);
    ApprovedIffPressedFor(plan, actions, c);
    assert (exists t :: 0 <= t < |s.owners| && t < |s.replies| && OwnApproval(s, t, c))
      <==> exists t :: 0 <= t < |s.owners| && OwnerSays(plan, actions, t, c) by {
      forall t | 0 <= t < |s.owners| ensures OwnApproval(s, t, c) <==> OwnerSays(plan, actions, t, c) {}
    }
  }
}
