/** How a derived history ends, and when each call in it is answered. */
module HistoryEnds {
  import opened Text
  import opened Provider
  import opened Turn
  import opened Round
  import opened TurnLoop
  import opened Transcript
  import opened TurnHistory

  /** The assistant message that a stretch of a stream makes, if it makes one. */
  function Answer(es: seq<AgentEvent>): seq<Message> {
    if Opens(es) then [AssistantOf(Prose(es), Uses(es))] else []
  }

  /** What a round that did not go through adds to the history: what was streamed of it, and
      the results that were reported before it ended. */
  function TailMessages(s: Setup, w: World, tail: seq<AgentEvent>): seq<Message>
    requires TailOf(s, w, tail)
  {
    var fs := Relayed(s, w);
    if |tail| <= |fs| then Answer(tail)
    else
      Answer(fs) + [Message(ToolRole, Reported(s, RoundLog(Streamed(s, w), w))[..|tail| - |fs|])]
  }

  lemma StreamAdds(h: Hist, es: seq<AgentEvent>)
    requires !h.cur.Asst? && NoResults(es)
    ensures Messages(AbsorbEvents(h, es)) == Messages(h) + Answer(es)
    ensures Opens(es) ==> AbsorbEvents(h, es) == Hist(Messages(h), Asst(Prose(es), Uses(es)))
  {
    StreamAbsorbed(h, es);
    if Opens(es) {
      assert "" + Prose(es) == Prose(es) && [] + Uses(es) == Uses(es);
    } else {
      assert Messages(h) + [] == Messages(h);
    }
  }

  lemma {:induction false} ClosingAddsNothing(h: Hist, end: TurnEnd)
    ensures AbsorbEvents(h, Closing(end)) == h
  {}

  /** Some results of the last round were reported. */
  lemma ResultsAdd(s: Setup, w: World, h: Hist, n: nat)
    requires !h.cur.Asst?
    requires var l := RoundLog(Streamed(s, w), w); 0 < n <= |Reported(s, l)|
    ensures var l := RoundLog(Streamed(s, w), w);
      Messages(AbsorbEvents(h, Relayed(s, w) + ReportEvents(s, w, l.data)[..n]))
      == Messages(h) + Answer(Relayed(s, w)) + [Message(ToolRole, Reported(s, l)[..n])]
  {
    var l, fs := RoundLog(Streamed(s, w), w), Relayed(s, w);
    var bs := Reported(s, l)[..n];
    StreamIsFresh(s, w);
    if l.data.proposed == [] { NothingToReport(s, w, l.data); ReportIsEmitted(s, l); }
    StreamAdds(h, fs);
    ReportIsEmitted(s, l);
    assert ReportEvents(s, w, l.data)[..n] == EmitAll(bs);
    AbsorbConcat(h, fs, EmitAll(bs));
    FirstResult(AbsorbEvents(h, fs), bs);
  }

  lemma TailAdds(s: Setup, w: World, h: Hist, tail: seq<AgentEvent>)
    requires !h.cur.Asst? && TailOf(s, w, tail)
    ensures Messages(AbsorbEvents(h, tail)) == Messages(h) + TailMessages(s, w, tail)
  {
    var fs, l := Relayed(s, w), RoundLog(Streamed(s, w), w);
    StreamIsFresh(s, w);
    if |tail| <= |fs| {
      TailInStream(s, w, tail);
      StreamAdds(h, tail);
    } else {
      var n := |tail| - |fs|;
      ReportIsEmitted(s, l);
      assert tail == fs + ReportEvents(s, w, l.data)[..n];
      ResultsAdd(s, w, h, n);
      Associate(Messages(h), Answer(fs), [Message(ToolRole, Reported(s, l)[..n])]);
    }
  }

  lemma TailInStream(s: Setup, w: World, tail: seq<AgentEvent>)
    requires TailOf(s, w, tail) && |tail| <= |Relayed(s, w)|
    ensures tail <= Relayed(s, w) && NoResults(tail)
  {
    StreamIsFresh(s, w);
    assert tail <= Relayed(s, w);
    forall i | 0 <= i < |tail| ensures !tail[i].ToolResult? { assert tail[i] == Relayed(s, w)[i]; }
  }

  /** The whole derived history of a run without malformed calls: the prompt, the rounds that
      went through with their results as reported, and what the last round left. */
  lemma WholeHistory(s: Setup, prompt: string, log: seq<RoundLog>, last: World, tail: seq<AgentEvent>, end: TurnEnd)
    requires IsRun(s, log, last, tail, end) && AllWellFormed(log)
    ensures TailOf(s, last, tail)
    ensures Derived(prompt, RunEvents(s, log, tail, end))
         == [UserMessage(prompt)] + ReportedPairs(s, log) + TailMessages(s, last, tail)
  {
    var h := AbsorbEvents(PromptHist(prompt), AllEvents(s, log));
    EndsWithTail(s, last, |log|, tail, end);
    DerivedFromEvents(prompt, RunEvents(s, log, tail, end));
    Associate(AllEvents(s, log), tail, Closing(end));
    AbsorbConcat(PromptHist(prompt), AllEvents(s, log), tail + Closing(end));
    AbsorbConcat(h, tail, Closing(end));
    ClosingAddsNothing(AbsorbEvents(h, tail), end);
    LogAbsorbed(s, prompt, log);
    TailAdds(s, last, h, tail);
  }

  lemma StreamedAnswer(s: Setup, w: World)
    requires Streamed(s, w).failedResults == []
    ensures Answer(Relayed(s, w)) == if Opens(Relayed(s, w)) then [AssistantMessage(Streamed(s, w))] else []
  {
    var es := StreamEvents(s, w.stream);
    ForwardKeeps(es, s.secrets);
    CollectedProse(NoData, es);
    CollectedUseBlocks(NoData, es);
    assert "" + Prose(es) == Prose(es) && [] + Uses(es) == Uses(es);
  }

  /** A turn that ended by itself, without malformed calls: after the rounds comes the closing
      assistant message, if anything was said or called, and nothing else. */
  lemma SelfEndedHistory(s: Setup, prompt: string, log: seq<RoundLog>, last: World, tail: seq<AgentEvent>,
                         end: TurnEnd)
    requires IsRun(s, log, last, tail, end) && end.Ended? && !end.cancelled
    requires AllWellFormed(log) && Streamed(s, last).failedResults == []
    ensures Derived(prompt, RunEvents(s, log, tail, end))
         == [UserMessage(prompt)] + ReportedPairs(s, log)
          + if |log| < s.maxRounds && Opens(Relayed(s, last)) then [AssistantMessage(Streamed(s, last))] else []
  {
    WholeHistory(s, prompt, log, last, tail, end);
    StreamedAnswer(s, last);
    assert |log| == s.maxRounds ==> tail == [];
    assert !Opens([]);
  }

  // --- when each call is answered ---

  predicate AnsweredAt(ms: seq<Message>, i: nat)
    requires i < |ms|
  {
    UseIds(ms[i].content) != [] ==>
      && i + 1 < |ms| && ms[i + 1].role == ToolRole
      && multiset(ResultIds(ms[i + 1].content)) == multiset(UseIds(ms[i].content))
  }

  /** Every message that calls tools is followed by one with exactly one result for each call. */
  ghost predicate EveryUseAnswered(ms: seq<Message>) {
    forall i :: 0 <= i < |ms| ==> AnsweredAt(ms, i)
  }

  /** Every call so far is answered, and an open assistant message makes none. */
  ghost predicate Settled(h: Hist) {
    EveryUseAnswered(Messages(h)) && (h.cur.Asst? ==> h.cur.uses == [])
  }

  lemma SettledPrefix(ms: seq<Message>, m: Message)
    requires EveryUseAnswered(ms + [m]) && m.role != ToolRole
    ensures EveryUseAnswered(ms)
  {
    var out := ms + [m];
    forall i | 0 <= i < |ms| ensures AnsweredAt(ms, i) {
      assert AnsweredAt(out, i) && out[i] == ms[i];
      if i + 1 < |ms| { assert out[i + 1] == ms[i + 1]; }
    }
  }

  lemma SettledMore(ms: seq<Message>, m: Message)
    requires EveryUseAnswered(ms)
    ensures EveryUseAnswered(ms + [m]) <==> UseIds(m.content) == []
  {
    var out := ms + [m];
    forall i | 0 <= i < |ms| ensures AnsweredAt(out, i) {
      assert AnsweredAt(ms, i) && out[i] == ms[i];
      if i + 1 < |ms| { assert out[i + 1] == ms[i + 1]; }
    }
    assert AnsweredAt(out, |ms|) <==> UseIds(m.content) == [];
  }

  /** The last call message and the results after it. */
  lemma SettledPair(ms: seq<Message>, a: Message, t: Message)
    requires EveryUseAnswered(ms) && UseIds(a.content) != [] && UseIds(t.content) == [] && t.role == ToolRole
    ensures EveryUseAnswered(ms + [a] + [t]) <==> multiset(ResultIds(t.content)) == multiset(UseIds(a.content))
  {
    var out := ms + [a] + [t];
    forall i | 0 <= i < |ms| ensures AnsweredAt(out, i) {
      assert AnsweredAt(ms, i) && out[i] == ms[i];
      if i + 1 < |ms| { assert out[i + 1] == ms[i + 1]; }
    }
    assert out[|ms|] == a && out[|ms| + 1] == t;
    assert AnsweredAt(out, |ms| + 1);
    assert AnsweredAt(out, |ms|) <==> multiset(ResultIds(t.content)) == multiset(UseIds(a.content));
  }

  /** The messages before the assistant message that the stream opens or carries on. */
  lemma SettledOpened(h: Hist)
    requires Settled(h)
    ensures EveryUseAnswered(Opened(h).closed) && Opened(h).cur.uses == []
  {
    if h.cur.Asst? {
      assert Messages(h) == h.closed + [AssistantOf(h.cur.text, [])];
      SettledPrefix(h.closed, AssistantOf(h.cur.text, []));
    }
  }

  /** A stretch of a stream without calls leaves everything answered; one with calls ends in a
      message that makes them, with everything before it answered. */
  lemma StreamSettles(h: Hist, es: seq<AgentEvent>)
    requires Settled(h) && NoResults(es)
    ensures var h' := AbsorbEvents(h, es);
      if Uses(es) == [] then Settled(h')
      else h'.cur.Asst? && h'.cur.uses == Uses(es) && EveryUseAnswered(h'.closed)
  {
    var h' := AbsorbEvents(h, es);
    StreamAbsorbed(h, es);
    SettledOpened(h);
    if Opens(es) {
      assert [] + Uses(es) == Uses(es);
      if Uses(es) == [] {
        UsesOfAssistant(h'.cur.text, []);
        assert Messages(h') == h'.closed + [AssistantOf(h'.cur.text, [])];
        SettledMore(h'.closed, AssistantOf(h'.cur.text, []));
      }
    } else {
      NothingOpened(es);
      assert h'.cur.Asst? ==> Opened(h').cur == h'.cur;
    }
  }

  lemma {:induction false} UsesAreUses(es: seq<AgentEvent>)
    ensures OnlyUses(Uses(es))
  {
    if es != [] { UsesAreUses(es[1..]); }
  }

  lemma {:induction false} IdsOfUses(bs: seq<ContentBlock>)
    requires OnlyUses(bs)
    ensures |UseIds(bs)| == |bs|
  {
    if bs != [] { IdsOfUses(bs[1..]); }
  }

  lemma {:induction false} UsesOfProposed(d: RoundData, es: seq<AgentEvent>)
    ensures CallIds(Collected(d, es).proposed) == CallIds(d.proposed) + UseIds(Uses(es))
    decreases |es|
  {
    if es != [] {
      var d' := Collect(d, es[0]);
      UsesOfProposed(d', es[1..]);
      if es[0].ToolProposed? {
        var one := [es[0].call.id];
        assert CallIds(d'.proposed) == CallIds(d.proposed) + one;
        assert UseIds(Uses(es)) == one + UseIds(Uses(es[1..]));
        Associate(CallIds(d.proposed), one, UseIds(Uses(es[1..])));
      } else {
        assert d'.proposed == d.proposed && Uses(es) == Uses(es[1..]);
      }
    } else {
      assert CallIds(d.proposed) + [] == CallIds(d.proposed);
    }
  }

  lemma RelayedCalls(s: Setup, w: World)
    ensures UseIds(Uses(Relayed(s, w))) == CallIds(Streamed(s, w).proposed)
    ensures Uses(Relayed(s, w)) == [] <==> Streamed(s, w).proposed == []
  {
    var es := StreamEvents(s, w.stream);
    ForwardKeeps(es, s.secrets);
    UsesOfProposed(NoData, es);
    UsesAreUses(es);
    IdsOfUses(Uses(es));
    assert CallIds(NoData.proposed) + UseIds(Uses(es)) == UseIds(Uses(es));
  }

  function CallIdAt(calls: seq<ToolCall>, k: nat): string {
    if k < |calls| then calls[k].id else ""
  }

  function CallIdsIn(calls: seq<ToolCall>, order: seq<nat>): (r: seq<string>)
    ensures |r| == |order| && forall j :: 0 <= j < |order| ==> r[j] == CallIdAt(calls, order[j])
  {
    Map(k => CallIdAt(calls, k), order)
  }

  lemma CallIdsPermuted(calls: seq<ToolCall>, order: seq<nat>)
    requires multiset(order) == multiset(seq(|calls|, i => i))
    ensures |order| == |calls| && multiset(CallIdsIn(calls, order)) == multiset(CallIds(calls))
  {
    var all: seq<nat> := seq(|calls|, i => i);
    assert |order| == |multiset(order)| == |multiset(all)| == |all|;
    MapPermuted(k => CallIdAt(calls, k), order, all);
    assert CallIds(calls) == CallIdsIn(calls, all);
  }

  lemma ReportedInOrder(s: Setup, l: RoundLog)
    ensures ResultIds(Reported(s, l)) == CallIdsIn(l.data.proposed, EmitOrder(s, l.world, l.data.proposed))
  {
    EveryCallEmitted(s, l.world, l.data.proposed);
    ResultsIds(Reported(s, l));
  }

  /** All of a round's results answer exactly the calls dispatched. */
  lemma ReportedIds(s: Setup, l: RoundLog)
    ensures |ResultIds(Reported(s, l))| == |Reported(s, l)| == |l.data.proposed|
    ensures multiset(ResultIds(Reported(s, l))) == multiset(CallIds(l.data.proposed))
  {
    EmitOrderPermutes(s, l.world, l.data.proposed);
    CallIdsPermuted(l.data.proposed, EmitOrder(s, l.world, l.data.proposed));
    ReportedInOrder(s, l);
  }

  lemma LogEntry(s: Setup, w: World)
    ensures ReportEvents(s, w, Streamed(s, w)) == EmitAll(Reported(s, RoundLog(Streamed(s, w), w)))
    ensures |Reported(s, RoundLog(Streamed(s, w), w))| == |Streamed(s, w).proposed|
  {
    ReportIsEmitted(s, RoundLog(Streamed(s, w), w));
    ReportedIds(s, RoundLog(Streamed(s, w), w));
  }

  lemma {:induction false} SomeIds(bs: seq<ContentBlock>)
    requires OnlyResults(bs)
    ensures |ResultIds(bs)| == |bs| && UseIds(bs) == []
  {
    ResultsIds(bs);
    NoUsesInResults(bs);
  }

  lemma ResultsAfterCalls(h: Hist, bs: seq<ContentBlock>)
    requires h.cur.Asst? && EveryUseAnswered(h.closed) && UseIds(h.cur.uses) != []
    requires bs != [] && OnlyResults(bs)
    ensures EveryUseAnswered(Messages(h) + [Message(ToolRole, bs)])
        <==> multiset(ResultIds(bs)) == multiset(UseIds(h.cur.uses))
  {
    var a := AssistantOf(h.cur.text, h.cur.uses);
    UsesOfAssistant(h.cur.text, h.cur.uses);
    SomeIds(bs);
    assert Messages(h) == h.closed + [a];
    SettledPair(h.closed, a, Message(ToolRole, bs));
  }

  lemma CallsOpen(s: Setup, w: World, h: Hist)
    requires Settled(h) && Streamed(s, w).proposed != []
    ensures var h1 := AbsorbEvents(h, Relayed(s, w));
      && h1.cur.Asst? && EveryUseAnswered(h1.closed) && UseIds(h1.cur.uses) != []
      && UseIds(h1.cur.uses) == CallIds(Streamed(s, w).proposed)
  {
    StreamIsFresh(s, w);
    RelayedCalls(s, w);
    StreamSettles(h, Relayed(s, w));
  }

  /** The results of the last message of calls, all of them or only the first. */
  lemma ResultsSettle(s: Setup, w: World, h: Hist, n: nat)
    requires Settled(h) && 0 < n <= |ReportEvents(s, w, Streamed(s, w))|
    ensures var h' := AbsorbEvents(h, Relayed(s, w) + ReportEvents(s, w, Streamed(s, w))[..n]);
      && !h'.cur.Asst?
      && (EveryUseAnswered(Messages(h')) <==> n == |Streamed(s, w).proposed|)
  {
    var l, h1 := RoundLog(Streamed(s, w), w), AbsorbEvents(h, Relayed(s, w));
    LogEntry(s, w);
    var bs := Reported(s, l)[..n];
    CallsOpen(s, w, h);
    assert ReportEvents(s, w, l.data)[..n] == EmitAll(bs);
    AbsorbConcat(h, Relayed(s, w), EmitAll(bs));
    FirstResult(h1, bs);
    ResultsAfterCalls(h1, bs);
    SomeAnswers(s, l, n);
  }

  lemma SomeAnswers(s: Setup, l: RoundLog, n: nat)
    requires n <= |l.data.proposed|
    ensures |Reported(s, l)| == |l.data.proposed|
    ensures multiset(ResultIds(Reported(s, l)[..n])) == multiset(CallIds(l.data.proposed)) <==> n == |l.data.proposed|
  {
    ReportedIds(s, l);
    var bs := Reported(s, l)[..n];
    SomeIds(bs);
    if n == |l.data.proposed| {
      assert bs == Reported(s, l);
    } else {
      assert |multiset(ResultIds(bs))| == n < |multiset(CallIds(l.data.proposed))|;
    }
  }

  lemma RoundSettles(s: Setup, w: World, h: Hist)
    requires Settled(h)
    ensures Settled(AbsorbEvents(h, RoundEvents(s, w, Streamed(s, w))))
  {
    var d, fs := Streamed(s, w), Relayed(s, w);
    LogEntry(s, w);
    if d.proposed == [] {
      StreamIsFresh(s, w);
      RelayedCalls(s, w);
      StreamSettles(h, fs);
      assert fs + ReportEvents(s, w, d) == fs;
    } else {
      ResultsSettle(s, w, h, |d.proposed|);
      assert ReportEvents(s, w, d)[..|d.proposed|] == ReportEvents(s, w, d);
    }
  }

  lemma {:induction false} LogSettles(s: Setup, prompt: string, log: seq<RoundLog>)
    requires FromStreams(s, log)
    ensures Settled(AbsorbEvents(PromptHist(prompt), AllEvents(s, log)))
    decreases |log|
  {
    if log == [] {
      assert Messages(PromptHist(prompt)) == [UserMessage(prompt)];
      assert UseIds(UserMessage(prompt).content) == [];
    } else {
      var init, l := log[..|log| - 1], log[|log| - 1];
      LogSettles(s, prompt, init);
      AllEventsLast(s, log);
      AbsorbConcat(PromptHist(prompt), AllEvents(s, init), RoundEvents(s, l.world, l.data));
      RoundSettles(s, l.world, AbsorbEvents(PromptHist(prompt), AllEvents(s, init)));
    }
  }

  lemma StreamTailSettles(s: Setup, w: World, h: Hist, tail: seq<AgentEvent>)
    requires Settled(h) && TailOf(s, w, tail) && |tail| <= |Relayed(s, w)|
    ensures EveryUseAnswered(Messages(AbsorbEvents(h, tail))) <==> Uses(tail) == []
  {
    TailInStream(s, w, tail);
    StreamSettles(h, tail);
    var h' := AbsorbEvents(h, tail);
    if Uses(tail) != [] {
      UsesAreUses(tail);
      IdsOfUses(Uses(tail));
      UsesOfAssistant(h'.cur.text, h'.cur.uses);
      assert Messages(h') == h'.closed + [AssistantOf(h'.cur.text, h'.cur.uses)];
      SettledMore(h'.closed, AssistantOf(h'.cur.text, h'.cur.uses));
    }
  }

  lemma TailSettles(s: Setup, w: World, h: Hist, tail: seq<AgentEvent>)
    requires Settled(h) && TailOf(s, w, tail)
    ensures EveryUseAnswered(Messages(AbsorbEvents(h, tail)))
        <==> Uses(tail) == [] || tail == RoundEvents(s, w, Streamed(s, w))
  {
    var d, fs := Streamed(s, w), Relayed(s, w);
    RelayedCalls(s, w);
    LogEntry(s, w);
    if |tail| <= |fs| {
      StreamTailSettles(s, w, h, tail);
      TailInStream(s, w, tail);
      assert tail == RoundEvents(s, w, d) ==> tail == fs && d.proposed == [];
    } else {
      var n := |tail| - |fs|;
      assert tail == fs + ReportEvents(s, w, d)[..n];
      ResultsSettle(s, w, h, n);
      UsesConcat(fs, ReportEvents(s, w, d)[..n]);
      assert tail == RoundEvents(s, w, d) <==> n == |d.proposed|;
    }
  }

  /** The derived history is a conversation in which every message of calls is followed by its
      results, in any run, malformed calls included, if and only if the last round left no
      call or all its results. */
  lemma AnsweredExactly(s: Setup, prompt: string, log: seq<RoundLog>, last: World, tail: seq<AgentEvent>, end: TurnEnd)
    requires IsRun(s, log, last, tail, end)
    ensures EveryUseAnswered(Derived(prompt, RunEvents(s, log, tail, end)))
        <==> Uses(tail) == [] || tail == RoundEvents(s, last, Streamed(s, last))
  {
    var h := AbsorbEvents(PromptHist(prompt), AllEvents(s, log));
    EndsWithTail(s, last, |log|, tail, end);
    DerivedFromEvents(prompt, RunEvents(s, log, tail, end));
    Associate(AllEvents(s, log), tail, Closing(end));
    AbsorbConcat(PromptHist(prompt), AllEvents(s, log), tail + Closing(end));
    AbsorbConcat(h, tail, Closing(end));
    ClosingAddsNothing(AbsorbEvents(h, tail), end);
    LogSettles(s, prompt, log);
    TailSettles(s, last, h, tail);
  }

  /** For a turn that ended by itself: at the cap, or with a last round that called nothing. */
  lemma SelfEndedAnswered(s: Setup, prompt: string, log: seq<RoundLog>, last: World, tail: seq<AgentEvent>,
                          end: TurnEnd)
    requires IsRun(s, log, last, tail, end) && end.Ended? && !end.cancelled
    ensures EveryUseAnswered(Derived(prompt, RunEvents(s, log, tail, end)))
        <==> |log| == s.maxRounds || Streamed(s, last).proposed == []
  {
    AnsweredExactly(s, prompt, log, last, tail, end);
    RelayedCalls(s, last);
    LogEntry(s, last);
    assert Relayed(s, last) == RoundEvents(s, last, Streamed(s, last)) ==> Streamed(s, last).proposed == [];
  }
}
