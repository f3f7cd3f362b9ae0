/**
 The conversation history derived from a recorded turn, against the messages the loop itself
 sent, over every run: when the two agree up to the order of results, when they agree block
 for block, and that every result is joined to its call whatever happened in between.
*/
module TurnHistory {
  import opened Text
  import opened Provider
  import opened Turn
  import opened Round
  import opened TurnLoop
  import opened Transcript

  function PromptHist(prompt: string): Hist {
    Hist([UserMessage(prompt)], Nothing)
  }

  function Derived(prompt: string, es: seq<AgentEvent>): seq<Message> {
    History(TurnSteps(prompt, es))
  }

  lemma DerivedFromEvents(prompt: string, es: seq<AgentEvent>)
    ensures Derived(prompt, es) == Messages(AbsorbEvents(PromptHist(prompt), es))
  {
    RecordedHistory([UserPrompt(prompt)], None, es);
    assert Messages(NoHistory) == [];
    assert [] + [UserMessage(prompt)] == [UserMessage(prompt)];
    assert Absorb(NoHistory, UserPrompt(prompt)) == PromptHist(prompt);
    assert [UserPrompt(prompt)][1..] == [];
    assert AbsorbAll(NoHistory, [UserPrompt(prompt)]) == AbsorbAll(PromptHist(prompt), []);
  }

  lemma {:induction false} AbsorbConcat(h: Hist, a: seq<AgentEvent>, b: seq<AgentEvent>)
    ensures AbsorbEvents(h, a + b) == AbsorbEvents(AbsorbEvents(h, a), b)
    decreases |a|
  {
    if a == [] {
      assert a + b == b;
    } else {
      assert (a + b)[1..] == a[1..] + b;
      AbsorbConcat(AbsorbEvent(h, a[0]), a[1..], b);
    }
  }

  // --- the stream of a round ---

  predicate NoResults(es: seq<AgentEvent>) {
    forall i :: 0 <= i < |es| ==> !es[i].ToolResult?
  }

  lemma {:induction false} MapperGivesNoResults(parse: JsonParser, m: MapperState, es: seq<ProviderEvent>)
    ensures NoResults(Mapped(parse, m, es))
    decreases es
  {
    if es != [] {
      MapperGivesNoResults(parse, Accepted(parse, m, es[0]).0, es[1..]);
    }
  }

  lemma {:induction false} ForwardGivesNoResults(es: seq<AgentEvent>, secrets: seq<string>)
    requires NoResults(es)
    ensures NoResults(Forwarded(es, secrets))
  {
    if es != [] { ForwardGivesNoResults(es[1..], secrets); }
  }

  function Prose(es: seq<AgentEvent>): string {
    if es == [] then "" else (if es[0].Assistant? then es[0].text else "") + Prose(es[1..])
  }

  function Uses(es: seq<AgentEvent>): seq<ContentBlock> {
    if es == [] then [] else (if es[0].ToolProposed? then [UseBlock(es[0].call)] else []) + Uses(es[1..])
  }

  predicate Opens(es: seq<AgentEvent>) {
    exists i :: 0 <= i < |es| && (es[i].Assistant? || es[i].ToolProposed?)
  }

  /** What a stretch of a stream does to the messages. */
  ghost predicate StreamMeans(h: Hist, h': Hist, es: seq<AgentEvent>) {
    var o := Opened(h);
    && (Opens(es) ==> h' == Hist(o.closed, Asst(o.cur.text + Prose(es), o.cur.uses + Uses(es))))
    && (!Opens(es) ==> Messages(h') == Messages(h) && Opened(h') == o && (h'.cur.Asst? <==> h.cur.Asst?))
  }

  lemma ProseMeans(h: Hist, h': Hist, es: seq<AgentEvent>)
    requires es != [] && es[0].Assistant? && StreamMeans(AbsorbEvent(h, es[0]), h', es[1..])
    ensures StreamMeans(h, h', es)
  {
    var h1, o, rest := AbsorbEvent(h, es[0]), Opened(h), es[1..];
    OpensSplit(es);
    assert h1 == Hist(o.closed, Asst(o.cur.text + es[0].text, o.cur.uses)) && Opened(h1) == h1;
    assert (o.cur.text + es[0].text) + Prose(rest) == o.cur.text + Prose(es);
    assert Uses(es) == Uses(rest);
    if !Opens(rest) { NothingOpened(rest); ClosedIsMessages(h1, h'); }
  }

  lemma UsesFront(before: seq<ContentBlock>, es: seq<AgentEvent>)
    requires es != [] && es[0].ToolProposed?
    ensures (before + [UseBlock(es[0].call)]) + Uses(es[1..]) == before + Uses(es)
    ensures Prose(es) == Prose(es[1..])
  {
    assert Uses(es) == [UseBlock(es[0].call)] + Uses(es[1..]);
  }

  lemma CallMeans(h: Hist, h': Hist, es: seq<AgentEvent>)
    requires es != [] && es[0].ToolProposed? && StreamMeans(AbsorbEvent(h, es[0]), h', es[1..])
    ensures StreamMeans(h, h', es)
  {
    var h1, o := AbsorbEvent(h, es[0]), Opened(h);
    OpensSplit(es);
    assert h1 == Hist(o.closed, Asst(o.cur.text, o.cur.uses + [UseBlock(es[0].call)])) && Opened(h1) == h1;
    UsesFront(o.cur.uses, es);
    if !Opens(es[1..]) { NothingOpened(es[1..]); ClosedIsMessages(h1, h'); }
  }

  lemma OtherMeans(h: Hist, h': Hist, es: seq<AgentEvent>)
    requires es != [] && !es[0].Assistant? && !es[0].ToolProposed? && !es[0].ToolResult?
    requires StreamMeans(AbsorbEvent(h, es[0]), h', es[1..])
    ensures StreamMeans(h, h', es)
  {
    var h1, rest := AbsorbEvent(h, es[0]), es[1..];
    OpensSplit(es);
    assert Messages(Hist(Messages(h), Nothing)) == Messages(h);
    assert Opened(h1) == Opened(h) && Messages(h1) == Messages(h);
    assert Prose(es) == Prose(rest) && Uses(es) == Uses(rest);
  }

  /** A round's stream either opens one assistant message with its prose and its calls, or
      leaves the messages as they are. */
  lemma {:induction false} StreamAbsorbed(h: Hist, es: seq<AgentEvent>)
    requires NoResults(es)
    ensures StreamMeans(h, AbsorbEvents(h, es), es)
    decreases |es|
  {
    if es != [] {
      StreamAbsorbed(AbsorbEvent(h, es[0]), es[1..]);
      if es[0].Assistant? {
        ProseMeans(h, AbsorbEvents(h, es), es);
      } else if es[0].ToolProposed? {
        CallMeans(h, AbsorbEvents(h, es), es);
      } else {
        OtherMeans(h, AbsorbEvents(h, es), es);
      }
    }
  }

  lemma OpensSplit(es: seq<AgentEvent>)
    requires es != []
    ensures Opens(es) <==> es[0].Assistant? || es[0].ToolProposed? || Opens(es[1..])
  {
    if Opens(es[1..]) {
      var i :| 0 <= i < |es[1..]| && (es[1..][i].Assistant? || es[1..][i].ToolProposed?);
      assert es[i + 1] == es[1..][i];
    }
    if i :| 0 <= i < |es| && (es[i].Assistant? || es[i].ToolProposed?) {
      if i > 0 { assert es[1..][i - 1] == es[i]; }
    }
  }

  lemma {:induction false} NothingOpened(es: seq<AgentEvent>)
    requires !Opens(es)
    ensures Prose(es) == "" && Uses(es) == []
  {
    if es != [] {
      OpensSplit(es);
      NothingOpened(es[1..]);
    }
  }

  lemma ClosedIsMessages(h: Hist, h': Hist)
    requires h.cur.Asst? && h'.cur.Asst? && Opened(h') == Opened(h)
    ensures h' == h
  {}

  lemma {:induction false} ForwardKeeps(es: seq<AgentEvent>, secrets: seq<string>)
    ensures Prose(Forwarded(es, secrets)) == Prose(es)
    ensures Uses(Forwarded(es, secrets)) == Uses(es)
  {
    if es != [] {
      ForwardKeeps(es[1..], secrets);
      var f, rest := Forward(es[0], secrets), Forwarded(es[1..], secrets);
      if f != [] { assert (f + rest)[1..] == rest; } else { assert f + rest == rest; }
    }
  }

  lemma {:induction false} CollectedProse(d: RoundData, es: seq<AgentEvent>)
    ensures Collected(d, es).text == d.text + Prose(es)
    decreases |es|
  {
    if es != [] {
      var d' := Collect(d, es[0]);
      CollectedProse(d', es[1..]);
      if es[0].Assistant? { assert (d.text + es[0].text) + Prose(es[1..]) == d.text + Prose(es); }
    }
  }

  /** The assistant message holds the well-formed calls alone exactly when none was malformed. */
  lemma {:induction false} CollectedUseBlocks(d: RoundData, es: seq<AgentEvent>)
    ensures |Collected(d, es).failedResults| >= |d.failedResults|
    ensures |Collected(d, es).failedResults| == |d.failedResults| ==> Collected(d, es).toolUses == d.toolUses + Uses(es)
    decreases |es|
  {
    if es != [] {
      var d' := Collect(d, es[0]);
      CollectedUseBlocks(d', es[1..]);
      if es[0].ToolProposed? {
        assert (d.toolUses + [UseBlock(es[0].call)]) + Uses(es[1..]) == d.toolUses + Uses(es);
      }
    }
  }

  lemma {:induction false} CollectedProposes(d: RoundData, es: seq<AgentEvent>)
    ensures |Collected(d, es).proposed| > |d.proposed| <==> Uses(es) != []
    ensures |Collected(d, es).proposed| >= |d.proposed|
    ensures Uses(es) != [] ==> Opens(es)
    decreases |es|
  {
    if es != [] {
      CollectedProposes(Collect(d, es[0]), es[1..]);
      OpensSplit(es);
    }
  }

  // --- a whole round ---

  /** A round's results in the order they are reported. */
  function Reported(s: Setup, l: RoundLog): (r: seq<ContentBlock>)
    ensures |r| == |EmitOrder(s, l.world, l.data.proposed)|
    ensures forall j :: 0 <= j < |r| ==> r[j].ToolResultBlock?
  {
    EveryCallEmitted(s, l.world, l.data.proposed);
    var order := EmitOrder(s, l.world, l.data.proposed);
    seq(|order|, j requires 0 <= j < |order| =>
      ResultFor(s, l.world, l.data.proposed[order[j]], order[j]))
  }

  function EmitAll(bs: seq<ContentBlock>): (r: seq<AgentEvent>)
    requires forall j :: 0 <= j < |bs| ==> bs[j].ToolResultBlock?
    ensures |r| == |bs|
  {
    seq(|bs|, j requires 0 <= j < |bs| => Emit(bs[j]))
  }

  lemma ReportIsEmitted(s: Setup, l: RoundLog)
    ensures ReportEvents(s, l.world, l.data) == EmitAll(Reported(s, l))
  {
    EveryCallEmitted(s, l.world, l.data.proposed);
  }

  lemma {:induction false} ResultsAbsorbed(closed: seq<Message>, before: seq<ContentBlock>, bs: seq<ContentBlock>)
    requires forall j :: 0 <= j < |bs| ==> bs[j].ToolResultBlock?
    ensures AbsorbEvents(Hist(closed, Tools(before)), EmitAll(bs)) == Hist(closed, Tools(before + bs))
    decreases |bs|
  {
    if bs == [] {
      assert before + bs == before;
    } else {
      assert EmitAll(bs)[1..] == EmitAll(bs[1..]);
      assert before + [bs[0]] + bs[1..] == before + bs;
      ResultsAbsorbed(closed, before + [bs[0]], bs[1..]);
    }
  }

  predicate WellFormed(l: RoundLog) {
    l.data.failedResults == []
  }

  /** A round without malformed calls adds its own pair of messages, the results in the
      order they were reported. */
  lemma RoundAbsorbed(s: Setup, h: Hist, l: RoundLog)
    requires !h.cur.Asst? && l.data == Streamed(s, l.world) && WantsTools(l.data) && WellFormed(l)
    ensures AbsorbEvents(h, RoundEvents(s, l.world, l.data))
         == Hist(Messages(h) + [AssistantMessage(l.data)], Tools(Reported(s, l)))
  {
    var es := StreamEvents(s, l.world.stream);
    var fs := Forwarded(es, s.secrets);
    MapperGivesNoResults(s.jsonParse, FreshMapper, l.world.stream);
    ForwardGivesNoResults(es, s.secrets);
    ForwardKeeps(es, s.secrets);
    CollectedProse(NoData, es);
    CollectedUseBlocks(NoData, es);
    CollectedProposes(NoData, es);
    CollectedProposes(NoData, fs);
    StreamAbsorbed(h, fs);
    var h1 := Hist(Messages(h), Asst(l.data.text, l.data.toolUses));
    assert AbsorbEvents(h, fs) == h1;
    AbsorbConcat(h, fs, ReportEvents(s, l.world, l.data));
    ReportIsEmitted(s, l);
    var bs := Reported(s, l);
    EveryCallEmitted(s, l.world, l.data.proposed);
    assert bs != [] by {
      var k: nat := 0;
      assert k in EmitOrder(s, l.world, l.data.proposed);
    }
    FirstResult(h1, bs);
  }

  lemma FirstResult(h: Hist, bs: seq<ContentBlock>)
    requires h.cur.Asst? && bs != [] && forall j :: 0 <= j < |bs| ==> bs[j].ToolResultBlock?
    ensures AbsorbEvents(h, EmitAll(bs)) == Hist(Messages(h), Tools(bs))
  {
    assert EmitAll(bs)[1..] == EmitAll(bs[1..]);
    assert [bs[0]] + bs[1..] == bs;
    ResultsAbsorbed(Messages(h), [bs[0]], bs[1..]);
  }

  function ReportedPairs(s: Setup, log: seq<RoundLog>): seq<Message> {
    if log == [] then []
    else
      var l := log[|log| - 1];
      ReportedPairs(s, log[..|log| - 1]) + [AssistantMessage(l.data), Message(ToolRole, Reported(s, l))]
  }

  ghost predicate FromStreams(s: Setup, log: seq<RoundLog>) {
    forall k :: 0 <= k < |log| ==> log[k].data == Streamed(s, log[k].world) && GoesThrough(s, log[k].world)
  }

  /** The history read so far is the prompt and the pairs of the rounds that went through. */
  ghost predicate ReadSoFar(h: Hist, s: Setup, prompt: string, log: seq<RoundLog>) {
    !h.cur.Asst? && Messages(h) == [UserMessage(prompt)] + ReportedPairs(s, log)
  }

  lemma ReadOneMore(h: Hist, s: Setup, prompt: string, log: seq<RoundLog>)
    requires log != [] && FromStreams(s, log) && WellFormed(log[|log| - 1])
    requires ReadSoFar(h, s, prompt, log[..|log| - 1])
    ensures var l := log[|log| - 1]; ReadSoFar(AbsorbEvents(h, RoundEvents(s, l.world, l.data)), s, prompt, log)
  {
    RoundAbsorbed(s, h, log[|log| - 1]);
  }

  lemma {:induction false} LogAbsorbed(s: Setup, prompt: string, log: seq<RoundLog>)
    requires FromStreams(s, log) && forall k :: 0 <= k < |log| ==> WellFormed(log[k])
    ensures ReadSoFar(AbsorbEvents(PromptHist(prompt), AllEvents(s, log)), s, prompt, log)
    decreases |log|
  {
    if log == [] {
      assert Messages(PromptHist(prompt)) == [UserMessage(prompt)] + [];
    } else {
      var init, l := log[..|log| - 1], log[|log| - 1];
      LogAbsorbed(s, prompt, init);
      AbsorbConcat(PromptHist(prompt), AllEvents(s, init), RoundEvents(s, l.world, l.data));
      ReadOneMore(AbsorbEvents(PromptHist(prompt), AllEvents(s, init)), s, prompt, log);
    }
  }

  // --- what comes after leaves earlier messages alone ---

  /** Whether the first recorded event is a result. */
  predicate StartsWithResult(es: seq<AgentEvent>) {
    es != [] && (es[0].ToolResult? || (StepOf(es[0]).None? && StartsWithResult(es[1..])))
  }

  lemma {:induction false} ClosedGrows(h: Hist, es: seq<AgentEvent>)
    ensures h.closed <= AbsorbEvents(h, es).closed
    decreases |es|
  {
    if es != [] { ClosedGrows(AbsorbEvent(h, es[0]), es[1..]); }
  }

  lemma {:induction false} MessagesKept(h: Hist, es: seq<AgentEvent>)
    requires !h.cur.Asst? && !StartsWithResult(es)
    ensures Messages(h) <= Messages(AbsorbEvents(h, es))
    decreases |es|
  {
    if es != [] {
      if StepOf(es[0]).None? {
        MessagesKept(h, es[1..]);
      } else {
        assert AbsorbEvent(h, es[0]).closed == Messages(h);
        ClosedGrows(AbsorbEvent(h, es[0]), es[1..]);
      }
    }
  }

  lemma {:induction false} NoResultFirst(a: seq<AgentEvent>, b: seq<AgentEvent>)
    requires NoResults(a) && (Opens(a) || !StartsWithResult(b))
    ensures !StartsWithResult(a + b)
    decreases |a|
  {
    if a == [] {
      assert a + b == b;
    } else {
      assert (a + b)[1..] == a[1..] + b;
      OpensSplit(a);
      if StepOf(a[0]).None? { NoResultFirst(a[1..], b); }
    }
  }

  lemma {:induction false} PrefixResultFirst(a: seq<AgentEvent>, b: seq<AgentEvent>)
    requires a <= b && !StartsWithResult(b)
    ensures !StartsWithResult(a)
    decreases |a|
  {
    if a != [] && StepOf(a[0]).None? { PrefixResultFirst(a[1..], b[1..]); }
  }

  lemma StreamIsFresh(s: Setup, w: World)
    ensures var fs := Relayed(s, w);
      NoResults(fs) && (Streamed(s, w).proposed != [] ==> Opens(fs))
  {
    var es := StreamEvents(s, w.stream);
    MapperGivesNoResults(s.jsonParse, FreshMapper, w.stream);
    ForwardGivesNoResults(es, s.secrets);
    ForwardKeeps(es, s.secrets);
    CollectedProposes(NoData, es);
    CollectedProposes(NoData, Forwarded(es, s.secrets));
  }

  lemma NothingToReport(s: Setup, w: World, d: RoundData)
    requires d.proposed == []
    ensures ReportEvents(s, w, d) == []
  {}

  lemma StreamStartsFresh(s: Setup, w: World, after: seq<AgentEvent>)
    requires !StartsWithResult(after)
    ensures !StartsWithResult(Relayed(s, w) + after)
  {
    StreamIsFresh(s, w);
    NoResultFirst(Relayed(s, w), after);
  }

  /** A round reports results only after something of it was recorded. */
  lemma RoundStartsFresh(s: Setup, w: World, after: seq<AgentEvent>)
    requires !StartsWithResult(after)
    ensures !StartsWithResult(RoundEvents(s, w, Streamed(s, w)) + after)
  {
    var d := Streamed(s, w);
    var fs, report := Relayed(s, w), ReportEvents(s, w, d);
    if d.proposed == [] {
      NothingToReport(s, w, d);
      assert fs + report == fs;
      StreamStartsFresh(s, w, after);
    } else {
      StreamIsFresh(s, w);
      Associate(fs, report, after);
      NoResultFirst(fs, report + after);
    }
  }

  lemma TailStartsFresh(s: Setup, w: World, tail: seq<AgentEvent>, end: TurnEnd)
    requires TailOf(s, w, tail)
    ensures !StartsWithResult(tail + Closing(end))
  {
    RoundStartsFresh(s, w, []);
    StreamStartsFresh(s, w, []);
    var fs, all := Relayed(s, w), RoundEvents(s, w, Streamed(s, w));
    assert fs + [] == fs && all + [] == all;
    if tail <= fs { PrefixResultFirst(tail, fs); } else { PrefixResultFirst(tail, all); }
    ClosingIsSilent(tail, end);
  }

  lemma {:induction false} ClosingIsSilent(tail: seq<AgentEvent>, end: TurnEnd)
    requires !StartsWithResult(tail)
    ensures !StartsWithResult(tail + Closing(end))
    decreases |tail|
  {
    if tail == [] {
      assert tail + Closing(end) == Closing(end);
    } else {
      assert (tail + Closing(end))[1..] == tail[1..] + Closing(end);
      if StepOf(tail[0]).None? { ClosingIsSilent(tail[1..], end); }
    }
  }

  // --- agreement ---

  predicate SameBlocks(a: Message, b: Message) {
    && a.role == b.role
    && if a.role == ToolRole then multiset(a.content) == multiset(b.content) else a.content == b.content
  }

  /** The first list opens the second, up to the order of results inside a tool message. */
  predicate OpensUpToOrder(a: seq<Message>, b: seq<Message>) {
    |a| <= |b| && forall i :: 0 <= i < |a| ==> SameBlocks(a[i], b[i])
  }

  function Map<T>(f: nat -> T, a: seq<nat>): (r: seq<T>)
    ensures |r| == |a| && forall i :: 0 <= i < |a| ==> r[i] == f(a[i])
  {
    if a == [] then [] else [f(a[0])] + Map(f, a[1..])
  }

  lemma {:induction false} MapConcat<T>(f: nat -> T, a: seq<nat>, b: seq<nat>)
    ensures Map(f, a + b) == Map(f, a) + Map(f, b)
    decreases |a|
  {
    if a == [] {
      assert a + b == b;
    } else {
      assert (a + b)[1..] == a[1..] + b;
      MapConcat(f, a[1..], b);
    }
  }

  function Without(b: seq<nat>, k: nat): seq<nat>
    requires k < |b|
  {
    b[..k] + b[k + 1..]
  }

  lemma TailsPermute(a: seq<nat>, b: seq<nat>, k: nat)
    requires a != [] && k < |b| && b[k] == a[0] && multiset(a) == multiset(b)
    ensures multiset(a[1..]) == multiset(Without(b, k))
  {
    assert a == [a[0]] + a[1..];
    assert b == b[..k] + [b[k]] + b[k + 1..];
    assert multiset(a[1..]) == multiset(a) - multiset{a[0]};
    assert multiset(Without(b, k)) == multiset(b) - multiset{b[k]};
  }

  lemma MapAround<T>(f: nat -> T, b: seq<nat>, k: nat)
    requires k < |b|
    ensures multiset(Map(f, b)) == multiset{f(b[k])} + multiset(Map(f, Without(b, k)))
  {
    var x, y := b[..k], b[k + 1..];
    assert b == x + ([b[k]] + y);
    MapConcat(f, x, [b[k]] + y);
    MapConcat(f, x, y);
    assert Map(f, [b[k]] + y) == [f(b[k])] + Map(f, y);
    AroundOne(Map(f, x), f(b[k]), Map(f, y));
  }

  lemma AroundOne<T>(x: seq<T>, m: T, y: seq<T>)
    ensures multiset(x + ([m] + y)) == multiset{m} + multiset(x + y)
  {}

  lemma {:induction false} MapPermuted<T>(f: nat -> T, a: seq<nat>, b: seq<nat>)
    requires multiset(a) == multiset(b)
    ensures multiset(Map(f, a)) == multiset(Map(f, b))
    decreases |a|
  {
    assert |multiset(a)| == |a| && |multiset(b)| == |b|;
    if a != [] {
      assert a[0] in multiset(b);
      var k :| 0 <= k < |b| && b[k] == a[0];
      TailsPermute(a, b, k);
      MapPermuted(f, a[1..], Without(b, k));
      MapAround(f, b, k);
    }
  }

  function ResultAt(s: Setup, l: RoundLog, k: nat): ContentBlock {
    if k < |l.data.proposed| then ResultFor(s, l.world, l.data.proposed[k], k) else ToolResultBlock("", "", false)
  }

  lemma ReportedPermutes(s: Setup, l: RoundLog)
    ensures multiset(Reported(s, l)) == multiset(Results(s, l.world, l.data.proposed))
  {
    var proposed, order := l.data.proposed, EmitOrder(s, l.world, l.data.proposed);
    var f := (k: nat) => ResultAt(s, l, k);
    var all: seq<nat> := seq(|proposed|, i => i);
    EmitOrderPermutes(s, l.world, proposed);
    EveryCallEmitted(s, l.world, proposed);
    MapPermuted(f, order, all);
    assert Reported(s, l) == Map(f, order);
    assert Results(s, l.world, proposed) == Map(f, all);
  }

  lemma {:induction false} PairsAgree(s: Setup, log: seq<RoundLog>)
    requires forall k :: 0 <= k < |log| ==> WellFormed(log[k]) && log[k].data == Streamed(s, log[k].world)
    ensures |ReportedPairs(s, log)| == |Pairs(s, log)|
    ensures OpensUpToOrder(Pairs(s, log), ReportedPairs(s, log))
    decreases |log|
  {
    if log != [] {
      var l := log[|log| - 1];
      PairsAgree(s, log[..|log| - 1]);
      ReportedPermutes(s, l);
      assert ToolMessage(s, l).content == Results(s, l.world, l.data.proposed);
    }
  }

  /** A finished or interrupted run: what `Run` promises of its log, its last round and its end. */
  ghost predicate IsRun(s: Setup, log: seq<RoundLog>, last: World, tail: seq<AgentEvent>, end: TurnEnd) {
    FromStreams(s, log) && |log| <= s.maxRounds && EndsIn(s, last, |log|, tail, end)
  }

  lemma TurnIsRun(s: Setup, worlds: nat -> World, log: seq<RoundLog>, tail: seq<AgentEvent>, end: TurnEnd)
    requires TurnOf(s, worlds, log, tail, end)
    ensures IsRun(s, log, worlds(|log|), tail, end)
  {}

  function RunEvents(s: Setup, log: seq<RoundLog>, tail: seq<AgentEvent>, end: TurnEnd): seq<AgentEvent> {
    AllEvents(s, log) + tail + Closing(end)
  }

  function Sent(s: Setup, prompt: string, log: seq<RoundLog>): seq<Message> {
    [UserMessage(prompt)] + Pairs(s, log)
  }

  /** What comes after the rounds that went through leaves their messages alone. */
  lemma RoundsKept(s: Setup, prompt: string, log: seq<RoundLog>, last: World, tail: seq<AgentEvent>, end: TurnEnd)
    requires IsRun(s, log, last, tail, end) && forall k :: 0 <= k < |log| ==> WellFormed(log[k])
    ensures [UserMessage(prompt)] + ReportedPairs(s, log) <= Derived(prompt, RunEvents(s, log, tail, end))
  {
    var after := tail + Closing(end);
    assert RunEvents(s, log, tail, end) == AllEvents(s, log) + after;
    DerivedFromEvents(prompt, RunEvents(s, log, tail, end));
    AbsorbConcat(PromptHist(prompt), AllEvents(s, log), after);
    LogAbsorbed(s, prompt, log);
    EndsWithTail(s, last, |log|, tail, end);
    TailStartsFresh(s, last, tail, end);
    MessagesKept(AbsorbEvents(PromptHist(prompt), AllEvents(s, log)), after);
  }

  lemma PrefixKeepsOpening(a: seq<Message>, b: seq<Message>, d: seq<Message>)
    requires OpensUpToOrder(a, b) && b <= d
    ensures OpensUpToOrder(a, d)
  {}

  lemma PairsAgreeAfter(s: Setup, prompt: string, log: seq<RoundLog>)
    requires forall k :: 0 <= k < |log| ==> WellFormed(log[k]) && log[k].data == Streamed(s, log[k].world)
    ensures OpensUpToOrder(Sent(s, prompt, log), [UserMessage(prompt)] + ReportedPairs(s, log))
  {
    PairsAgree(s, log);
  }

  predicate AllWellFormed(log: seq<RoundLog>) {
    forall k :: 0 <= k < |log| ==> WellFormed(log[k])
  }

  /** With every call well formed, the derived history opens with what the loop sent, up to
      the order of results, and with the results in the order they were reported. */
  lemma WellFormedRunsAgree(s: Setup, prompt: string, log: seq<RoundLog>, last: World, tail: seq<AgentEvent>,
                            end: TurnEnd)
    requires IsRun(s, log, last, tail, end) && AllWellFormed(log)
    ensures OpensUpToOrder(Sent(s, prompt, log), Derived(prompt, RunEvents(s, log, tail, end)))
    ensures [UserMessage(prompt)] + ReportedPairs(s, log) <= Derived(prompt, RunEvents(s, log, tail, end))
  {
    RoundsKept(s, prompt, log, last, tail, end);
    PairsAgreeAfter(s, prompt, log);
    PrefixKeepsOpening(Sent(s, prompt, log), [UserMessage(prompt)] + ReportedPairs(s, log),
      Derived(prompt, RunEvents(s, log, tail, end)));
  }

  // --- malformed calls ---

  function ProposedIds(es: seq<AgentEvent>): set<string> {
    if es == [] then {} else (if es[0].ToolProposed? then {es[0].call.id} else {}) + ProposedIds(es[1..])
  }

  lemma {:induction false} ProposedIdsConcat(a: seq<AgentEvent>, b: seq<AgentEvent>)
    ensures ProposedIds(a + b) == ProposedIds(a) + ProposedIds(b)
  {
    if a == [] {
      assert a + b == b;
    } else {
      assert (a + b)[1..] == a[1..] + b;
      ProposedIdsConcat(a[1..], b);
    }
  }

  lemma {:induction false} UsesConcat(a: seq<AgentEvent>, b: seq<AgentEvent>)
    ensures Uses(a + b) == Uses(a) + Uses(b)
  {
    if a == [] {
      assert a + b == b;
    } else {
      assert (a + b)[1..] == a[1..] + b;
      UsesConcat(a[1..], b);
      Associate(if a[0].ToolProposed? then [UseBlock(a[0].call)] else [], Uses(a[1..]), Uses(b));
    }
  }

  /** The blocks that stand for the malformed calls of a stream. */
  function Placeholders(es: seq<AgentEvent>): seq<ContentBlock> {
    if es == [] then []
    else
      (if es[0].ToolProposalFailed? then [ToolUseBlock(es[0].failedId, es[0].failedName, EmptyObject)] else [])
      + Placeholders(es[1..])
  }

  /** From a message on, the messages name only given calls. */
  ghost predicate NamesFrom(ms: seq<Message>, from: nat, uses: seq<ContentBlock>) {
    forall i, u :: from <= i < |ms| && u in ms[i].content && u.ToolUseBlock? ==> u in uses
  }

  ghost predicate UsesWithin(h: Hist, b: nat, uses: seq<ContentBlock>) {
    b <= |Messages(h)| && (h.cur.Asst? ==> b <= |h.closed|) && NamesFrom(Messages(h), b, uses)
  }

  ghost predicate NamesWithin(bs: seq<ContentBlock>, uses: seq<ContentBlock>) {
    forall u :: u in bs && u.ToolUseBlock? ==> u in uses
  }

  lemma OpenedWithin(h: Hist, b: nat, uses: seq<ContentBlock>)
    requires UsesWithin(h, b, uses)
    ensures NamesWithin(Opened(h).cur.uses, uses)
  {
    if h.cur.Asst? {
      forall u | u in h.cur.uses && u.ToolUseBlock? ensures u in uses {
        assert u in Messages(h)[|h.closed|].content;
      }
    }
  }

  /** Only the last message differs. */
  lemma LastStaysWithin(h: Hist, h': Hist, b: nat, uses: seq<ContentBlock>)
    requires UsesWithin(h, b, uses)
    requires h'.closed == Opened(h).closed && h'.cur.Asst? && NamesWithin(h'.cur.uses, uses)
    ensures UsesWithin(h', b, uses)
  {
    assert |Messages(h')| == |h'.closed| + 1;
    forall i, u | b <= i < |Messages(h')| && u in Messages(h')[i].content && u.ToolUseBlock? ensures u in uses {
      if i < |h'.closed| {
        assert Messages(h')[i] == h'.closed[i] == Messages(h)[i];
      }
    }
  }

  lemma ResultStaysWithin(h: Hist, e: AgentEvent, b: nat, uses: seq<ContentBlock>)
    requires UsesWithin(h, b, uses) && e.ToolResult?
    ensures UsesWithin(AbsorbEvent(h, e), b, uses)
  {
    var h', block := AbsorbEvent(h, e), ToolResultBlock(e.id, e.output, e.isError);
    if h.cur.Tools? {
      assert Messages(h')[|h.closed|].content == Messages(h)[|h.closed|].content + [block];
      assert forall i :: 0 <= i < |h.closed| ==> Messages(h')[i] == Messages(h)[i];
    } else {
      assert forall i :: 0 <= i < |Messages(h)| ==> Messages(h')[i] == Messages(h)[i];
    }
  }

  lemma SilentStaysWithin(h: Hist, e: AgentEvent, b: nat, uses: seq<ContentBlock>)
    requires UsesWithin(h, b, uses) && !e.Assistant? && !e.ToolProposed? && !e.ToolResult?
    ensures UsesWithin(AbsorbEvent(h, e), b, uses)
  {
    assert Messages(Hist(Messages(h), Nothing)) == Messages(h);
  }

  lemma UsesStep(h: Hist, e: AgentEvent, b: nat, uses: seq<ContentBlock>)
    requires UsesWithin(h, b, uses) && (e.ToolProposed? ==> UseBlock(e.call) in uses)
    ensures UsesWithin(AbsorbEvent(h, e), b, uses)
  {
    if e.Assistant? || e.ToolProposed? {
      OpenedWithin(h, b, uses);
      LastStaysWithin(h, AbsorbEvent(h, e), b, uses);
    } else if e.ToolResult? {
      ResultStaysWithin(h, e, b, uses);
    } else {
      SilentStaysWithin(h, e, b, uses);
    }
  }

  lemma {:induction false} UsesAbsorbed(h: Hist, es: seq<AgentEvent>, b: nat, uses: seq<ContentBlock>)
    requires UsesWithin(h, b, uses) && forall u :: u in Uses(es) ==> u in uses
    ensures UsesWithin(AbsorbEvents(h, es), b, uses)
    decreases |es|
  {
    if es != [] {
      UsesStep(h, es[0], b, uses);
      UsesAbsorbed(AbsorbEvent(h, es[0]), es[1..], b, uses);
    }
  }

  /** No malformed call of a round that went through looks like a well-formed call of the run:
      same id, same name and no input. */
  ghost predicate NoSharedCalls(s: Setup, log: seq<RoundLog>, es: seq<AgentEvent>) {
    forall k, p :: 0 <= k < |log| && p in Placeholders(StreamEvents(s, log[k].world.stream)) ==> p !in Uses(es)
  }

  lemma AllEventsLast(s: Setup, log: seq<RoundLog>)
    requires log != []
    ensures var l := log[|log| - 1];
      AllEvents(s, log) == AllEvents(s, log[..|log| - 1]) + RoundEvents(s, l.world, l.data)
  {}

  lemma FirstFromStreams(s: Setup, log: seq<RoundLog>)
    requires log != [] && FromStreams(s, log)
    ensures FromStreams(s, log[..|log| - 1])
    ensures log[|log| - 1].data == Streamed(s, log[|log| - 1].world)
  {}

  lemma {:induction false} LaterStartsFresh(s: Setup, log: seq<RoundLog>, k: nat, after: seq<AgentEvent>)
    returns (later: seq<AgentEvent>)
    requires FromStreams(s, log) && k <= |log| && !StartsWithResult(after)
    ensures AllEvents(s, log) == AllEvents(s, log[..k]) + later && !StartsWithResult(later + after)
    decreases |log|, 0
  {
    if k == |log| {
      later := [];
      assert log[..k] == log && [] + after == after;
    } else {
      var init, l := log[..|log| - 1], log[|log| - 1];
      FirstFromStreams(s, log);
      later := LastRoundFresh(s, init, l, k, after);
      assert init[..k] == log[..k];
      AllEventsLast(s, log);
    }
  }

  lemma {:induction false} LastRoundFresh(s: Setup, init: seq<RoundLog>, l: RoundLog, k: nat, after: seq<AgentEvent>)
    returns (later: seq<AgentEvent>)
    requires FromStreams(s, init) && l.data == Streamed(s, l.world) && k <= |init| && !StartsWithResult(after)
    ensures AllEvents(s, init) + RoundEvents(s, l.world, l.data) == AllEvents(s, init[..k]) + later
    ensures !StartsWithResult(later + after)
    decreases |init|, 1
  {
    var round := RoundEvents(s, l.world, l.data);
    RoundStartsFresh(s, l.world, after);
    var before := LaterStartsFresh(s, init, k, round + after);
    later := before + round;
    Associate(before, round, after);
    Associate(AllEvents(s, init[..k]), before, round);
  }

  lemma {:induction false} CollectedPlaceholders(d: RoundData, es: seq<AgentEvent>)
    ensures |Collected(d, es).failedResults| == |d.failedResults| + |Placeholders(es)|
    ensures d.toolUses <= Collected(d, es).toolUses
    ensures forall p :: p in Placeholders(es) ==> p in Collected(d, es).toolUses && p.ToolUseBlock?
    decreases |es|
  {
    if es != [] {
      var d' := Collect(d, es[0]);
      CollectedPlaceholders(d', es[1..]);
      if es[0].ToolProposalFailed? {
        assert d'.toolUses[|d.toolUses|] == ToolUseBlock(es[0].failedId, es[0].failedName, EmptyObject);
      }
    }
  }

  lemma MalformedIsNamed(s: Setup, l: RoundLog) returns (p: ContentBlock)
    requires l.data == Streamed(s, l.world) && !WellFormed(l)
    ensures p in Placeholders(StreamEvents(s, l.world.stream)) && p.ToolUseBlock?
    ensures p in AssistantMessage(l.data).content
  {
    CollectedPlaceholders(NoData, StreamEvents(s, l.world.stream));
    p := Placeholders(StreamEvents(s, l.world.stream))[0];
  }

  lemma PlaceholderSent(s: Setup, prompt: string, log: seq<RoundLog>, es: seq<AgentEvent>, k: nat)
    returns (p: ContentBlock)
    requires FromStreams(s, log) && NoSharedCalls(s, log, es) && k < |log| && !WellFormed(log[k])
    ensures |Sent(s, prompt, log)| > 2 * k + 1 && Sent(s, prompt, log)[2 * k + 1].role == AssistantRole
    ensures p in Sent(s, prompt, log)[2 * k + 1].content && p.ToolUseBlock? && p !in Uses(es)
  {
    p := MalformedIsNamed(s, log[k]);
    SentAt(s, prompt, log, k);
  }

  predicate OnlyResults(bs: seq<ContentBlock>) {
    forall i :: 0 <= i < |bs| ==> bs[i].ToolResultBlock?
  }

  /** From the first malformed call on, the derived history and the sent messages part, as its
      placeholder is nowhere in the transcript, unless the run has a well-formed call that
      looks like a malformed one. */
  lemma MalformedCallParts(s: Setup, prompt: string, log: seq<RoundLog>, last: World, tail: seq<AgentEvent>,
                           end: TurnEnd, k: nat)
    requires IsRun(s, log, last, tail, end)
    requires k < |log| && !WellFormed(log[k]) && forall j :: 0 <= j < k ==> WellFormed(log[j])
    ensures OpensUpToOrder(Sent(s, prompt, log), Derived(prompt, RunEvents(s, log, tail, end)))
        ==> !NoSharedCalls(s, log, RunEvents(s, log, tail, end))
  {
    var es := RunEvents(s, log, tail, end);
    UsesFromMalformed(s, prompt, log, last, tail, end, k);
    if NoSharedCalls(s, log, es) {
      var p := PlaceholderSent(s, prompt, log, es, k);
      CannotOpen(Sent(s, prompt, log), Derived(prompt, es), 2 * k + 1, p, Uses(es));
    }
  }

  lemma NothingShared(s: Setup, log: seq<RoundLog>, es: seq<AgentEvent>)
    requires FromStreams(s, log) && AllWellFormed(log)
    ensures NoSharedCalls(s, log, es)
  {
    forall k | 0 <= k < |log| ensures Placeholders(StreamEvents(s, log[k].world.stream)) == [] {
      CollectedPlaceholders(NoData, StreamEvents(s, log[k].world.stream));
      assert WellFormed(log[k]);
    }
  }

  lemma CannotOpen(sent: seq<Message>, d: seq<Message>, i: nat, u: ContentBlock, uses: seq<ContentBlock>)
    requires i < |sent| && sent[i].role == AssistantRole && u in sent[i].content && u.ToolUseBlock?
    requires NamesFrom(d, i, uses) && u !in uses
    ensures !OpensUpToOrder(sent, d)
  {
    if OpensUpToOrder(sent, d) {
      assert false;
    }
  }

  lemma SentAt(s: Setup, prompt: string, log: seq<RoundLog>, k: nat)
    requires k < |log|
    ensures 2 * k + 1 < |Sent(s, prompt, log)|
    ensures Sent(s, prompt, log)[2 * k + 1] == AssistantMessage(log[k].data)
  {
    PairsAt(s, log, k);
  }

  lemma UsesFromMalformed(s: Setup, prompt: string, log: seq<RoundLog>, last: World, tail: seq<AgentEvent>,
                          end: TurnEnd, k: nat)
    requires IsRun(s, log, last, tail, end) && k < |log| && forall j :: 0 <= j < k ==> WellFormed(log[j])
    ensures NamesFrom(Derived(prompt, RunEvents(s, log, tail, end)), 2 * k + 1, Uses(RunEvents(s, log, tail, end)))
  {
    var es, first := RunEvents(s, log, tail, end), AllEvents(s, log[..k]);
    var later := EventsFrom(s, log, last, tail, end, k);
    UsesConcat(first, later);
    DerivedFromEvents(prompt, es);
    AbsorbConcat(PromptHist(prompt), first, later);
    HistoryBefore(s, prompt, log[..k]);
    UsesAbsorbed(AbsorbEvents(PromptHist(prompt), first), later, 2 * k + 1, Uses(es));
  }

  lemma EventsFrom(s: Setup, log: seq<RoundLog>, last: World, tail: seq<AgentEvent>, end: TurnEnd, k: nat)
    returns (later: seq<AgentEvent>)
    requires IsRun(s, log, last, tail, end) && k <= |log|
    ensures RunEvents(s, log, tail, end) == AllEvents(s, log[..k]) + later
  {
    var after := tail + Closing(end);
    EndsWithTail(s, last, |log|, tail, end);
    TailStartsFresh(s, last, tail, end);
    var between := LaterStartsFresh(s, log, k, after);
    Associate(AllEvents(s, log), tail, Closing(end));
    Associate(AllEvents(s, log[..k]), between, after);
    later := between + after;
  }

  lemma HistoryBefore(s: Setup, prompt: string, log: seq<RoundLog>)
    requires FromStreams(s, log) && forall j :: 0 <= j < |log| ==> WellFormed(log[j])
    ensures var h := AbsorbEvents(PromptHist(prompt), AllEvents(s, log));
      |Messages(h)| == 2 * |log| + 1 && !h.cur.Asst?
  {
    LogAbsorbed(s, prompt, log);
    PairsAgree(s, log);
    PairsLength(s, log);
  }

  lemma PairsLength(s: Setup, log: seq<RoundLog>)
    ensures |Pairs(s, log)| == 2 * |log|
  {
    if log != [] { PairsAt(s, log, 0); }
  }

  /** In every run, the history derived from the transcript opens with exactly what the loop
      sent, up to the order of results inside a tool message, and no well-formed call looks
      like a malformed one, if and only if no round that went through had a malformed call. */
  lemma HistoryAgrees(s: Setup, prompt: string, log: seq<RoundLog>, last: World, tail: seq<AgentEvent>, end: TurnEnd)
    requires IsRun(s, log, last, tail, end)
    ensures var es := RunEvents(s, log, tail, end);
      OpensUpToOrder(Sent(s, prompt, log), Derived(prompt, es)) && NoSharedCalls(s, log, es) <==> AllWellFormed(log)
  {
    if AllWellFormed(log) {
      WellFormedRunsAgree(s, prompt, log, last, tail, end);
      NothingShared(s, log, RunEvents(s, log, tail, end));
    } else {
      var k := FirstMalformed(log);
      MalformedCallParts(s, prompt, log, last, tail, end, k);
    }
  }

  lemma {:induction false} FirstMalformed(log: seq<RoundLog>) returns (k: nat)
    requires exists j :: 0 <= j < |log| && !WellFormed(log[j])
    ensures k < |log| && !WellFormed(log[k]) && forall j :: 0 <= j < k ==> WellFormed(log[j])
    decreases |log|
  {
    var init := log[..|log| - 1];
    if j :| 0 <= j < |init| && !WellFormed(init[j]) {
      k := FirstMalformed(init);
    } else {
      forall j | 0 <= j < |init| ensures WellFormed(log[j]) { assert log[j] == init[j]; }
      k := |log| - 1;
    }
  }

  // --- the order of results ---

  lemma InOrderIsIdentity(xs: seq<nat>, n: nat)
    requires InOrder(xs) && forall k: nat :: k in xs <==> k < n
    ensures |xs| == n && forall i :: 0 <= i < n ==> xs[i] == i
  {
    EachOnce(xs, n);
    var all: seq<nat> := seq(n, i => i);
    assert |xs| == |multiset(xs)| == |multiset(all)| == n;
    assert forall j :: 0 <= j < n ==> xs[j] in xs;
    forall i | 0 <= i < n ensures xs[i] == i {
      AtLeastIndex(xs, i);
      AtMostIndex(xs, n, i);
    }
  }

  lemma {:induction false} AtLeastIndex(xs: seq<nat>, i: nat)
    requires InOrder(xs) && i < |xs|
    ensures xs[i] >= i
  {
    if i > 0 { AtLeastIndex(xs, i - 1); }
  }

  lemma {:induction false} AtMostIndex(xs: seq<nat>, n: nat, i: nat)
    requires InOrder(xs) && |xs| == n && i < n && forall j :: 0 <= j < n ==> xs[j] < n
    ensures xs[i] <= i
    decreases n - i
  {
    if i < n - 1 { AtMostIndex(xs, n, i + 1); }
  }

  predicate DistinctIds(calls: seq<ToolCall>) {
    forall i, j :: 0 <= i < j < |calls| ==> calls[i].id != calls[j].id
  }

  /** A round reports its results in the order they are sent in. */
  predicate AsSent(s: Setup, l: RoundLog) {
    Reported(s, l) == Results(s, l.world, l.data.proposed)
  }

  /** Results are reported as they are sent when the lanes are sorted; in a round that does not
      repeat an id, only then. */
  lemma ReportedAsSent(s: Setup, l: RoundLog)
    ensures LanesSorted(s, l.world, l.data.proposed) ==> AsSent(s, l)
    ensures DistinctIds(l.data.proposed) && AsSent(s, l) ==> LanesSorted(s, l.world, l.data.proposed)
  {
    var proposed, order := l.data.proposed, EmitOrder(s, l.world, l.data.proposed);
    EveryCallEmitted(s, l.world, proposed);
    ReportInOrder(s, l.world, proposed);
    if LanesSorted(s, l.world, proposed) {
      InOrderIsIdentity(order, |proposed|);
    }
    if DistinctIds(proposed) && AsSent(s, l) {
      forall j | 0 <= j < |order| ensures order[j] == j {
        assert Reported(s, l)[j].toolUseId == proposed[order[j]].id;
        assert Results(s, l.world, proposed)[j].toolUseId == proposed[j].id;
      }
      assert InOrder(order);
    }
  }

  predicate AllReportedAsSent(s: Setup, log: seq<RoundLog>) {
    forall k :: 0 <= k < |log| ==> AsSent(s, log[k])
  }

  lemma WellFormedExactly(s: Setup, prompt: string, log: seq<RoundLog>, last: World, tail: seq<AgentEvent>,
                          end: TurnEnd)
    requires IsRun(s, log, last, tail, end) && AllWellFormed(log)
    ensures Sent(s, prompt, log) <= Derived(prompt, RunEvents(s, log, tail, end)) <==> AllReportedAsSent(s, log)
  {
    var d, sent := Derived(prompt, RunEvents(s, log, tail, end)), Sent(s, prompt, log);
    WellFormedRunsAgree(s, prompt, log, last, tail, end);
    PairsAgree(s, log);
    SamePairs(s, log);
    var reported := [UserMessage(prompt)] + ReportedPairs(s, log);
    assert sent <= d <==> sent == reported;
    TwoParts([UserMessage(prompt)], Pairs(s, log), [UserMessage(prompt)], ReportedPairs(s, log));
  }

  /** In every run, the derived history opens with what the loop sent, block for block, and no
      well-formed call looks like a malformed one, if and only if no call was malformed and
      every round reports its results in the order they are sent. */
  lemma HistoryAgreesExactly(s: Setup, prompt: string, log: seq<RoundLog>, last: World, tail: seq<AgentEvent>,
                             end: TurnEnd)
    requires IsRun(s, log, last, tail, end)
    ensures var es := RunEvents(s, log, tail, end);
      Sent(s, prompt, log) <= Derived(prompt, es) && NoSharedCalls(s, log, es)
      <==> AllWellFormed(log) && AllReportedAsSent(s, log)
  {
    HistoryAgrees(s, prompt, log, last, tail, end);
    if AllWellFormed(log) {
      WellFormedExactly(s, prompt, log, last, tail, end);
    } else {
      PrefixOpens(Sent(s, prompt, log), Derived(prompt, RunEvents(s, log, tail, end)));
    }
  }

  /** Sorted lanes are enough for that; when no round repeats an id they are also needed. */
  lemma SortedLanesReport(s: Setup, log: seq<RoundLog>)
    ensures AllSorted(s, log) ==> AllReportedAsSent(s, log)
    ensures (forall k :: 0 <= k < |log| ==> DistinctIds(log[k].data.proposed))
        ==> (AllReportedAsSent(s, log) <==> AllSorted(s, log))
  {
    forall k | 0 <= k < |log|
      ensures LanesSorted(s, log[k].world, log[k].data.proposed) ==> AsSent(s, log[k])
      ensures DistinctIds(log[k].data.proposed) && AsSent(s, log[k])
          ==> LanesSorted(s, log[k].world, log[k].data.proposed)
    {
      ReportedAsSent(s, log[k]);
    }
  }

  lemma PrefixOpens(a: seq<Message>, d: seq<Message>)
    ensures a <= d ==> OpensUpToOrder(a, d)
  {}

  lemma TwoParts<T>(a: seq<T>, p: seq<T>, b: seq<T>, r: seq<T>)
    requires |a| == |b|
    ensures a + p == b + r <==> a == b && p == r
  {
    assert (a + p)[..|a|] == a && (a + p)[|a|..] == p;
    assert (b + r)[..|b|] == b && (b + r)[|b|..] == r;
  }

  /** The two messages of one round as sent, and as they are reported. */
  lemma SamePair(s: Setup, l: RoundLog)
    requires WellFormed(l)
    ensures [AssistantMessage(l.data), ToolMessage(s, l)]
         == [AssistantMessage(l.data), Message(ToolRole, Reported(s, l))]
        <==> AsSent(s, l)
  {
    assert ToolMessage(s, l).content == Results(s, l.world, l.data.proposed);
    var p := [AssistantMessage(l.data), ToolMessage(s, l)];
    var r := [AssistantMessage(l.data), Message(ToolRole, Reported(s, l))];
    assert p == r <==> p[1] == r[1];
  }

  predicate AllSorted(s: Setup, log: seq<RoundLog>) {
    forall k :: 0 <= k < |log| ==> LanesSorted(s, log[k].world, log[k].data.proposed)
  }

  lemma SplitLast<T>(p: T -> bool, xs: seq<T>, init: seq<T>)
    requires xs != [] && init == xs[..|xs| - 1]
    ensures (forall k :: 0 <= k < |xs| ==> p(xs[k]))
        <==> (forall k :: 0 <= k < |init| ==> p(init[k])) && p(xs[|xs| - 1])
  {
    assert xs == init + [xs[|xs| - 1]];
    if forall k :: 0 <= k < |xs| ==> p(xs[k]) {
      forall k | 0 <= k < |init| ensures p(init[k]) { assert init[k] == xs[k]; }
    }
  }

  lemma AsSentSplit(s: Setup, log: seq<RoundLog>)
    requires log != []
    ensures AllReportedAsSent(s, log)
        <==> AllReportedAsSent(s, log[..|log| - 1]) && AsSent(s, log[|log| - 1])
  {
    SplitLast(l => AsSent(s, l), log, log[..|log| - 1]);
  }

  lemma {:induction false} SamePairs(s: Setup, log: seq<RoundLog>)
    requires AllWellFormed(log)
    ensures |Pairs(s, log)| == |ReportedPairs(s, log)|
    ensures Pairs(s, log) == ReportedPairs(s, log) <==> AllReportedAsSent(s, log)
    decreases |log|
  {
    if log != [] {
      var init, l := log[..|log| - 1], log[|log| - 1];
      SamePairs(s, init);
      SamePair(s, l);
      TwoParts(Pairs(s, init), [AssistantMessage(l.data), ToolMessage(s, l)],
        ReportedPairs(s, init), [AssistantMessage(l.data), Message(ToolRole, Reported(s, l))]);
      AsSentSplit(s, log);
    }
  }

  // --- every result is joined to its call ---

  ghost predicate Answered(ms: seq<Message>, i: nat, id: string)
    requires i <= |ms|
  {
    exists j :: 0 <= j < i && id in UseIds(ms[j].content)
  }

  /** Every result in the history answers a call of an earlier message. */
  ghost predicate AllAnswered(ms: seq<Message>) {
    forall i, id :: 0 <= i < |ms| && id in ResultIds(ms[i].content) ==> Answered(ms, i, id)
  }

  /** Results come only for calls proposed before them. */
  predicate Joined(known: set<string>, es: seq<AgentEvent>)
    decreases |es|
  {
    es == [] || (
      && (es[0].ToolResult? ==> es[0].id in known)
      && Joined(known + ProposedIds(es[..1]), es[1..]))
  }

  lemma {:induction false} JoinedConcat(known: set<string>, a: seq<AgentEvent>, b: seq<AgentEvent>)
    requires Joined(known, a) && Joined(known + ProposedIds(a), b)
    ensures Joined(known, a + b)
    decreases |a|
  {
    if a == [] {
      assert a + b == b && known + ProposedIds(a) == known;
    } else {
      assert a == a[..1] + a[1..] && (a + b)[..1] == a[..1] && (a + b)[1..] == a[1..] + b;
      ProposedIdsConcat(a[..1], a[1..]);
      assert known + ProposedIds(a) == known + ProposedIds(a[..1]) + ProposedIds(a[1..]);
      JoinedConcat(known + ProposedIds(a[..1]), a[1..], b);
    }
  }

  lemma {:induction false} JoinedPrefix(known: set<string>, a: seq<AgentEvent>, b: seq<AgentEvent>)
    requires a <= b && Joined(known, b)
    ensures Joined(known, a)
    decreases |a|
  {
    if a != [] {
      assert a[..1] == b[..1];
      JoinedPrefix(known + ProposedIds(a[..1]), a[1..], b[1..]);
    }
  }

  lemma {:induction false} NoResultsJoined(known: set<string>, es: seq<AgentEvent>)
    requires NoResults(es)
    ensures Joined(known, es)
    decreases |es|
  {
    if es != [] { NoResultsJoined(known + ProposedIds(es[..1]), es[1..]); }
  }

  lemma {:induction false} ResultsJoined(known: set<string>, bs: seq<ContentBlock>)
    requires OnlyResults(bs) && forall i :: 0 <= i < |bs| ==> bs[i].toolUseId in known
    ensures Joined(known, EmitAll(bs))
    decreases |bs|
  {
    if bs != [] {
      assert EmitAll(bs)[1..] == EmitAll(bs[1..]) && EmitAll(bs)[..1] == [Emit(bs[0])];
      assert ProposedIds(EmitAll(bs)[..1]) == {};
      assert known + {} == known;
      ResultsJoined(known, bs[1..]);
    }
  }

  predicate CallsIn(calls: seq<ToolCall>, ids: set<string>) {
    forall i :: 0 <= i < |calls| ==> calls[i].id in ids
  }

  lemma {:induction false} CollectedWereProposed(d: RoundData, es: seq<AgentEvent>, ids: set<string>)
    requires ProposedIds(es) <= ids && CallsIn(d.proposed, ids)
    ensures CallsIn(Collected(d, es).proposed, ids)
    decreases |es|
  {
    if es != [] { CollectedWereProposed(Collect(d, es[0]), es[1..], ids); }
  }

  lemma {:induction false} ForwardKeepsIds(es: seq<AgentEvent>, secrets: seq<string>)
    ensures ProposedIds(Forwarded(es, secrets)) == ProposedIds(es)
  {
    if es != [] {
      ForwardKeepsIds(es[1..], secrets);
      ProposedIdsConcat(Forward(es[0], secrets), Forwarded(es[1..], secrets));
    }
  }

  lemma RoundJoined(s: Setup, w: World, known: set<string>)
    ensures Joined(known, RoundEvents(s, w, Streamed(s, w)))
    ensures Joined(known, Relayed(s, w))
  {
    var es, d := StreamEvents(s, w.stream), Streamed(s, w);
    var fs := Forwarded(es, s.secrets);
    StreamIsFresh(s, w);
    NoResultsJoined(known, fs);
    ForwardKeepsIds(es, s.secrets);
    CollectedWereProposed(NoData, es, ProposedIds(es));
    ReportJoined(s, RoundLog(d, w), known + ProposedIds(fs));
    JoinedConcat(known, fs, ReportEvents(s, w, d));
  }

  lemma ReportJoined(s: Setup, l: RoundLog, known: set<string>)
    requires CallsIn(l.data.proposed, known)
    ensures Joined(known, ReportEvents(s, l.world, l.data))
  {
    ReportIsEmitted(s, l);
    EveryCallEmitted(s, l.world, l.data.proposed);
    ResultsJoined(known, Reported(s, l));
  }

  lemma {:induction false} LogJoined(s: Setup, log: seq<RoundLog>)
    requires FromStreams(s, log)
    ensures Joined({}, AllEvents(s, log))
    decreases |log|
  {
    if log != [] {
      var init, l := log[..|log| - 1], log[|log| - 1];
      LogJoined(s, init);
      AllEventsLast(s, log);
      RoundJoined(s, l.world, {} + ProposedIds(AllEvents(s, init)));
      JoinedConcat({}, AllEvents(s, init), RoundEvents(s, l.world, l.data));
    }
  }

  /** Every result so far answers an earlier call, and the calls known so far are named. */
  ghost predicate Linked(ms: seq<Message>, known: set<string>) {
    AllAnswered(ms) && forall id :: id in known ==> Answered(ms, |ms|, id)
  }

  lemma LinkedAppend(ms: seq<Message>, m: Message, known: set<string>, more: set<string>)
    requires Linked(ms, known)
    requires forall id :: id in ResultIds(m.content) ==> id in known
    requires forall id :: id in more ==> id in known || id in UseIds(m.content)
    ensures Linked(ms + [m], more)
  {
    var out := ms + [m];
    forall i, id | 0 <= i < |out| && id in ResultIds(out[i].content) ensures Answered(out, i, id) {
      assert i == |ms| ==> Answered(ms, |ms|, id);
      assert i < |ms| ==> Answered(ms, i, id);
      var j :| 0 <= j < i && id in UseIds(ms[j].content);
      assert out[j] == ms[j];
    }
    forall id | id in more ensures Answered(out, |out|, id) {
      if id in known {
        var j :| 0 <= j < |ms| && id in UseIds(ms[j].content);
        assert out[j] == ms[j];
      } else {
        assert out[|ms|] == m;
      }
    }
  }

  lemma LinkedReplace(c: seq<Message>, m: Message, m': Message, known: set<string>, more: set<string>)
    requires Linked(c + [m], known)
    requires forall id :: id in UseIds(m.content) ==> id in UseIds(m'.content)
    requires forall id :: id in ResultIds(m'.content) ==> Answered(c, |c|, id)
    requires forall id :: id in more ==> id in known || id in UseIds(m'.content)
    ensures Linked(c + [m'], more)
  {
    var ms, out := c + [m], c + [m'];
    forall i, id | 0 <= i < |out| && id in ResultIds(out[i].content) ensures Answered(out, i, id) {
      if i < |c| { assert ms[i] == out[i] && Answered(ms, i, id); }
      var j :| 0 <= j < i && id in UseIds((if i < |c| then ms else c)[j].content);
      assert out[j] == c[j];
    }
    forall id | id in more ensures Answered(out, |out|, id) {
      if id in known {
        var j :| 0 <= j < |ms| && id in UseIds(ms[j].content);
        if j < |c| { assert out[j] == c[j]; } else { assert out[|c|] == m'; }
      } else {
        assert out[|c|] == m';
      }
    }
  }

  ghost predicate LinkedSoFar(h: Hist, known: set<string>) {
    && Linked(Messages(h), known)
    && (h.cur.Tools? ==> OnlyResults(h.cur.results))
    && (h.cur.Asst? ==> OnlyUses(h.cur.uses))
  }

  predicate OnlyUses(bs: seq<ContentBlock>) {
    forall i :: 0 <= i < |bs| ==> bs[i].ToolUseBlock?
  }

  lemma {:induction false} NoUsesInResults(bs: seq<ContentBlock>)
    requires OnlyResults(bs)
    ensures UseIds(bs) == []
  {
    if bs != [] { NoUsesInResults(bs[1..]); }
  }

  lemma {:induction false} NoResultsInUses(bs: seq<ContentBlock>)
    requires OnlyUses(bs)
    ensures ResultIds(bs) == []
  {
    if bs != [] { NoResultsInUses(bs[1..]); }
  }

  function AssistantOf(text: string, uses: seq<ContentBlock>): Message {
    Message(AssistantRole, (if text != "" then [TextBlock(text)] else []) + uses)
  }

  lemma UsesOfAssistant(text: string, uses: seq<ContentBlock>)
    ensures UseIds((if text != "" then [TextBlock(text)] else []) + uses) == UseIds(uses)
  {
    UseIdsConcat(if text != "" then [TextBlock(text)] else [], uses);
  }

  lemma AssistantIds(text: string, uses: seq<ContentBlock>)
    requires OnlyUses(uses)
    ensures UseIds(AssistantOf(text, uses).content) == UseIds(uses)
    ensures ResultIds(AssistantOf(text, uses).content) == []
  {
    UsesOfAssistant(text, uses);
    ResultIdsConcat(if text != "" then [TextBlock(text)] else [], uses);
    NoResultsInUses(uses);
  }

  /** The open assistant message grows, or a new one starts. */
  lemma LinkedOpen(h: Hist, h': Hist, known: set<string>, more: set<string>)
    requires LinkedSoFar(h, known) && h'.cur.Asst? && OnlyUses(h'.cur.uses) && h'.closed == Opened(h).closed
    requires forall id :: id in UseIds(Opened(h).cur.uses) ==> id in UseIds(h'.cur.uses)
    requires forall id :: id in more ==> id in known || id in UseIds(h'.cur.uses)
    ensures LinkedSoFar(h', more)
  {
    var m' := AssistantOf(h'.cur.text, h'.cur.uses);
    AssistantIds(h'.cur.text, h'.cur.uses);
    assert Messages(h') == h'.closed + [m'];
    if h.cur.Asst? {
      var m := AssistantOf(h.cur.text, h.cur.uses);
      AssistantIds(h.cur.text, h.cur.uses);
      assert Messages(h) == h.closed + [m];
      LinkedReplace(h.closed, m, m', known, more);
    } else {
      LinkedAppend(Messages(h), m', known, more);
    }
  }

  lemma AnsweredBefore(c: seq<Message>, m: Message, at: nat, id: string)
    requires at <= |c| + 1 && UseIds(m.content) == [] && Answered(c + [m], at, id)
    ensures Answered(c, |c|, id)
  {
    var j :| 0 <= j < at && id in UseIds((c + [m])[j].content);
    assert j < |c| && (c + [m])[j] == c[j];
  }

  lemma LinkedMore(c: seq<Message>, rs: seq<ContentBlock>, b: ContentBlock, known: set<string>)
    requires Linked(c + [Message(ToolRole, rs)], known) && OnlyResults(rs) && b.ToolResultBlock? && b.toolUseId in known
    ensures Linked(c + [Message(ToolRole, rs + [b])], known)
  {
    var m, m' := Message(ToolRole, rs), Message(ToolRole, rs + [b]);
    NoUsesInResults(rs);
    ResultIdsConcat(rs, [b]);
    assert ResultIds([b]) == [b.toolUseId];
    forall r | r in ResultIds(m'.content) ensures Answered(c, |c|, r) {
      if r in ResultIds(rs) {
        assert (c + [m])[|c|] == m;
        AnsweredBefore(c, m, |c|, r);
      } else {
        AnsweredBefore(c, m, |c| + 1, r);
      }
    }
    LinkedReplace(c, m, m', known, known);
  }

  lemma LinkedResult(h: Hist, b: ContentBlock, known: set<string>)
    requires LinkedSoFar(h, known) && b.ToolResultBlock? && b.toolUseId in known
    ensures var h' := if h.cur.Tools? then h.(cur := Tools(h.cur.results + [b])) else Hist(Messages(h), Tools([b]));
      LinkedSoFar(h', known)
  {
    if h.cur.Tools? {
      LinkedMore(h.closed, h.cur.results, b, known);
    } else {
      assert ResultIds([b]) == [b.toolUseId];
      LinkedAppend(Messages(h), Message(ToolRole, [b]), known, known);
    }
  }

  lemma LinkedCall(h: Hist, call: ToolCall, known: set<string>)
    requires LinkedSoFar(h, known)
    ensures LinkedSoFar(AbsorbEvent(h, ToolProposed(call)), known + {call.id})
  {
    UseIdsConcat(Opened(h).cur.uses, [UseBlock(call)]);
    assert UseIds([UseBlock(call)]) == [call.id];
    LinkedOpen(h, AbsorbEvent(h, ToolProposed(call)), known, known + {call.id});
  }

  lemma LinkedEvent(h: Hist, e: AgentEvent, known: set<string>)
    requires LinkedSoFar(h, known) && (e.ToolResult? ==> e.id in known)
    ensures LinkedSoFar(AbsorbEvent(h, e), known + ProposedIds([e]))
  {
    assert ProposedIds([e]) == if e.ToolProposed? then {e.call.id} else {};
    match e {
      case Assistant(t) =>
        LinkedOpen(h, AbsorbEvent(h, e), known, known + ProposedIds([e]));
      case ToolProposed(call) =>
        LinkedCall(h, call, known);
      case ToolResult(id, output, err) =>
        LinkedResult(h, ToolResultBlock(id, output, err), known);
        assert known + {} == known;
      case _ =>
        assert Messages(Hist(Messages(h), Nothing)) == Messages(h);
        assert known + {} == known;
    }
  }

  lemma {:induction false} LinkedEvents(h: Hist, es: seq<AgentEvent>, known: set<string>)
    requires LinkedSoFar(h, known) && Joined(known, es)
    ensures AllAnswered(Messages(AbsorbEvents(h, es)))
    decreases |es|
  {
    if es != [] {
      assert es[..1] == [es[0]];
      LinkedEvent(h, es[0], known);
      LinkedEvents(AbsorbEvent(h, es[0]), es[1..], known + ProposedIds(es[..1]));
    }
  }

  lemma RunJoined(s: Setup, log: seq<RoundLog>, last: World, tail: seq<AgentEvent>, end: TurnEnd)
    requires IsRun(s, log, last, tail, end)
    ensures Joined({}, RunEvents(s, log, tail, end))
  {
    var all, closing := AllEvents(s, log), Closing(end);
    LogJoined(s, log);
    EndsWithTail(s, last, |log|, tail, end);
    TailJoined(s, last, tail, {} + ProposedIds(all));
    ClosingHasNoResults(end);
    ThreeJoined(all, tail, closing);
    assert RunEvents(s, log, tail, end) == all + tail + closing;
  }

  lemma ClosingHasNoResults(end: TurnEnd)
    ensures NoResults(Closing(end))
  {}

  lemma ThreeJoined(a: seq<AgentEvent>, b: seq<AgentEvent>, c: seq<AgentEvent>)
    requires Joined({}, a) && Joined({} + ProposedIds(a), b) && NoResults(c)
    ensures Joined({}, a + b + c)
  {
    JoinedConcat({}, a, b);
    NoResultsJoined({} + ProposedIds(a + b), c);
    JoinedConcat({}, a + b, c);
  }

  lemma TailJoined(s: Setup, last: World, tail: seq<AgentEvent>, known: set<string>)
    requires TailOf(s, last, tail)
    ensures Joined(known, tail)
  {
    RoundJoined(s, last, known);
    if tail <= Relayed(s, last) {
      JoinedPrefix(known, tail, Relayed(s, last));
    } else {
      JoinedPrefix(known, tail, RoundEvents(s, last, Streamed(s, last)));
    }
  }

  lemma PromptLinked(prompt: string)
    ensures LinkedSoFar(PromptHist(prompt), {})
  {
    assert Messages(PromptHist(prompt)) == [UserMessage(prompt)];
    assert ResultIds(UserMessage(prompt).content) == [];
  }

  /** In every run, malformed calls and interruptions included, each result of the derived
      history answers a call of an earlier message. */
  lemma EveryResultJoined(s: Setup, prompt: string, log: seq<RoundLog>, last: World, tail: seq<AgentEvent>,
                          end: TurnEnd)
    requires IsRun(s, log, last, tail, end)
    ensures AllAnswered(Derived(prompt, RunEvents(s, log, tail, end)))
  {
    RunJoined(s, log, last, tail, end);
    DerivedFromEvents(prompt, RunEvents(s, log, tail, end));
    PromptLinked(prompt);
    LinkedEvents(PromptHist(prompt), RunEvents(s, log, tail, end), {});
  }
}
