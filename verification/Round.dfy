/**
 Acting on a round: gate each proposed call, run those that may, and report one result per
 call.
*/
module Round {
  import opened Text
  import opened Provider
  import opened Redaction
  import opened Turn

  /** What the world answers during a round. */
  datatype World = World(
    stream: seq<ProviderEvent>,
    failure: Option<string>,
    confirm: nat -> Decision,
    run: nat -> Outcome,
    polls: nat -> nat,
    cancel: CancelPoint)

  /** Where in a round a cancellation lands, and after how many events of that phase. */
  datatype CancelPoint = NoCancel | AtTop | InStream(events: nat) | InExecute(events: nat)

  datatype Disposition = Rejected(message: string) | Declined | Runs(input: ToolInput)

  const DECLINED := "tool call declined by user"

  function Dispose(s: Setup, w: World, call: ToolCall, i: nat): Disposition {
    match s.toolParse(call)
    case Err(e) => Rejected("tool input rejected: " + e)
    case Ok(input) =>
      if GateTool(input, s).AutoApprove? then Runs(input)
      else if w.confirm(i) == Approved then Runs(input)
      else Declined
  }

  /** The one result a proposed call gets. */
  function ResultFor(s: Setup, w: World, call: ToolCall, i: nat): ContentBlock {
    match Dispose(s, w, call, i)
    case Rejected(m) => ToolResultBlock(call.id, m, true)
    case Declined => ToolResultBlock(call.id, DECLINED, true)
    case Runs(_) => ToolResultBlock(call.id, Redacted(w.run(i).output, s.secrets), w.run(i).isError)
  }

  function Results(s: Setup, w: World, proposed: seq<ToolCall>): (r: seq<ContentBlock>)
    ensures |r| == |proposed|
  {
    seq(|proposed|, i requires 0 <= i < |proposed| => ResultFor(s, w, proposed[i], i))
  }

  /** The three groups results are emitted in, one after the other. */
  datatype Lane = Immediate | Parallel | Serial

  function LaneOf(s: Setup, w: World, call: ToolCall, i: nat): Lane {
    match Dispose(s, w, call, i)
    case Runs(input) => if input.ParallelSafe() then Parallel else Serial
    case _ => Immediate
  }

  function Lanes(s: Setup, w: World, proposed: seq<ToolCall>): (r: seq<Lane>)
    ensures |r| == |proposed| && forall i :: 0 <= i < |r| ==> r[i] == LaneOf(s, w, proposed[i], i)
  {
    seq(|proposed|, i requires 0 <= i < |proposed| => LaneOf(s, w, proposed[i], i))
  }

  /** The places of one lane below `n`, ascending. */
  function Among(lanes: seq<Lane>, lane: Lane, n: nat): (r: seq<nat>)
    requires n <= |lanes|
    ensures forall k: nat :: k in r <==> k < n && lanes[k] == lane
    ensures forall a :: 0 <= a < |r| ==> r[a] < n
    ensures forall a, b :: 0 <= a < b < |r| ==> r[a] < r[b]
  {
    if n == 0 then []
    else
      var before := Among(lanes, lane, n - 1);
      if lanes[n - 1] == lane then before + [n - 1] else before
  }

  /** The indices of one lane below `n`, in proposal order. */
  function InLane(s: Setup, w: World, proposed: seq<ToolCall>, lane: Lane, n: nat): (r: seq<nat>)
    requires n <= |proposed|
    ensures forall k: nat :: k in r <==> k < n && LaneOf(s, w, proposed[k], k) == lane
    ensures forall a :: 0 <= a < |r| ==> r[a] < n
    ensures forall a, b :: 0 <= a < b < |r| ==> r[a] < r[b]
  {
    Among(Lanes(s, w, proposed), lane, n)
  }

  /** One lane after the other. */
  function OrderOf(lanes: seq<Lane>): seq<nat> {
    var n := |lanes|;
    Among(lanes, Immediate, n) + Among(lanes, Parallel, n) + Among(lanes, Serial, n)
  }

  function EmitOrder(s: Setup, w: World, proposed: seq<ToolCall>): seq<nat> {
    OrderOf(Lanes(s, w, proposed))
  }

  function Emit(b: ContentBlock): AgentEvent
    requires b.ToolResultBlock?
  {
    ToolResult(b.toolUseId, b.content, b.isError)
  }

  /** The result events of a list of calls. */
  function Emitted(s: Setup, w: World, proposed: seq<ToolCall>, order: seq<nat>): (r: seq<AgentEvent>)
    requires forall j :: 0 <= j < |order| ==> order[j] < |proposed|
    ensures |r| == |order|
  {
    seq(|order|, j requires 0 <= j < |order| => Emit(ResultFor(s, w, proposed[order[j]], order[j])))
  }

  /** Poll a set of futures until all are ready, future `i` on its `polls(i)`-th poll.
      Outputs are in input order; `finished` is the order in which they became ready. */
  method JoinAllConcurrent<T(0)>(values: seq<T>, polls: nat -> nat) returns (outputs: seq<T>, finished: seq<nat>)
    ensures outputs == values
    ensures multiset(finished) == multiset(seq(|values|, i => i))
  {
    var n := |values|;
    var slots := new Option<T>[n](_ => None);
    finished := [];
    var pass, bound := 0, Most(polls, n);
    var pending := true;
    while pending
      invariant pass <= bound + 1 && (pending ==> pass <= bound)
      invariant forall i :: 0 <= i < n ==> slots[i] == if polls(i) < pass then Some(values[i]) else None
      invariant !pending ==> forall i :: 0 <= i < n ==> slots[i].Some?
      invariant Finished(slots[..], finished)
      decreases pending, bound + 1 - pass
    {
      pending, finished := PollAll(slots, values, polls, pass, finished);
      if pending {
        var k :| 0 <= k < n && slots[k].None?;
        MostBounds(polls, n, k);
      }
      pass := pass + 1;
    }
    outputs := [];
    for i := 0 to n
      invariant outputs == values[..i]
    {
      outputs := outputs + [slots[i].value];
    }
    EachOnce(finished, n);
  }

  /** Every future still waiting is polled once. */
  method PollAll<T>(slots: array<Option<T>>, values: seq<T>, polls: nat -> nat, pass: nat, finished: seq<nat>)
    returns (pending: bool, finished': seq<nat>)
    requires slots.Length == |values|
    requires forall i :: 0 <= i < |values| ==> slots[i] == if polls(i) < pass then Some(values[i]) else None
    requires Finished(slots[..], finished)
    modifies slots
    ensures forall i :: 0 <= i < |values| ==> slots[i] == if polls(i) <= pass then Some(values[i]) else None
    ensures pending <==> exists k :: 0 <= k < |values| && slots[k].None?
    ensures Finished(slots[..], finished')
  {
    pending, finished' := false, finished;
    for i := 0 to |values|
      invariant forall k :: 0 <= k < i ==> slots[k] == if polls(k) <= pass then Some(values[k]) else None
      invariant forall k :: i <= k < |values| ==> slots[k] == if polls(k) < pass then Some(values[k]) else None
      invariant pending <==> exists k :: 0 <= k < i && slots[k].None?
      invariant Finished(slots[..], finished')
    {
      if slots[i].None? {
        if polls(i) <= pass {
          slots[i] := Some(values[i]);
          finished' := finished' + [i];
        } else {
          pending := true;
        }
      }
    }
  }

  /** The indices of the filled slots, each once. */
  ghost predicate Finished<T>(slots: seq<Option<T>>, finished: seq<nat>) {
    && (forall k: nat :: k in finished <==> k < |slots| && slots[k].Some?)
    && (forall a, b :: 0 <= a < b < |finished| ==> finished[a] != finished[b])
  }

  function Most(f: nat -> nat, n: nat): nat {
    if n == 0 then 0 else if f(n - 1) > Most(f, n - 1) then f(n - 1) else Most(f, n - 1)
  }

  lemma {:induction false} MostBounds(f: nat -> nat, n: nat, k: nat)
    requires k < n
    ensures f(k) <= Most(f, n)
    decreases n
  {
    if k < n - 1 { MostBounds(f, n - 1, k); }
  }

  /** A list without repeats holding exactly the numbers below `n` is a rearrangement of them. */
  lemma EachOnce(xs: seq<nat>, n: nat)
    requires forall k: nat :: k in xs <==> k < n
    requires forall a, b :: 0 <= a < b < |xs| ==> xs[a] != xs[b]
    ensures multiset(xs) == multiset(seq(n, i => i))
  {
    var ys := seq(n, i => i);
    forall k: nat ensures multiset(xs)[k] == multiset(ys)[k] {
      CountDistinct(xs, k);
      CountDistinct(ys, k);
      assert k < n ==> ys[k] == k;
    }
  }

  lemma {:induction false} CountDistinct(xs: seq<nat>, k: nat)
    requires forall a, b :: 0 <= a < b < |xs| ==> xs[a] != xs[b]
    ensures multiset(xs)[k] == if k in xs then 1 else 0
  {
    if xs != [] {
      CountDistinct(xs[1..], k);
      assert xs == [xs[0]] + xs[1..];
    }
  }

  /** Of the calls to run, the indices of those whose tools are, or are not, parallel-safe. */
  function Part(toRun: seq<(nat, ToolInput)>, safe: bool): seq<nat> {
    if toRun == [] then []
    else
      var (i, input) := toRun[|toRun| - 1];
      Part(toRun[..|toRun| - 1], safe) + if input.ParallelSafe() == safe then [i] else []
  }

  lemma PartAppend(toRun: seq<(nat, ToolInput)>, i: nat, input: ToolInput, safe: bool)
    ensures Part(toRun + [(i, input)], safe)
         == Part(toRun, safe) + if input.ParallelSafe() == safe then [i] else []
  {
    assert (toRun + [(i, input)])[..|toRun|] == toRun;
  }

  lemma EmittedAppend(s: Setup, w: World, proposed: seq<ToolCall>, order: seq<nat>, more: seq<nat>)
    requires forall j :: 0 <= j < |order| ==> order[j] < |proposed|
    requires forall j :: 0 <= j < |more| ==> more[j] < |proposed|
    ensures Emitted(s, w, proposed, order + more) == Emitted(s, w, proposed, order) + Emitted(s, w, proposed, more)
  {}

  ghost predicate SlotsFilled(slots: seq<Option<ContentBlock>>, s: Setup, w: World, proposed: seq<ToolCall>,
                              order: seq<nat>)
  {
    && |slots| == |proposed|
    && forall k: nat :: k < |slots| ==>
         slots[k] == if k in order then Some(ResultFor(s, w, proposed[k], k)) else None
  }

  /** Where the gating loop stands after `n` calls. */
  ghost predicate Gated(s: Setup, w: World, proposed: seq<ToolCall>, n: nat, slots: seq<Option<ContentBlock>>,
                        toRun: seq<(nat, ToolInput)>, events: seq<AgentEvent>)
    requires n <= |proposed|
  {
    && SlotsFilled(slots, s, w, proposed, InLane(s, w, proposed, Immediate, n))
    && Part(toRun, true) == InLane(s, w, proposed, Parallel, n)
    && Part(toRun, false) == InLane(s, w, proposed, Serial, n)
    && events == Emitted(s, w, proposed, InLane(s, w, proposed, Immediate, n))
  }

  lemma GatedAnswered(s: Setup, w: World, proposed: seq<ToolCall>, n: nat, slots: seq<Option<ContentBlock>>,
                      toRun: seq<(nat, ToolInput)>, events: seq<AgentEvent>)
    requires n < |proposed| && Gated(s, w, proposed, n, slots, toRun, events)
    requires LaneOf(s, w, proposed[n], n) == Immediate
    ensures var r := ResultFor(s, w, proposed[n], n);
      Gated(s, w, proposed, n + 1, slots[n := Some(r)], toRun, events + [Emit(r)])
  {
    EmittedAppend(s, w, proposed, InLane(s, w, proposed, Immediate, n), [n]);
  }

  lemma GatedToRun(s: Setup, w: World, proposed: seq<ToolCall>, n: nat, slots: seq<Option<ContentBlock>>,
                   toRun: seq<(nat, ToolInput)>, events: seq<AgentEvent>, input: ToolInput)
    requires n < |proposed| && Gated(s, w, proposed, n, slots, toRun, events)
    requires Dispose(s, w, proposed[n], n) == Runs(input)
    ensures Gated(s, w, proposed, n + 1, slots, toRun + [(n, input)], events)
  {
    PartAppend(toRun, n, input, true);
    PartAppend(toRun, n, input, false);
  }

  /** The gate and, where it asks, the user's answer: the input to run, or what to answer. */
  method GateOne(s: Setup, w: World, call: ToolCall, idx: nat) returns (d: Disposition)
    ensures d == Dispose(s, w, call, idx)
  {
    match s.toolParse(call) {
      case Err(e) => d := Rejected("tool input rejected: " + e);
      case Ok(input) =>
        var run := true;
        if GateTool(input, s).RequireConfirm? {
          run := w.confirm(idx) == Approved;
        }
        d := if run then Runs(input) else Declined;
    }
  }

  lemma AnsweredAtOnce(s: Setup, w: World, call: ToolCall, idx: nat)
    requires !Dispose(s, w, call, idx).Runs?
    ensures LaneOf(s, w, call, idx) == Immediate
    ensures var d := Dispose(s, w, call, idx);
      ResultFor(s, w, call, idx) == ToolResultBlock(call.id, if d.Rejected? then d.message else DECLINED, true)
  {}

  /** Gate every call in order, answering at once the ones that will not run. */
  method GateAll(s: Setup, w: World, proposed: seq<ToolCall>)
    returns (slots: seq<Option<ContentBlock>>, toRun: seq<(nat, ToolInput)>, events: seq<AgentEvent>)
    ensures Gated(s, w, proposed, |proposed|, slots, toRun, events)
  {
    slots, toRun, events := seq(|proposed|, _ => None), [], [];
    for idx := 0 to |proposed|
      invariant Gated(s, w, proposed, idx, slots, toRun, events)
    {
      var call := proposed[idx];
      var d := GateOne(s, w, call, idx);
      if d.Runs? {
        GatedToRun(s, w, proposed, idx, slots, toRun, events, d.input);
        toRun := toRun + [(idx, d.input)];
      } else {
        GatedAnswered(s, w, proposed, idx, slots, toRun, events);
        var msg := if d.Rejected? then d.message else DECLINED;
        AnsweredAtOnce(s, w, call, idx);
        events := events + [ToolResult(call.id, msg, true)];
        slots := slots[idx := Some(ToolResultBlock(call.id, msg, true))];
      }
    }
  }

  /** The outcomes of the calls to run, in the order they are reported in. */
  method RunAll(w: World, parallel: seq<nat>, serial: seq<nat>)
    returns (outcomes: seq<Outcome>, started: seq<nat>)
    ensures started == parallel + serial
    ensures |outcomes| == |started| && forall j :: 0 <= j < |started| ==> outcomes[j] == w.run(started[j])
  {
    started := parallel;
    var running := seq(|parallel|, j requires 0 <= j < |parallel| => w.run(parallel[j]));
    var polls := (j: nat) => if j < |parallel| then w.polls(parallel[j]) else 0;
    var parallelOut, finished := JoinAllConcurrent(running, polls);
    var serialOut := [];
    for j := 0 to |serial|
      invariant started == parallel + serial[..j]
      invariant |serialOut| == j && forall k :: 0 <= k < j ==> serialOut[k] == w.run(serial[k])
    {
      started := started + [serial[j]];
      serialOut := serialOut + [w.run(serial[j])];
    }
    outcomes := parallelOut + serialOut;
  }

  lemma ReportedOne(s: Setup, w: World, proposed: seq<ToolCall>, order: seq<nat>, k: nat,
                    slots: seq<Option<ContentBlock>>, events: seq<AgentEvent>)
    requires forall j :: 0 <= j < |order| ==> order[j] < |proposed|
    requires k < |proposed| && SlotsFilled(slots, s, w, proposed, order)
    requires events == Emitted(s, w, proposed, order)
    ensures var r := ResultFor(s, w, proposed[k], k);
      && SlotsFilled(slots[k := Some(r)], s, w, proposed, order + [k])
      && events + [Emit(r)] == Emitted(s, w, proposed, order + [k])
  {
    EmittedAppend(s, w, proposed, order, [k]);
  }

  /** Gate, run and report a round's calls. The results come back in proposal order however
      long each call takes; the calls that may run together have all ended before the first
      of the others starts. */
  method ExecuteRound(s: Setup, w: World, proposed: seq<ToolCall>)
    returns (results: seq<ContentBlock>, events: seq<AgentEvent>, started: seq<nat>)
    ensures results == Results(s, w, proposed)
    ensures EmitOrderInRange(s, w, proposed)
    ensures events == Emitted(s, w, proposed, EmitOrder(s, w, proposed))
    ensures started == InLane(s, w, proposed, Parallel, |proposed|) + InLane(s, w, proposed, Serial, |proposed|)
  {
    var slots, toRun;
    slots, toRun, events := GateAll(s, w, proposed);
    var outcomes;
    outcomes, started := RunAll(w, Part(toRun, true), Part(toRun, false));
    ghost var immediate: seq<nat> := InLane(s, w, proposed, Immediate, |proposed|);
    RunsReported(s, w, proposed, started, outcomes);
    slots, events := ReportAll(s, w, proposed, started, outcomes, immediate, slots, events);
    assert EmitOrder(s, w, proposed) == immediate + started;
    AllFilled(s, w, proposed, slots);
    results := FlattenSlots(slots);
  }

  lemma AllFilled(s: Setup, w: World, proposed: seq<ToolCall>, slots: seq<Option<ContentBlock>>)
    requires SlotsFilled(slots, s, w, proposed, EmitOrder(s, w, proposed))
    ensures forall i :: 0 <= i < |slots| ==> slots[i] == Some(ResultFor(s, w, proposed[i], i))
  {
    EveryCallEmitted(s, w, proposed);
    forall i | 0 <= i < |slots| ensures slots[i] == Some(ResultFor(s, w, proposed[i], i)) {
      var k: nat := i;
      assert k in EmitOrder(s, w, proposed);
    }
  }

  method FlattenSlots(slots: seq<Option<ContentBlock>>) returns (results: seq<ContentBlock>)
    requires forall i :: 0 <= i < |slots| ==> slots[i].Some?
    ensures |results| == |slots| && forall i :: 0 <= i < |slots| ==> results[i] == slots[i].value
  {
    results := [];
    for i := 0 to |slots|
      invariant |results| == i && forall k :: 0 <= k < i ==> results[k] == slots[k].value
    {
      results := results + [slots[i].value];
    }
  }

  ghost predicate Reports(s: Setup, w: World, proposed: seq<ToolCall>, started: seq<nat>, outcomes: seq<Outcome>) {
    && InRange(started, |proposed|) && |outcomes| == |started|
    && forall j :: 0 <= j < |started| ==>
         RanBlock(s, proposed[started[j]], outcomes[j]) == ResultFor(s, w, proposed[started[j]], started[j])
  }

  lemma RunsReported(s: Setup, w: World, proposed: seq<ToolCall>, started: seq<nat>, outcomes: seq<Outcome>)
    requires started == InLane(s, w, proposed, Parallel, |proposed|) + InLane(s, w, proposed, Serial, |proposed|)
    requires |outcomes| == |started| && forall j :: 0 <= j < |started| ==> outcomes[j] == w.run(started[j])
    ensures Reports(s, w, proposed, started, outcomes)
  {
    forall j | 0 <= j < |started|
      ensures started[j] < |proposed|
      ensures RanBlock(s, proposed[started[j]], outcomes[j]) == ResultFor(s, w, proposed[started[j]], started[j])
    {
      RunsInOrder(s, w, proposed, j);
    }
  }

  predicate InRange(order: seq<nat>, n: nat) {
    forall j :: 0 <= j < |order| ==> order[j] < n
  }

  /** The result block of a call that ran. */
  function RanBlock(s: Setup, call: ToolCall, o: Outcome): ContentBlock {
    ToolResultBlock(call.id, Redacted(o.output, s.secrets), o.isError)
  }

  method ReportAll(s: Setup, w: World, proposed: seq<ToolCall>, started: seq<nat>, outcomes: seq<Outcome>,
                   ghost earlier: seq<nat>, filled: seq<Option<ContentBlock>>, emitted: seq<AgentEvent>)
    returns (slots: seq<Option<ContentBlock>>, events: seq<AgentEvent>)
    requires InRange(earlier, |proposed|) && Reports(s, w, proposed, started, outcomes)
    requires SlotsFilled(filled, s, w, proposed, earlier)
    requires emitted == Emitted(s, w, proposed, earlier)
    ensures InRange(earlier + started, |proposed|)
    ensures SlotsFilled(slots, s, w, proposed, earlier + started)
    ensures events == Emitted(s, w, proposed, earlier + started)
  {
    slots, events := filled, emitted;
    ghost var done := earlier;
    assert earlier + started[..0] == earlier;
    for j := 0 to |started|
      invariant InRange(done, |proposed|) && done == earlier + started[..j]
      invariant SlotsFilled(slots, s, w, proposed, done)
      invariant events == Emitted(s, w, proposed, done)
    {
      var k := started[j];
      ReportedOne(s, w, proposed, done, k, slots, events);
      assert earlier + started[..j + 1] == done + [k];
      done := done + [k];
      var clean := Redact(outcomes[j].output, s.secrets);
      events := events + [ToolResult(proposed[k].id, clean, outcomes[j].isError)];
      slots := slots[k := Some(ToolResultBlock(proposed[k].id, clean, outcomes[j].isError))];
    }
    assert started[..|started|] == started;
  }

  predicate EmitOrderInRange(s: Setup, w: World, proposed: seq<ToolCall>) {
    var order := EmitOrder(s, w, proposed);
    forall j :: 0 <= j < |order| ==> order[j] < |proposed|
  }

  lemma RunsInOrder(s: Setup, w: World, proposed: seq<ToolCall>, j: nat)
    requires var n := |proposed|;
      j < |InLane(s, w, proposed, Parallel, n) + InLane(s, w, proposed, Serial, n)|
    ensures var n := |proposed|;
      var k := (InLane(s, w, proposed, Parallel, n) + InLane(s, w, proposed, Serial, n))[j];
      k < n && ResultFor(s, w, proposed[k], k) == RanBlock(s, proposed[k], w.run(k))
  {
    var n := |proposed|;
    var p, q := InLane(s, w, proposed, Parallel, n), InLane(s, w, proposed, Serial, n);
    assert (p + q)[j] in p || (p + q)[j] in q;
  }

  // --- the order of the report ---

  lemma OrderIsWhole(lanes: seq<Lane>)
    ensures forall k: nat :: k in OrderOf(lanes) <==> k < |lanes|
    ensures forall j :: 0 <= j < |OrderOf(lanes)| ==> OrderOf(lanes)[j] < |lanes|
  {
    var n, order := |lanes|, OrderOf(lanes);
    forall k: nat ensures k in order <==> k < n {
      if k < n { assert k in Among(lanes, lanes[k], n); }
    }
    forall j | 0 <= j < |order| ensures order[j] < n { assert order[j] in order; }
  }

  function Rank(l: Lane): nat {
    match l case Immediate => 0 case Parallel => 1 case Serial => 2
  }

  function RankAt(lanes: seq<Lane>, a: nat): nat
    requires a < |OrderOf(lanes)| && OrderOf(lanes)[a] < |lanes|
  {
    Rank(lanes[OrderOf(lanes)[a]])
  }

  lemma LaneAt(lanes: seq<Lane>, a: nat)
    requires a < |OrderOf(lanes)|
    ensures var n := |lanes|;
      var order, x, y := OrderOf(lanes), |Among(lanes, Immediate, n)|, |Among(lanes, Parallel, n)|;
      && order[a] < n
      && RankAt(lanes, a) == (if a < x then 0 else if a < x + y then 1 else 2)
      && order[a] == if a < x then Among(lanes, Immediate, n)[a]
                     else if a < x + y then Among(lanes, Parallel, n)[a - x]
                     else Among(lanes, Serial, n)[a - x - y]
  {
    var n := |lanes|;
    var x, y, z := Among(lanes, Immediate, n), Among(lanes, Parallel, n), Among(lanes, Serial, n);
    if a < |x| { assert x[a] in x; }
    else if a < |x| + |y| { assert y[a - |x|] in y; }
    else { assert z[a - |x| - |y|] in z; }
  }

  lemma RanksAscend(lanes: seq<Lane>, a: nat, b: nat)
    requires a < b < |OrderOf(lanes)|
    ensures var order := OrderOf(lanes);
      && order[a] < |lanes| && order[b] < |lanes|
      && RankAt(lanes, a) <= RankAt(lanes, b)
      && (RankAt(lanes, a) == RankAt(lanes, b) ==> order[a] < order[b])
  {
    LaneAt(lanes, a);
    LaneAt(lanes, b);
  }

  predicate Distinct(xs: seq<nat>) {
    forall a, b :: 0 <= a < b < |xs| ==> xs[a] != xs[b]
  }

  predicate InOrder(xs: seq<nat>) {
    forall a, b :: 0 <= a < b < |xs| ==> xs[a] < xs[b]
  }

  predicate Sorted(lanes: seq<Lane>) {
    forall i, j :: 0 <= i < j < |lanes| ==> Rank(lanes[i]) <= Rank(lanes[j])
  }

  lemma OrderIsDistinct(lanes: seq<Lane>)
    ensures Distinct(OrderOf(lanes))
  {
    forall a, b | 0 <= a < b < |OrderOf(lanes)| ensures OrderOf(lanes)[a] != OrderOf(lanes)[b] {
      RanksAscend(lanes, a, b);
    }
  }

  lemma SortedGivesOrder(lanes: seq<Lane>)
    requires Sorted(lanes)
    ensures InOrder(OrderOf(lanes))
  {
    OrderIsDistinct(lanes);
    forall a, b | 0 <= a < b < |OrderOf(lanes)| ensures OrderOf(lanes)[a] < OrderOf(lanes)[b] {
      RanksAscend(lanes, a, b);
    }
  }

  lemma OrderGivesSorted(lanes: seq<Lane>)
    requires InOrder(OrderOf(lanes))
    ensures Sorted(lanes)
  {
    var order := OrderOf(lanes);
    OrderIsWhole(lanes);
    forall i, j | 0 <= i < j < |lanes| ensures Rank(lanes[i]) <= Rank(lanes[j]) {
      assert i in order && j in order;
      var a: nat :| a < |order| && order[a] == i;
      var b: nat :| b < |order| && order[b] == j;
      assert a < b;
      RanksAscend(lanes, a, b);
    }
  }

  lemma EveryCallEmitted(s: Setup, w: World, proposed: seq<ToolCall>)
    ensures forall k: nat :: k in EmitOrder(s, w, proposed) <==> k < |proposed|
    ensures forall j :: 0 <= j < |EmitOrder(s, w, proposed)| ==> EmitOrder(s, w, proposed)[j] < |proposed|
  {
    OrderIsWhole(Lanes(s, w, proposed));
  }

  lemma EmitOrderDistinct(s: Setup, w: World, proposed: seq<ToolCall>)
    ensures Distinct(EmitOrder(s, w, proposed))
  {
    OrderIsDistinct(Lanes(s, w, proposed));
  }

  /** Every call is reported once: the order is a rearrangement of proposal order. */
  lemma EmitOrderPermutes(s: Setup, w: World, proposed: seq<ToolCall>)
    ensures multiset(EmitOrder(s, w, proposed)) == multiset(seq(|proposed|, i => i))
  {
    EmitOrderDistinct(s, w, proposed);
    EveryCallEmitted(s, w, proposed);
    EachOnce(EmitOrder(s, w, proposed), |proposed|);
  }

  /** No call answered at once follows one that runs, and no read follows a mutation. */
  predicate LanesSorted(s: Setup, w: World, proposed: seq<ToolCall>) {
    forall i, j :: 0 <= i < j < |proposed| ==> Rank(LaneOf(s, w, proposed[i], i)) <= Rank(LaneOf(s, w, proposed[j], j))
  }

  /** Results are reported in proposal order exactly when the lanes are sorted. */
  lemma ReportInOrder(s: Setup, w: World, proposed: seq<ToolCall>)
    ensures InOrder(EmitOrder(s, w, proposed)) <==> LanesSorted(s, w, proposed)
  {
    var lanes := Lanes(s, w, proposed);
    assert Sorted(lanes) <==> LanesSorted(s, w, proposed);
    if Sorted(lanes) { SortedGivesOrder(lanes); }
    if InOrder(OrderOf(lanes)) { OrderGivesSorted(lanes); }
  }
}
