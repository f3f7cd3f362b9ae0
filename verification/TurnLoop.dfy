/** The loop over rounds, and how every tool call is answered. */
module TurnLoop {
  import opened Text
  import opened Provider
  import opened Policy
  import Risk
  import Command
  import CommandText
  import opened Redaction
  import opened Turn
  import opened Round

  /** A round that went through: what it streamed and what the world answered. */
  datatype RoundLog = RoundLog(data: RoundData, world: World)

  datatype TurnEnd = Ended(stop: StopReason, rounds: nat, cancelled: bool) | Failed(error: string)

  function AssistantMessage(d: RoundData): Message {
    Message(AssistantRole, (if d.text != "" then [TextBlock(d.text)] else []) + d.toolUses)
  }

  function ToolMessage(s: Setup, l: RoundLog): Message {
    Message(ToolRole, Results(s, l.world, l.data.proposed) + l.data.failedResults)
  }

  function Pairs(s: Setup, log: seq<RoundLog>): seq<Message> {
    if log == [] then []
    else Pairs(s, log[..|log| - 1]) + [AssistantMessage(log[|log| - 1].data), ToolMessage(s, log[|log| - 1])]
  }

  function ReportEvents(s: Setup, w: World, d: RoundData): seq<AgentEvent> {
    EveryCallEmitted(s, w, d.proposed);
    Emitted(s, w, d.proposed, EmitOrder(s, w, d.proposed))
  }

  /** What a round's stream puts on the event channel. */
  function Relayed(s: Setup, w: World): seq<AgentEvent> {
    Forwarded(StreamEvents(s, w.stream), s.secrets)
  }

  /** Everything a round that is not interrupted puts on the event channel. */
  function RoundEvents(s: Setup, w: World, d: RoundData): seq<AgentEvent> {
    Relayed(s, w) + ReportEvents(s, w, d)
  }

  function AllEvents(s: Setup, log: seq<RoundLog>): seq<AgentEvent> {
    if log == [] then []
    else AllEvents(s, log[..|log| - 1]) + RoundEvents(s, log[|log| - 1].world, log[|log| - 1].data)
  }

  function Streamed(s: Setup, w: World): RoundData {
    Collected(NoData, StreamEvents(s, w.stream))
  }

  predicate WantsTools(d: RoundData) {
    d.stop == ToolUse && (d.proposed != [] || d.failedResults != [])
  }

  /** The round goes through: nothing cancels it or cuts it off, and the model asks for tools. */
  predicate GoesThrough(s: Setup, w: World) {
    w.cancel.NoCancel? && w.failure.None? && WantsTools(Streamed(s, w))
  }

  /** The log holds the first rounds, each of which went through. */
  ghost predicate LogOf(s: Setup, worlds: nat -> World, log: seq<RoundLog>) {
    forall k :: 0 <= k < |log| ==>
      && log[k].world == worlds(k)
      && log[k].data == Streamed(s, worlds(k))
      && GoesThrough(s, worlds(k))
  }

  /** What is left on the channel by a last round that did not go through: it stopped
      somewhere, or the model was done. */
  predicate TailOf(s: Setup, w: World, tail: seq<AgentEvent>) {
    || tail <= Relayed(s, w)
    || (WantsTools(Streamed(s, w)) && tail <= RoundEvents(s, w, Streamed(s, w)))
  }

  const MAX_ROUNDS_REACHED := Other("max_tool_rounds")

  function Closing(end: TurnEnd): seq<AgentEvent> {
    match end
    case Failed(e) => [ErrorEvent(e)]
    case Ended(stop, _, cancelled) => if cancelled then [] else [TurnComplete(stop)]
  }

  /** How a turn ends after `rounds` rounds that went through, and what the last one leaves on
      the channel, in the order in which the reasons to end are looked at. */
  predicate EndsIn(s: Setup, w: World, rounds: nat, tail: seq<AgentEvent>, end: TurnEnd) {
    if w.cancel.AtTop? then
      tail == [] && end == Ended(EndTurn, rounds, true)
    else if rounds >= s.maxRounds then
      tail == [] && end == Ended(MAX_ROUNDS_REACHED, rounds, false)
    else if w.cancel.InStream? then
      tail == UpTo(Relayed(s, w), w.cancel.events) && end == Ended(EndTurn, rounds + 1, true)
    else if w.failure.Some? then
      tail == Relayed(s, w) && end == Failed(w.failure.value)
    else if !WantsTools(Streamed(s, w)) then
      tail == Relayed(s, w) && end == Ended(Streamed(s, w).stop, rounds + 1, false)
    else
      && w.cancel.InExecute? && end == Ended(EndTurn, rounds + 1, true)
      && tail == Relayed(s, w) + UpTo(ReportEvents(s, w, Streamed(s, w)), w.cancel.events)
  }

  /** A whole turn in given worlds: the rounds that went through, what the last one left, and
      how it ended. */
  ghost predicate TurnOf(s: Setup, worlds: nat -> World, log: seq<RoundLog>, tail: seq<AgentEvent>, end: TurnEnd) {
    LogOf(s, worlds, log) && |log| <= s.maxRounds && EndsIn(s, worlds(|log|), |log|, tail, end)
  }

  datatype RoundStep =
    | Halt(tail: seq<AgentEvent>, end: TurnEnd)
    | Next(data: RoundData, results: seq<ContentBlock>, events: seq<AgentEvent>)

  /** The body of one round after the checks at its top. */
  method RunRound(s: Setup, w: World, rounds: nat) returns (step: RoundStep)
    requires !w.cancel.AtTop? && 0 < rounds <= s.maxRounds
    ensures step.Halt? ==> EndsIn(s, w, rounds - 1, step.tail, step.end)
    ensures step.Next? ==>
      && step.data == Streamed(s, w) && GoesThrough(s, w)
      && step.results == Results(s, w, step.data.proposed)
      && step.events == RoundEvents(s, w, step.data)
  {
    var data, streamed := StreamRound(s, w.stream);
    if w.cancel.InStream? {
      return Halt(UpTo(streamed, w.cancel.events), Ended(EndTurn, rounds, true));
    }
    if w.failure.Some? {
      return Halt(streamed, Failed(w.failure.value));
    }
    if data.stop != ToolUse || (data.proposed == [] && data.failedResults == []) {
      return Halt(streamed, Ended(data.stop, rounds, false));
    }
    var results, reported, started := ExecuteRound(s, w, data.proposed);
    if w.cancel.InExecute? {
      return Halt(streamed + UpTo(reported, w.cancel.events), Ended(EndTurn, rounds, true));
    }
    step := Next(data, results, streamed + reported);
  }

  /** What has been sent and put on the channel once the logged rounds went through. */
  ghost predicate SoFar(s: Setup, initial: seq<Message>, worlds: nat -> World,
                        messages: seq<Message>, events: seq<AgentEvent>, log: seq<RoundLog>) {
    LogOf(s, worlds, log) && messages == initial + Pairs(s, log) && events == AllEvents(s, log)
  }

  lemma NothingSoFar(s: Setup, initial: seq<Message>, worlds: nat -> World)
    ensures SoFar(s, initial, worlds, initial, [], [])
  {
    assert initial + Pairs(s, []) == initial;
  }

  lemma OneMoreRound(s: Setup, initial: seq<Message>, worlds: nat -> World,
                     messages: seq<Message>, events: seq<AgentEvent>, log: seq<RoundLog>, l: RoundLog)
    requires SoFar(s, initial, worlds, messages, events, log)
    requires l.world == worlds(|log|) && l.data == Streamed(s, l.world) && GoesThrough(s, l.world)
    ensures SoFar(s, initial, worlds, messages + [AssistantMessage(l.data), ToolMessage(s, l)],
                  events + RoundEvents(s, l.world, l.data), log + [l])
  {
    MessagesAppend(s, initial, log, l);
    EventsAppend(s, log, l);
    LogExtends(s, worlds, log, l);
  }

  lemma LogExtends(s: Setup, worlds: nat -> World, log: seq<RoundLog>, l: RoundLog)
    requires LogOf(s, worlds, log)
    requires l.world == worlds(|log|) && l.data == Streamed(s, l.world) && GoesThrough(s, l.world)
    ensures LogOf(s, worlds, log + [l])
  {}

  lemma PairsAppend(s: Setup, log: seq<RoundLog>, l: RoundLog)
    ensures Pairs(s, log + [l]) == Pairs(s, log) + [AssistantMessage(l.data), ToolMessage(s, l)]
  {
    assert (log + [l])[..|log|] == log;
  }

  lemma EventsAppend(s: Setup, log: seq<RoundLog>, l: RoundLog)
    ensures AllEvents(s, log + [l]) == AllEvents(s, log) + RoundEvents(s, l.world, l.data)
  {
    assert (log + [l])[..|log|] == log;
  }

  lemma MessagesAppend(s: Setup, initial: seq<Message>, log: seq<RoundLog>, l: RoundLog)
    ensures (initial + Pairs(s, log)) + [AssistantMessage(l.data), ToolMessage(s, l)]
         == initial + Pairs(s, log + [l])
  {
    PairsAppend(s, log, l);
    Associate(initial, Pairs(s, log), [AssistantMessage(l.data), ToolMessage(s, l)]);
  }

  /** Round after round until one does not go through. The messages are whole pairs after the
      initial ones, and nothing a round put on the channel is lost. */
  method Run(s: Setup, initial: seq<Message>, worlds: nat -> World)
    returns (messages: seq<Message>, events: seq<AgentEvent>, end: TurnEnd, log: seq<RoundLog>, tail: seq<AgentEvent>)
    ensures TurnOf(s, worlds, log, tail, end)
    ensures messages == initial + Pairs(s, log)
    ensures events == AllEvents(s, log) + tail + Closing(end)
  {
    messages, events, log, tail := initial, [], [], [];
    NothingSoFar(s, initial, worlds);
    var rounds := 0;
    while true
      invariant rounds == |log| <= s.maxRounds
      invariant SoFar(s, initial, worlds, messages, events, log)
      invariant tail == []
      decreases s.maxRounds - rounds
    {
      var w := worlds(rounds);
      if w.cancel.AtTop? {
        end := Ended(EndTurn, rounds, true);
        break;
      }
      if rounds >= s.maxRounds {
        end := Ended(MAX_ROUNDS_REACHED, rounds, false);
        break;
      }
      rounds := rounds + 1;
      var step := RunRound(s, w, rounds);
      if step.Halt? {
        tail, end := step.tail, step.end;
        break;
      }
      var l := RoundLog(step.data, w);
      OneMoreRound(s, initial, worlds, messages, events, log, l);
      var toolMessage := Message(ToolRole, step.results + step.data.failedResults);
      messages := messages + [AssistantMessage(step.data), toolMessage];
      events := events + step.events;
      log := log + [l];
    }
    events := events + tail + Closing(end);
  }

  function UpTo(es: seq<AgentEvent>, n: nat): (r: seq<AgentEvent>)
    ensures r <= es && |r| == if n < |es| then n else |es|
  {
    if n <= |es| then es[..n] else es
  }

  lemma EndsWithTail(s: Setup, w: World, rounds: nat, tail: seq<AgentEvent>, end: TurnEnd)
    requires EndsIn(s, w, rounds, tail, end)
    ensures TailOf(s, w, tail)
  {}

  /** The worlds determine the turn: there is one log, one end and one list of events. */
  lemma TurnIsDetermined(s: Setup, worlds: nat -> World, log: seq<RoundLog>, tail: seq<AgentEvent>, end: TurnEnd,
                         log': seq<RoundLog>, tail': seq<AgentEvent>, end': TurnEnd)
    requires TurnOf(s, worlds, log, tail, end) && TurnOf(s, worlds, log', tail', end')
    ensures log == log' && tail == tail' && end == end'
  {
    StopsFirst(s, worlds, log, tail, end, log');
    StopsFirst(s, worlds, log', tail', end', log);
    forall k | 0 <= k < |log| ensures log[k] == log'[k] {
      assert log[k] == RoundLog(Streamed(s, worlds(k)), worlds(k));
    }
  }

  /** The round in which a turn ends does not go through, so no log of a turn is longer. */
  lemma StopsFirst(s: Setup, worlds: nat -> World, log: seq<RoundLog>, tail: seq<AgentEvent>, end: TurnEnd,
                   log': seq<RoundLog>)
    requires TurnOf(s, worlds, log, tail, end) && LogOf(s, worlds, log') && |log'| <= s.maxRounds
    ensures |log'| <= |log|
  {
    assert forall k :: 0 <= k < |log'| ==> GoesThrough(s, log'[k].world);
  }

  // --- every call is answered ---

  function UseIds(bs: seq<ContentBlock>): seq<string> {
    if bs == [] then []
    else (if bs[0].ToolUseBlock? then [bs[0].id] else []) + UseIds(bs[1..])
  }

  function ResultIds(bs: seq<ContentBlock>): seq<string> {
    if bs == [] then []
    else (if bs[0].ToolResultBlock? then [bs[0].toolUseId] else []) + ResultIds(bs[1..])
  }

  function CallIds(cs: seq<ToolCall>): (r: seq<string>)
    ensures |r| == |cs| && forall i :: 0 <= i < |cs| ==> r[i] == cs[i].id
  {
    seq(|cs|, i requires 0 <= i < |cs| => cs[i].id)
  }

  function ProposalId(e: AgentEvent): string
    requires IsProposal(e)
  {
    if e.ToolProposed? then e.call.id else e.failedId
  }

  function ProposalIds(es: seq<AgentEvent>): seq<string> {
    if es == [] then []
    else (if IsProposal(es[0]) then [ProposalId(es[0])] else []) + ProposalIds(es[1..])
  }

  function StartedIds(es: seq<ProviderEvent>): (r: seq<string>)
    ensures |r| == |StreamedCalls(es)| && forall i :: 0 <= i < |r| ==> r[i] == StreamedCalls(es)[i].id
  {
    seq(|StreamedCalls(es)|, i requires 0 <= i < |StreamedCalls(es)| => StreamedCalls(es)[i].id)
  }

  lemma {:induction false} UseIdsConcat(a: seq<ContentBlock>, b: seq<ContentBlock>)
    ensures UseIds(a + b) == UseIds(a) + UseIds(b)
  {
    if a == [] {
      assert a + b == b;
    } else {
      assert (a + b)[1..] == a[1..] + b;
      UseIdsConcat(a[1..], b);
      Associate(if a[0].ToolUseBlock? then [a[0].id] else [], UseIds(a[1..]), UseIds(b));
    }
  }

  lemma {:induction false} ResultIdsConcat(a: seq<ContentBlock>, b: seq<ContentBlock>)
    ensures ResultIds(a + b) == ResultIds(a) + ResultIds(b)
  {
    if a == [] {
      assert a + b == b;
    } else {
      assert (a + b)[1..] == a[1..] + b;
      ResultIdsConcat(a[1..], b);
      Associate(if a[0].ToolResultBlock? then [a[0].toolUseId] else [], ResultIds(a[1..]), ResultIds(b));
    }
  }

  /** The assistant message names the calls in the order they were proposed, malformed ones
      included. */
  lemma {:induction false} CollectedUses(d: RoundData, es: seq<AgentEvent>)
    ensures UseIds(Collected(d, es).toolUses) == UseIds(d.toolUses) + ProposalIds(es)
    decreases |es|
  {
    if es != [] {
      CollectedUses(Collect(d, es[0]), es[1..]);
      CollectedOne(d, es[0]);
      Associate(UseIds(d.toolUses), if IsProposal(es[0]) then [ProposalId(es[0])] else [], ProposalIds(es[1..]));
    }
  }

  /** The calls to dispatch and the ones already answered. */
  function Balance(d: RoundData): multiset<string> {
    multiset(CallIds(d.proposed)) + multiset(ResultIds(d.failedResults))
  }

  /** Each proposal is either dispatched or already answered, never both or neither. */
  lemma {:induction false} CollectedBalance(d: RoundData, es: seq<AgentEvent>)
    ensures Balance(Collected(d, es)) == Balance(d) + multiset(ProposalIds(es))
    decreases |es|
  {
    if es != [] {
      CollectedBalance(Collect(d, es[0]), es[1..]);
      CollectedOne(d, es[0]);
    }
  }

  lemma CollectedProposal(d: RoundData, call: ToolCall)
    ensures var d' := Collect(d, ToolProposed(call));
      && UseIds(d'.toolUses) == UseIds(d.toolUses) + [call.id]
      && Balance(d') == Balance(d) + multiset{call.id}
  {
    UseIdsConcat(d.toolUses, [UseBlock(call)]);
    assert CallIds(d.proposed + [call]) == CallIds(d.proposed) + [call.id];
  }

  lemma CollectedFailure(d: RoundData, id: string, name: string, error: string)
    ensures var d' := Collect(d, ToolProposalFailed(id, name, error));
      && UseIds(d'.toolUses) == UseIds(d.toolUses) + [id]
      && Balance(d') == Balance(d) + multiset{id}
  {
    UseIdsConcat(d.toolUses, [ToolUseBlock(id, name, EmptyObject)]);
    ResultIdsConcat(d.failedResults, [ToolResultBlock(id, error, true)]);
    assert ResultIds([ToolResultBlock(id, error, true)]) == [id];
  }

  lemma CollectedOne(d: RoundData, e: AgentEvent)
    ensures var d' := Collect(d, e);
      var one := if IsProposal(e) then [ProposalId(e)] else [];
      && UseIds(d'.toolUses) == UseIds(d.toolUses) + one
      && Balance(d') == Balance(d) + multiset(one)
  {
    match e {
      case ToolProposed(call) => CollectedProposal(d, call);
      case ToolProposalFailed(id, name, error) => CollectedFailure(d, id, name, error);
      case _ =>
    }
  }

  lemma {:induction false} ResultsIds(bs: seq<ContentBlock>)
    requires forall i :: 0 <= i < |bs| ==> bs[i].ToolResultBlock?
    ensures |ResultIds(bs)| == |bs| && forall i :: 0 <= i < |bs| ==> ResultIds(bs)[i] == bs[i].toolUseId
  {
    if bs != [] { ResultsIds(bs[1..]); }
  }

  lemma AnswersInOrder(s: Setup, l: RoundLog)
    ensures ResultIds(ToolMessage(s, l).content) == CallIds(l.data.proposed) + ResultIds(l.data.failedResults)
  {
    var rs := Results(s, l.world, l.data.proposed);
    ResultIdsConcat(rs, l.data.failedResults);
    ResultsIds(rs);
    assert ResultIds(rs) == CallIds(l.data.proposed);
  }

  lemma {:induction false} ProposalIdsOf(es: seq<AgentEvent>)
    ensures ProposalIds(es) == ProposalIds(Proposals(es))
  {
    if es != [] {
      ProposalIdsOf(es[1..]);
      if IsProposal(es[0]) {
        assert Proposals(es)[1..] == Proposals(es[1..]);
      } else {
        assert Proposals(es) == Proposals(es[1..]);
      }
    }
  }

  lemma {:induction false} FlushedIds(parse: JsonParser, ts: seq<OpenTool>)
    ensures |ProposalIds(FlushAll(parse, ts))| == |ts|
    ensures forall i :: 0 <= i < |ts| ==> ProposalIds(FlushAll(parse, ts))[i] == ts[i].id
  {
    if ts != [] {
      FlushedIds(parse, ts[1..]);
      assert FlushAll(parse, ts)[1..] == FlushAll(parse, ts[1..]);
      assert ProposalIds(FlushAll(parse, ts)) == [ts[0].id] + ProposalIds(FlushAll(parse, ts[1..]));
    }
  }

  lemma {:induction false} StopNeedsComplete(d: RoundData, es: seq<AgentEvent>)
    requires forall i :: 0 <= i < |es| ==> !es[i].TurnComplete?
    ensures Collected(d, es).stop == d.stop
    decreases |es|
  {
    if es != [] { StopNeedsComplete(Collect(d, es[0]), es[1..]); }
  }

  /** A round that asks for tools reached the end of its message. */
  lemma ToolRoundsAreWhole(s: Setup, w: World)
    requires WantsTools(Streamed(s, w))
    ensures EndsMessage(w.stream)
  {
    if !EndsMessage(w.stream) {
      NoCompleteWithoutStop(s.jsonParse, FreshMapper, w.stream);
      StopNeedsComplete(NoData, StreamEvents(s, w.stream));
      assert false;
    }
  }

  /** The ids proposed in a round that went through are those the provider started. */
  lemma ProposedAsStarted(s: Setup, w: World)
    requires WantsTools(Streamed(s, w))
    ensures ProposalIds(StreamEvents(s, w.stream)) == StartedIds(w.stream)
  {
    ToolRoundsAreWhole(s, w);
    MapperFaithful(s.jsonParse, w.stream);
    ProposalIdsOf(StreamEvents(s, w.stream));
    FlushedIds(s.jsonParse, StreamedCalls(w.stream));
  }

  lemma NamedAsProposed(s: Setup, w: World)
    ensures UseIds(AssistantMessage(Streamed(s, w)).content) == ProposalIds(StreamEvents(s, w.stream))
  {
    var d := Streamed(s, w);
    CollectedUses(NoData, StreamEvents(s, w.stream));
    var prose := if d.text != "" then [TextBlock(d.text)] else [];
    UseIdsConcat(prose, d.toolUses);
    assert UseIds(prose) == [];
  }

  lemma AnsweredAsProposed(s: Setup, l: RoundLog)
    requires l.data == Streamed(s, l.world)
    ensures multiset(ResultIds(ToolMessage(s, l).content)) == multiset(ProposalIds(StreamEvents(s, l.world.stream)))
  {
    CollectedBalance(NoData, StreamEvents(s, l.world.stream));
    assert Balance(NoData) == multiset{};
    AnswersInOrder(s, l);
  }

  /** In every round that went through: the assistant message names exactly the calls the
      provider started, in order; and the message after it holds exactly one result for
      each, whatever became of the call. */
  lemma EveryCallAnswered(s: Setup, worlds: nat -> World, log: seq<RoundLog>, k: nat)
    requires LogOf(s, worlds, log) && k < |log|
    ensures UseIds(AssistantMessage(log[k].data).content) == StartedIds(worlds(k).stream)
    ensures multiset(ResultIds(ToolMessage(s, log[k]).content))
         == multiset(UseIds(AssistantMessage(log[k].data).content))
  {
    ProposedAsStarted(s, worlds(k));
    NamedAsProposed(s, worlds(k));
    AnsweredAsProposed(s, log[k]);
  }

  lemma {:induction false} PairsAt(s: Setup, log: seq<RoundLog>, k: nat)
    requires k < |log|
    ensures |Pairs(s, log)| == 2 * |log|
    ensures Pairs(s, log)[2 * k] == AssistantMessage(log[k].data)
    ensures Pairs(s, log)[2 * k + 1] == ToolMessage(s, log[k])
    decreases |log|
  {
    var init := log[..|log| - 1];
    if init != [] { PairsAt(s, init, if k < |init| then k else 0); }
  }

  // --- only cleared calls run, and what they return is clean ---

  /** A call is started only when it parsed and either the gate cleared it or the user
      approved that very call; and then only once. */
  lemma StartedOnlyIfCleared(s: Setup, w: World, proposed: seq<ToolCall>)
    ensures var started := InLane(s, w, proposed, Parallel, |proposed|) + InLane(s, w, proposed, Serial, |proposed|);
      && (forall a, b :: 0 <= a < b < |started| ==> started[a] != started[b])
      && (forall k: nat :: k in started <==>
            && k < |proposed| && s.toolParse(proposed[k]).Ok?
            && (GateTool(s.toolParse(proposed[k]).value, s).AutoApprove? || w.confirm(k) == Approved))
  {
    var n := |proposed|;
    var x := InLane(s, w, proposed, Immediate, n);
    var y, z := InLane(s, w, proposed, Parallel, n), InLane(s, w, proposed, Serial, n);
    EmitOrderDistinct(s, w, proposed);
    var started := y + z;
    assert EmitOrder(s, w, proposed) == x + started;
    forall a, b | 0 <= a < b < |started| ensures started[a] != started[b] {
      assert started[a] == EmitOrder(s, w, proposed)[|x| + a] && started[b] == EmitOrder(s, w, proposed)[|x| + b];
    }
  }

  function Started(s: Setup, w: World, proposed: seq<ToolCall>): seq<nat> {
    InLane(s, w, proposed, Parallel, |proposed|) + InLane(s, w, proposed, Serial, |proposed|)
  }

  /** At every tier a call that changes a file, or that goes to a tool of another server, runs
      if and only if its own request was approved; the request says what the risk is. */
  lemma ChangesNeedApproval(s: Setup, w: World, proposed: seq<ToolCall>, k: nat)
    requires k < |proposed| && s.toolParse(proposed[k]).Ok?
    requires var input := s.toolParse(proposed[k]).value; input.EditFile? || input.WriteFile? || input.Mcp?
    ensures k in Started(s, w, proposed) <==> w.confirm(k) == Approved
    ensures var input := s.toolParse(proposed[k]).value;
      GateTool(input, s)
      == RequireConfirm(Risk.Assessment(Risk.Caution, if input.Mcp? then [Risk.McpTool] else [Risk.FileWrite]))
  {
    StartedOnlyIfCleared(s, w, proposed);
  }

  /** A call that only reads runs, whatever the tier and whatever the user would say. */
  lemma ReadsAlwaysRun(s: Setup, w: World, proposed: seq<ToolCall>, k: nat)
    requires k < |proposed| && s.toolParse(proposed[k]).Ok?
    requires var input := s.toolParse(proposed[k]).value;
      input.ReadFile? || input.ListDir? || input.Glob? || input.Grep?
    ensures k in InLane(s, w, proposed, Parallel, |proposed|)
  {}

  /** Calls that run together are reads, and every other call runs by itself, after them. */
  lemma OnlyReadsRunTogether(s: Setup, w: World, proposed: seq<ToolCall>, k: nat)
    requires k < |proposed| && s.toolParse(proposed[k]).Ok?
    ensures var n, input := |proposed|, s.toolParse(proposed[k]).value;
      var isRead := input.ReadFile? || input.ListDir? || input.Glob? || input.Grep?;
      && (k in InLane(s, w, proposed, Parallel, n) <==> isRead)
      && (k in InLane(s, w, proposed, Serial, n) <==> !isRead && k in Started(s, w, proposed))
  {}

  /** The text of a command keeps it from running unasked. */
  ghost predicate TextStops(s: Setup, r: CommandText.Reading, cwd: Option<string>) {
    r.words != [] && !CommandText.NothingStops(s.mode, r, cwd, None, s.context.deny, s.context.tables)
  }

  /** A command runs if and only if it was approved, or the tier is above ask-always and nothing
      in its text stops the tier. */
  lemma CommandsRunByText(s: Setup, w: World, proposed: seq<ToolCall>, k: nat, r: CommandText.Reading)
    requires k < |proposed| && s.toolParse(proposed[k]).Ok? && s.toolParse(proposed[k]).value.RunCommand?
    requires CommandText.Reads(s.toolParse(proposed[k]).value.command, r)
    ensures k in Started(s, w, proposed)
      <==> w.confirm(k) == Approved || (s.mode != AskAlways && !TextStops(s, r, s.toolParse(proposed[k]).value.cwd))
  {
    var input := s.toolParse(proposed[k]).value;
    StartedOnlyIfCleared(s, w, proposed);
    CommandText.RunsUnaskedOnText(s.mode, input.command, s.context.(cwd := input.cwd, remote := None), r);
  }

  /** A command that runs without asking is harmless to read: not a char of its text means
      anything to a shell, it writes through no redirect, and neither it nor any word of it is
      what the tables call destructive, privileged or secret. */
  lemma AutoRunCommandsAreHarmless(s: Setup, command: seq<string>, cwd: Option<string>, r: CommandText.Reading)
    requires GateTool(RunCommand(command, cwd), s).AutoApprove? && CommandText.Reads(command, r) && r.words != []
    ensures s.mode != AskAlways
    ensures forall i :: 0 <= i < |r.text| ==>
      r.text[i] !in ";&|`$(){}<>*?[]!'\"\\" && ' ' <= r.text[i] && r.text[i] != '\U{007F}'
    ensures !CommandText.Assigns(r.words[0]) && !("=" <= r.words[0]) && !("^" <= r.words[0])
    ensures forall i :: 0 <= i < |r.words| ==> !("~" <= r.words[i])
    ensures forall i :: 0 <= i < |r.words| ==>
      var base := Command.Base(r.words[i]);
      base !in s.context.tables.destructive && base !in s.context.tables.privilege
      && base !in s.context.tables.secretTools
    ensures Command.Base(r.words[0]) !in s.context.tables.introducers
    ensures forall k :: 0 <= k < |s.context.deny| && s.context.deny[k] != "" ==>
      !CommandText.Touches(r.words, cwd, s.context.deny[k])
  {
    var x := s.context.(cwd := cwd, remote := None);
    CommandText.RunsUnaskedOnText(s.mode, command, x, r);
    CommandText.QuietText(r, cwd, x.deny, x.tables);
    CommandText.PlainWords(r, cwd, x.deny, x.tables);
  }

  /** No tool output that re-enters the conversation holds a registered value, provided the
      value does not line up with the marker. */
  lemma OutputsAreClean(s: Setup, l: RoundLog, i: nat, v: string)
    requires i < |l.data.proposed| && Dispose(s, l.world, l.data.proposed[i], i).Runs?
    requires v in s.secrets && v != "" && !OverlapsMarker(v)
    ensures var b := ToolMessage(s, l).content[i];
      b.ToolResultBlock? && b.toolUseId == l.data.proposed[i].id && Clean(b.content, v)
  {
    RedactionClears(l.world.run(i).output, s.secrets, v);
  }
}
