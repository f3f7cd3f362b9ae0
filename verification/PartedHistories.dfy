/** Turns whose derived history parts from the sent messages, or leaves a call unanswered. */
module PartedHistories {
  import opened Text
  import opened Provider
  import opened Turn
  import opened Round
  import opened TurnLoop
  import opened Transcript
  import opened TurnHistory
  import opened HistoryEnds

  /** A round on a given stream, with every request approved and the same outcome for every call. */
  function WorldOf(stream: seq<ProviderEvent>, outcome: Outcome): World {
    World(stream, None, _ => Approved, _ => outcome, _ => 0, NoCancel)
  }

  function LogOfOne(s: Setup, w: World): RoundLog { RoundLog(Streamed(s, w), w) }

  lemma OneRound(s: Setup, w: World, tail: seq<AgentEvent>, end: TurnEnd)
    ensures var l := LogOfOne(s, w);
      && AllEvents(s, [l]) == RoundEvents(s, w, l.data)
      && Pairs(s, [l]) == [AssistantMessage(l.data), ToolMessage(s, l)]
      && RunEvents(s, [l], tail, end) == RoundEvents(s, w, l.data) + tail + Closing(end)
  {
    var l := LogOfOne(s, w);
    assert [l][..0] == [];
    assert AllEvents(s, []) + RoundEvents(s, w, l.data) == RoundEvents(s, w, l.data);
    var pair := [AssistantMessage(l.data), ToolMessage(s, l)];
    assert Pairs(s, []) + pair == pair;
  }

  /** A call streamed whole. */
  function CallStream(id: string, name: string, json: string): seq<ProviderEvent> {
    [ToolUseStart(id, name), ToolUseInputDelta(json), ToolUseStop]
  }

  /** The end of a message. */
  function EndStream(stop: StopReason, u: Usage): seq<ProviderEvent> { [MessageDelta(stop, u), MessageStop] }

  lemma MappedFront(parse: JsonParser, m: MapperState, e: ProviderEvent, es: seq<ProviderEvent>)
    ensures Mapped(parse, m, [e] + es) == Accepted(parse, m, e).1 + Mapped(parse, Accepted(parse, m, e).0, es)
  {
    assert ([e] + es)[1..] == es;
  }

  lemma MappedCall(parse: JsonParser, id: string, name: string, json: string, es: seq<ProviderEvent>)
    ensures Mapped(parse, FreshMapper, CallStream(id, name, json) + es)
         == [Flush(parse, OpenTool(id, name, json))] + Mapped(parse, FreshMapper, es)
  {
    var start, delta, stop := ToolUseStart(id, name), ToolUseInputDelta(json), ToolUseStop;
    assert CallStream(id, name, json) + es == [start] + ([delta] + ([stop] + es));
    assert "" + json == json;
    MappedFront(parse, FreshMapper, start, [delta] + ([stop] + es));
    MappedFront(parse, MapperState(Some(OpenTool(id, name, "")), None, false), delta, [stop] + es);
    MappedFront(parse, MapperState(Some(OpenTool(id, name, json)), None, false), stop, es);
  }

  lemma MappedEnd(parse: JsonParser, stop: StopReason, u: Usage)
    ensures Mapped(parse, FreshMapper, EndStream(stop, u)) == [UsageReport(u), TurnComplete(stop)]
  {
    assert EndStream(stop, u) == [MessageDelta(stop, u)] + ([MessageStop] + []);
    MappedFront(parse, FreshMapper, MessageDelta(stop, u), [MessageStop] + []);
    MappedFront(parse, MapperState(None, Some(stop), false), MessageStop, []);
  }

  lemma CollectFront(d: RoundData, e: AgentEvent, es: seq<AgentEvent>, secrets: seq<string>)
    ensures Collected(d, [e] + es) == Collected(Collect(d, e), es)
    ensures Forwarded([e] + es, secrets) == Forward(e, secrets) + Forwarded(es, secrets)
  {
    assert ([e] + es)[1..] == es;
  }

  /** A stream of one proposal, a usage report and the end of the message. */
  lemma OneProposal(call: AgentEvent, stop: StopReason, u: Usage, secrets: seq<string>)
    requires IsProposal(call)
    ensures var es := [call, UsageReport(u), TurnComplete(stop)];
      && Collected(NoData, es) == Collect(NoData, call).(stop := stop)
      && Forwarded(es, secrets) == [call, UsageReport(u)]
  {
    var used, done := UsageReport(u), TurnComplete(stop);
    var d := Collect(NoData, call);
    assert [call, used, done] == [call] + ([used] + ([done] + []));
    CollectFront(NoData, call, [used] + ([done] + []), secrets);
    CollectFront(d, used, [done] + [], secrets);
    CollectFront(d, done, [], secrets);
  }

  // --- a round that says nothing more ---

  function Then(first: World, later: World): nat -> World {
    k => if k == 0 then first else later
  }

  function Quiet(u: Usage): World { WorldOf(EndStream(EndTurn, u), Outcome("", false)) }

  /** What is left on the channel after one round and then silence, or the cap. */
  function QuietTail(s: Setup, u: Usage): seq<AgentEvent> {
    if s.maxRounds <= 1 then [] else [UsageReport(u)]
  }

  function QuietEnd(s: Setup): TurnEnd {
    if s.maxRounds <= 1 then Ended(MAX_ROUNDS_REACHED, 1, false) else Ended(EndTurn, 2, false)
  }

  lemma QuietRound(s: Setup, u: Usage)
    ensures Relayed(s, Quiet(u)) == [UsageReport(u)] && Streamed(s, Quiet(u)) == NoData
  {
    var used, done := UsageReport(u), TurnComplete(EndTurn);
    MappedEnd(s.jsonParse, EndTurn, u);
    assert [used, done] == [used] + ([done] + []);
    CollectFront(NoData, used, [done] + [], s.secrets);
    CollectFront(NoData, done, [], s.secrets);
  }

  /** One round that goes through, and then a turn that ends by itself. */
  lemma QuietTurn(s: Setup, first: World, u: Usage)
    requires s.maxRounds >= 1 && GoesThrough(s, first)
    ensures TurnOf(s, Then(first, Quiet(u)), [LogOfOne(s, first)], QuietTail(s, u), QuietEnd(s))
    ensures IsRun(s, [LogOfOne(s, first)], Quiet(u), QuietTail(s, u), QuietEnd(s))
    ensures Uses(QuietTail(s, u) + Closing(QuietEnd(s))) == []
  {
    QuietRound(s, u);
    var worlds := Then(first, Quiet(u));
    assert worlds(0) == first && worlds(1) == Quiet(u);
    TurnIsRun(s, worlds, [LogOfOne(s, first)], QuietTail(s, u), QuietEnd(s));
    UsesConcat(QuietTail(s, u), Closing(QuietEnd(s)));
    assert Uses(QuietTail(s, u)) == [] && Uses(Closing(QuietEnd(s))) == [];
  }

  // --- a malformed call ---

  function Malformed(u: Usage): seq<ProviderEvent> { CallStream("a", "n", "x") + EndStream(ToolUse, u) }

  function MalformedError(s: Setup): string
    requires s.jsonParse("x").Err?
  {
    "malformed input JSON: " + s.jsonParse("x").error
  }

  lemma MalformedStreams(s: Setup, u: Usage)
    requires s.jsonParse("x").Err?
    ensures StreamEvents(s, Malformed(u))
         == [ToolProposalFailed("a", "n", MalformedError(s)), UsageReport(u), TurnComplete(ToolUse)]
  {
    assert Trim("x") == "x";
    MappedCall(s.jsonParse, "a", "n", "x", EndStream(ToolUse, u));
    MappedEnd(s.jsonParse, ToolUse, u);
  }

  lemma MalformedRound(s: Setup, w: World, u: Usage)
    requires s.jsonParse("x").Err? && w.stream == Malformed(u)
    ensures Streamed(s, w) == RoundData([], "", [ToolUseBlock("a", "n", EmptyObject)],
                                        [ToolResultBlock("a", MalformedError(s), true)], ToolUse)
    ensures RoundEvents(s, w, Streamed(s, w)) == [ToolProposalFailed("a", "n", MalformedError(s)), UsageReport(u)]
  {
    MalformedStreams(s, u);
    OneProposal(ToolProposalFailed("a", "n", MalformedError(s)), ToolUse, u, s.secrets);
    NothingToReport(s, w, Streamed(s, w));
  }

  lemma SilentEvents(e: AgentEvent, es: seq<AgentEvent>)
    requires !e.ToolProposed?
    ensures Uses([e] + es) == Uses(es)
  {
    assert ([e] + es)[1..] == es;
  }

  lemma NothingUsed(failed: AgentEvent, used: AgentEvent, tail: seq<AgentEvent>, closing: seq<AgentEvent>)
    requires failed.ToolProposalFailed? && used.UsageReport? && Uses(tail + closing) == []
    ensures Uses([failed, used] + tail + closing) == []
  {
    assert [failed, used] + tail + closing == [failed] + ([used] + (tail + closing));
    SilentEvents(failed, [used] + (tail + closing));
    SilentEvents(used, tail + closing);
  }

  /** A malformed call makes the sent messages and the derived history part, in a turn that
      has no other call. */
  lemma MalformedRunParts(s: Setup, prompt: string, u: Usage)
    requires s.jsonParse("x").Err? && s.maxRounds >= 1
    ensures var first := WorldOf(Malformed(u), Outcome("", false));
      var log, tail, end := [LogOfOne(s, first)], QuietTail(s, u), QuietEnd(s);
      && TurnOf(s, Then(first, Quiet(u)), log, tail, end) && NoSharedCalls(s, log, RunEvents(s, log, tail, end))
      && !OpensUpToOrder(Sent(s, prompt, log), Derived(prompt, RunEvents(s, log, tail, end)))
  {
    var first := WorldOf(Malformed(u), Outcome("", false));
    var log, tail, end := [LogOfOne(s, first)], QuietTail(s, u), QuietEnd(s);
    MalformedRound(s, first, u);
    QuietTurn(s, first, u);
    OneRound(s, first, tail, end);
    NothingUsed(ToolProposalFailed("a", "n", MalformedError(s)), UsageReport(u), tail, Closing(end));
    assert Uses(RunEvents(s, log, tail, end)) == [];
    MalformedCallParts(s, prompt, log, Quiet(u), tail, end, 0);
  }

  // --- the same call, malformed and then well formed ---

  function Plain(u: Usage): seq<ProviderEvent> { CallStream("a", "n", "") + EndStream(ToolUse, u) }

  const PLAIN_CALL := ToolCall("a", "n", EmptyObject)

  lemma PlainStreams(s: Setup, u: Usage)
    ensures StreamEvents(s, Plain(u)) == [ToolProposed(PLAIN_CALL), UsageReport(u), TurnComplete(ToolUse)]
  {
    MappedCall(s.jsonParse, "a", "n", "", EndStream(ToolUse, u));
    MappedEnd(s.jsonParse, ToolUse, u);
  }

  lemma OneReport(s: Setup, w: World, d: RoundData)
    requires d.proposed == [PLAIN_CALL] && s.secrets == [] && Dispose(s, w, PLAIN_CALL, 0).Runs?
    ensures ReportEvents(s, w, d) == [ToolResult("a", w.run(0).output, w.run(0).isError)]
  {
    EmitOrderPermutes(s, w, d.proposed);
    EveryCallEmitted(s, w, d.proposed);
    var order := EmitOrder(s, w, d.proposed);
    assert |order| == |multiset(order)| == 1;
  }

  lemma PlainData(s: Setup, w: World, u: Usage)
    requires w.stream == Plain(u)
    ensures Streamed(s, w) == RoundData([PLAIN_CALL], "", [UseBlock(PLAIN_CALL)], [], ToolUse)
    ensures Relayed(s, w) == [ToolProposed(PLAIN_CALL), UsageReport(u)]
  {
    PlainStreams(s, u);
    OneProposal(ToolProposed(PLAIN_CALL), ToolUse, u, s.secrets);
  }

  lemma PlainRound(s: Setup, w: World, u: Usage, outcome: Outcome)
    requires s.toolParse(PLAIN_CALL).Ok? && s.secrets == []
    requires w.stream == Plain(u) && w.run(0) == outcome && w.confirm(0) == Approved
    ensures WantsTools(Streamed(s, w))
    ensures RoundEvents(s, w, Streamed(s, w))
         == [ToolProposed(PLAIN_CALL), UsageReport(u), ToolResult("a", outcome.output, outcome.isError)]
    ensures |ReportEvents(s, w, Streamed(s, w))| == 1
  {
    PlainData(s, w, u);
    OneReport(s, w, Streamed(s, w));
  }

  /** The first round of `SharedCallHides`, whose call is malformed, and the second, whose call
      is well formed and answered by the same error; then the turn is cancelled. */
  function FirstTry(s: Setup, u: Usage): World
    requires s.jsonParse("x").Err?
  {
    WorldOf(Malformed(u), Outcome(MalformedError(s), true))
  }

  function SecondTry(s: Setup, u: Usage): World
    requires s.jsonParse("x").Err?
  {
    WorldOf(Plain(u), Outcome(MalformedError(s), true)).(cancel := InExecute(1))
  }

  const INTERRUPTED := Ended(EndTurn, 2, true)

  function SharedEvents(s: Setup, u: Usage): seq<AgentEvent>
    requires s.jsonParse("x").Err?
  {
    var failed, used := ToolProposalFailed("a", "n", MalformedError(s)), UsageReport(u);
    [failed, used] + [ToolProposed(PLAIN_CALL), used, ToolResult("a", MalformedError(s), true)]
  }

  lemma SharedRun(s: Setup, u: Usage)
    requires s.jsonParse("x").Err? && s.toolParse(PLAIN_CALL).Ok? && s.secrets == [] && s.maxRounds >= 2
    ensures var log, last := [LogOfOne(s, FirstTry(s, u))], SecondTry(s, u);
      var tail := RoundEvents(s, last, Streamed(s, last));
      && TurnOf(s, Then(FirstTry(s, u), last), log, tail, INTERRUPTED) && !AllWellFormed(log)
      && RunEvents(s, log, tail, INTERRUPTED) == SharedEvents(s, u)
  {
    var last := SecondTry(s, u);
    var tail := RoundEvents(s, last, Streamed(s, last));
    MalformedRound(s, FirstTry(s, u), u);
    PlainRound(s, last, u, Outcome(MalformedError(s), true));
    OneRound(s, FirstTry(s, u), tail, INTERRUPTED);
    SecondTryEnds(s, u);
  }

  lemma SecondTryEnds(s: Setup, u: Usage)
    requires s.jsonParse("x").Err? && s.toolParse(PLAIN_CALL).Ok? && s.secrets == [] && s.maxRounds >= 2
    ensures var last := SecondTry(s, u); EndsIn(s, last, 1, RoundEvents(s, last, Streamed(s, last)), INTERRUPTED)
  {
    PlainRound(s, SecondTry(s, u), u, Outcome(MalformedError(s), true));
  }

  /** Were the same call proposed once malformed and once well formed, with the error as its
      result, the two would agree all the same. */
  lemma SharedCallHides(s: Setup, prompt: string, u: Usage)
    requires s.jsonParse("x").Err? && s.toolParse(PLAIN_CALL).Ok? && s.secrets == [] && s.maxRounds >= 2
    ensures var log, last := [LogOfOne(s, FirstTry(s, u))], SecondTry(s, u);
      var tail := RoundEvents(s, last, Streamed(s, last));
      && TurnOf(s, Then(FirstTry(s, u), last), log, tail, INTERRUPTED) && !AllWellFormed(log)
      && OpensUpToOrder(Sent(s, prompt, log), Derived(prompt, RunEvents(s, log, tail, INTERRUPTED)))
  {
    SharedRun(s, u);
    MalformedRound(s, FirstTry(s, u), u);
    SharedSent(s, prompt, FirstTry(s, u));
    SharedHistory(s, prompt, u);
  }

  lemma SharedSent(s: Setup, prompt: string, w: World)
    requires s.jsonParse("x").Err?
    requires Streamed(s, w) == RoundData([], "", [ToolUseBlock("a", "n", EmptyObject)],
                                         [ToolResultBlock("a", MalformedError(s), true)], ToolUse)
    ensures Sent(s, prompt, [LogOfOne(s, w)])
         == [UserMessage(prompt), Message(AssistantRole, [UseBlock(PLAIN_CALL)]),
             Message(ToolRole, [ToolResultBlock("a", MalformedError(s), true)])]
  {
    OneRound(s, w, [], Failed(""));
    var l := LogOfOne(s, w);
    assert AssistantMessage(l.data).content == [UseBlock(PLAIN_CALL)];
    assert ToolMessage(s, l).content == [ToolResultBlock("a", MalformedError(s), true)];
  }

  lemma SharedHistory(s: Setup, prompt: string, u: Usage)
    requires s.jsonParse("x").Err?
    ensures Derived(prompt, SharedEvents(s, u))
         == [UserMessage(prompt), Message(AssistantRole, [UseBlock(PLAIN_CALL)]),
             Message(ToolRole, [ToolResultBlock("a", MalformedError(s), true)])]
  {
    var failed, used := ToolProposalFailed("a", "n", MalformedError(s)), UsageReport(u);
    var call, error, h := ToolProposed(PLAIN_CALL), ToolResult("a", MalformedError(s), true), PromptHist(prompt);
    DerivedFromEvents(prompt, SharedEvents(s, u));
    assert SharedEvents(s, u) == [failed] + ([used] + ([call] + ([used] + ([error] + []))));
    AbsorbFront(h, failed, [used] + ([call] + ([used] + ([error] + []))));
    AbsorbFront(h, used, [call] + ([used] + ([error] + [])));
    AbsorbFront(h, call, [used] + ([error] + []));
    var h1 := Hist([UserMessage(prompt)], Asst("", [UseBlock(PLAIN_CALL)]));
    assert AbsorbEvent(h, call) == h1;
    AbsorbFront(h1, used, [error] + []);
    AbsorbFront(h1, error, []);
  }

  lemma AbsorbFront(h: Hist, e: AgentEvent, es: seq<AgentEvent>)
    ensures AbsorbEvents(h, [e] + es) == AbsorbEvents(AbsorbEvent(h, e), es)
  {
    assert ([e] + es)[1..] == es;
  }

  // --- a read proposed after a command ---

  function RunThenRead(u: Usage): seq<ProviderEvent> {
    CallStream("a", "run_command", "x") + (CallStream("b", "read_file", "y") + EndStream(ToolUse, u))
  }

  function CommandCall(s: Setup): ToolCall
    requires s.jsonParse("x").Ok?
  {
    ToolCall("a", "run_command", s.jsonParse("x").value)
  }

  function ReadCall(s: Setup): ToolCall
    requires s.jsonParse("y").Ok?
  {
    ToolCall("b", "read_file", s.jsonParse("y").value)
  }

  predicate Understood(s: Setup) {
    && s.jsonParse("x").Ok? && s.toolParse(CommandCall(s)).Ok? && s.toolParse(CommandCall(s)).value.RunCommand?
    && s.jsonParse("y").Ok? && s.toolParse(ReadCall(s)).Ok? && s.toolParse(ReadCall(s)).value.ReadFile?
  }

  lemma RunThenReadStreams(s: Setup, u: Usage)
    requires Understood(s)
    ensures StreamEvents(s, RunThenRead(u))
         == [ToolProposed(CommandCall(s))] + ([ToolProposed(ReadCall(s))] + [UsageReport(u), TurnComplete(ToolUse)])
  {
    assert Trim("x") == "x" && Trim("y") == "y";
    MappedCall(s.jsonParse, "a", "run_command", "x", CallStream("b", "read_file", "y") + EndStream(ToolUse, u));
    MappedCall(s.jsonParse, "b", "read_file", "y", EndStream(ToolUse, u));
    MappedEnd(s.jsonParse, ToolUse, u);
  }

  lemma RunThenReadData(s: Setup, w: World, u: Usage)
    requires Understood(s) && w.stream == RunThenRead(u)
    ensures Streamed(s, w) == RoundData([CommandCall(s), ReadCall(s)], "",
                                        [UseBlock(CommandCall(s)), UseBlock(ReadCall(s))], [], ToolUse)
    ensures Placeholders(StreamEvents(s, w.stream)) == []
  {
    RunThenReadStreams(s, u);
    var run, read := ToolProposed(CommandCall(s)), ToolProposed(ReadCall(s));
    var used, done := UsageReport(u), TurnComplete(ToolUse);
    var d1 := Collect(NoData, run);
    var d2 := Collect(d1, read);
    assert [used, done] == [used] + ([done] + []);
    CollectFront(NoData, run, [read] + [used, done], s.secrets);
    CollectFront(d1, read, [used, done], s.secrets);
    CollectFront(d2, used, [done] + [], s.secrets);
    CollectFront(d2, done, [], s.secrets);
    CollectedPlaceholders(NoData, StreamEvents(s, w.stream));
  }

  lemma RunThenReadLanes(s: Setup, w: World, u: Usage, outcome: Outcome)
    requires Understood(s) && w == WorldOf(RunThenRead(u), outcome)
    ensures !LanesSorted(s, w, [CommandCall(s), ReadCall(s)])
  {
    assert Rank(LaneOf(s, w, [CommandCall(s), ReadCall(s)][0], 0)) == 2;
    assert Rank(LaneOf(s, w, [CommandCall(s), ReadCall(s)][1], 1)) == 1;
  }

  lemma RunThenReadLog(s: Setup, u: Usage, outcome: Outcome, es: seq<AgentEvent>)
    requires Understood(s)
    ensures GoesThrough(s, WorldOf(RunThenRead(u), outcome))
    ensures var log := [LogOfOne(s, WorldOf(RunThenRead(u), outcome))];
      FromStreams(s, log) && NoSharedCalls(s, log, es) && AllWellFormed(log) && !AllReportedAsSent(s, log)
  {
    var w := WorldOf(RunThenRead(u), outcome);
    var l := LogOfOne(s, w);
    RunThenReadData(s, w, u);
    RunThenReadOrder(s, w, u, outcome);
    assert !AsSent(s, [l][0]);
  }

  lemma RunThenReadOrder(s: Setup, w: World, u: Usage, outcome: Outcome)
    requires Understood(s) && w == WorldOf(RunThenRead(u), outcome)
    ensures !AsSent(s, LogOfOne(s, w))
  {
    RunThenReadData(s, w, u);
    RunThenReadLanes(s, w, u, outcome);
    ReportedAsSent(s, LogOfOne(s, w));
  }

  /** A read proposed after a command is reported before it, so the derived history holds the
      blocks that were sent, but not in the order they were sent. */
  lemma ReadIsReportedFirst(s: Setup, prompt: string, u: Usage, outcome: Outcome)
    requires Understood(s) && s.maxRounds >= 1
    ensures var first := WorldOf(RunThenRead(u), outcome);
      var log, tail, end := [LogOfOne(s, first)], QuietTail(s, u), QuietEnd(s);
      var derived := Derived(prompt, RunEvents(s, log, tail, end));
      && TurnOf(s, Then(first, Quiet(u)), log, tail, end) && NoSharedCalls(s, log, RunEvents(s, log, tail, end))
      && OpensUpToOrder(Sent(s, prompt, log), derived) && !(Sent(s, prompt, log) <= derived)
  {
    var first := WorldOf(RunThenRead(u), outcome);
    var log, tail, end := [LogOfOne(s, first)], QuietTail(s, u), QuietEnd(s);
    RunThenReadLog(s, u, outcome, RunEvents(s, log, tail, end));
    QuietTurn(s, first, u);
    HistoryAgrees(s, prompt, log, Quiet(u), tail, end);
    HistoryAgreesExactly(s, prompt, log, Quiet(u), tail, end);
  }

  // --- a call that is never answered ---

  /** A message that is cut short by the token limit after a whole call. */
  function CutShort(u: Usage): World {
    WorldOf(CallStream("a", "n", "") + EndStream(MaxTokens, u), Outcome("", false))
  }

  lemma CutShortRound(s: Setup, u: Usage)
    ensures Relayed(s, CutShort(u)) == [ToolProposed(PLAIN_CALL), UsageReport(u)]
    ensures Streamed(s, CutShort(u)) == RoundData([PLAIN_CALL], "", [UseBlock(PLAIN_CALL)], [], MaxTokens)
  {
    MappedCall(s.jsonParse, "a", "n", "", EndStream(MaxTokens, u));
    MappedEnd(s.jsonParse, MaxTokens, u);
    OneProposal(ToolProposed(PLAIN_CALL), MaxTokens, u, s.secrets);
  }

  /** Such a turn ends by itself, and its derived history ends in a call without a result. */
  lemma CutShortStaysOpen(s: Setup, prompt: string, u: Usage)
    requires s.maxRounds >= 1
    ensures var tail, end := Relayed(s, CutShort(u)), Ended(MaxTokens, 1, false);
      var derived := Derived(prompt, RunEvents(s, [], tail, end));
      && TurnOf(s, _ => CutShort(u), [], tail, end)
      && derived == [UserMessage(prompt), Message(AssistantRole, [UseBlock(PLAIN_CALL)])]
      && !EveryUseAnswered(derived)
  {
    var tail, end := Relayed(s, CutShort(u)), Ended(MaxTokens, 1, false);
    CutShortRound(s, u);
    SelfEndedHistory(s, prompt, [], CutShort(u), tail, end);
    SelfEndedAnswered(s, prompt, [], CutShort(u), tail, end);
    assert tail[0].ToolProposed?;
    assert AssistantMessage(Streamed(s, CutShort(u))).content == [UseBlock(PLAIN_CALL)];
  }
}
