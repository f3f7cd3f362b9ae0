/** What rounds and turns do, told from outside. */
module TurnMeaning {
  import opened Text
  import opened Provider
  import opened Redaction
  import opened Turn
  import opened Round
  import opened TurnLoop
  import opened Transcript
  import opened TurnHistory
  import Approvals
  import ApprovedRuns

  // --- what is collected of a stream ---

  function CallsOf(es: seq<AgentEvent>): seq<ToolCall> {
    if es == [] then [] else (if es[0].ToolProposed? then [es[0].call] else []) + CallsOf(es[1..])
  }

  function FailuresOf(es: seq<AgentEvent>): seq<ContentBlock> {
    if es == [] then []
    else
      (if es[0].ToolProposalFailed? then [ToolResultBlock(es[0].failedId, es[0].failedError, true)] else [])
      + FailuresOf(es[1..])
  }

  function NamesOf(es: seq<AgentEvent>): seq<ContentBlock> {
    if es == [] then []
    else (if IsProposal(es[0]) then [NameOf(es[0])] else []) + NamesOf(es[1..])
  }

  function NameOf(e: AgentEvent): ContentBlock
    requires IsProposal(e)
  {
    if e.ToolProposed? then UseBlock(e.call) else ToolUseBlock(e.failedId, e.failedName, EmptyObject)
  }

  function StopOf(es: seq<AgentEvent>, before: StopReason): StopReason {
    if es == [] then before else StopOf(es[1..], if es[0].TurnComplete? then es[0].stopReason else before)
  }

  lemma {:induction false} CollectedCalls(d: RoundData, es: seq<AgentEvent>)
    ensures Collected(d, es).proposed == d.proposed + CallsOf(es)
    decreases |es|
  {
    if es != [] {
      CollectedCalls(Collect(d, es[0]), es[1..]);
      Associate(d.proposed, if es[0].ToolProposed? then [es[0].call] else [], CallsOf(es[1..]));
    }
  }

  lemma {:induction false} CollectedFailures(d: RoundData, es: seq<AgentEvent>)
    ensures Collected(d, es).failedResults == d.failedResults + FailuresOf(es)
    decreases |es|
  {
    if es != [] {
      CollectedFailures(Collect(d, es[0]), es[1..]);
      Associate(d.failedResults,
        if es[0].ToolProposalFailed? then [ToolResultBlock(es[0].failedId, es[0].failedError, true)] else [],
        FailuresOf(es[1..]));
    }
  }

  lemma {:induction false} CollectedNames(d: RoundData, es: seq<AgentEvent>)
    ensures Collected(d, es).toolUses == d.toolUses + NamesOf(es)
    decreases |es|
  {
    if es != [] {
      CollectedNames(Collect(d, es[0]), es[1..]);
      Associate(d.toolUses, if IsProposal(es[0]) then [NameOf(es[0])] else [], NamesOf(es[1..]));
    }
  }

  lemma {:induction false} CollectedStop(d: RoundData, es: seq<AgentEvent>)
    ensures Collected(d, es).stop == StopOf(es, d.stop)
    decreases |es|
  {
    if es != [] { CollectedStop(Collect(d, es[0]), es[1..]); }
  }

  /** Only the proposals matter to the calls, and only the rest to prose and stop. */
  lemma {:induction false} OfProposals(es: seq<AgentEvent>)
    ensures CallsOf(es) == CallsOf(Proposals(es)) && FailuresOf(es) == FailuresOf(Proposals(es))
    ensures NamesOf(es) == NamesOf(Proposals(es))
  {
    if es != [] {
      OfProposals(es[1..]);
      if IsProposal(es[0]) {
        assert Proposals(es)[1..] == Proposals(es[1..]);
      } else {
        assert Proposals(es) == Proposals(es[1..]);
      }
    }
  }

  lemma {:induction false} OfRest(es: seq<AgentEvent>, before: StopReason)
    ensures Prose(es) == Prose(NonProposals(es)) && StopOf(es, before) == StopOf(NonProposals(es), before)
    decreases |es|
  {
    if es != [] {
      OfRest(es[1..], if es[0].TurnComplete? then es[0].stopReason else before);
      if IsProposal(es[0]) {
        assert NonProposals(es) == NonProposals(es[1..]);
      } else {
        assert NonProposals(es)[1..] == NonProposals(es[1..]);
      }
    }
  }

  // --- the same, told from the provider's events ---

  type Input = Result<Json, string>

  /** What the calls' buffers hold, call by call. */
  ghost predicate Inputs(parse: JsonParser, calls: seq<OpenTool>, inputs: seq<Input>) {
    |inputs| == |calls| && forall i :: 0 <= i < |calls| ==> Holds(parse, calls[i].json, inputs[i])
  }

  /** The calls whose input parsed. */
  function WellFormedCalls(calls: seq<OpenTool>, inputs: seq<Input>): seq<ToolCall>
    requires |inputs| == |calls|
  {
    if calls == [] then []
    else
      (if inputs[0].Ok? then [ToolCall(calls[0].id, calls[0].name, inputs[0].value)] else [])
      + WellFormedCalls(calls[1..], inputs[1..])
  }

  /** One error result for each of the others. */
  function MalformedAnswers(calls: seq<OpenTool>, inputs: seq<Input>): seq<ContentBlock>
    requires |inputs| == |calls|
  {
    if calls == [] then []
    else
      (if inputs[0].Err? then [ToolResultBlock(calls[0].id, "malformed input JSON: " + inputs[0].error, true)] else [])
      + MalformedAnswers(calls[1..], inputs[1..])
  }

  /** Every call is named, the malformed ones with an empty input. */
  predicate AllNamed(calls: seq<OpenTool>, inputs: seq<Input>, uses: seq<ContentBlock>) {
    && |uses| == |calls| == |inputs|
    && forall i :: 0 <= i < |calls| ==>
         uses[i] == ToolUseBlock(calls[i].id, calls[i].name, if inputs[i].Ok? then inputs[i].value else EmptyObject)
  }

  function StreamedText(es: seq<ProviderEvent>): string {
    if es == [] || es[0].MessageStop? then ""
    else (if es[0].TextDelta? then es[0].text else "") + StreamedText(es[1..])
  }

  lemma {:induction false} ReadCalls(parse: JsonParser, calls: seq<OpenTool>, inputs: seq<Input>)
    requires Inputs(parse, calls, inputs)
    ensures CallsOf(FlushAll(parse, calls)) == WellFormedCalls(calls, inputs)
    ensures FailuresOf(FlushAll(parse, calls)) == MalformedAnswers(calls, inputs)
    decreases |calls|
  {
    if calls != [] {
      ReadCalls(parse, calls[1..], inputs[1..]);
      FlushMeaning(parse, calls[0], inputs[0]);
      assert FlushAll(parse, calls)[1..] == FlushAll(parse, calls[1..]);
    }
  }

  lemma {:induction false} ReadNames(parse: JsonParser, calls: seq<OpenTool>, inputs: seq<Input>)
    requires Inputs(parse, calls, inputs)
    ensures AllNamed(calls, inputs, NamesOf(FlushAll(parse, calls)))
    decreases |calls|
  {
    if calls != [] {
      ReadNames(parse, calls[1..], inputs[1..]);
      FlushMeaning(parse, calls[0], inputs[0]);
      assert FlushAll(parse, calls)[1..] == FlushAll(parse, calls[1..]);
    }
  }

  lemma ProseFront(front: seq<AgentEvent>, rest: seq<AgentEvent>, before: StopReason)
    requires |front| <= 1 && forall i :: 0 <= i < |front| ==> !front[i].TurnComplete?
    ensures Prose(front + rest) == (if front != [] && front[0].Assistant? then front[0].text else "") + Prose(rest)
    ensures StopOf(front + rest, before) == StopOf(rest, before)
  {
    if front == [] {
      assert front + rest == rest;
    } else {
      assert (front + rest)[1..] == rest;
    }
  }

  lemma {:induction false} PassedProse(es: seq<ProviderEvent>, stop: StopReason, before: StopReason)
    ensures Prose(PassedThrough(es) + [TurnComplete(stop)]) == StreamedText(es)
    ensures StopOf(PassedThrough(es) + [TurnComplete(stop)], before) == stop
  {
    if es != [] && !es[0].MessageStop? {
      PassedProse(es[1..], stop, before);
      var rest := PassedThrough(es[1..]) + [TurnComplete(stop)];
      Associate(Passed(es[0]), PassedThrough(es[1..]), [TurnComplete(stop)]);
      ProseFront(Passed(es[0]), rest, before);
    }
  }

  /** Of a whole message a round reads exactly this: every streamed call is named in order,
      those whose input parses are to be run, in order, and each other one is answered at
      once; the text is what was streamed, and the stop reason the last reported. */
  lemma RoundReadsTheMessage(s: Setup, w: World, inputs: seq<Input>)
    requires EndsMessage(w.stream) && Inputs(s.jsonParse, StreamedCalls(w.stream), inputs)
    ensures var d, calls := Streamed(s, w), StreamedCalls(w.stream);
      && AllNamed(calls, inputs, d.toolUses)
      && d.proposed == WellFormedCalls(calls, inputs)
      && d.failedResults == MalformedAnswers(calls, inputs)
      && d.text == StreamedText(w.stream)
      && d.stop == LastStop(w.stream, None).GetOr(EndTurn)
  {
    var es, calls := StreamEvents(s, w.stream), StreamedCalls(w.stream);
    MapperFaithful(s.jsonParse, w.stream);
    CollectedCalls(NoData, es);
    CollectedFailures(NoData, es);
    CollectedNames(NoData, es);
    OfProposals(es);
    ReadCalls(s.jsonParse, calls, inputs);
    ReadNames(s.jsonParse, calls, inputs);
    CollectedRest(s, w);
  }

  lemma CollectedRest(s: Setup, w: World)
    requires EndsMessage(w.stream)
    ensures Streamed(s, w).text == StreamedText(w.stream)
    ensures Streamed(s, w).stop == LastStop(w.stream, None).GetOr(EndTurn)
  {
    var es := StreamEvents(s, w.stream);
    MapperFaithful(s.jsonParse, w.stream);
    CollectedProse(NoData, es);
    CollectedStop(NoData, es);
    OfRest(es, EndTurn);
    PassedProse(w.stream, LastStop(w.stream, None).GetOr(EndTurn), EndTurn);
  }

  /** And there is one way to read it. */
  lemma EveryMessageIsRead(s: Setup, w: World) returns (inputs: seq<Input>)
    ensures Inputs(s.jsonParse, StreamedCalls(w.stream), inputs)
  {
    var calls := StreamedCalls(w.stream);
    inputs := [];
    for i := 0 to |calls|
      invariant |inputs| == i && forall k :: 0 <= k < i ==> Holds(s.jsonParse, calls[k].json, inputs[k])
    {
      var input := EveryBufferHolds(s.jsonParse, calls[i].json);
      inputs := inputs + [input];
    }
  }

  // --- what is put on the channel ---

  /** How an event is shown: as it is, but for registered values in what a remote tool
      returned. */
  ghost predicate ShownAs(e: AgentEvent, r: AgentEvent, secrets: seq<string>) {
    if !e.McpResult? then r == e
    else
      && r.McpResult? && r.resultId == e.resultId && r.mcpError == e.mcpError
      && CleanedOf(e.mcpOutput, r.mcpOutput, secrets)
  }

  /** A text without registered values stays as it is, and none that does not line up with the
      marker is left in any text. */
  ghost predicate CleanedOf(text: string, clean: string, secrets: seq<string>) {
    && ((forall v :: v in secrets && v != "" ==> Clean(text, v)) ==> clean == text)
    && (forall v :: v in secrets && v != "" && !OverlapsMarker(v) ==> Clean(clean, v))
  }

  lemma RedactedCleans(text: string, secrets: seq<string>)
    ensures CleanedOf(text, Redacted(text, secrets), secrets)
  {
    if forall v :: v in secrets && v != "" ==> Clean(text, v) { CleanIsFixed(text, secrets); }
    forall v | v in secrets && v != "" && !OverlapsMarker(v) ensures Clean(Redacted(text, secrets), v) {
      RedactionClears(text, secrets, v);
    }
  }

  ghost predicate AllShownAs(es: seq<AgentEvent>, rs: seq<AgentEvent>, secrets: seq<string>) {
    |rs| == |es| && forall i :: 0 <= i < |es| ==> ShownAs(es[i], rs[i], secrets)
  }

  lemma {:induction false} ForwardedShows(es: seq<AgentEvent>, secrets: seq<string>)
    requires forall i :: 0 <= i < |es| ==> !es[i].TurnComplete?
    ensures AllShownAs(es, Forwarded(es, secrets), secrets)
  {
    if es != [] {
      ForwardedShows(es[1..], secrets);
      if es[0].McpResult? { RedactedCleans(es[0].mcpOutput, secrets); }
      assert Forwarded(es, secrets) == [Forward(es[0], secrets)[0]] + Forwarded(es[1..], secrets);
    }
  }

  lemma {:induction false} OneComplete(parse: JsonParser, m: MapperState, es: seq<ProviderEvent>)
    requires EndsMessage(es) && !m.done
    ensures var out := Mapped(parse, m, es); forall i :: 0 <= i < |out| - 1 ==> !out[i].TurnComplete?
    decreases es
  {
    var (m', out) := Accepted(parse, m, es[0]);
    if es[0].MessageStop? {
      DoneIsInert(parse, m', es[1..]);
    } else {
      Later(es);
      OneComplete(parse, m', es[1..]);
      CompleteIsLast(parse, m', es[1..]);
    }
  }

  /** All but the completion that ends a whole message. */
  function BeforeCompletion(es: seq<AgentEvent>): seq<AgentEvent> {
    if es != [] && es[|es| - 1].TurnComplete? then es[..|es| - 1] else es
  }

  /** A round relays every event of its stream, in order, but the one that ends the message. */
  lemma RelaysTheStream(s: Setup, w: World)
    ensures AllShownAs(BeforeCompletion(StreamEvents(s, w.stream)), Relayed(s, w), s.secrets)
  {
    var es := StreamEvents(s, w.stream);
    if EndsMessage(w.stream) {
      CompleteIsLast(s.jsonParse, FreshMapper, w.stream);
      OneComplete(s.jsonParse, FreshMapper, w.stream);
      var init, last := es[..|es| - 1], es[|es| - 1];
      assert es == init + [last];
      ForwardedConcat(init, [last], s.secrets);
      assert Forwarded([last], s.secrets) == [];
      ForwardedShows(init, s.secrets);
    } else {
      NoCompleteWithoutStop(s.jsonParse, FreshMapper, w.stream);
      ForwardedShows(es, s.secrets);
    }
  }

  // --- what each call is answered with ---

  /** The answer to each call of a round: why it was rejected, that the user declined it, or
      what the tool returned, with its own error flag and cleaned of registered values. */
  lemma AnswerMeaning(s: Setup, l: RoundLog, i: nat)
    requires i < |l.data.proposed|
    ensures var call := l.data.proposed[i];
      var b, ran := ToolMessage(s, l).content[i], l.world.run(i);
      && b.ToolResultBlock? && b.toolUseId == call.id
      && (s.toolParse(call).Err? ==> b.content == "tool input rejected: " + s.toolParse(call).error && b.isError)
      && (s.toolParse(call).Ok? && i !in Started(s, l.world, l.data.proposed) ==>
            b.content == "tool call declined by user" && b.isError)
      && (i in Started(s, l.world, l.data.proposed) ==>
            b.isError == ran.isError && CleanedOf(ran.output, b.content, s.secrets))
  {
    StartedOnlyIfCleared(s, l.world, l.data.proposed);
    RedactedCleans(l.world.run(i).output, s.secrets);
  }

  // --- the approvals behind a round ---

  /** What the approval steps are told of a call. */
  function Asked(s: Setup, call: ToolCall): Approvals.Call {
    match s.toolParse(call)
    case Err(_) => Approvals.Call(false, false, false)
    case Ok(input) => Approvals.Call(true, GateTool(input, s).AutoApprove?, input.ParallelSafe())
  }

  function AllAsked(s: Setup, proposed: seq<ToolCall>): (r: seq<Approvals.Call>)
    ensures |r| == |proposed| && forall i :: 0 <= i < |r| ==> r[i] == Asked(s, proposed[i])
  {
    seq(|proposed|, i requires 0 <= i < |proposed| => Asked(s, proposed[i]))
  }

  /** The round as a whole and the approval steps, in any interleaving, start the same calls,
      when the answer to each call is what the user pressed for it. */
  lemma StepsStartTheSame(s: Setup, w: World, proposed: seq<ToolCall>, plan: Approvals.Plan,
                          actions: seq<Approvals.Action>, i: nat)
    requires Approvals.After(plan, Approvals.Initial, actions).Some? && i < |proposed|
    requires var st := Approvals.After(plan, Approvals.Initial, actions).value;
      && Approvals.RoundDone(plan, st) && Approvals.Calls(plan, st.loop.round) == AllAsked(s, proposed)
      && (w.confirm(i) == Approved <==> ApprovedRuns.UserApproved(plan, actions, Approvals.Ref(st.loop, i)))
    ensures var l := Approvals.After(plan, Approvals.Initial, actions).value.loop;
      i in Started(s, w, proposed) <==> Approvals.Ref(l, i) in l.started
  {
    StartedOnlyIfCleared(s, w, proposed);
    ApprovedRuns.RoundRunsWhatTheUserApproved(plan, actions, i);
  }

  // --- how a turn ends ---

  /** The first round, if any below `n`, in which the model does not ask for tools. */
  predicate AsksUntil(s: Setup, worlds: nat -> World, n: nat) {
    forall k: nat :: k < n ==> WantsTools(Streamed(s, worlds(k)))
  }

  /** With nothing cut off and nothing cancelled, a turn goes on for as long as the model asks
      for tools and the cap allows, and ends with the model's own stop reason or at the cap. */
  lemma UninterruptedTurn(s: Setup, worlds: nat -> World, log: seq<RoundLog>, tail: seq<AgentEvent>, end: TurnEnd,
                          n: nat)
    requires TurnOf(s, worlds, log, tail, end)
    requires forall k: nat :: worlds(k).cancel.NoCancel? && worlds(k).failure.None?
    requires n <= s.maxRounds && AsksUntil(s, worlds, n)
    requires n < s.maxRounds ==> !WantsTools(Streamed(s, worlds(n)))
    ensures |log| == n
    ensures end == if n < s.maxRounds then Ended(Streamed(s, worlds(n)).stop, n + 1, false)
                   else Ended(Other("max_tool_rounds"), n, false)
  {
    forall k: nat | k < |log| ensures WantsTools(Streamed(s, worlds(k))) {
      assert log[k].world == worlds(k);
    }
  }

  /** A turn fails exactly when its provider does, below the cap and before a cancellation;
      then everything streamed is on the channel, and the error after it. */
  lemma FailedTurn(s: Setup, worlds: nat -> World, log: seq<RoundLog>, tail: seq<AgentEvent>, end: TurnEnd)
    requires TurnOf(s, worlds, log, tail, end)
    ensures var w := worlds(|log|);
      && (end.Failed? <==> |log| < s.maxRounds && w.failure.Some? && (w.cancel.NoCancel? || w.cancel.InExecute?))
      && (end.Failed? ==>
            RunEvents(s, log, tail, end) == AllEvents(s, log) + Relayed(s, w) + [ErrorEvent(w.failure.value)])
  {}

  /** It is cancelled exactly when a cancellation lands before it is over; then the channel
      holds what was put there until then, and no word of an end. */
  lemma CancelledTurn(s: Setup, worlds: nat -> World, log: seq<RoundLog>, tail: seq<AgentEvent>, end: TurnEnd)
    requires TurnOf(s, worlds, log, tail, end)
    ensures var w := worlds(|log|);
      && (end.Ended? && end.cancelled <==>
            || w.cancel.AtTop?
            || (|log| < s.maxRounds && w.cancel.InStream?)
            || (|log| < s.maxRounds && w.cancel.InExecute? && w.failure.None? && WantsTools(Streamed(s, w))))
      && (end.Ended? && end.cancelled ==>
            RunEvents(s, log, tail, end) == AllEvents(s, log) + LeftOnCancel(s, w))
  {
    if end.Ended? && end.cancelled {
      var before := AllEvents(s, log);
      assert before + tail + [] == before + tail;
    }
  }

  /** What the round that is cancelled leaves on the channel. */
  function LeftOnCancel(s: Setup, w: World): seq<AgentEvent> {
    match w.cancel
    case InStream(n) => UpTo(Relayed(s, w), n)
    case InExecute(n) => Relayed(s, w) + UpTo(ReportEvents(s, w, Streamed(s, w)), n)
    case _ => []
  }

  // --- the history begins with the prompt ---

  ghost predicate BeginsWith(h: Hist, m: Message) {
    h.closed != [] && h.closed[0] == m
  }

  lemma {:induction false} KeepsFirst(h: Hist, es: seq<AgentEvent>, m: Message)
    requires BeginsWith(h, m)
    ensures BeginsWith(AbsorbEvents(h, es), m)
    decreases |es|
  {
    if es != [] { KeepsFirst(AbsorbEvent(h, es[0]), es[1..], m); }
  }

  /** Whatever happened in the turn, the derived history begins with the user's own prompt. */
  lemma PromptComesFirst(prompt: string, es: seq<AgentEvent>)
    ensures var ms := Derived(prompt, es);
      ms != [] && ms[0] == Message(UserRole, [TextBlock(prompt)])
  {
    DerivedFromEvents(prompt, es);
    KeepsFirst(PromptHist(prompt), es, Message(UserRole, [TextBlock(prompt)]));
  }
}
