/** The reducer from a provider's stream to agent events. */
module Provider {
  import opened Text

  // A provider's low-level stream is folded into timeline events, one complete proposal per
  // streamed tool call.

  datatype Usage = Usage(input: nat, output: nat, cacheRead: nat, cacheCreation: nat)

  datatype StopReason =
    | EndTurn | MaxTokens | StopSequence | ToolUse | PauseTurn | Refusal
    | Other(raw: string)

  /** A JSON value: `{}`, or any other value by its source text. */
  datatype Json = EmptyObject | Value(source: string)

  datatype ToolCall = ToolCall(id: string, name: string, input: Json)

  datatype ProviderEvent =
    | MessageStart
    | TextDelta(text: string)
    | ThinkingDelta(thinking: string)
    | ToolUseStart(id: string, name: string)
    | ToolUseInputDelta(json: string)
    | ToolUseStop
    | McpToolUse(mcpId: string, mcpName: string, server: string, mcpInput: Json)
    | McpToolResult(resultId: string, mcpOutput: string, mcpError: bool)
    | MessageDelta(stopReason: StopReason, usage: Usage)
    | MessageStop
    | StreamError(error: string)

  datatype AgentEvent =
    | Thinking(thinking: string)
    | Assistant(text: string)
    | ToolProposed(call: ToolCall)
    | ToolResult(id: string, output: string, isError: bool)
    | ToolProposalFailed(failedId: string, failedName: string, failedError: string)
    | McpUse(mcpId: string, mcpName: string, server: string, mcpInput: Json)
    | McpResult(resultId: string, mcpOutput: string, mcpError: bool)
    | UsageReport(usage: Usage)
    | TurnComplete(stopReason: StopReason)
    | ErrorEvent(error: string)

  /** A tool call whose input is still being streamed. */
  datatype OpenTool = OpenTool(id: string, name: string, json: string)

  /** `serde_json::from_str`, left abstract: any function from text to a value or an error. */
  type JsonParser = string -> Result<Json, string>

  /** The proposal a finished call turns into: a blank buffer is the no-argument call, a
      buffer that does not parse keeps the call's id so that it can be answered. */
  function Flush(parse: JsonParser, t: OpenTool): AgentEvent {
    var trimmed := Trim(t.json);
    if trimmed == "" then ToolProposed(ToolCall(t.id, t.name, EmptyObject))
    else match parse(trimmed)
      case Ok(v) => ToolProposed(ToolCall(t.id, t.name, v))
      case Err(e) => ToolProposalFailed(t.id, t.name, "malformed input JSON: " + e)
  }

  /** The input that a buffer holds: what stands between the blanks around it, parsed; nothing
      there is the empty object. */
  ghost predicate Holds(parse: JsonParser, buffer: string, input: Result<Json, string>) {
    exists p, core, q :: Padded(buffer, p, core, q) && input == if core == "" then Ok(EmptyObject) else parse(core)
  }

  lemma EveryBufferHolds(parse: JsonParser, buffer: string) returns (input: Result<Json, string>)
    ensures Holds(parse, buffer, input)
  {
    var p, q := TrimPads(buffer);
    input := if Trim(buffer) == "" then Ok(EmptyObject) else parse(Trim(buffer));
  }

  /** A finished call is proposed with the input its buffer holds, or else fails under its own
      id with the parser's error. */
  lemma FlushMeaning(parse: JsonParser, t: OpenTool, input: Result<Json, string>)
    requires Holds(parse, t.json, input)
    ensures Flush(parse, t)
         == match input
            case Ok(v) => ToolProposed(ToolCall(t.id, t.name, v))
            case Err(e) => ToolProposalFailed(t.id, t.name, "malformed input JSON: " + e)
  {
    var p, core, q :| Padded(t.json, p, core, q) && input == if core == "" then Ok(EmptyObject) else parse(core);
    TrimMeaning(t.json, p, core, q);
  }

  datatype MapperState = MapperState(openTool: Option<OpenTool>, stopReason: Option<StopReason>, done: bool)

  const FreshMapper := MapperState(None, None, false)

  function FlushOpen(parse: JsonParser, open: Option<OpenTool>): seq<AgentEvent> {
    if open.Some? then [Flush(parse, open.value)] else []
  }

  function Accepted(parse: JsonParser, s: MapperState, e: ProviderEvent): (MapperState, seq<AgentEvent>) {
    if s.done then (s, [])
    else match e
      case MessageStart => (s, [])
      case TextDelta(t) => (s, [Assistant(t)])
      case ThinkingDelta(t) => (s, [Thinking(t)])
      case ToolUseStart(id, name) => (s.(openTool := Some(OpenTool(id, name, ""))), FlushOpen(parse, s.openTool))
      case ToolUseInputDelta(json) =>
        (if s.openTool.Some? then s.(openTool := Some(s.openTool.value.(json := s.openTool.value.json + json)))
         else s, [])
      case ToolUseStop => (s.(openTool := None), FlushOpen(parse, s.openTool))
      case McpToolUse(id, name, server, input) => (s, [McpUse(id, name, server, input)])
      case McpToolResult(id, output, err) => (s, [McpResult(id, output, err)])
      case MessageDelta(stop, usage) => (s.(stopReason := Some(stop)), [UsageReport(usage)])
      case MessageStop =>
        (MapperState(None, None, true),
         FlushOpen(parse, s.openTool) + [TurnComplete(if s.stopReason.Some? then s.stopReason.value else EndTurn)])
      case StreamError(e) => (s, [ErrorEvent(e)])
  }

  class AgentEventMapper {
    var openTool: Option<OpenTool>
    var stopReason: Option<StopReason>
    var done: bool

    ghost function State(): MapperState
      reads this
    {
      MapperState(openTool, stopReason, done)
    }

    constructor ()
      ensures State() == FreshMapper
    {
      openTool, stopReason, done := None, None, false;
    }

    method Accept(parse: JsonParser, event: ProviderEvent) returns (out: seq<AgentEvent>)
      modifies this
      ensures (State(), out) == Accepted(parse, old(State()), event)
    {
      if done {
        return [];
      }
      out := [];
      match event {
        case MessageStart =>
        case TextDelta(t) => out := [Assistant(t)];
        case ThinkingDelta(t) => out := [Thinking(t)];
        case ToolUseStart(id, name) =>
          out := TakeOpen(parse);
          openTool := Some(OpenTool(id, name, ""));
        case ToolUseInputDelta(json) =>
          if openTool.Some? {
            var t := openTool.value;
            openTool := Some(t.(json := t.json + json));
          }
        case ToolUseStop => out := TakeOpen(parse);
        case McpToolUse(id, name, server, input) => out := [McpUse(id, name, server, input)];
        case McpToolResult(id, output, err) => out := [McpResult(id, output, err)];
        case MessageDelta(stop, usage) =>
          stopReason := Some(stop);
          out := [UsageReport(usage)];
        case MessageStop =>
          out := TakeOpen(parse);
          var reason := if stopReason.Some? then stopReason.value else EndTurn;
          out := out + [TurnComplete(reason)];
          stopReason := None;
          done := true;
        case StreamError(e) => out := [ErrorEvent(e)];
      }
    }

    /** Close the open call, if any, and give its proposal. */
    method TakeOpen(parse: JsonParser) returns (out: seq<AgentEvent>)
      modifies this`openTool
      ensures openTool == None
      ensures out == FlushOpen(parse, old(openTool))
    {
      out := if openTool.Some? then [Flush(parse, openTool.value)] else [];
      openTool := None;
    }
  }

  /** Everything the reducer emits for a stream, from a given state. */
  function Mapped(parse: JsonParser, s: MapperState, es: seq<ProviderEvent>): seq<AgentEvent>
    decreases es
  {
    if es == [] then []
    else
      var (s', out) := Accepted(parse, s, es[0]);
      out + Mapped(parse, s', es[1..])
  }

  // --- what the reducer is for, read off the stream itself ---

  predicate IsProposal(e: AgentEvent) {
    e.ToolProposed? || e.ToolProposalFailed?
  }

  function Proposals(es: seq<AgentEvent>): seq<AgentEvent> {
    if es == [] then []
    else (if IsProposal(es[0]) then [es[0]] else []) + Proposals(es[1..])
  }

  function NonProposals(es: seq<AgentEvent>): seq<AgentEvent> {
    if es == [] then []
    else (if IsProposal(es[0]) then [] else [es[0]]) + NonProposals(es[1..])
  }

  /** The input fragments of the call whose start was just read: those up to its end, which
      is the next stop, the next start or the end of the message. */
  function Fragments(es: seq<ProviderEvent>): string {
    if es == [] || es[0].ToolUseStop? || es[0].ToolUseStart? || es[0].MessageStop? then ""
    else (if es[0].ToolUseInputDelta? then es[0].json else "") + Fragments(es[1..])
  }

  /** The calls a message streams, by looking ahead from each start. */
  function StreamedCalls(es: seq<ProviderEvent>): seq<OpenTool> {
    if es == [] || es[0].MessageStop? then []
    else if es[0].ToolUseStart? then [OpenTool(es[0].id, es[0].name, Fragments(es[1..]))] + StreamedCalls(es[1..])
    else StreamedCalls(es[1..])
  }

  function FlushAll(parse: JsonParser, ts: seq<OpenTool>): (r: seq<AgentEvent>)
    ensures |r| == |ts|
    ensures forall i :: 0 <= i < |ts| ==> r[i] == Flush(parse, ts[i])
  {
    seq(|ts|, i requires 0 <= i < |ts| => Flush(parse, ts[i]))
  }

  /** The stop reason a message reports last, if it reports one. */
  function LastStop(es: seq<ProviderEvent>, before: Option<StopReason>): Option<StopReason> {
    if es == [] || es[0].MessageStop? then before
    else LastStop(es[1..], if es[0].MessageDelta? then Some(es[0].stopReason) else before)
  }

  /** The events that pass straight through, up to the end of the message. */
  function PassedThrough(es: seq<ProviderEvent>): seq<AgentEvent> {
    if es == [] || es[0].MessageStop? then [] else Passed(es[0]) + PassedThrough(es[1..])
  }

  function Passed(e: ProviderEvent): seq<AgentEvent> {
    match e
    case TextDelta(t) => [Assistant(t)]
    case ThinkingDelta(t) => [Thinking(t)]
    case McpToolUse(id, name, server, input) => [McpUse(id, name, server, input)]
    case McpToolResult(id, output, err) => [McpResult(id, output, err)]
    case MessageDelta(_, usage) => [UsageReport(usage)]
    case StreamError(e) => [ErrorEvent(e)]
    case _ => []
  }

  lemma {:induction false} ProposalsConcat(a: seq<AgentEvent>, b: seq<AgentEvent>)
    ensures Proposals(a + b) == Proposals(a) + Proposals(b)
  {
    if a == [] {
      assert a + b == b;
    } else {
      ProposalsConcat(a[1..], b);
      assert (a + b)[1..] == a[1..] + b;
      Associate(if IsProposal(a[0]) then [a[0]] else [], Proposals(a[1..]), Proposals(b));
    }
  }

  lemma {:induction false} NonProposalsConcat(a: seq<AgentEvent>, b: seq<AgentEvent>)
    ensures NonProposals(a + b) == NonProposals(a) + NonProposals(b)
  {
    if a == [] {
      assert a + b == b;
    } else {
      NonProposalsConcat(a[1..], b);
      assert (a + b)[1..] == a[1..] + b;
      Associate(if IsProposal(a[0]) then [] else [a[0]], NonProposals(a[1..]), NonProposals(b));
    }
  }

  lemma {:induction false} DoneIsInert(parse: JsonParser, s: MapperState, es: seq<ProviderEvent>)
    requires s.done
    ensures Mapped(parse, s, es) == []
  {
    if es != [] { DoneIsInert(parse, s, es[1..]); }
  }

  predicate EndsMessage(es: seq<ProviderEvent>) {
    exists i :: 0 <= i < |es| && es[i].MessageStop?
  }

  /** What a call already open in the state will have collected when it closes. */
  function Pending(s: MapperState, es: seq<ProviderEvent>): seq<OpenTool> {
    if s.openTool.Some? then [s.openTool.value.(json := s.openTool.value.json + Fragments(es))] else []
  }

  lemma {:induction false} MappedCalls(parse: JsonParser, s: MapperState, es: seq<ProviderEvent>)
    requires EndsMessage(es) && !s.done
    ensures Proposals(Mapped(parse, s, es)) == FlushAll(parse, Pending(s, es) + StreamedCalls(es))
    decreases es
  {
    var (s', out) := Accepted(parse, s, es[0]);
    ProposalsConcat(out, Mapped(parse, s', es[1..]));
    FlushedAtOnce(parse, s, es[0]);
    if es[0].MessageStop? {
      DoneIsInert(parse, s', es[1..]);
      PendingClosed(parse, s, es);
      assert Pending(s, es) + StreamedCalls(es) == Pending(s, es);
    } else {
      Later(es);
      MappedCalls(parse, s', es[1..]);
      PendingStep(parse, s, es);
    }
  }

  predicate Closes(e: ProviderEvent) {
    e.ToolUseStart? || e.ToolUseStop? || e.MessageStop?
  }

  lemma FlushAllConcat(parse: JsonParser, a: seq<OpenTool>, b: seq<OpenTool>)
    ensures FlushAll(parse, a + b) == FlushAll(parse, a) + FlushAll(parse, b)
  {}

  lemma PendingClosed(parse: JsonParser, s: MapperState, es: seq<ProviderEvent>)
    requires es != [] && Closes(es[0])
    ensures FlushAll(parse, Pending(s, es)) == FlushOpen(parse, s.openTool)
  {
    if s.openTool.Some? { assert s.openTool.value.json + "" == s.openTool.value.json; }
  }

  lemma PendingGrows(parse: JsonParser, s: MapperState, es: seq<ProviderEvent>)
    requires es != [] && !Closes(es[0]) && !s.done
    ensures Pending(Accepted(parse, s, es[0]).0, es[1..]) == Pending(s, es)
  {
    if s.openTool.Some? {
      var json, d := s.openTool.value.json, if es[0].ToolUseInputDelta? then es[0].json else "";
      assert json + (d + Fragments(es[1..])) == (json + d) + Fragments(es[1..]);
      assert json + "" == json;
      assert Fragments(es) == d + Fragments(es[1..]);
    }
  }

  /** One event either leaves the calls still to be proposed as they are, or closes the
      pending one. */
  lemma PendingStep(parse: JsonParser, s: MapperState, es: seq<ProviderEvent>)
    requires EndsMessage(es) && !s.done && !es[0].MessageStop?
    ensures FlushAll(parse, Pending(s, es) + StreamedCalls(es))
         == (if Closes(es[0]) then FlushOpen(parse, s.openTool) else [])
          + FlushAll(parse, Pending(Accepted(parse, s, es[0]).0, es[1..]) + StreamedCalls(es[1..]))
  {
    var s' := Accepted(parse, s, es[0]).0;
    if Closes(es[0]) {
      PendingClosed(parse, s, es);
      FlushAllConcat(parse, Pending(s, es), StreamedCalls(es));
      assert "" + Fragments(es[1..]) == Fragments(es[1..]);
      assert Pending(s', es[1..]) + StreamedCalls(es[1..]) == StreamedCalls(es);
    } else {
      PendingGrows(parse, s, es);
    }
  }

  lemma FlushedAtOnce(parse: JsonParser, s: MapperState, e: ProviderEvent)
    requires !s.done
    ensures Proposals(Accepted(parse, s, e).1)
         == if Closes(e) then FlushOpen(parse, s.openTool) else []
  {
    if e.MessageStop? {
      ProposalsConcat(FlushOpen(parse, s.openTool), [TurnComplete(s.stopReason.GetOr(EndTurn))]);
    }
  }

  lemma Later(es: seq<ProviderEvent>)
    requires EndsMessage(es) && !es[0].MessageStop?
    ensures EndsMessage(es[1..])
  {
    var i :| 0 <= i < |es| && es[i].MessageStop?;
    assert es[1..][i - 1].MessageStop?;
  }

  lemma NonProposalsOfOpen(parse: JsonParser, open: Option<OpenTool>)
    ensures NonProposals(FlushOpen(parse, open)) == []
  {}

  lemma RestAtOnce(parse: JsonParser, s: MapperState, e: ProviderEvent)
    requires !s.done
    ensures NonProposals(Accepted(parse, s, e).1)
         == if e.MessageStop? then [TurnComplete(s.stopReason.GetOr(EndTurn))] else Passed(e)
  {
    NonProposalsOfOpen(parse, s.openTool);
    if e.MessageStop? {
      NonProposalsConcat(FlushOpen(parse, s.openTool), [TurnComplete(s.stopReason.GetOr(EndTurn))]);
    }
  }

  /** An event other than the end of the message keeps the stop reason that is reported last. */
  lemma LastStopStep(parse: JsonParser, s: MapperState, es: seq<ProviderEvent>)
    requires es != [] && !es[0].MessageStop? && !s.done
    ensures var s' := Accepted(parse, s, es[0]).0;
      LastStop(es, s.stopReason) == LastStop(es[1..], s'.stopReason) && !s'.done
  {}

  lemma RestFront(parse: JsonParser, s: MapperState, es: seq<ProviderEvent>)
    requires es != [] && !s.done
    ensures var s' := Accepted(parse, s, es[0]).0;
      NonProposals(Mapped(parse, s, es))
      == (if es[0].MessageStop? then [TurnComplete(s.stopReason.GetOr(EndTurn))] else Passed(es[0]))
         + NonProposals(Mapped(parse, s', es[1..]))
  {
    var (s', out) := Accepted(parse, s, es[0]);
    NonProposalsConcat(out, Mapped(parse, s', es[1..]));
    RestAtOnce(parse, s, es[0]);
  }

  lemma {:induction false} MappedRest(parse: JsonParser, s: MapperState, es: seq<ProviderEvent>)
    requires EndsMessage(es) && !s.done
    ensures NonProposals(Mapped(parse, s, es))
         == PassedThrough(es) + [TurnComplete(LastStop(es, s.stopReason).GetOr(EndTurn))]
    decreases es
  {
    var s' := Accepted(parse, s, es[0]).0;
    RestFront(parse, s, es);
    if es[0].MessageStop? {
      DoneIsInert(parse, s', es[1..]);
    } else {
      Later(es);
      LastStopStep(parse, s, es);
      MappedRest(parse, s', es[1..]);
      Associate(Passed(es[0]), PassedThrough(es[1..]), [TurnComplete(LastStop(es, s.stopReason).GetOr(EndTurn))]);
    }
  }

  lemma {:induction false} CompleteIsLast(parse: JsonParser, s: MapperState, es: seq<ProviderEvent>)
    requires EndsMessage(es) && !s.done
    ensures Mapped(parse, s, es) != [] && Last(Mapped(parse, s, es)).TurnComplete?
    decreases es
  {
    var (s', out) := Accepted(parse, s, es[0]);
    if es[0].MessageStop? {
      DoneIsInert(parse, s', es[1..]);
    } else {
      Later(es);
      CompleteIsLast(parse, s', es[1..]);
    }
  }

  /** For every stream that reaches the end of its message: one proposal per started call,
      in order, parsed from exactly that call's fragments; everything else in order; then
      one `TurnComplete` with the last reported stop reason, and nothing after it. */
  lemma MapperFaithful(parse: JsonParser, es: seq<ProviderEvent>)
    requires EndsMessage(es)
    ensures Proposals(Mapped(parse, FreshMapper, es)) == FlushAll(parse, StreamedCalls(es))
    ensures NonProposals(Mapped(parse, FreshMapper, es))
         == PassedThrough(es) + [TurnComplete(LastStop(es, None).GetOr(EndTurn))]
    ensures Mapped(parse, FreshMapper, es) != [] && Last(Mapped(parse, FreshMapper, es)).TurnComplete?
  {
    MappedCalls(parse, FreshMapper, es);
    assert Pending(FreshMapper, es) + StreamedCalls(es) == StreamedCalls(es);
    MappedRest(parse, FreshMapper, es);
    CompleteIsLast(parse, FreshMapper, es);
  }

  function Last(es: seq<AgentEvent>): AgentEvent
    requires es != []
  {
    es[|es| - 1]
  }

  /** A stream cut off before its end never completes the turn. */
  lemma {:induction false} NoCompleteWithoutStop(parse: JsonParser, s: MapperState, es: seq<ProviderEvent>)
    requires !EndsMessage(es)
    ensures forall i :: 0 <= i < |Mapped(parse, s, es)| ==> !Mapped(parse, s, es)[i].TurnComplete?
    decreases es
  {
    if es != [] {
      assert !es[0].MessageStop?;
      forall i | 0 <= i < |es[1..]| ensures !es[1..][i].MessageStop? { assert es[1..][i] == es[i + 1]; }
      NoCompleteWithoutStop(parse, Accepted(parse, s, es[0]).0, es[1..]);
    }
  }
}
