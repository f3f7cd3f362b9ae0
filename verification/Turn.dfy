/** The agent turn: its messages, gate and streamed round. */
module Turn {
  import opened Text
  import opened Provider
  import opened Policy
  import Risk
  import opened Redaction

  // A turn streams a provider round, gates and runs the calls it proposed, feeds the results
  // back, and repeats. What the world decides (the streams, the user's answers, the tools'
  // outcomes, how long each takes, when the turn is cancelled) is a parameter of each round,
  // so what is proved holds for every run.

  datatype ContentBlock =
    | TextBlock(text: string)
    | ToolUseBlock(id: string, name: string, input: Json)
    | ToolResultBlock(toolUseId: string, content: string, isError: bool)

  datatype Role = SystemRole | UserRole | AssistantRole | ToolRole

  datatype Message = Message(role: Role, content: seq<ContentBlock>)

  function UserMessage(text: string): Message { Message(UserRole, [TextBlock(text)]) }

  // --- tools and the gate ---

  datatype ToolInput =
    | RunCommand(command: seq<string>, cwd: Option<string>)
    | EditFile(path: string, oldStr: string, newStr: string)
    | WriteFile(path: string, content: string)
    | ReadFile(path: string)
    | ListDir(path: string)
    | Glob(pattern: string)
    | Grep(pattern: string)
    | Mcp(server: string, name: string, args: Json)
  {
    predicate ParallelSafe() {
      ReadFile? || ListDir? || Glob? || Grep?
    }
  }

  datatype Outcome = Outcome(output: string, isError: bool)

  datatype Decision = Approved | Denied

  /** What stays fixed over a turn. */
  datatype Setup = Setup(
    jsonParse: JsonParser,
    toolParse: ToolCall -> Result<ToolInput, string>,
    mode: Mode,
    context: Risk.Context,
    secrets: seq<string>,
    maxRounds: nat)

  /** The gate: commands by their risk, file writes and unknown tools always asked about,
      reads never. */
  function GateTool(input: ToolInput, s: Setup): Approval {
    match input
    case RunCommand(command, cwd) => DecideCommand(s.mode, command, s.context.(cwd := cwd, remote := None))
    case EditFile(_, _, _) => RequireConfirm(Risk.Assessment(Risk.Caution, [Risk.FileWrite]))
    case WriteFile(_, _) => RequireConfirm(Risk.Assessment(Risk.Caution, [Risk.FileWrite]))
    case Mcp(_, _, _) => RequireConfirm(Risk.Assessment(Risk.Caution, [Risk.McpTool]))
    case _ => AutoApprove
  }

  // --- one provider round ---

  datatype RoundData = RoundData(
    proposed: seq<ToolCall>,
    text: string,
    toolUses: seq<ContentBlock>,
    failedResults: seq<ContentBlock>,
    stop: StopReason)

  const NoData := RoundData([], "", [], [], EndTurn)

  function UseBlock(call: ToolCall): ContentBlock { ToolUseBlock(call.id, call.name, call.input) }

  function Collect(d: RoundData, e: AgentEvent): RoundData {
    match e
    case Assistant(t) => d.(text := d.text + t)
    case ToolProposed(call) => d.(proposed := d.proposed + [call], toolUses := d.toolUses + [UseBlock(call)])
    case ToolProposalFailed(id, name, error) =>
      d.(toolUses := d.toolUses + [ToolUseBlock(id, name, EmptyObject)],
         failedResults := d.failedResults + [ToolResultBlock(id, error, true)])
    case TurnComplete(stop) => d.(stop := stop)
    case _ => d
  }

  function Collected(d: RoundData, es: seq<AgentEvent>): RoundData
    decreases |es|
  {
    if es == [] then d else Collected(Collect(d, es[0]), es[1..])
  }

  /** What reaches the timeline: results of remote tools redacted, the per-round boundary
      swallowed, everything else as it is. */
  function Forward(e: AgentEvent, secrets: seq<string>): seq<AgentEvent> {
    match e
    case McpResult(id, output, err) => [McpResult(id, Redacted(output, secrets), err)]
    case TurnComplete(_) => []
    case _ => [e]
  }

  function Forwarded(es: seq<AgentEvent>, secrets: seq<string>): seq<AgentEvent> {
    if es == [] then [] else Forward(es[0], secrets) + Forwarded(es[1..], secrets)
  }

  lemma {:induction false} CollectedConcat(d: RoundData, a: seq<AgentEvent>, b: seq<AgentEvent>)
    ensures Collected(d, a + b) == Collected(Collected(d, a), b)
    decreases |a|
  {
    if a == [] {
      assert a + b == b;
    } else {
      assert (a + b)[1..] == a[1..] + b;
      CollectedConcat(Collect(d, a[0]), a[1..], b);
    }
  }

  lemma {:induction false} ForwardedConcat(a: seq<AgentEvent>, b: seq<AgentEvent>, secrets: seq<string>)
    ensures Forwarded(a + b, secrets) == Forwarded(a, secrets) + Forwarded(b, secrets)
  {
    if a == [] {
      assert a + b == b;
    } else {
      assert (a + b)[1..] == a[1..] + b;
      ForwardedConcat(a[1..], b, secrets);
    }
  }

  function StreamEvents(s: Setup, stream: seq<ProviderEvent>): seq<AgentEvent> {
    Mapped(s.jsonParse, FreshMapper, stream)
  }

  method StreamRound(s: Setup, stream: seq<ProviderEvent>) returns (data: RoundData, events: seq<AgentEvent>)
    ensures data == Collected(NoData, StreamEvents(s, stream))
    ensures events == Forwarded(StreamEvents(s, stream), s.secrets)
  {
    var mapper := new AgentEventMapper();
    data, events := NoData, [];
    ghost var seen: seq<AgentEvent> := [];
    for i := 0 to |stream|
      invariant data == Collected(NoData, seen)
      invariant events == Forwarded(seen, s.secrets)
      invariant seen + Mapped(s.jsonParse, mapper.State(), stream[i..]) == StreamEvents(s, stream)
    {
      ghost var before := mapper.State();
      var out := mapper.Accept(s.jsonParse, stream[i]);
      assert stream[i..][1..] == stream[i + 1..];
      assert seen + (out + Mapped(s.jsonParse, mapper.State(), stream[i + 1..]))
          == (seen + out) + Mapped(s.jsonParse, mapper.State(), stream[i + 1..]);
      data, events := CollectAll(s, data, events, out, seen);
      seen := seen + out;
    }
    assert stream[|stream|..] == [];
    assert seen + [] == seen;
  }

  method CollectAll(s: Setup, d: RoundData, forwarded: seq<AgentEvent>, out: seq<AgentEvent>,
                    ghost seen: seq<AgentEvent>)
    returns (data: RoundData, events: seq<AgentEvent>)
    requires d == Collected(NoData, seen) && forwarded == Forwarded(seen, s.secrets)
    ensures data == Collected(NoData, seen + out)
    ensures events == Forwarded(seen + out, s.secrets)
  {
    data, events := d, forwarded;
    assert seen + [] == seen && out[..0] == [];
    for k := 0 to |out|
      invariant data == Collected(NoData, seen + out[..k])
      invariant events == Forwarded(seen + out[..k], s.secrets)
    {
      assert seen + out[..k + 1] == (seen + out[..k]) + [out[k]];
      CollectedConcat(NoData, seen + out[..k], [out[k]]);
      ForwardedConcat(seen + out[..k], [out[k]], s.secrets);
      assert Collected(data, [out[k]]) == Collect(data, out[k]);
      assert Forwarded([out[k]], s.secrets) == Forward(out[k], s.secrets);
      data := Collect(data, out[k]);
      if out[k].McpResult? {
        var clean := Redact(out[k].mcpOutput, s.secrets);
        events := events + [McpResult(out[k].resultId, clean, out[k].mcpError)];
      } else if !out[k].TurnComplete? {
        events := events + [out[k]];
      }
    }
    assert out[..|out|] == out;
  }
}
