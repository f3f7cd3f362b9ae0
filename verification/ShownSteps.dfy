/** What the blocks of a turn show of its calls, results and errors. */
module ShownSteps {
  import opened Text
  import opened Provider
  import opened Turn
  import opened TurnLoop
  import opened Policy
  import opened Projector
  import Risk
  import CommandText

  // --- badges ---

  /** Reads are marked automatic, and changes and tools of other servers as asking, at every
      tier; what does not parse has no mark. */
  lemma BadgeOfKind(s: Setup, call: ToolCall)
    ensures match s.toolParse(call)
      case Err(_) => CallBadge(s, call) == None
      case Ok(input) =>
        && (input.ReadFile? || input.ListDir? || input.Glob? || input.Grep? ==> CallBadge(s, call) == Some(Auto))
        && (input.EditFile? || input.WriteFile? || input.Mcp? ==> CallBadge(s, call) == Some(NeedsApproval))
  {}

  /** The text of a command calls for a reason that makes it dangerous. */
  predicate TextIsDangerous(s: Setup, r: CommandText.Reading, cwd: Option<string>) {
    && r.words != []
    && exists reason :: reason in DANGEROUS && CommandText.Says(reason, r, cwd, None, s.context.deny, s.context.tables)
  }

  const DANGEROUS := [Risk.Destructive, Risk.Privilege, Risk.SecretAccess, Risk.ForkBomb, Risk.CodeExecution]

  /** A command is marked as blocked exactly when its text is dangerous, and otherwise as
      automatic exactly when the tier lets its text run. */
  lemma BadgeOnText(s: Setup, call: ToolCall, r: CommandText.Reading)
    requires s.toolParse(call).Ok? && s.toolParse(call).value.RunCommand?
    requires CommandText.Reads(s.toolParse(call).value.command, r)
    ensures var cwd := s.toolParse(call).value.cwd;
      CallBadge(s, call) == Some(if TextIsDangerous(s, r, cwd) then Blocked
                                 else if s.mode != AskAlways && !TextStops(s, r, cwd) then Auto
                                 else NeedsApproval)
  {
    var input := s.toolParse(call).value;
    var x := s.context.(cwd := input.cwd, remote := None);
    var a := Risk.Classified(input.command, x.cwd, None, x.deny, x.tables);
    CommandText.RunsUnaskedOnText(s.mode, input.command, x, r);
    CommandText.VerdictOnText(input.command, x.cwd, None, x.deny, x.tables, r);
    CommandText.LevelOnText(input.command, x.cwd, None, x.deny, x.tables);
    DangerOnText(s, a, r, input.cwd);
  }

  lemma DangerOnText(s: Setup, a: Risk.Assessment, r: CommandText.Reading, cwd: Option<string>)
    requires CommandText.VerdictIs(a, r, cwd, None, s.context.deny, s.context.tables)
    ensures TextIsDangerous(s, r, cwd) <==> exists reason :: reason in DANGEROUS && reason in a.reasons
  {
    forall reason
      ensures reason in a.reasons
        <==> r.words != [] && CommandText.Says(reason, r, cwd, None, s.context.deny, s.context.tables) {}
  }

  // --- steps ---

  predicate IsStep(e: AgentEvent) {
    e.ToolProposed? || e.ToolResult? || e.ToolProposalFailed? || e.McpUse? || e.McpResult? || e.ErrorEvent?
  }

  function StepsOf(es: seq<AgentEvent>): (r: seq<AgentEvent>)
    ensures forall i :: 0 <= i < |r| ==> IsStep(r[i])
  {
    if es == [] then [] else (if IsStep(es[0]) then [es[0]] else []) + StepsOf(es[1..])
  }

  predicate IsStepBlock(b: Block) {
    b.kind == CallBlock || b.kind == ResultBlock || b.error
  }

  function StepBlocksOf(bs: seq<Block>): seq<Block> {
    if bs == [] then [] else (if IsStepBlock(bs[0]) then [bs[0]] else []) + StepBlocksOf(bs[1..])
  }

  /** What a reader is to see of a step. */
  predicate Shows(d: Drawing, b: Block, e: AgentEvent)
    requires IsStep(e)
  {
    && b.role == Body
    && match e
       case ToolProposed(call) =>
         && b.kind == CallBlock && b.useId == Some(call.id) && b.display == Some(call.name)
         && b.text == d.titleOf(call) && b.badge == CallBadge(d.setup, call) && !b.error
       case ToolResult(id, output, isError) =>
         b.kind == ResultBlock && b.useId == Some(id) && b.text == output && b.error == isError && b.badge.None?
       case ToolProposalFailed(id, name, error) =>
         b.kind == ResultBlock && b.useId == Some(id) && b.text == name + ": " + error && b.error && b.badge.None?
       case McpUse(id, name, server, _) =>
         && b.kind == CallBlock && b.useId == Some(id) && b.badge.None? && !b.error
         && b.text == name + " (MCP " + server + ", ran remotely)"
       case McpResult(id, output, isError) =>
         b.kind == ResultBlock && b.useId == Some(id) && b.text == output && b.error == isError && b.badge.None?
       case ErrorEvent(error) =>
         b.kind == AssistantBlock && b.useId.None? && b.text == "[error] " + error && b.error && b.badge.None?
       case _ => false
  }

  predicate AllShow(d: Drawing, bs: seq<Block>, es: seq<AgentEvent>)
    requires forall i :: 0 <= i < |es| ==> IsStep(es[i])
  {
    |bs| == |es| && forall i :: 0 <= i < |es| ==> Shows(d, bs[i], es[i])
  }

  lemma OneMoreShows(d: Drawing, b: Block, e: AgentEvent, bs: seq<Block>, es: seq<AgentEvent>)
    requires IsStep(e) && Shows(d, b, e)
    requires forall i :: 0 <= i < |es| ==> IsStep(es[i])
    requires AllShow(d, bs, es)
    ensures forall i :: 0 <= i < |[e] + es| ==> IsStep(([e] + es)[i])
    ensures AllShow(d, [b] + bs, [e] + es)
  {}

  /** Prose is not a step, whatever is joined to it. */
  lemma ProseIsNoStep(d: Drawing, kind: BlockKind, text: string, rest: seq<Piece>, seenTool: bool)
    requires Drawable(rest) && (kind == ThinkingBlock || kind == AssistantBlock)
    ensures Drawable(Joined(kind, text, rest))
    ensures StepBlocksOf(Render(d, Joined(kind, text, rest), seenTool)) == StepBlocksOf(Render(d, rest, seenTool))
  {
    var joined := Joined(kind, text, rest);
    var bs := Render(d, joined, seenTool);
    if rest != [] && rest[0].Prose? && rest[0].kind == kind {
      assert joined[1..] == rest[1..];
      assert bs[1..] == Render(d, rest[1..], seenTool) == Render(d, rest, seenTool)[1..];
    } else {
      assert joined[1..] == rest;
      assert bs[1..] == Render(d, rest, seenTool);
    }
  }

  lemma StepIsShown(d: Drawing, e: AgentEvent, rest: seq<Piece>, seenTool: bool)
    requires IsStep(e) && Drawable(rest)
    ensures Drawable([Stepped(e)] + rest) && Shows(d, StepBlock(d, e), e)
    ensures StepBlocksOf(Render(d, [Stepped(e)] + rest, seenTool))
         == [StepBlock(d, e)] + StepBlocksOf(Render(d, rest, seenTool || e.ToolProposed?))
  {
    var ps := [Stepped(e)] + rest;
    assert ps[1..] == rest;
    assert Render(d, ps, seenTool)[1..] == Render(d, rest, seenTool || e.ToolProposed?);
  }

  lemma {:induction false} RenderShows(d: Drawing, es: seq<AgentEvent>, seenTool: bool)
    ensures AllShow(d, StepBlocksOf(Render(d, Pieces(es), seenTool)), StepsOf(es))
    decreases |es|
  {
    if es != [] {
      var rest, seen := Pieces(es[1..]), seenTool || es[0].ToolProposed?;
      RenderShows(d, es[1..], seen);
      if IsStep(es[0]) {
        StepIsShown(d, es[0], rest, seenTool);
        OneMoreShows(d, StepBlock(d, es[0]), es[0], StepBlocksOf(Render(d, rest, seen)), StepsOf(es[1..]));
      } else if IsDelta(es[0]) {
        ProseIsNoStep(d, DeltaKind(es[0]), DeltaText(es[0]), rest, seenTool);
      }
    }
  }

  /** Every call, result, failure and error of a turn has a block of its own, in order, that
      says whose it is and what it was; and there is no other such block. */
  lemma EveryStepIsShown(d: Drawing, run: seq<Action>)
    ensures AllShow(d, StepBlocksOf(Blocks(Ran(d, EmptyView, run).timeline)), StepsOf(Events(run)))
  {
    ProjectionMeaning(d, run);
    RenderShows(d, Events(run), false);
  }

  lemma {:induction false} RenderedThinking(d: Drawing, ps: seq<Piece>, seenTool: bool, i: nat)
    requires Drawable(ps) && i < |ps| && Render(d, ps, seenTool)[i].kind == ThinkingBlock
    ensures Render(d, ps, seenTool)[i].role == Body && !Render(d, ps, seenTool)[i].error
    decreases |ps|
  {
    if i > 0 {
      var seen := seenTool || (ps[0].Stepped? && ps[0].event.ToolProposed?);
      assert Render(d, ps, seenTool)[i] == Render(d, ps[1..], seen)[i - 1];
      RenderedThinking(d, ps[1..], seen, i - 1);
    }
  }

  /** Thinking is never the plan or the summary, and no error. */
  lemma ThinkingIsPlain(d: Drawing, run: seq<Action>, i: nat)
    requires var bs := Blocks(Ran(d, EmptyView, run).timeline); i < |bs| && bs[i].kind == ThinkingBlock
    ensures var b := Blocks(Ran(d, EmptyView, run).timeline)[i]; b.role == Body && !b.error
  {
    ProjectionMeaning(d, run);
    RenderedThinking(d, Pieces(Events(run)), false, i);
  }
}
