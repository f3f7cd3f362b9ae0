/** The timeline projection of a turn's events. */
module Projector {
  import opened Text
  import opened Provider
  import opened Turn
  import opened Policy
  import Risk
  import Round

  // The turn's events become blocks, with streamed text growing the open block in place,
  // while the user's own commands push entries between them.

  datatype BlockKind = ThinkingBlock | AssistantBlock | CallBlock | ResultBlock

  datatype TextRole = Body | Plan | Summary

  datatype Badge = Auto | NeedsApproval | Blocked

  datatype Block = Block(
    kind: BlockKind,
    text: string,
    useId: Option<string>,
    role: TextRole,
    error: bool,
    badge: Option<Badge>,
    display: Option<string>)

  datatype Entry = Agent(block: Block) | Command(line: string)

  function BadgeFor(a: Approval): Badge {
    match a
    case AutoApprove => Auto
    case RequireConfirm(assessment) => if assessment.level == Risk.Dangerous then Blocked else NeedsApproval
  }

  /** The badge of a proposed call; a call that does not parse has none. */
  function CallBadge(s: Setup, call: ToolCall): Option<Badge> {
    match s.toolParse(call)
    case Ok(input) => Some(BadgeFor(GateTool(input, s)))
    case Err(_) => None
  }

  /** The badge is the loop's own verdict: a call marked automatic runs whatever the user
      would answer, and no other call does. */
  lemma BadgeIsVerdict(s: Setup, call: ToolCall)
    ensures CallBadge(s, call) == Some(Auto)
      <==> forall w: Round.World, i: nat :: Round.Dispose(s, w, call, i).Runs?
    ensures CallBadge(s, call).None?
      <==> forall w: Round.World, i: nat :: Round.Dispose(s, w, call, i).Rejected?
  {
    var no := Round.World([], None, (i: nat) => Denied, (i: nat) => Outcome("", false), (i: nat) => 0, Round.NoCancel);
    assert CallBadge(s, call) != Some(Auto) ==> !Round.Dispose(s, no, call, 0).Runs?;
    assert CallBadge(s, call).Some? ==> !Round.Dispose(s, no, call, 0).Rejected?;
  }

  /** The label of a call, from its name and verdict. */
  type Label = ToolCall -> string

  datatype Drawing = Drawing(setup: Setup, titleOf: Label)

  function TextBlockOf(kind: BlockKind, text: string, role: TextRole): Block {
    Block(kind, text, None, role, false, None, None)
  }

  predicate IsDelta(e: AgentEvent) { e.Thinking? || e.Assistant? }

  predicate IsSilent(e: AgentEvent) { e.UsageReport? || e.TurnComplete? }

  function DeltaKind(e: AgentEvent): BlockKind
    requires IsDelta(e)
  {
    if e.Thinking? then ThinkingBlock else AssistantBlock
  }

  function DeltaText(e: AgentEvent): string
    requires IsDelta(e)
  {
    if e.Thinking? then e.thinking else e.text
  }

  function RoleFor(kind: BlockKind, seenTool: bool): TextRole {
    if kind != AssistantBlock then Body else if seenTool then Summary else Plan
  }

  /** The block of an event that is a step of its own. */
  function StepBlock(d: Drawing, e: AgentEvent): Block
    requires !IsDelta(e) && !IsSilent(e)
  {
    match e
    case ToolProposed(call) =>
      Block(CallBlock, d.titleOf(call), Some(call.id), Body, false, CallBadge(d.setup, call), Some(call.name))
    case ToolResult(id, output, isError) => Block(ResultBlock, output, Some(id), Body, isError, None, None)
    case ToolProposalFailed(id, name, error) =>
      Block(ResultBlock, name + ": " + error, Some(id), Body, true, None, None)
    case ErrorEvent(error) => Block(AssistantBlock, "[error] " + error, None, Body, true, None, None)
    case McpUse(id, name, server, _) =>
      Block(CallBlock, name + " (MCP " + server + ", ran remotely)", Some(id), Body, false, None, None)
    case McpResult(id, output, isError) => Block(ResultBlock, output, Some(id), Body, isError, None, None)
  }

  // --- the projector ---

  /** Where the last agent entry stands. */
  function LastAgent(tl: seq<Entry>): (r: Option<nat>)
    ensures r.Some? ==> r.value < |tl| && tl[r.value].Agent? && forall i :: r.value < i < |tl| ==> tl[i].Command?
    ensures r.None? ==> forall i :: 0 <= i < |tl| ==> tl[i].Command?
  {
    if tl == [] then None
    else if tl[|tl| - 1].Agent? then Some(|tl| - 1)
    else LastAgent(tl[..|tl| - 1])
  }

  /** The delta goes to the last agent entry, past any command pushed since. */
  function AppendText(tl: seq<Entry>, delta: string): seq<Entry> {
    var i := LastAgent(tl);
    if i.None? then tl else tl[i.value := Agent(tl[i.value].block.(text := tl[i.value].block.text + delta))]
  }

  datatype View = View(timeline: seq<Entry>, open: Option<BlockKind>, seenTool: bool)

  const EmptyView := View([], None, false)

  function Streamed(v: View, kind: BlockKind, delta: string): View {
    if v.open == Some(kind) then v.(timeline := AppendText(v.timeline, delta))
    else View(v.timeline + [Agent(TextBlockOf(kind, delta, RoleFor(kind, v.seenTool)))], Some(kind), v.seenTool)
  }

  function Applied(d: Drawing, v: View, e: AgentEvent): View {
    if IsDelta(e) then Streamed(v, DeltaKind(e), DeltaText(e))
    else if IsSilent(e) then v
    else View(v.timeline + [Agent(StepBlock(d, e))], None, v.seenTool || e.ToolProposed?)
  }

  class StreamProjector {
    const drawing: Drawing
    var timeline: seq<Entry>
    var open: Option<BlockKind>
    var seenTool: bool

    constructor (drawing: Drawing)
      ensures this.drawing == drawing && State() == EmptyView
    {
      this.drawing := drawing;
      timeline, open, seenTool := [], None, false;
    }

    ghost function State(): View
      reads this
    {
      View(timeline, open, seenTool)
    }

    method PushBlock(b: Block)
      modifies this`timeline
      ensures timeline == old(timeline) + [Agent(b)]
    {
      timeline := timeline + [Agent(b)];
    }

    method AppendLast(delta: string)
      modifies this`timeline
      ensures timeline == AppendText(old(timeline), delta)
    {
      var i := |timeline|;
      while i > 0 && timeline[i - 1].Command?
        invariant 0 <= i <= |timeline|
        invariant forall k :: i <= k < |timeline| ==> timeline[k].Command?
      {
        i := i - 1;
      }
      if i > 0 {
        var b := timeline[i - 1].block;
        timeline := timeline[i - 1 := Agent(b.(text := b.text + delta))];
      }
    }

    method Stream(kind: BlockKind, delta: string)
      modifies this
      ensures State() == Streamed(old(State()), kind, delta)
    {
      if open == Some(kind) {
        AppendLast(delta);
      } else {
        var block := TextBlockOf(kind, delta, Body);
        if kind == AssistantBlock {
          block := block.(role := if seenTool then Summary else Plan);
        }
        PushBlock(block);
        open := Some(kind);
      }
    }

    method Apply(e: AgentEvent)
      modifies this
      ensures State() == Applied(drawing, old(State()), e)
    {
      match e
      case Thinking(delta) => Stream(ThinkingBlock, delta);
      case Assistant(delta) => Stream(AssistantBlock, delta);
      case ToolProposed(call) =>
        open := None;
        PushBlock(StepBlock(drawing, e));
        seenTool := true;
      case UsageReport(_) =>
      case TurnComplete(_) =>
      case _ =>
        open := None;
        PushBlock(StepBlock(drawing, e));
    }

    /** The user's own command, segmented into the same timeline. */
    method CommandStarted(line: string)
      modifies this`timeline
      ensures timeline == old(timeline) + [Command(line)]
    {
      timeline := timeline + [Command(line)];
    }
  }

  // --- every run ---

  datatype Action = Event(event: AgentEvent) | Typed(line: string)

  function Did(d: Drawing, v: View, a: Action): View {
    match a
    case Event(e) => Applied(d, v, e)
    case Typed(line) => v.(timeline := v.timeline + [Command(line)])
  }

  function Ran(d: Drawing, v: View, run: seq<Action>): View
    decreases |run|
  {
    if run == [] then v else Ran(d, Did(d, v, run[0]), run[1..])
  }

  function Events(run: seq<Action>): seq<AgentEvent> {
    if run == [] then []
    else (if run[0].Event? then [run[0].event] else []) + Events(run[1..])
  }

  function Lines(run: seq<Action>): seq<string> {
    if run == [] then []
    else (if run[0].Typed? then [run[0].line] else []) + Lines(run[1..])
  }

  function Blocks(tl: seq<Entry>): seq<Block> {
    if tl == [] then []
    else Blocks(tl[..|tl| - 1]) + if tl[|tl| - 1].Agent? then [tl[|tl| - 1].block] else []
  }

  function Commands(tl: seq<Entry>): seq<string> {
    if tl == [] then []
    else Commands(tl[..|tl| - 1]) + if tl[|tl| - 1].Command? then [tl[|tl| - 1].line] else []
  }

  lemma PushedEntry(tl: seq<Entry>, e: Entry)
    ensures Blocks(tl + [e]) == Blocks(tl) + if e.Agent? then [e.block] else []
    ensures Commands(tl + [e]) == Commands(tl) + if e.Command? then [e.line] else []
  {
    assert (tl + [e])[..|tl|] == tl;
  }

  function Grown(bs: seq<Block>, delta: string): seq<Block>
    requires bs != []
  {
    bs[..|bs| - 1] + [bs[|bs| - 1].(text := bs[|bs| - 1].text + delta)]
  }

  lemma {:induction false} AppendGrows(tl: seq<Entry>, delta: string)
    requires Blocks(tl) != []
    ensures Blocks(AppendText(tl, delta)) == Grown(Blocks(tl), delta)
    ensures Commands(AppendText(tl, delta)) == Commands(tl)
    decreases |tl|
  {
    var front, last := tl[..|tl| - 1], tl[|tl| - 1];
    assert tl == front + [last];
    if last.Agent? {
      var grown := Agent(last.block.(text := last.block.text + delta));
      assert AppendText(tl, delta) == front + [grown];
      PushedEntry(front, grown);
    } else {
      AppendGrows(front, delta);
      assert AppendText(tl, delta) == AppendText(front, delta) + [last];
      PushedEntry(AppendText(front, delta), last);
    }
  }

  // --- what the blocks should be ---

  /** The events as a reader sees them: runs of one kind of prose, and steps. */
  datatype Piece = Prose(kind: BlockKind, text: string) | Stepped(event: AgentEvent)

  function Joined(kind: BlockKind, text: string, rest: seq<Piece>): seq<Piece> {
    if rest != [] && rest[0].Prose? && rest[0].kind == kind then [Prose(kind, text + rest[0].text)] + rest[1..]
    else [Prose(kind, text)] + rest
  }

  function Pieces(es: seq<AgentEvent>): (r: seq<Piece>)
    ensures forall i :: 0 <= i < |r| && r[i].Stepped? ==> !IsDelta(r[i].event) && !IsSilent(r[i].event)
  {
    if es == [] then []
    else if IsSilent(es[0]) then Pieces(es[1..])
    else if IsDelta(es[0]) then Joined(DeltaKind(es[0]), DeltaText(es[0]), Pieces(es[1..]))
    else [Stepped(es[0])] + Pieces(es[1..])
  }

  predicate Drawable(ps: seq<Piece>) {
    forall i :: 0 <= i < |ps| && ps[i].Stepped? ==> !IsDelta(ps[i].event) && !IsSilent(ps[i].event)
  }

  /** One block a piece; prose is the plan until a tool has been proposed. */
  function Render(d: Drawing, ps: seq<Piece>, seenTool: bool): (r: seq<Block>)
    requires Drawable(ps)
    ensures |r| == |ps|
  {
    if ps == [] then []
    else match ps[0]
      case Prose(kind, text) => [TextBlockOf(kind, text, RoleFor(kind, seenTool))] + Render(d, ps[1..], seenTool)
      case Stepped(e) => [StepBlock(d, e)] + Render(d, ps[1..], seenTool || e.ToolProposed?)
  }

  /** An open block is there to be grown: it is the last block and has the open kind. */
  ghost predicate Inv(v: View) {
    v.open.Some? ==> Blocks(v.timeline) != [] && Blocks(v.timeline)[|Blocks(v.timeline)| - 1].kind == v.open.value
  }

  /** The blocks so far, carried on by the pieces to come. */
  function CarriedOn(d: Drawing, bs: seq<Block>, open: Option<BlockKind>, seenTool: bool, ps: seq<Piece>): seq<Block>
    requires Drawable(ps) && (open.Some? ==> bs != [])
  {
    if open.Some? && ps != [] && ps[0].Prose? && ps[0].kind == open.value
    then Grown(bs, ps[0].text) + Render(d, ps[1..], seenTool)
    else bs + Render(d, ps, seenTool)
  }

  lemma InvStep(d: Drawing, v: View, a: Action)
    requires Inv(v)
    ensures Inv(Did(d, v, a))
  {
    match a
    case Typed(line) => PushedEntry(v.timeline, Command(line));
    case Event(e) =>
      if IsDelta(e) && v.open == Some(DeltaKind(e)) {
        AppendGrows(v.timeline, DeltaText(e));
      } else if IsDelta(e) {
        PushedEntry(v.timeline, Agent(TextBlockOf(DeltaKind(e), DeltaText(e), RoleFor(DeltaKind(e), v.seenTool))));
      }
  }

  /** A delta for the open block. */
  lemma GrowStep(d: Drawing, bs: seq<Block>, kind: BlockKind, text: string, seenTool: bool, rest: seq<Piece>)
    requires bs != [] && Drawable(rest)
    ensures Drawable(Joined(kind, text, rest))
    ensures CarriedOn(d, Grown(bs, text), Some(kind), seenTool, rest)
      == CarriedOn(d, bs, Some(kind), seenTool, Joined(kind, text, rest))
  {
    var joined := Joined(kind, text, rest);
    if rest != [] && rest[0].Prose? && rest[0].kind == kind {
      assert joined[1..] == rest[1..];
      assert bs[|bs| - 1].text + text + rest[0].text == bs[|bs| - 1].text + (text + rest[0].text);
      assert Grown(Grown(bs, text), rest[0].text) == Grown(bs, text + rest[0].text);
    } else {
      assert joined[1..] == rest;
    }
  }

  /** A delta that opens a block. */
  lemma OpenStep(d: Drawing, bs: seq<Block>, open: Option<BlockKind>, kind: BlockKind, text: string,
                 seenTool: bool, rest: seq<Piece>)
    requires (open.Some? ==> bs != []) && open != Some(kind) && Drawable(rest)
    ensures Drawable(Joined(kind, text, rest))
    ensures CarriedOn(d, bs + [TextBlockOf(kind, text, RoleFor(kind, seenTool))], Some(kind), seenTool, rest)
      == CarriedOn(d, bs, open, seenTool, Joined(kind, text, rest))
  {
    var joined, b := Joined(kind, text, rest), TextBlockOf(kind, text, RoleFor(kind, seenTool));
    if rest != [] && rest[0].Prose? && rest[0].kind == kind {
      assert joined[1..] == rest[1..];
      var whole := TextBlockOf(kind, text + rest[0].text, RoleFor(kind, seenTool));
      assert Grown(bs + [b], rest[0].text) == bs + [whole];
      assert bs + [whole] + Render(d, rest[1..], seenTool) == bs + ([whole] + Render(d, rest[1..], seenTool));
    } else {
      assert joined[1..] == rest;
      assert bs + [b] + Render(d, rest, seenTool) == bs + ([b] + Render(d, rest, seenTool));
    }
  }

  lemma StepStep(d: Drawing, bs: seq<Block>, open: Option<BlockKind>, e: AgentEvent, seenTool: bool, rest: seq<Piece>)
    requires (open.Some? ==> bs != []) && !IsDelta(e) && !IsSilent(e) && Drawable(rest)
    ensures Drawable([Stepped(e)] + rest)
    ensures CarriedOn(d, bs + [StepBlock(d, e)], None, seenTool || e.ToolProposed?, rest)
      == CarriedOn(d, bs, open, seenTool, [Stepped(e)] + rest)
  {
    var ps := [Stepped(e)] + rest;
    assert ps[1..] == rest;
    var seen := seenTool || e.ToolProposed?;
    assert bs + [StepBlock(d, e)] + Render(d, rest, seen) == bs + ([StepBlock(d, e)] + Render(d, rest, seen));
  }

  lemma EventCarriesOn(d: Drawing, v: View, e: AgentEvent, later: seq<AgentEvent>)
    requires Inv(v)
    ensures var v' := Applied(d, v, e);
      && Inv(v')
      && CarriedOn(d, Blocks(v'.timeline), v'.open, v'.seenTool, Pieces(later))
        == CarriedOn(d, Blocks(v.timeline), v.open, v.seenTool, Pieces([e] + later))
      && Commands(v'.timeline) == Commands(v.timeline)
  {
    var bs, rest := Blocks(v.timeline), Pieces(later);
    assert ([e] + later)[1..] == later;
    InvStep(d, v, Event(e));
    if IsDelta(e) && v.open == Some(DeltaKind(e)) {
      AppendGrows(v.timeline, DeltaText(e));
      GrowStep(d, bs, DeltaKind(e), DeltaText(e), v.seenTool, rest);
    } else if IsDelta(e) {
      PushedEntry(v.timeline, Agent(TextBlockOf(DeltaKind(e), DeltaText(e), RoleFor(DeltaKind(e), v.seenTool))));
      OpenStep(d, bs, v.open, DeltaKind(e), DeltaText(e), v.seenTool, rest);
    } else if !IsSilent(e) {
      PushedEntry(v.timeline, Agent(StepBlock(d, e)));
      StepStep(d, bs, v.open, e, v.seenTool, rest);
    }
  }

  lemma TypedCarriesOn(v: View, line: string)
    ensures Blocks(v.timeline + [Command(line)]) == Blocks(v.timeline)
    ensures Commands(v.timeline + [Command(line)]) == Commands(v.timeline) + [line]
  {
    PushedEntry(v.timeline, Command(line));
  }

  lemma EventsFront(run: seq<Action>)
    requires run != []
    ensures Events(run) == (if run[0].Event? then [run[0].event] + Events(run[1..]) else Events(run[1..]))
    ensures Lines(run) == (if run[0].Typed? then [run[0].line] + Lines(run[1..]) else Lines(run[1..]))
  {}

  /** Each event leaves the commands as they are. */
  lemma CommandsStep(d: Drawing, v: View, a: Action)
    requires Inv(v)
    ensures Commands(Did(d, v, a).timeline) == Commands(v.timeline) + if a.Typed? then [a.line] else []
  {
    match a
    case Typed(line) => TypedCarriesOn(v, line);
    case Event(e) =>
      EventCarriesOn(d, v, e, []);
      assert Commands(v.timeline) + [] == Commands(v.timeline);
  }

  lemma {:induction false} RunKeepsCommands(d: Drawing, v: View, run: seq<Action>)
    requires Inv(v)
    ensures Commands(Ran(d, v, run).timeline) == Commands(v.timeline) + Lines(run)
    decreases |run|
  {
    if run == [] {
      assert Commands(v.timeline) + [] == Commands(v.timeline);
    } else {
      var v' := Did(d, v, run[0]);
      InvStep(d, v, run[0]);
      CommandsStep(d, v, run[0]);
      RunKeepsCommands(d, v', run[1..]);
      Associate(Commands(v.timeline), if run[0].Typed? then [run[0].line] else [], Lines(run[1..]));
    }
  }

  lemma {:induction false} RunCarriesOn(d: Drawing, v: View, run: seq<Action>)
    requires Inv(v)
    ensures Inv(Ran(d, v, run))
    ensures Blocks(Ran(d, v, run).timeline) == CarriedOn(d, Blocks(v.timeline), v.open, v.seenTool, Pieces(Events(run)))
    decreases |run|
  {
    if run != [] {
      EventsFront(run);
      InvStep(d, v, run[0]);
      RunCarriesOn(d, Did(d, v, run[0]), run[1..]);
      match run[0]
      case Typed(line) => TypedCarriesOn(v, line);
      case Event(e) => EventCarriesOn(d, v, e, Events(run[1..]));
    }
  }

  /** Whatever the user types meanwhile, the blocks are one for each run of prose and each
      step, and the typed commands are all there in order; an open kind is that of the last
      block. */
  lemma ProjectionMeaning(d: Drawing, run: seq<Action>)
    ensures var v := Ran(d, EmptyView, run);
      && Blocks(v.timeline) == Render(d, Pieces(Events(run)), false)
      && Commands(v.timeline) == Lines(run)
      && Inv(v)
  {
    RunCarriesOn(d, EmptyView, run);
    AllCommands(d, run);
  }

  lemma AllCommands(d: Drawing, run: seq<Action>)
    ensures Commands(Ran(d, EmptyView, run).timeline) == Lines(run)
  {
    RunKeepsCommands(d, EmptyView, run);
    assert [] + Lines(run) == Lines(run);
  }

  // --- re-cut streams ---

  /** The stream without its cuts: one item a char of prose. */
  datatype Item = Ink(kind: BlockKind, c: char) | Mark(event: AgentEvent)

  function Inked(kind: BlockKind, text: string): seq<Item> {
    seq(|text|, i requires 0 <= i < |text| => Ink(kind, text[i]))
  }

  function Uncut(es: seq<AgentEvent>): seq<Item> {
    if es == [] then []
    else
      (if IsSilent(es[0]) then []
       else if IsDelta(es[0]) then Inked(DeltaKind(es[0]), DeltaText(es[0]))
       else [Mark(es[0])]) + Uncut(es[1..])
  }

  function Regrouped(items: seq<Item>): seq<Piece> {
    if items == [] then []
    else match items[0]
      case Ink(kind, c) => Joined(kind, [c], Regrouped(items[1..]))
      case Mark(e) => [Stepped(e)] + Regrouped(items[1..])
  }

  predicate NoEmptyDelta(es: seq<AgentEvent>) {
    forall i :: 0 <= i < |es| && IsDelta(es[i]) ==> DeltaText(es[i]) != ""
  }

  lemma RegroupFront(kind: BlockKind, text: string, rest: seq<Item>)
    requires text != ""
    ensures Regrouped(Inked(kind, text) + rest) == Joined(kind, [text[0]], Regrouped(Inked(kind, text[1..]) + rest))
  {
    var items := Inked(kind, text) + rest;
    assert items[0] == Ink(kind, text[0]);
    assert items[1..] == Inked(kind, text[1..]) + rest;
  }

  lemma {:induction false} RegroupInked(kind: BlockKind, text: string, rest: seq<Item>)
    requires text != ""
    ensures Regrouped(Inked(kind, text) + rest) == Joined(kind, text, Regrouped(rest))
    decreases |text|
  {
    RegroupFront(kind, text, rest);
    if |text| == 1 {
      assert Inked(kind, text[1..]) + rest == rest;
      assert [text[0]] == text;
    } else {
      RegroupInked(kind, text[1..], rest);
      JoinTwice(kind, [text[0]], text[1..], Regrouped(rest));
      assert [text[0]] + text[1..] == text;
    }
  }

  lemma JoinTwice(kind: BlockKind, a: string, b: string, rest: seq<Piece>)
    ensures Joined(kind, a, Joined(kind, b, rest)) == Joined(kind, a + b, rest)
  {
    if rest != [] && rest[0].Prose? && rest[0].kind == kind {
      assert a + (b + rest[0].text) == a + b + rest[0].text;
      assert Joined(kind, b, rest)[1..] == rest[1..];
    } else {
      assert Joined(kind, b, rest)[1..] == rest;
    }
  }

  lemma {:induction false} PiecesRegroup(es: seq<AgentEvent>)
    requires NoEmptyDelta(es)
    ensures Pieces(es) == Regrouped(Uncut(es))
  {
    if es != [] {
      PiecesRegroup(es[1..]);
      if IsSilent(es[0]) {
        assert Uncut(es) == Uncut(es[1..]);
      } else if IsDelta(es[0]) {
        RegroupInked(DeltaKind(es[0]), DeltaText(es[0]), Uncut(es[1..]));
      } else {
        assert Uncut(es)[1..] == Uncut(es[1..]);
      }
    }
  }

  /** Cutting the same prose into other pieces, none empty, and moving the silent events about,
      leaves the same blocks; so does typing other commands. */
  lemma CutsDoNotShow(d: Drawing, run: seq<Action>, run': seq<Action>)
    requires NoEmptyDelta(Events(run)) && NoEmptyDelta(Events(run'))
    requires Uncut(Events(run)) == Uncut(Events(run'))
    ensures Blocks(Ran(d, EmptyView, run).timeline) == Blocks(Ran(d, EmptyView, run').timeline)
  {
    ProjectionMeaning(d, run);
    ProjectionMeaning(d, run');
    PiecesRegroup(Events(run));
    PiecesRegroup(Events(run'));
  }

  // --- text and roles ---

  function Told(kind: BlockKind, es: seq<AgentEvent>): string {
    if es == [] then ""
    else (if IsDelta(es[0]) && DeltaKind(es[0]) == kind then DeltaText(es[0]) else "") + Told(kind, es[1..])
  }

  function Shown(kind: BlockKind, bs: seq<Block>): string {
    if bs == [] then ""
    else (if bs[0].kind == kind && !bs[0].error then bs[0].text else "") + Shown(kind, bs[1..])
  }

  lemma StepShows(d: Drawing, kind: BlockKind, e: AgentEvent, rest: seq<Piece>, seenTool: bool)
    requires (kind == ThinkingBlock || kind == AssistantBlock) && !IsDelta(e) && !IsSilent(e) && Drawable(rest)
    ensures Drawable([Stepped(e)] + rest)
    ensures Shown(kind, Render(d, [Stepped(e)] + rest, seenTool))
      == Shown(kind, Render(d, rest, seenTool || e.ToolProposed?))
  {
    var ps := [Stepped(e)] + rest;
    assert ps[1..] == rest;
    assert Render(d, ps, seenTool)[1..] == Render(d, rest, seenTool || e.ToolProposed?);
  }

  lemma {:induction false} TextIsKept(d: Drawing, kind: BlockKind, es: seq<AgentEvent>, seenTool: bool)
    requires kind == ThinkingBlock || kind == AssistantBlock
    ensures Shown(kind, Render(d, Pieces(es), seenTool)) == Told(kind, es)
    decreases |es|
  {
    if es != [] {
      var rest := Pieces(es[1..]);
      TextIsKept(d, kind, es[1..], seenTool);
      if IsDelta(es[0]) {
        var k, t := DeltaKind(es[0]), DeltaText(es[0]);
        JoinedShows(d, kind, k, t, rest, seenTool);
      } else if !IsSilent(es[0]) {
        TextIsKept(d, kind, es[1..], seenTool || es[0].ToolProposed?);
        StepShows(d, kind, es[0], rest, seenTool);
      }
    }
  }

  lemma JoinedShows(d: Drawing, kind: BlockKind, k: BlockKind, t: string, rest: seq<Piece>, seenTool: bool)
    requires Drawable(rest)
    ensures Drawable(Joined(k, t, rest))
    ensures Shown(kind, Render(d, Joined(k, t, rest), seenTool))
      == (if k == kind then t else "") + Shown(kind, Render(d, rest, seenTool))
  {
    var joined := Joined(k, t, rest);
    var blocks := Render(d, joined, seenTool);
    if rest != [] && rest[0].Prose? && rest[0].kind == k {
      assert joined[1..] == rest[1..];
      assert blocks[1..] == Render(d, rest[1..], seenTool) == Render(d, rest, seenTool)[1..];
      if k == kind {
        var tail := Shown(kind, blocks[1..]);
        assert t + rest[0].text + tail == t + (rest[0].text + tail);
      }
    } else {
      assert joined[1..] == rest;
      assert blocks[1..] == Render(d, rest, seenTool);
    }
  }

  /** The blocks of one kind of prose hold the streamed text of that kind, whole and in
      order. */
  lemma NoTextLost(d: Drawing, kind: BlockKind, run: seq<Action>)
    requires kind == ThinkingBlock || kind == AssistantBlock
    ensures Shown(kind, Blocks(Ran(d, EmptyView, run).timeline)) == Told(kind, Events(run))
  {
    ProjectionMeaning(d, run);
    TextIsKept(d, kind, Events(run), false);
  }

  /** Prose is the plan exactly when no call was proposed before it. */
  lemma {:induction false} PlanUntilTool(d: Drawing, ps: seq<Piece>, seenTool: bool, i: nat)
    requires Drawable(ps) && i < |ps| && ps[i].Prose? && ps[i].kind == AssistantBlock
    ensures Render(d, ps, seenTool)[i].role
      == if !seenTool && forall j :: 0 <= j < i ==> !(ps[j].Stepped? && ps[j].event.ToolProposed?)
         then Plan else Summary
    decreases |ps|
  {
    if i > 0 {
      var seen := seenTool || (ps[0].Stepped? && ps[0].event.ToolProposed?);
      PlanUntilTool(d, ps[1..], seen, i - 1);
      assert forall j :: 0 <= j < i - 1 ==> ps[1..][j] == ps[j + 1];
      assert forall j :: 1 <= j < i ==> ps[j] == ps[1..][j - 1];
    }
  }
}
