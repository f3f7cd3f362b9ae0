/**
 The recorded turn: streamed deltas grow the open step in place, any other step closes it, and
 the conversation history is derived from the steps by the nested loop modelled here.
*/
module Transcript {
  import opened Text
  import opened Provider
  import opened Turn

  datatype Step =
    | UserPrompt(text: string)
    | ThinkingStep(summary: string)
    | AssistantText(text: string)
    | ToolCallStep(id: string, name: string, input: Json)
    | ToolResultStep(resultId: string, output: string, isError: bool)
    | ApprovalStep(approvalId: string, resolution: string)

  datatype Status = Running | Completed | Cancelled | Errored

  const U32_MAX := 0xFFFF_FFFF

  function SaturatingAdd(a: nat, b: nat): nat {
    if a + b > U32_MAX then U32_MAX else a + b
  }

  function AddedUsage(a: Usage, b: Usage): Usage {
    Usage(SaturatingAdd(a.input, b.input), SaturatingAdd(a.output, b.output),
          SaturatingAdd(a.cacheRead, b.cacheRead), SaturatingAdd(a.cacheCreation, b.cacheCreation))
  }

  // --- recording ---

  predicate IsOpen(steps: seq<Step>, open: Option<nat>) {
    open.Some? ==> open.value + 1 == |steps| && (steps[open.value].AssistantText? || steps[open.value].ThinkingStep?)
  }

  /** The steps after an event: a delta of the kind of the open step joins it. */
  function Recorded(steps: seq<Step>, open: Option<nat>, e: AgentEvent): (seq<Step>, Option<nat>)
    requires IsOpen(steps, open)
  {
    match e
    case Assistant(t) =>
      if open.Some? && steps[open.value].AssistantText? then
        (steps[open.value := AssistantText(steps[open.value].text + t)], open)
      else (steps + [AssistantText(t)], Some(|steps|))
    case Thinking(t) =>
      if open.Some? && steps[open.value].ThinkingStep? then
        (steps[open.value := ThinkingStep(steps[open.value].summary + t)], open)
      else (steps + [ThinkingStep(t)], Some(|steps|))
    case ToolProposed(call) => (steps + [ToolCallStep(call.id, call.name, call.input)], None)
    case ToolResult(id, output, err) => (steps + [ToolResultStep(id, output, err)], None)
    case TurnComplete(_) => (steps, None)
    case _ => (steps, open)
  }

  class AgentTranscript {
    var steps: seq<Step>
    var status: Status
    var usage: Usage
    var open: Option<nat>

    ghost predicate Valid()
      reads this
    {
      IsOpen(steps, open)
    }

    constructor ()
      ensures Valid() && steps == [] && open == None && status == Running && usage == NO_USAGE
    {
      steps, status, usage, open := [], Running, NO_USAGE, None;
    }

    method RecordUserPrompt(text: string)
      requires Valid()
      modifies this`steps, this`open
      ensures Valid() && steps == old(steps) + [UserPrompt(text)] && open == None
    {
      open := None;
      steps := steps + [UserPrompt(text)];
    }

    method PushAssistantDelta(delta: string)
      requires Valid()
      modifies this`steps, this`open
      ensures Valid() && (steps, open) == Recorded(old(steps), old(open), Assistant(delta))
    {
      if open.Some? && steps[open.value].AssistantText? {
        steps := steps[open.value := AssistantText(steps[open.value].text + delta)];
        return;
      }
      steps := steps + [AssistantText(delta)];
      open := Some(|steps| - 1);
    }

    method PushThinkingDelta(delta: string)
      requires Valid()
      modifies this`steps, this`open
      ensures Valid() && (steps, open) == Recorded(old(steps), old(open), Thinking(delta))
    {
      if open.Some? && steps[open.value].ThinkingStep? {
        steps := steps[open.value := ThinkingStep(steps[open.value].summary + delta)];
        return;
      }
      steps := steps + [ThinkingStep(delta)];
      open := Some(|steps| - 1);
    }

    method RecordToolCall(call: ToolCall)
      requires Valid()
      modifies this`steps, this`open
      ensures Valid() && (steps, open) == Recorded(old(steps), old(open), ToolProposed(call))
    {
      open := None;
      steps := steps + [ToolCallStep(call.id, call.name, call.input)];
    }

    method RecordApproval(id: string, resolution: string)
      requires Valid()
      modifies this`steps, this`open
      ensures Valid() && steps == old(steps) + [ApprovalStep(id, resolution)] && open == None
    {
      open := None;
      steps := steps + [ApprovalStep(id, resolution)];
    }

    method RecordToolResult(id: string, output: string, isError: bool)
      requires Valid()
      modifies this`steps, this`open
      ensures Valid() && (steps, open) == Recorded(old(steps), old(open), ToolResult(id, output, isError))
    {
      open := None;
      steps := steps + [ToolResultStep(id, output, isError)];
    }

    method AddUsage(u: Usage)
      modifies this`usage
      ensures usage == AddedUsage(old(usage), u)
    {
      usage := Usage(
        SaturatingAdd(usage.input, u.input), SaturatingAdd(usage.output, u.output),
        SaturatingAdd(usage.cacheRead, u.cacheRead), SaturatingAdd(usage.cacheCreation, u.cacheCreation));
    }

    method Finish(s: Status)
      requires Valid()
      modifies this`status, this`open
      ensures Valid() && status == s && open == None
    {
      open := None;
      status := s;
    }

    /** Record one event of a run. */
    method Record(e: AgentEvent)
      requires Valid()
      modifies this
      ensures Valid() && (steps, open) == Recorded(old(steps), old(open), e)
      ensures usage == if e.UsageReport? then AddedUsage(old(usage), e.usage) else old(usage)
      ensures status == if e.TurnComplete? then Completed else old(status)
    {
      match e {
        case Assistant(t) => PushAssistantDelta(t);
        case Thinking(t) => PushThinkingDelta(t);
        case ToolProposed(call) => RecordToolCall(call);
        case ToolResult(id, output, err) => RecordToolResult(id, output, err);
        case UsageReport(u) => AddUsage(u);
        case TurnComplete(_) => Finish(Completed);
        case _ =>
      }
    }

    /** Walk the steps by index, gathering runs of assistant content and of results. */
    method DeriveHistory() returns (messages: seq<Message>)
      ensures messages == History(steps)
    {
      messages := [];
      var i := 0;
      while i < |steps|
        invariant 0 <= i <= |steps|
        invariant Rest(Hist(messages, Nothing), steps[i..]) == History(steps)
        decreases |steps| - i
      {
        assert steps[i..][1..] == steps[i + 1..];
        assert Messages(Hist(messages, Nothing)) == messages;
        match steps[i] {
          case UserPrompt(text) =>
            messages := messages + [UserMessage(text)];
            i := i + 1;
          case ThinkingStep(_) => i := i + 1;
          case ApprovalStep(_, _) => i := i + 1;
          case AssistantText(_) =>
            messages, i := GatherAssistant(messages, i);
          case ToolCallStep(_, _, _) =>
            messages, i := GatherAssistant(messages, i);
          case ToolResultStep(_, _, _) =>
            messages, i := GatherResults(messages, i);
        }
      }
      assert steps[|steps|..] == [];
    }

    /** One assistant message from a run of text and calls, passing over thinking and
        approvals. */
    method GatherAssistant(before: seq<Message>, from: nat) returns (messages: seq<Message>, i: nat)
      requires from < |steps| && (steps[from].AssistantText? || steps[from].ToolCallStep?)
      ensures from < i <= |steps|
      ensures Rest(Hist(messages, Nothing), steps[i..]) == Rest(Hist(before, Nothing), steps[from..])
    {
      var text, uses := "", [];
      i := from;
      FirstOfRun(before, steps[from..]);
      while i < |steps|
        invariant from <= i <= |steps|
        invariant i == from ==> text == "" && uses == []
        invariant Rest(Hist(before, Asst(text, uses)), steps[i..]) == Rest(Hist(before, Nothing), steps[from..])
      {
        assert steps[i..][1..] == steps[i + 1..];
        match steps[i] {
          case AssistantText(t) => text := text + t;
          case ToolCallStep(id, name, input) => uses := uses + [ToolUseBlock(id, name, input)];
          case ThinkingStep(_) =>
          case ApprovalStep(_, _) =>
          case _ => break;
        }
        i := i + 1;
      }
      RunEnds(Hist(before, Asst(text, uses)), steps[i..]);
      var prose := if text != "" then [TextBlock(text)] else [];
      messages := before + [Message(AssistantRole, prose + uses)];
    }

    /** One message from a run of results with nothing in between. */
    method GatherResults(before: seq<Message>, from: nat) returns (messages: seq<Message>, i: nat)
      requires from < |steps| && steps[from].ToolResultStep?
      ensures from < i <= |steps|
      ensures Rest(Hist(messages, Nothing), steps[i..]) == Rest(Hist(before, Nothing), steps[from..])
    {
      var results := [];
      i := from;
      while i < |steps| && steps[i].ToolResultStep?
        invariant from <= i <= |steps|
        invariant i == from ==> results == []
        invariant i > from ==>
          Rest(Hist(before, Tools(results)), steps[i..]) == Rest(Hist(before, Nothing), steps[from..])
      {
        assert steps[i..][1..] == steps[i + 1..];
        assert Messages(Hist(before, Nothing)) == before;
        assert [] + [ToolResultBlock(steps[i].resultId, steps[i].output, steps[i].isError)]
            == [ToolResultBlock(steps[i].resultId, steps[i].output, steps[i].isError)];
        results := results + [ToolResultBlock(steps[i].resultId, steps[i].output, steps[i].isError)];
        i := i + 1;
      }
      RunEnds(Hist(before, Tools(results)), steps[i..]);
      messages := before + [Message(ToolRole, results)];
    }
  }

  // --- what the derived history is ---

  /** The message still being gathered. */
  datatype Current = Nothing | Asst(text: string, uses: seq<ContentBlock>) | Tools(results: seq<ContentBlock>)

  /** The history read so far: whole messages, and the one that may still grow. */
  datatype Hist = Hist(closed: seq<Message>, cur: Current)

  function Messages(h: Hist): seq<Message> {
    h.closed + match h.cur
               case Nothing => []
               case Asst(text, uses) => [Message(AssistantRole, (if text != "" then [TextBlock(text)] else []) + uses)]
               case Tools(results) => [Message(ToolRole, results)]
  }

  /** Where an assistant message can continue: the open one, or a new one after all else. */
  function Opened(h: Hist): Hist {
    if h.cur.Asst? then h else Hist(Messages(h), Asst("", []))
  }

  function Absorb(h: Hist, s: Step): Hist {
    match s
    case UserPrompt(t) => Hist(Messages(h) + [UserMessage(t)], Nothing)
    case ThinkingStep(_) => if h.cur.Asst? then h else Hist(Messages(h), Nothing)
    case ApprovalStep(_, _) => if h.cur.Asst? then h else Hist(Messages(h), Nothing)
    case AssistantText(t) => var o := Opened(h); o.(cur := Asst(o.cur.text + t, o.cur.uses))
    case ToolCallStep(id, name, input) =>
      var o := Opened(h);
      o.(cur := Asst(o.cur.text, o.cur.uses + [ToolUseBlock(id, name, input)]))
    case ToolResultStep(id, output, err) =>
      var b := ToolResultBlock(id, output, err);
      if h.cur.Tools? then h.(cur := Tools(h.cur.results + [b])) else Hist(Messages(h), Tools([b]))
  }

  function AbsorbAll(h: Hist, steps: seq<Step>): Hist
    decreases |steps|
  {
    if steps == [] then h else AbsorbAll(Absorb(h, steps[0]), steps[1..])
  }

  function Rest(h: Hist, steps: seq<Step>): seq<Message> {
    Messages(AbsorbAll(h, steps))
  }

  const NoHistory := Hist([], Nothing)

  function History(steps: seq<Step>): seq<Message> {
    Rest(NoHistory, steps)
  }

  lemma FirstOfRun(before: seq<Message>, steps: seq<Step>)
    requires steps != [] && (steps[0].AssistantText? || steps[0].ToolCallStep?)
    ensures Rest(Hist(before, Asst("", [])), steps) == Rest(Hist(before, Nothing), steps)
  {
    assert Messages(Hist(before, Nothing)) == before;
    assert Absorb(Hist(before, Asst("", [])), steps[0]) == Absorb(Hist(before, Nothing), steps[0]);
  }

  /** A step that does not continue the current message starts from the closed history. */
  lemma RunEnds(h: Hist, steps: seq<Step>)
    requires steps != [] ==>
      match h.cur
      case Nothing => true
      case Asst(_, _) => steps[0].UserPrompt? || steps[0].ToolResultStep?
      case Tools(_) => !steps[0].ToolResultStep?
    ensures Rest(h, steps) == Rest(Hist(Messages(h), Nothing), steps)
  {
    assert Messages(Hist(Messages(h), Nothing)) == Messages(h);
    if steps != [] {
      assert Absorb(h, steps[0]) == Absorb(Hist(Messages(h), Nothing), steps[0]);
    }
  }

  // --- recording and deriving commute ---

  function StepOf(e: AgentEvent): Option<Step> {
    match e
    case Assistant(t) => Some(AssistantText(t))
    case Thinking(t) => Some(ThinkingStep(t))
    case ToolProposed(call) => Some(ToolCallStep(call.id, call.name, call.input))
    case ToolResult(id, output, err) => Some(ToolResultStep(id, output, err))
    case _ => None
  }

  function AbsorbEvent(h: Hist, e: AgentEvent): Hist {
    if StepOf(e).Some? then Absorb(h, StepOf(e).value) else h
  }

  function AbsorbEvents(h: Hist, es: seq<AgentEvent>): Hist
    decreases |es|
  {
    if es == [] then h else AbsorbEvents(AbsorbEvent(h, es[0]), es[1..])
  }

  function RecordedAll(steps: seq<Step>, open: Option<nat>, es: seq<AgentEvent>): (seq<Step>, Option<nat>)
    requires IsOpen(steps, open)
    decreases |es|
  {
    if es == [] then (steps, open)
    else
      var (steps', open') := Recorded(steps, open, es[0]);
      RecordedAll(steps', open', es[1..])
  }

  lemma {:induction false} AbsorbAllConcat(h: Hist, a: seq<Step>, b: seq<Step>)
    ensures AbsorbAll(h, a + b) == AbsorbAll(AbsorbAll(h, a), b)
    decreases |a|
  {
    if a == [] {
      assert a + b == b;
    } else {
      assert (a + b)[1..] == a[1..] + b;
      AbsorbAllConcat(Absorb(h, a[0]), a[1..], b);
    }
  }

  lemma AbsorbLast(steps: seq<Step>, s: Step)
    ensures AbsorbAll(NoHistory, steps + [s]) == Absorb(AbsorbAll(NoHistory, steps), s)
  {
    AbsorbAllConcat(NoHistory, steps, [s]);
    assert AbsorbAll(AbsorbAll(NoHistory, steps), [s]) == Absorb(AbsorbAll(NoHistory, steps), s);
  }

  /** Growing the open step in place reads the same as one more step. */
  lemma RecordedOne(steps: seq<Step>, open: Option<nat>, e: AgentEvent)
    requires IsOpen(steps, open)
    ensures AbsorbAll(NoHistory, Recorded(steps, open, e).0) == AbsorbEvent(AbsorbAll(NoHistory, steps), e)
  {
    var (steps', open') := Recorded(steps, open, e);
    if StepOf(e).Some? {
      if |steps'| > |steps| {
        AbsorbLast(steps, StepOf(e).value);
      } else {
        var init, last := steps[..open.value], steps[open.value];
        var h := AbsorbAll(NoHistory, init);
        assert steps == init + [last];
        AbsorbLast(init, last);
        AbsorbLast(init, steps'[open.value]);
        assert steps' == init + [steps'[open.value]];
        if e.Assistant? {
          assert (Opened(h).cur.text + last.text) + e.text == Opened(h).cur.text + (last.text + e.text);
        } else {
          assert Messages(Hist(Messages(h), Nothing)) == Messages(h);
        }
      }
    }
  }

  /** The history derived from a recorded run can be read off its events directly. */
  lemma {:induction false} RecordedHistory(steps: seq<Step>, open: Option<nat>, es: seq<AgentEvent>)
    requires IsOpen(steps, open)
    ensures History(RecordedAll(steps, open, es).0) == Messages(AbsorbEvents(AbsorbAll(NoHistory, steps), es))
    decreases |es|
  {
    if es != [] {
      RecordedOne(steps, open, es[0]);
      var (steps', open') := Recorded(steps, open, es[0]);
      RecordedHistory(steps', open', es[1..]);
    }
  }

  /** The transcript of a turn: the prompt, then its events. */
  function TurnSteps(prompt: string, es: seq<AgentEvent>): seq<Step> {
    RecordedAll([UserPrompt(prompt)], None, es).0
  }

  // --- usage and status of a recorded run ---

  const NO_USAGE := Usage(0, 0, 0, 0)

  function Sum(a: Usage, b: Usage): Usage {
    Usage(a.input + b.input, a.output + b.output, a.cacheRead + b.cacheRead, a.cacheCreation + b.cacheCreation)
  }

  /** What the reports of a run come to. */
  function TotalUsage(es: seq<AgentEvent>): Usage {
    if es == [] then NO_USAGE
    else Sum(if es[0].UsageReport? then es[0].usage else NO_USAGE, TotalUsage(es[1..]))
  }

  function Cap(n: nat): nat {
    if n > U32_MAX then U32_MAX else n
  }

  function Capped(u: Usage): Usage {
    Usage(Cap(u.input), Cap(u.output), Cap(u.cacheRead), Cap(u.cacheCreation))
  }

  predicate Completes(es: seq<AgentEvent>) {
    exists i :: 0 <= i < |es| && es[i].TurnComplete?
  }

  /** Capping at every step is capping the total. */
  lemma CappedOnce(u: Usage, v: Usage)
    ensures AddedUsage(Capped(u), v) == Capped(Sum(u, v))
  {}

  lemma {:induction false} TotalAppend(es: seq<AgentEvent>, e: AgentEvent)
    ensures TotalUsage(es + [e]) == Sum(TotalUsage(es), if e.UsageReport? then e.usage else NO_USAGE)
    decreases |es|
  {
    if es == [] {
      assert es + [e] == [e] && [e][1..] == [];
    } else {
      assert (es + [e])[1..] == es[1..] + [e];
      TotalAppend(es[1..], e);
    }
  }

  /** What is recorded of a run: its steps, its usage counter by counter up to what 32 bits
      hold, and whether it completed. */
  method RecordTurn(prompt: string, es: seq<AgentEvent>) returns (t: AgentTranscript)
    ensures fresh(t) && t.Valid() && t.steps == TurnSteps(prompt, es)
    ensures t.usage == Capped(TotalUsage(es))
    ensures t.status == if Completes(es) then Completed else Running
  {
    t := new AgentTranscript();
    t.RecordUserPrompt(prompt);
    assert t.steps == [UserPrompt(prompt)];
    for i := 0 to |es|
      invariant t.Valid() && fresh(t)
      invariant RecordedAll(t.steps, t.open, es[i..]).0 == TurnSteps(prompt, es)
      invariant t.usage == Capped(TotalUsage(es[..i]))
      invariant t.status == if Completes(es[..i]) then Completed else Running
    {
      assert es[i..][1..] == es[i + 1..];
      UsageStep(es, i);
      CompletesStep(es, i);
      t.Record(es[i]);
    }
    assert es[|es|..] == [] && es[..|es|] == es;
  }

  lemma UsageStep(es: seq<AgentEvent>, i: nat)
    requires i < |es|
    ensures var before := Capped(TotalUsage(es[..i]));
      Capped(TotalUsage(es[..i + 1])) == if es[i].UsageReport? then AddedUsage(before, es[i].usage) else before
  {
    TotalAppend(es[..i], es[i]);
    assert es[..i + 1] == es[..i] + [es[i]];
    if es[i].UsageReport? { CappedOnce(TotalUsage(es[..i]), es[i].usage); }
  }

  lemma CompletesStep(es: seq<AgentEvent>, i: nat)
    requires i < |es|
    ensures Completes(es[..i + 1]) <==> Completes(es[..i]) || es[i].TurnComplete?
  {
    if Completes(es[..i]) {
      var k :| 0 <= k < i && es[..i][k].TurnComplete?;
      assert es[..i + 1][k].TurnComplete?;
    }
    if es[i].TurnComplete? { assert es[..i + 1][i].TurnComplete?; }
    var more := es[..i + 1];
    if Completes(more) {
      var k :| 0 <= k < |more| && more[k].TurnComplete?;
      if k < i { assert es[..i][k].TurnComplete?; }
    }
  }
}
