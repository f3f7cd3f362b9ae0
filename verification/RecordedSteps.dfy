/** What is recorded of a run, and what shows of it. */
module RecordedSteps {
  import opened Text
  import opened Provider
  import opened Turn
  import opened Transcript

  // --- the steps of a run ---

  /** Two pieces of one kind of prose. */
  predicate Joins(a: Step, b: Step) {
    (a.AssistantText? && b.AssistantText?) || (a.ThinkingStep? && b.ThinkingStep?)
  }

  function Both(a: Step, b: Step): Step
    requires Joins(a, b)
  {
    if a.AssistantText? then AssistantText(a.text + b.text) else ThinkingStep(a.summary + b.summary)
  }

  /** The steps of a run, and a mark where a turn was completed: prose that goes on after it
      is a step of its own. */
  function Marked(es: seq<AgentEvent>): seq<Option<Step>> {
    if es == [] then []
    else
      var rest := Marked(es[1..]);
      match es[0]
      case Assistant(t) => Before(AssistantText(t), rest)
      case Thinking(t) => Before(ThinkingStep(t), rest)
      case ToolProposed(call) => Before(ToolCallStep(call.id, call.name, call.input), rest)
      case ToolResult(id, output, err) => Before(ToolResultStep(id, output, err), rest)
      case TurnComplete(_) => [None] + rest
      case _ => rest
  }

  function Before(s: Step, rest: seq<Option<Step>>): seq<Option<Step>> {
    if rest != [] && rest[0].Some? && Joins(s, rest[0].value) then [Some(Both(s, rest[0].value))] + rest[1..]
    else [Some(s)] + rest
  }

  function Unmarked(items: seq<Option<Step>>): seq<Step> {
    if items == [] then []
    else (if items[0].Some? then [items[0].value] else []) + Unmarked(items[1..])
  }

  /** The steps so far, carried on by what is to come. */
  function CarriedOn(steps: seq<Step>, open: Option<nat>, items: seq<Option<Step>>): seq<Step>
    requires IsOpen(steps, open)
  {
    if open.Some? && items != [] && items[0].Some? && Joins(steps[open.value], items[0].value)
    then steps[open.value := Both(steps[open.value], items[0].value)] + Unmarked(items[1..])
    else steps + Unmarked(items)
  }

  /** A delta of the kind of the open step. */
  lemma GrowStep(steps: seq<Step>, open: Option<nat>, s: Step, rest: seq<Option<Step>>)
    requires IsOpen(steps, open) && open.Some? && Joins(steps[open.value], s)
    ensures var grown := steps[open.value := Both(steps[open.value], s)];
      IsOpen(grown, open) && CarriedOn(grown, open, rest) == CarriedOn(steps, open, Before(s, rest))
  {
    var last, items := steps[open.value], Before(s, rest);
    if rest != [] && rest[0].Some? && Joins(s, rest[0].value) {
      JoinTwice(last, s, rest[0].value);
      assert items[1..] == rest[1..];
    } else {
      assert items[1..] == rest;
    }
  }

  lemma JoinTwice(a: Step, b: Step, c: Step)
    requires Joins(a, b) && Joins(b, c)
    ensures Both(Both(a, b), c) == Both(a, Both(b, c))
  {
    if a.AssistantText? {
      Associate(a.text, b.text, c.text);
    } else {
      Associate(a.summary, b.summary, c.summary);
    }
  }

  /** A step that is not part of the open one. */
  lemma NewStep(steps: seq<Step>, open: Option<nat>, s: Step, open': Option<nat>, rest: seq<Option<Step>>)
    requires IsOpen(steps, open) && (open.Some? ==> !Joins(steps[open.value], s))
    requires open' == if s.AssistantText? || s.ThinkingStep? then Some(|steps|) else None
    ensures IsOpen(steps + [s], open')
    ensures CarriedOn(steps + [s], open', rest) == CarriedOn(steps, open, Before(s, rest))
  {
    var items := Before(s, rest);
    if rest != [] && rest[0].Some? && Joins(s, rest[0].value) {
      var both := Both(s, rest[0].value);
      assert (steps + [s])[|steps| := both] == steps + [both];
      assert items[1..] == rest[1..];
      Associate(steps, [both], Unmarked(rest[1..]));
    } else {
      assert items[1..] == rest;
      Associate(steps, [s], Unmarked(rest));
    }
  }

  lemma MarkStep(steps: seq<Step>, open: Option<nat>, rest: seq<Option<Step>>)
    requires IsOpen(steps, open)
    ensures CarriedOn(steps, None, rest) == CarriedOn(steps, open, [None] + rest)
  {
    assert ([None] + rest)[1..] == rest;
  }

  /** A delta joins the open step of its kind, or is a step of its own. */
  function WithDelta(steps: seq<Step>, open: Option<nat>, s: Step): (seq<Step>, Option<nat>)
    requires IsOpen(steps, open)
  {
    if open.Some? && Joins(steps[open.value], s) then (steps[open.value := Both(steps[open.value], s)], open)
    else (steps + [s], Some(|steps|))
  }

  lemma DeltaStep(steps: seq<Step>, open: Option<nat>, s: Step, rest: seq<Option<Step>>)
    requires IsOpen(steps, open) && (s.AssistantText? || s.ThinkingStep?)
    ensures var (steps', open') := WithDelta(steps, open, s);
      IsOpen(steps', open') && CarriedOn(steps', open', rest) == CarriedOn(steps, open, Before(s, rest))
  {
    if open.Some? && Joins(steps[open.value], s) {
      GrowStep(steps, open, s, rest);
    } else {
      NewStep(steps, open, s, Some(|steps|), rest);
    }
  }

  lemma RecordedDelta(steps: seq<Step>, open: Option<nat>, e: AgentEvent)
    requires IsOpen(steps, open)
    ensures e.Assistant? ==> Recorded(steps, open, e) == WithDelta(steps, open, AssistantText(e.text))
    ensures e.Thinking? ==> Recorded(steps, open, e) == WithDelta(steps, open, ThinkingStep(e.thinking))
  {}

  lemma OneEvent(steps: seq<Step>, open: Option<nat>, es: seq<AgentEvent>)
    requires IsOpen(steps, open) && es != []
    ensures var (steps', open') := Recorded(steps, open, es[0]);
      IsOpen(steps', open') && CarriedOn(steps', open', Marked(es[1..])) == CarriedOn(steps, open, Marked(es))
  {
    var rest := Marked(es[1..]);
    RecordedDelta(steps, open, es[0]);
    match es[0] {
      case Assistant(t) => DeltaStep(steps, open, AssistantText(t), rest);
      case Thinking(t) => DeltaStep(steps, open, ThinkingStep(t), rest);
      case ToolProposed(call) => NewStep(steps, open, ToolCallStep(call.id, call.name, call.input), None, rest);
      case ToolResult(id, output, err) => NewStep(steps, open, ToolResultStep(id, output, err), None, rest);
      case TurnComplete(_) => MarkStep(steps, open, rest);
      case _ =>
    }
  }

  lemma {:induction false} AllEvents(steps: seq<Step>, open: Option<nat>, es: seq<AgentEvent>)
    requires IsOpen(steps, open)
    ensures RecordedAll(steps, open, es).0 == CarriedOn(steps, open, Marked(es))
    decreases |es|
  {
    if es == [] {
      assert steps + [] == steps;
    } else {
      OneEvent(steps, open, es);
      var (steps', open') := Recorded(steps, open, es[0]);
      AllEvents(steps', open', es[1..]);
    }
  }

  /** The transcript of a run is its prompt, then one step for each run of prose of one kind,
      each call and each result, in order, with all of their text. */
  lemma TranscriptMeaning(prompt: string, es: seq<AgentEvent>)
    ensures TurnSteps(prompt, es) == [UserPrompt(prompt)] + Unmarked(Marked(es))
  {
    AllEvents([UserPrompt(prompt)], None, es);
  }

  // --- steps that do not show ---

  lemma {:induction false} Apart(before: seq<Message>, h: Hist, steps: seq<Step>)
    ensures Rest(Hist(before + h.closed, h.cur), steps) == before + Rest(h, steps)
    decreases |steps|
  {
    var g := Hist(before + h.closed, h.cur);
    ApartHere(before, h);
    if steps != [] {
      var s := steps[0];
      assert Absorb(g, s) == Hist(before + Absorb(h, s).closed, Absorb(h, s).cur) by { ApartStep(before, h, s); }
      Apart(before, Absorb(h, s), steps[1..]);
    }
  }

  lemma ApartHere(before: seq<Message>, h: Hist)
    ensures Messages(Hist(before + h.closed, h.cur)) == before + Messages(h)
  {}

  lemma ApartStep(before: seq<Message>, h: Hist, s: Step)
    ensures Absorb(Hist(before + h.closed, h.cur), s) == Hist(before + Absorb(h, s).closed, Absorb(h, s).cur)
  {
    ApartHere(before, h);
    if s.UserPrompt? { Associate(before, Messages(h), [UserMessage(s.text)]); }
  }

  /** The messages after a list of steps that begins anew. */
  lemma LengthApart(ms: seq<Message>, steps: seq<Step>)
    ensures |Rest(Hist(ms, Nothing), steps)| == |ms| + |Rest(NoHistory, steps)|
  {
    assert ms + [] == ms;
    Apart(ms, NoHistory, steps);
  }

  /** Two lists of results, taken as one message or as two. */
  lemma {:induction false} OneMore(closed: seq<Message>, rs: seq<ContentBlock>, xs: seq<ContentBlock>, m: Message,
                                   steps: seq<Step>)
    ensures |Rest(Hist(closed + [m], Tools(xs)), steps)| == |Rest(Hist(closed, Tools(rs)), steps)| + 1
    decreases |steps|
  {
    var one, two := Hist(closed, Tools(rs)), Hist(closed + [m], Tools(xs));
    if steps != [] {
      if steps[0].ToolResultStep? {
        var b := ToolResultBlock(steps[0].resultId, steps[0].output, steps[0].isError);
        OneMore(closed, rs + [b], xs + [b], m, steps[1..]);
      } else {
        RunEnds(one, steps);
        RunEnds(two, steps);
        LengthApart(Messages(one), steps);
        LengthApart(Messages(two), steps);
      }
    }
  }

  lemma OneMoreResult(h: Hist, steps: seq<Step>)
    requires h.cur.Tools? && steps != [] && steps[0].ToolResultStep?
    ensures |Rest(Hist(Messages(h), Nothing), steps)| == |Rest(h, steps)| + 1
  {
    var b := ToolResultBlock(steps[0].resultId, steps[0].output, steps[0].isError);
    var m := Message(ToolRole, h.cur.results);
    assert Messages(Hist(Messages(h), Nothing)) == Messages(h) == h.closed + [m];
    OneMore(h.closed, h.cur.results + [b], [b], m, steps[1..]);
  }

  predicate EndsInResult(steps: seq<Step>) {
    steps != [] && steps[|steps| - 1].ToolResultStep?
  }

  lemma ToolsOpen(steps: seq<Step>)
    ensures AbsorbAll(NoHistory, steps).cur.Tools? <==> EndsInResult(steps)
  {
    if steps != [] {
      var init, last := steps[..|steps| - 1], steps[|steps| - 1];
      assert steps == init + [last];
      AbsorbLast(init, last);
    }
  }

  /** A step of thinking, or of an approval, does not show in the history, wherever it stands;
      but between two results it parts them into two messages. */
  lemma SilentSteps(a: seq<Step>, t: Step, b: seq<Step>)
    requires t.ThinkingStep? || t.ApprovalStep?
    ensures History(a + [t] + b) == History(a + b)
      <==> !(EndsInResult(a) && b != [] && b[0].ToolResultStep?)
    ensures EndsInResult(a) && b != [] && b[0].ToolResultStep? ==>
      |History(a + [t] + b)| == |History(a + b)| + 1
  {
    var h := AbsorbAll(NoHistory, a);
    AbsorbAllConcat(NoHistory, a, b);
    AbsorbAllConcat(NoHistory, a + [t], b);
    AbsorbLast(a, t);
    ToolsOpen(a);
    if h.cur.Tools? && b != [] && b[0].ToolResultStep? {
      OneMoreResult(h, b);
    } else if h.cur.Tools? {
      RunEnds(h, b);
    } else if h.cur.Nothing? {
      assert Messages(h) == h.closed;
    }
  }
}
