/** What undo, redo and caret motion promise, over every sequence of edits. */
module EditTimeline {
  import opened Text
  import opened Editing

  function AfterEvents(b: Buffer, es: seq<EditEvent>): Buffer
    requires Sound(b)
    decreases |es|
  {
    if es == [] then b
    else
      ReducedSound(b, es[0]);
      AfterEvents(Reduced(b, es[0]).0, es[1..])
  }

  lemma EditedSound(b: Buffer, start: nat, end: nat, text: string)
    requires Sound(b) && start <= end <= |b.text|
    ensures Sound(Edited(b, start, end, text))
  {}

  lemma TargetInText(b: Buffer, m: Motion, extend: bool)
    requires Sound(b)
    ensures Target(b, m, extend) <= |b.text|
  {
    var line := LineCol(b.text, b.selection.caret).0;
    LineColAgrees(b.text, b.selection.caret);
    LineEnds(b.text, line);
    if line + 1 < |Lines(b.text)| { LineEnds(b.text, line + 1); }
    if line > 0 { LineEnds(b.text, line - 1); }
  }

  /** Every event keeps all offsets inside their texts and both stacks together within the
      cap, though only a new edit ever trims. */
  lemma ReducedSound(b: Buffer, e: EditEvent)
    requires Sound(b)
    ensures Sound(Reduced(b, e).0)
  {
    match e {
      case Insert(text) => if text != "" { EditedSound(b, b.selection.Start(), b.selection.End(), text); }
      case Backspace =>
        if !b.selection.IsEmpty() { EditedSound(b, b.selection.Start(), b.selection.End(), ""); }
        else if b.selection.caret > 0 { EditedSound(b, b.selection.caret - 1, b.selection.caret, ""); }
      case Delete =>
        if !b.selection.IsEmpty() { EditedSound(b, b.selection.Start(), b.selection.End(), ""); }
        else if b.selection.caret < |b.text| { EditedSound(b, b.selection.caret, b.selection.caret + 1, ""); }
      case Move(m, extend) => TargetInText(b, m, extend);
      case CommitIme(text) =>
        if text != "" { EditedSound(b.(preedit := None), b.selection.Start(), b.selection.End(), text); }
      case _ =>
    }
  }

  lemma {:induction false} ReachableSound(text: string, es: seq<EditEvent>)
    ensures Sound(FromText(text)) && Sound(AfterEvents(FromText(text), es))
  {
    SoundAfter(FromText(text), es);
  }

  lemma {:induction false} SoundAfter(b: Buffer, es: seq<EditEvent>)
    requires Sound(b)
    ensures Sound(AfterEvents(b, es))
    decreases |es|
  {
    if es != [] {
      ReducedSound(b, es[0]);
      SoundAfter(Reduced(b, es[0]).0, es[1..]);
    }
  }

  // --- undo and redo walk one timeline ---

  function Reverse(xs: seq<Snapshot>): (r: seq<Snapshot>)
    ensures |r| == |xs|
    ensures forall i :: 0 <= i < |xs| ==> r[i] == xs[|xs| - 1 - i]
  {
    seq(|xs|, i requires 0 <= i < |xs| => xs[|xs| - 1 - i])
  }

  /** Past, present and future, oldest first; the present is at index `|undo|`. */
  function Timeline(b: Buffer): seq<Snapshot> {
    b.undo + [Now(b)] + Reverse(b.redo)
  }

  function Position(b: Buffer): nat { |b.undo| }

  /** Timeline and position determine everything undo and redo act on. */
  lemma TimelineDetermines(a: Buffer, b: Buffer)
    requires Timeline(a) == Timeline(b) && Position(a) == Position(b)
    ensures a.text == b.text && a.selection == b.selection && a.undo == b.undo && a.redo == b.redo
  {
    var t := Timeline(a);
    assert a.undo == t[..Position(a)] == b.undo;
    assert Now(a) == t[Position(a)] == Now(b);
    assert Reverse(a.redo) == t[Position(a) + 1..] == Reverse(b.redo);
    assert |a.redo| == |Reverse(a.redo)| == |b.redo|;
    forall i | 0 <= i < |a.redo| ensures a.redo[i] == b.redo[i] {
      assert a.redo[i] == Reverse(a.redo)[|a.redo| - 1 - i];
    }
  }

  lemma UndoMovesBack(b: Buffer)
    requires b.undo != []
    ensures Timeline(Undone(b).0) == Timeline(b) && Position(Undone(b).0) == Position(b) - 1
  {
    var u, s := Undone(b).0, b.undo[|b.undo| - 1];
    assert b.undo == u.undo + [s];
    assert Reverse(u.redo) == [Now(b)] + Reverse(b.redo);
  }

  lemma RedoMovesForward(b: Buffer)
    requires b.redo != []
    ensures Timeline(Redone(b).0) == Timeline(b) && Position(Redone(b).0) == Position(b) + 1
  {
    var r, s := Redone(b).0, b.redo[|b.redo| - 1];
    assert Reverse(b.redo) == [s] + Reverse(r.redo);
  }

  function Undos(b: Buffer, k: nat): Buffer {
    if k == 0 then b else Undone(Undos(b, k - 1)).0
  }

  function Redos(b: Buffer, k: nat): Buffer {
    if k == 0 then b else Redone(Redos(b, k - 1)).0
  }

  lemma {:induction false} UndosMeaning(b: Buffer, k: nat)
    requires k <= |b.undo|
    ensures Timeline(Undos(b, k)) == Timeline(b) && Position(Undos(b, k)) == Position(b) - k
  {
    if k > 0 {
      UndosMeaning(b, k - 1);
      UndoMovesBack(Undos(b, k - 1));
    }
  }

  lemma {:induction false} RedosMeaning(b: Buffer, k: nat)
    requires k <= |b.redo|
    ensures Timeline(Redos(b, k)) == Timeline(b) && Position(Redos(b, k)) == Position(b) + k
  {
    if k > 0 {
      RedosMeaning(b, k - 1);
      assert |Timeline(Redos(b, k - 1))| == |b.undo| + 1 + |b.redo|;
      RedoMovesForward(Redos(b, k - 1));
    }
  }

  /** `k` undos and then `k` redos change nothing but the goal column and the version, and
      so do `k` redos and then `k` undos. */
  lemma UndosThenRedos(b: Buffer, k: nat)
    requires k <= |b.undo|
    ensures var r := Redos(Undos(b, k), k);
      r.text == b.text && r.selection == b.selection && r.undo == b.undo && r.redo == b.redo
  {
    UndosMeaning(b, k);
    assert |Timeline(Undos(b, k))| == |b.undo| + 1 + |b.redo|;
    RedosMeaning(Undos(b, k), k);
    TimelineDetermines(Redos(Undos(b, k), k), b);
  }

  lemma RedosThenUndos(b: Buffer, k: nat)
    requires k <= |b.redo|
    ensures var r := Undos(Redos(b, k), k);
      r.text == b.text && r.selection == b.selection && r.undo == b.undo && r.redo == b.redo
  {
    RedosMeaning(b, k);
    UndosMeaning(Redos(b, k), k);
    TimelineDetermines(Undos(Redos(b, k), k), b);
  }

  predicate IsEdit(e: EditEvent) {
    e.Insert? || e.Backspace? || e.Delete? || e.CommitIme?
  }

  /** An edit cuts the future off and appends the new present; at the cap the oldest entry
      falls off the past. */
  lemma EditExtendsTimeline(b: Buffer, e: EditEvent)
    requires Sound(b) && IsEdit(e) && Reduced(b, e).1
    ensures var (after, _) := Reduced(b, e);
      Timeline(after) == (if |b.undo| < MAX_UNDO then b.undo else b.undo[1..]) + [Now(b), Now(after)]
    ensures Position(Reduced(b, e).0) >= 1
  {
    assert Reverse([]) == [];
  }

  /** An edit followed by an undo gives back the exact text and selection, even when the
      edit dropped the oldest entry. */
  lemma EditThenUndo(b: Buffer, e: EditEvent)
    requires Sound(b) && IsEdit(e) && Reduced(b, e).1
    ensures var after := Reduced(b, e).0;
      var u := Undone(after).0;
      && u.text == b.text && u.selection == b.selection
      && u.undo == (if |b.undo| < MAX_UNDO then b.undo else b.undo[1..])
      && u.redo == [Now(after)]
  {
    var after := Reduced(b, e).0;
    assert after.undo[|after.undo| - 1] == Now(b);
    assert after.redo == [];
  }

  /** When an event reports no change, the text is as it was. */
  lemma UnreportedKeepsText(b: Buffer, e: EditEvent)
    requires Sound(b) && !Reduced(b, e).1
    ensures Reduced(b, e).0.text == b.text && Reduced(b, e).0.undo == b.undo && Reduced(b, e).0.redo == b.redo
  {}

  /** The event puts back the very text that is there: typed or committed over an equal
      selection, or taken from a snapshot with an equal text. */
  predicate Replays(b: Buffer, e: EditEvent)
    requires Sound(b)
  {
    match e
    case Insert(text) => text != "" && b.text[b.selection.Start()..b.selection.End()] == text
    case CommitIme(text) => text != "" && b.text[b.selection.Start()..b.selection.End()] == text
    case Undo => b.undo != [] && b.undo[|b.undo| - 1].text == b.text
    case Redo => b.redo != [] && b.redo[|b.redo| - 1].text == b.text
    case _ => false
  }

  lemma SplicedSame(s: string, start: nat, end: nat, t: string)
    requires start <= end <= |s|
    ensures s[..start] + t + s[end..] == s <==> s[start..end] == t
  {
    var spliced := s[..start] + t + s[end..];
    assert s == s[..start] + s[start..end] + s[end..];
    if spliced == s {
      assert |t| == end - start;
      assert spliced[start..end] == t;
    }
  }

  /** The report says whether the text changed, as it is documented to, exactly for the events
      that do not put the same text back. */
  lemma ReportIsTrue(b: Buffer, e: EditEvent)
    requires Sound(b)
    ensures (Reduced(b, e).1 <==> Reduced(b, e).0.text != b.text) <==> !Replays(b, e)
  {
    var start, end := b.selection.Start(), b.selection.End();
    match e {
      case Insert(text) => SplicedSame(b.text, start, end, text);
      case CommitIme(text) => SplicedSame(b.text, start, end, text);
      case Backspace => SplicedSame(b.text, start, end, "");
      case Delete => SplicedSame(b.text, start, end, "");
      case _ =>
    }
  }

  /** Typing `a` over a selected `a` reports a change and changes nothing in the text. */
  lemma ChangeReportedForNone()
    ensures Sound(FromText("a"))
    ensures var b := AfterEvents(FromText("a"), [Move(BufferEnd, true)]);
      Sound(b) && Reduced(b, Insert("a")).1 && Reduced(b, Insert("a")).0.text == b.text
  {
    var b, e := FromText("a"), Move(BufferEnd, true);
    ReducedSound(b, e);
    var moved := Moved(b, BufferEnd, true);
    assert AfterEvents(b, [e]) == AfterEvents(moved, []);
    assert moved.selection == Selection(0, 1);
    assert "a"[0..1] == "a";
    assert Replays(moved, Insert("a"));
    ReportIsTrue(moved, Insert("a"));
  }

  // --- vertical motion ---

  function Steps(b: Buffer, m: Motion, extend: bool, k: nat): (r: Buffer)
    requires Sound(b)
    ensures Sound(r)
  {
    if k == 0 then b
    else
      var p := Steps(b, m, extend, k - 1);
      ReducedSound(p, Move(m, extend));
      Moved(p, m, extend)
  }

  /** The caret is on line `line`, as near to column `goal` as the line allows. */
  predicate Placed(b: Buffer, text: string, line: nat, goal: nat)
  {
    && b.text == text && b.goalCol == Some(goal) && line < |Lines(text)|
    && b.selection.caret == Lines(text)[line].0 + Clamp(goal, Lines(text)[line].1)
  }

  lemma DownOne(b: Buffer, extend: bool, line: nat, goal: nat)
    requires Sound(b) && line + 1 < |Lines(b.text)|
    requires LineCol(b.text, b.selection.caret).0 == line && GoalOf(b) == goal
    ensures Placed(Moved(b, Down, extend), b.text, line + 1, goal)
  {}

  lemma UpOne(b: Buffer, extend: bool, line: nat, goal: nat)
    requires Sound(b) && 0 < line < |Lines(b.text)|
    requires LineCol(b.text, b.selection.caret).0 == line && GoalOf(b) == goal
    ensures Placed(Moved(b, Up, extend), b.text, line - 1, goal)
  {}

  lemma PlacedAt(b: Buffer, text: string, line: nat, goal: nat)
    requires Placed(b, text, line, goal)
    ensures LineCol(b.text, b.selection.caret).0 == line && GoalOf(b) == goal
  {
    LineColOfPlace(text, line, Clamp(goal, Lines(text)[line].1));
  }

  lemma {:induction false} DownSteps(b: Buffer, extend: bool, k: nat)
    requires Sound(b) && k > 0
    requires LineCol(b.text, b.selection.caret).0 + k < |Lines(b.text)|
    ensures Placed(Steps(b, Down, extend, k), b.text, LineCol(b.text, b.selection.caret).0 + k, GoalOf(b))
    decreases k
  {
    var line, goal := LineCol(b.text, b.selection.caret).0, GoalOf(b);
    if k == 1 {
      DownFirst(b, extend, line, goal);
    } else {
      DownSteps(b, extend, k - 1);
      DownFromPlace(Steps(b, Down, extend, k - 1), extend, b.text, line + k - 1, goal);
    }
  }

  lemma DownFirst(b: Buffer, extend: bool, line: nat, goal: nat)
    requires Sound(b) && line + 1 < |Lines(b.text)|
    requires LineCol(b.text, b.selection.caret).0 == line && GoalOf(b) == goal
    ensures Placed(Steps(b, Down, extend, 1), b.text, line + 1, goal)
  {
    assert Steps(b, Down, extend, 0) == b;
    DownOne(b, extend, line, goal);
  }

  lemma DownFromPlace(p: Buffer, extend: bool, text: string, line: nat, goal: nat)
    requires Sound(p) && Placed(p, text, line, goal) && line + 1 < |Lines(text)|
    ensures Placed(Moved(p, Down, extend), text, line + 1, goal)
  {
    PlacedAt(p, text, line, goal);
    DownOne(p, extend, line, goal);
  }

  lemma {:induction false} UpSteps(b: Buffer, extend: bool, text: string, line: nat, goal: nat, k: nat)
    requires Sound(b) && Placed(b, text, line, goal) && k <= line
    ensures Placed(Steps(b, Up, extend, k), text, line - k, goal)
  {
    if k > 0 {
      var p := Steps(b, Up, extend, k - 1);
      UpSteps(b, extend, text, line, goal, k - 1);
      PlacedAt(p, text, line - (k - 1), goal);
      UpOne(p, extend, line - (k - 1), goal);
    }
  }

  /** With `k` lines below, `k` steps down and `k` back up, however short the lines on the
      way, return the caret to where it was exactly when the goal column is unset or agrees
      with the caret's column as far as its line allows. */
  lemma DownThenUp(b: Buffer, extend: bool, k: nat)
    requires Sound(b) && k > 0
    requires LineCol(b.text, b.selection.caret).0 + k < |Lines(b.text)|
    ensures var (line, col) := LineCol(b.text, b.selection.caret);
      var back := Steps(Steps(b, Down, extend, k), Up, extend, k);
      && line < |Lines(b.text)|
      && (back.selection.caret == b.selection.caret
          <==> b.goalCol.None? || Clamp(b.goalCol.value, Lines(b.text)[line].1) == col)
      && back.text == b.text
  {
    var (line, col) := LineCol(b.text, b.selection.caret);
    LineColAgrees(b.text, b.selection.caret);
    DownSteps(b, extend, k);
    UpSteps(Steps(b, Down, extend, k), extend, b.text, line + k, GoalOf(b), k);
  }
}
