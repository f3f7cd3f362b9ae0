/**
 The editor buffer: fields changed in place, step by step, each method
 tied to the function of the old state that the timeline lemmas speak about.
*/
module EditBuffers {
  import opened Text
  import opened Editing

  class EditBuffer {
    var text: string
    var selection: Selection
    var goalCol: Option<nat>
    var undo: seq<Snapshot>
    var redo: seq<Snapshot>
    var preedit: Option<Preedit>
    var version: nat

    ghost function State(): Buffer
      reads this
    {
      Buffer(text, selection, goalCol, undo, redo, preedit, version)
    }

    constructor (text: string)
      ensures State() == FromText(text)
    {
      this.text, selection, goalCol, undo, redo, preedit, version := text, At(0), None, [], [], None, 0;
    }

    /** Apply one edit; the result says whether the committed text may have changed. */
    method Reduce(e: EditEvent) returns (changed: bool)
      requires Sound(State())
      modifies this
      ensures (State(), changed) == Reduced(old(State()), e)
    {
      match e {
        case Insert(t) => changed := DoInsert(t);
        case Backspace => changed := DoBackspace();
        case Delete => changed := DoDelete();
        case Move(m, extend) =>
          MoveCaret(m, extend);
          changed := false;
        case Undo => changed := DoUndo();
        case Redo => changed := DoRedo();
        case SetPreedit(p) =>
          if preedit != p {
            preedit := p;
            Bump();
          }
          changed := false;
        case CommitIme(t) =>
          var had := preedit.Some?;
          preedit := None;
          if t == "" {
            if had { Bump(); }
            changed := false;
          } else {
            changed := DoInsert(t);
          }
      }
    }

    method Bump()
      modifies this`version
      ensures version == Bumped(old(version))
    {
      version := (version + 1) % VERSION_MODULUS;
    }

    method PushUndo()
      requires Sound(State())
      modifies this`undo, this`redo
      ensures undo == Pushed(old(undo), Snapshot(text, selection)) && redo == []
    {
      undo := undo + [Snapshot(text, selection)];
      if |undo| > MAX_UNDO {
        undo := undo[1..];
      }
      redo := [];
    }

    method DeleteSelection()
      requires selection.End() <= |text|
      modifies this`text, this`selection
      ensures text == old(text)[..old(selection).Start()] + old(text)[old(selection).End()..]
      ensures selection == At(old(selection).Start())
    {
      if selection.IsEmpty() {
        assert text == text[..selection.Start()] + text[selection.End()..];
        return;
      }
      var start, end := selection.Start(), selection.End();
      text := text[..start] + text[end..];
      selection := At(start);
    }

    method DoInsert(t: string) returns (changed: bool)
      requires Sound(State())
      modifies this
      ensures (State(), changed) == Inserted(old(State()), t)
    {
      if t == "" {
        return false;
      }
      PushUndo();
      DeleteSelection();
      ghost var start, end := old(selection).Start(), old(selection).End();
      assert text[..selection.caret] == old(text)[..start] && text[selection.caret..] == old(text)[end..];
      text := text[..selection.caret] + t + text[selection.caret..];
      selection := At(selection.caret + |t|);
      goalCol := None;
      Bump();
      changed := true;
    }

    method DoBackspace() returns (changed: bool)
      requires Sound(State())
      modifies this
      ensures (State(), changed) == Backspaced(old(State()))
    {
      if !selection.IsEmpty() {
        changed := RemoveSelection();
        return;
      }
      if selection.caret == 0 {
        return false;
      }
      PushUndo();
      var caret := selection.caret;
      text := text[..caret - 1] + text[caret..];
      assert text == old(text)[..caret - 1] + "" + old(text)[caret..];
      selection := At(caret - 1);
      goalCol := None;
      Bump();
      changed := true;
    }

    method DoDelete() returns (changed: bool)
      requires Sound(State())
      modifies this
      ensures (State(), changed) == Deleted(old(State()))
    {
      if !selection.IsEmpty() {
        changed := RemoveSelection();
        return;
      }
      if selection.caret >= |text| {
        return false;
      }
      PushUndo();
      var caret := selection.caret;
      text := text[..caret] + text[caret + 1..];
      assert text == old(text)[..caret] + "" + old(text)[caret + 1..];
      goalCol := None;
      Bump();
      changed := true;
    }

    method RemoveSelection() returns (changed: bool)
      requires Sound(State()) && !selection.IsEmpty()
      modifies this
      ensures (State(), changed) == (Edited(old(State()), old(selection).Start(), old(selection).End(), ""), true)
    {
      PushUndo();
      DeleteSelection();
      ghost var start, end := old(selection).Start(), old(selection).End();
      assert text == old(text)[..start] + "" + old(text)[end..];
      goalCol := None;
      Bump();
      changed := true;
    }

    method DoUndo() returns (changed: bool)
      modifies this
      ensures (State(), changed) == Undone(old(State()))
    {
      if undo == [] {
        return false;
      }
      var previous := undo[|undo| - 1];
      undo := undo[..|undo| - 1];
      redo := redo + [Snapshot(text, selection)];
      text, selection, goalCol := previous.text, previous.selection, None;
      Bump();
      changed := true;
    }

    method DoRedo() returns (changed: bool)
      modifies this
      ensures (State(), changed) == Redone(old(State()))
    {
      if redo == [] {
        return false;
      }
      var next := redo[|redo| - 1];
      redo := redo[..|redo| - 1];
      undo := undo + [Snapshot(text, selection)];
      text, selection, goalCol := next.text, next.selection, None;
      Bump();
      changed := true;
    }

    method MoveCaret(m: Motion, extend: bool)
      requires Sound(State())
      modifies this
      ensures State() == Moved(old(State()), m, extend)
    {
      var before := selection;
      var target: nat := 0;
      if m.Up? || m.Down? {
        target := Vertical(m.Down?);
      } else {
        target := Horizontal(m, extend);
        goalCol := None;
      }
      selection := Selection(if extend then selection.anchor else target, target);
      if selection != before {
        Bump();
      }
    }

    method Horizontal(m: Motion, extend: bool) returns (target: nat)
      requires Sound(State()) && !m.Up? && !m.Down?
      ensures target == Target(State(), m, extend)
    {
      var caret := selection.caret;
      match m {
        case Left =>
          target := if !extend && !selection.IsEmpty() then selection.Start() else if caret == 0 then 0 else caret - 1;
        case Right =>
          target := if !extend && !selection.IsEmpty() then selection.End() else Clamp(caret + 1, |text|);
        case WordLeft => target := FindWordLeft(text, caret);
        case WordRight => target := FindWordRight(text, caret);
        case Home =>
          var start, len := CaretLine();
          target := start;
        case End =>
          var start, len := CaretLine();
          target := start + len;
        case BufferStart => target := 0;
        case BufferEnd => target := |text|;
      }
    }

    method CaretLine() returns (start: nat, len: nat)
      requires Sound(State())
      ensures LineCol(text, selection.caret).0 < |Lines(text)|
      ensures (start, len) == Lines(text)[LineCol(text, selection.caret).0]
    {
      LineColAgrees(text, selection.caret);
      var line, col := LineColAt(text, selection.caret);
      var lines := AllLines(text);
      start, len := lines[line].0, lines[line].1;
    }

    method Vertical(down: bool) returns (target: nat)
      requires Sound(State())
      modifies this`goalCol
      ensures goalCol == Some(GoalOf(old(State())))
      ensures target == VerticalTarget(old(State()), down)
    {
      LineColAgrees(text, selection.caret);
      var lines := AllLines(text);
      var line, col := LineColAt(text, selection.caret);
      var goal := goalCol.GetOr(col);
      goalCol := Some(goal);
      if down {
        target := if line + 1 >= |lines| then |text| else lines[line + 1].0 + Clamp(goal, lines[line + 1].1);
      } else if line == 0 {
        target := 0;
      } else {
        target := lines[line - 1].0 + Clamp(goal, lines[line - 1].1);
      }
    }

    /** Hand over the text and start afresh. */
    method Take() returns (taken: string)
      modifies this
      ensures taken == old(text)
      ensures State()
           == FromText("").(version := if Untouched(old(State())) then old(version) else Bumped(old(version)))
    {
      taken := text;
      text := "";
      var changed := taken != "" || !selection.IsEmpty() || undo != [] || redo != [] || preedit.Some?;
      selection, goalCol, undo, redo, preedit := At(0), None, [], [], None;
      if changed {
        Bump();
      }
    }
  }

  /** Nothing typed, selected, remembered or being composed. */
  predicate Untouched(b: Buffer) {
    b.text == "" && b.selection.IsEmpty() && b.undo == [] && b.redo == [] && b.preedit.None?
  }
}
