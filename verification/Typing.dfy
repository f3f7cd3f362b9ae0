/** What typing, erasing and moving mean to the one at the keyboard. */
module Typing {
  import opened Text
  import opened Editing
  import opened EditTimeline

  /** The same text and the same selection. */
  predicate LooksAs(a: Buffer, b: Buffer) {
    a.text == b.text && a.selection == b.selection
  }

  /** What is typed replaces the selection and stands right before the caret. */
  lemma TypedStandsBeforeCaret(b: Buffer, s: string)
    requires Sound(b) && s != ""
    ensures var r := Inserted(b, s).0;
      var caret := r.selection.caret;
      && Sound(r) && r.selection.IsEmpty()
      && r.text[..caret] == b.text[..b.selection.Start()] + s
      && r.text[caret..] == b.text[b.selection.End()..]
  {
    ReducedSound(b, Insert(s));
    var r := Inserted(b, s).0;
    assert r.text == (b.text[..b.selection.Start()] + s) + b.text[b.selection.End()..];
  }

  lemma TextAtCaret(a: Buffer, b: Buffer)
    requires Sound(a) && Sound(b) && a.selection == b.selection && a.selection.IsEmpty()
    requires var c := a.selection.caret; c <= |b.text| && a.text[..c] == b.text[..c] && a.text[c..] == b.text[c..]
    ensures LooksAs(a, b)
  {
    var c := a.selection.caret;
    assert a.text == a.text[..c] + a.text[c..] && b.text == b.text[..c] + b.text[c..];
  }

  /** Typing one thing and then another is typing the two at once. */
  lemma TypingJoins(b: Buffer, s: string, t: string)
    requires Sound(b) && s != "" && t != ""
    ensures Sound(Inserted(b, s).0)
    ensures LooksAs(Inserted(Inserted(b, s).0, t).0, Inserted(b, s + t).0)
  {
    var once := Inserted(b, s).0;
    TypedStandsBeforeCaret(b, s);
    TypedStandsBeforeCaret(once, t);
    TypedStandsBeforeCaret(b, s + t);
    Associate(b.text[..b.selection.Start()], s, t);
    TextAtCaret(Inserted(once, t).0, Inserted(b, s + t).0);
  }

  /** A backspace takes the char before the caret, and a delete the one behind it. */
  lemma BackspaceTakesBefore(b: Buffer)
    requires Sound(b) && b.selection.IsEmpty() && b.selection.caret > 0
    ensures var r, c := Backspaced(b).0, b.selection.caret;
      && Sound(r) && r.selection == At(c - 1)
      && r.text[..c - 1] == b.text[..c - 1] && r.text[c - 1..] == b.text[c..]
  {
    ReducedSound(b, Backspace);
    var r, c := Backspaced(b).0, b.selection.caret;
    assert r.text == b.text[..c - 1] + b.text[c..];
  }

  lemma DeleteTakesBehind(b: Buffer)
    requires Sound(b) && b.selection.IsEmpty() && b.selection.caret < |b.text|
    ensures var r, c := Deleted(b).0, b.selection.caret;
      && Sound(r) && r.selection == b.selection
      && r.text[..c] == b.text[..c] && r.text[c..] == b.text[c + 1..]
  {
    ReducedSound(b, Delete);
    var r, c := Deleted(b).0, b.selection.caret;
    assert r.text == b.text[..c] + b.text[c + 1..];
  }

  /** At the ends of the text there is nothing to take. */
  lemma NothingToTake(b: Buffer)
    requires Sound(b) && b.selection.IsEmpty()
    ensures b.selection.caret == 0 ==> Backspaced(b) == (b, false)
    ensures b.selection.caret == |b.text| ==> Deleted(b) == (b, false)
  {}

  /** A selection is taken whole by either, and the caret stays where it began. */
  lemma SelectionIsTaken(b: Buffer)
    requires Sound(b) && !b.selection.IsEmpty()
    ensures var start, end := b.selection.Start(), b.selection.End();
      && Backspaced(b) == Deleted(b) && Backspaced(b).1
      && Backspaced(b).0.selection == At(start)
      && |Backspaced(b).0.text| == |b.text| - (end - start)
      && Backspaced(b).0.text[..start] == b.text[..start] && Backspaced(b).0.text[start..] == b.text[end..]
  {
    var start, end := b.selection.Start(), b.selection.End();
    assert Backspaced(b).0.text == b.text[..start] + b.text[end..];
  }

  function Erased(b: Buffer, k: nat): (r: Buffer)
    requires Sound(b)
    ensures Sound(r)
  {
    if k == 0 then b
    else
      var p := Erased(b, k - 1);
      ReducedSound(p, Backspace);
      Backspaced(p).0
  }

  /** The k chars before the caret are gone and nothing else has changed. */
  predicate ErasedBy(b: Buffer, r: Buffer, k: nat)
    requires k <= b.selection.caret <= |b.text|
  {
    var c := b.selection.caret;
    && r.selection == At(c - k) && |r.text| == |b.text| - k
    && r.text[..c - k] == b.text[..c - k] && r.text[c - k..] == b.text[c..]
  }

  lemma OneMoreErased(b: Buffer, p: Buffer, k: nat)
    requires Sound(b) && Sound(p) && b.selection.IsEmpty() && k < b.selection.caret && ErasedBy(b, p, k)
    ensures ErasedBy(b, Backspaced(p).0, k + 1)
  {
    var c := b.selection.caret;
    BackspaceTakesBefore(p);
    assert p.text[..c - k][..c - k - 1] == p.text[..c - k - 1] && b.text[..c - k][..c - k - 1] == b.text[..c - k - 1];
  }

  lemma {:induction false} ErasedMeaning(b: Buffer, k: nat)
    requires Sound(b) && b.selection.IsEmpty() && k <= b.selection.caret
    ensures ErasedBy(b, Erased(b, k), k)
  {
    if k > 0 {
      ErasedMeaning(b, k - 1);
      OneMoreErased(b, Erased(b, k - 1), k - 1);
    }
  }

  lemma ErasedTyped(b: Buffer, x: string, s: string, y: string)
    requires Sound(b) && b.text == x + s + y && b.selection == At(|x| + |s|)
    ensures Erased(b, |s|).text == x + y && Erased(b, |s|).selection == At(|x|)
  {
    ErasedMeaning(b, |s|);
    MiddleOut(b.text, Erased(b, |s|).text, x, s, y);
  }

  lemma MiddleOut(t: string, r: string, x: string, s: string, y: string)
    requires t == x + s + y && |r| == |x| + |y|
    requires r[..|x|] == t[..|x|] && r[|x|..] == t[|x| + |s|..]
    ensures r == x + y
  {
    assert t[..|x|] == x && t[|x| + |s|..] == y;
    assert r == r[..|x|] + r[|x|..];
  }

  /** What was typed at a caret is erased by as many backspaces, text and caret as before. */
  lemma TypeThenErase(b: Buffer, s: string)
    requires Sound(b) && b.selection.IsEmpty() && s != ""
    ensures Sound(Inserted(b, s).0) && LooksAs(Erased(Inserted(b, s).0, |s|), b)
  {
    TypedAtCaret(b, s);
    ErasedAgain(b, Inserted(b, s).0, s);
  }

  lemma ErasedAgain(b: Buffer, r: Buffer, s: string)
    requires Sound(b) && b.selection.IsEmpty() && Sound(r) && r.selection == At(b.selection.caret + |s|)
    requires r.text == b.text[..b.selection.caret] + s + b.text[b.selection.caret..]
    ensures LooksAs(Erased(r, |s|), b)
  {
    var c := b.selection.caret;
    ErasedTyped(r, b.text[..c], s, b.text[c..]);
    Halves(b.text, c);
  }

  lemma TypedAtCaret(b: Buffer, s: string)
    requires Sound(b) && b.selection.IsEmpty() && s != ""
    ensures var r, c := Inserted(b, s).0, b.selection.caret;
      Sound(r) && r.text == b.text[..c] + s + b.text[c..] && r.selection == At(c + |s|)
  {
    ReducedSound(b, Insert(s));
  }

  lemma Halves(t: string, c: nat)
    requires c <= |t|
    ensures t[..c] + t[c..] == t
  {}

  /** A delete is a step to the right and a backspace. */
  lemma DeleteIsRightAndBackspace(b: Buffer)
    requires Sound(b) && b.selection.IsEmpty() && b.selection.caret < |b.text|
    ensures Sound(Moved(b, Right, false))
    ensures LooksAs(Deleted(b).0, Backspaced(Moved(b, Right, false)).0)
  {
    ReducedSound(b, Move(Right, false));
    DeleteTakesBehind(b);
    BackspaceTakesBefore(Moved(b, Right, false));
    TextAtCaret(Deleted(b).0, Backspaced(Moved(b, Right, false)).0);
  }

  /** Text that is composed and committed is text typed, and nothing is left being composed. */
  lemma CommitIsTyping(b: Buffer, s: string)
    requires Sound(b) && s != ""
    ensures var r := Committed(b, s);
      r.1 && LooksAs(r.0, Inserted(b, s).0) && r.0.undo == Inserted(b, s).0.undo && r.0.preedit.None?
  {}

  // --- moving ---

  /** A motion changes no text and nothing of the past; extending keeps the anchor, and not
      extending leaves nothing selected. */
  lemma MotionMovesOnly(b: Buffer, m: Motion, extend: bool)
    requires Sound(b)
    ensures var r := Moved(b, m, extend);
      && r.text == b.text && r.undo == b.undo && r.redo == b.redo && r.preedit == b.preedit
      && (if extend then r.selection.anchor == b.selection.anchor else r.selection.IsEmpty())
  {}

  lemma CaretAfter(b: Buffer, m: Motion, extend: bool)
    requires Sound(b)
    ensures Moved(b, m, extend).selection.caret == Target(b, m, extend)
  {}

  lemma LineAround(text: string, pos: nat)
    requires pos <= |text|
    ensures var line := LineCol(text, pos).0;
      && line < |Lines(text)|
      && var (home, len) := Lines(text)[line];
      && home <= pos <= home + len <= |text|
      && (home == 0 || text[home - 1] == '\n')
      && (home + len == |text| || text[home + len] == '\n')
      && forall p :: home <= p < home + len ==> text[p] != '\n'
  {
    var lines, line := Lines(text), LineCol(text, pos).0;
    LineColAgrees(text, pos);
    LinesMeaning(text);
    LineEnds(text, line);
    if line > 0 { assert lines[line].0 == lines[line - 1].0 + lines[line - 1].1 + 1; }
    if line + 1 == |lines| { assert lines[line].0 + lines[line].1 == |text|; }
  }

  /** Home is the place after the newline before the caret, and End the place of the next one. */
  lemma HomeAndEnd(b: Buffer, extend: bool)
    requires Sound(b)
    ensures var c, t := b.selection.caret, b.text;
      var home, end := Moved(b, Home, extend).selection.caret, Moved(b, End, extend).selection.caret;
      && home <= c <= end <= |t|
      && (forall p :: home <= p < end ==> t[p] != '\n')
      && (home == 0 || t[home - 1] == '\n')
      && (end == |t| || t[end] == '\n')
  {
    LineAround(b.text, b.selection.caret);
  }

  /** One char to either side, or to the end of a selection that is not being extended. */
  lemma LeftAndRight(b: Buffer, extend: bool)
    requires Sound(b)
    ensures var c, sel := b.selection.caret, b.selection;
      var left, right := Moved(b, Left, extend).selection.caret, Moved(b, Right, extend).selection.caret;
      && (extend || sel.IsEmpty() ==> (c > 0 ==> left == c - 1) && (c == 0 ==> left == 0))
      && (extend || sel.IsEmpty() ==> (c < |b.text| ==> right == c + 1) && (c == |b.text| ==> right == c))
      && (!extend && !sel.IsEmpty() ==> left < right && {left, right} == {sel.anchor, sel.caret})
  {}

  lemma RightThenLeft(b: Buffer)
    requires Sound(b) && b.selection.IsEmpty() && b.selection.caret < |b.text|
    ensures Sound(Moved(b, Right, false)) && LooksAs(Moved(Moved(b, Right, false), Left, false), b)
  {
    ReducedSound(b, Move(Right, false));
  }

  /** A step to the left over a word goes over blanks and then over a run without blanks. */
  lemma WordToTheLeft(b: Buffer, extend: bool)
    requires Sound(b)
    ensures var c, t, left := b.selection.caret, b.text, Moved(b, WordLeft, extend).selection.caret;
      && (exists m :: left <= m <= c && (left < m || m == 0) && WordThenBlank(t, left, m, c))
      && (left > 0 ==> IsWhitespace(t[left - 1]))
  {
    var c, t := b.selection.caret, b.text;
    var m := Back(t, c, true);
    var left := Back(t, m, false);
    assert WordThenBlank(t, left, m, c);
  }

  predicate WordThenBlank(t: string, i: nat, m: nat, j: nat)
    requires i <= m <= j <= |t|
  {
    (forall p :: i <= p < m ==> !IsWhitespace(t[p])) && (forall p :: m <= p < j ==> IsWhitespace(t[p]))
  }

  /** And to the right over the rest of a word and the blanks behind it. */
  lemma WordToTheRight(b: Buffer, extend: bool)
    requires Sound(b)
    ensures var c, t, right := b.selection.caret, b.text, Moved(b, WordRight, extend).selection.caret;
      && c <= right <= |t|
      && (exists m :: c <= m <= right && WordThenBlank(t, c, m, right))
      && (right < |t| ==> !IsWhitespace(t[right]) && right > c)
  {
    var c, t := b.selection.caret, b.text;
    var m := Ahead(t, c, false);
    assert WordThenBlank(t, c, m, Ahead(t, m, true));
  }

  lemma EdgesOfText(b: Buffer, extend: bool)
    requires Sound(b)
    ensures Moved(b, BufferStart, extend).selection.caret == 0
    ensures Moved(b, BufferEnd, extend).selection.caret == |b.text|
    ensures LineCol(b.text, b.selection.caret).0 == 0 ==> Moved(b, Up, extend).selection.caret == 0
    ensures LineCol(b.text, b.selection.caret).0 + 1 >= |Lines(b.text)| ==>
      Moved(b, Down, extend).selection.caret == |b.text|
  {}

  /** A step down or up goes to the next line, to the column aimed at or as far as that line
      goes, and keeps aiming there. */
  lemma DownALine(b: Buffer, extend: bool)
    requires Sound(b) && LineCol(b.text, b.selection.caret).0 + 1 < |Lines(b.text)|
    ensures var (line, col) := LineCol(b.text, b.selection.caret);
      var goal, r := if b.goalCol.Some? then b.goalCol.value else col, Moved(b, Down, extend);
      && r.goalCol == Some(goal)
      && LineCol(b.text, r.selection.caret) == (line + 1, Clamp(goal, Lines(b.text)[line + 1].1))
  {
    var (line, col) := LineCol(b.text, b.selection.caret);
    DownOne(b, extend, line, GoalOf(b));
    LineColOfPlace(b.text, line + 1, Clamp(GoalOf(b), Lines(b.text)[line + 1].1));
  }

  lemma UpALine(b: Buffer, extend: bool)
    requires Sound(b) && LineCol(b.text, b.selection.caret).0 > 0
    ensures var (line, col) := LineCol(b.text, b.selection.caret);
      var goal, r := if b.goalCol.Some? then b.goalCol.value else col, Moved(b, Up, extend);
      && r.goalCol == Some(goal) && line <= |Lines(b.text)|
      && LineCol(b.text, r.selection.caret) == (line - 1, Clamp(goal, Lines(b.text)[line - 1].1))
  {
    var (line, col) := LineCol(b.text, b.selection.caret);
    LineColAgrees(b.text, b.selection.caret);
    UpOne(b, extend, line, GoalOf(b));
    LineColOfPlace(b.text, line - 1, Clamp(GoalOf(b), Lines(b.text)[line - 1].1));
  }

  /** The column aimed at is forgotten by any other motion and by every change of the text. */
  lemma GoalIsForgotten(b: Buffer, e: EditEvent)
    requires Sound(b)
    ensures e.Move? && !e.motion.Up? && !e.motion.Down? ==> Reduced(b, e).0.goalCol.None?
    ensures Reduced(b, e).1 ==> Reduced(b, e).0.goalCol.None?
  {}

  // --- composing ---

  /** What is being composed is shown until it is committed or taken back, and changes nothing
      of the text; an empty commit only ends it. */
  lemma ComposingChangesNothing(b: Buffer, p: Option<Preedit>)
    requires Sound(b)
    ensures var r := Reduced(b, SetPreedit(p));
      && r.0.preedit == p && !r.1
      && r.0 == b.(preedit := p, version := r.0.version)
    ensures var r := Reduced(b, CommitIme(""));
      && r.0.preedit.None? && !r.1
      && r.0 == b.(preedit := None, version := r.0.version)
    ensures forall e: EditEvent :: !e.SetPreedit? && !e.CommitIme? ==> Reduced(b, e).0.preedit == b.preedit
  {}

  // --- the version ---

  /** The version moves by at most one, and when it stays nothing that shows has changed. */
  lemma VersionTells(b: Buffer, e: EditEvent)
    requires Sound(b)
    ensures var r := Reduced(b, e).0;
      && (r.version == b.version || r.version == Bumped(b.version))
      && (r.version == b.version ==> LooksAs(r, b) && r.preedit == b.preedit)
  {}
}
