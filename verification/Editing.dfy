/** The text editor buffer; offsets count characters. */
module Editing {
  import opened Text

  const MAX_UNDO := 1024
  const VERSION_MODULUS := 0x1_0000_0000_0000_0000

  datatype Selection = Selection(anchor: nat, caret: nat) {
    predicate IsEmpty() { anchor == caret }
    function Start(): nat { if anchor < caret then anchor else caret }
    function End(): nat { if anchor < caret then caret else anchor }
  }

  function At(pos: nat): Selection { Selection(pos, pos) }

  datatype Motion = Left | Right | WordLeft | WordRight | Home | End | BufferStart | BufferEnd | Up | Down

  datatype Preedit = Preedit(text: string, cursor: Option<(nat, nat)>)

  datatype EditEvent =
    | Insert(text: string) | Backspace | Delete | Move(motion: Motion, extend: bool)
    | Undo | Redo | SetPreedit(preedit: Option<Preedit>) | CommitIme(committed: string)

  /** What an undo restores. */
  datatype Snapshot = Snapshot(text: string, selection: Selection)

  // --- lines ---

  /** Line number and column of a position, by counting from the start. */
  function LineCol(text: string, pos: nat): (r: (nat, nat))
    decreases pos
  {
    if pos == 0 then (0, 0)
    else if pos > |text| then LineCol(text, |text|)
    else
      var (line, col) := LineCol(text, pos - 1);
      if text[pos - 1] == '\n' then (line + 1, 0) else (line, col + 1)
  }

  /** Each line as its start and its length, newline excluded. */
  function Lines(text: string): (r: seq<(nat, nat)>)
    ensures |r| >= 1
  {
    if text == "" then [(0, 0)]
    else
      var before := Lines(text[..|text| - 1]);
      var (start, len) := before[|before| - 1];
      if text[|text| - 1] == '\n' then before + [(|text|, 0)]
      else before[|before| - 1 := (start, len + 1)]
  }

  method LineColAt(text: string, pos: nat) returns (line: nat, col: nat)
    ensures (line, col) == LineCol(text, pos)
  {
    line, col := 0, 0;
    var n := if pos < |text| then pos else |text|;
    for i := 0 to n
      invariant (line, col) == LineCol(text, i)
    {
      if text[i] == '\n' {
        line, col := line + 1, 0;
      } else {
        col := col + 1;
      }
    }
  }

  method AllLines(text: string) returns (lines: seq<(nat, nat)>)
    ensures lines == Lines(text)
  {
    lines := [];
    var start, count: nat := 0, 0;
    assert text[..0] == "";
    for i := 0 to |text|
      invariant lines + [(start, count)] == Lines(text[..i])
    {
      assert text[..i + 1][..i] == text[..i];
      var all := lines + [(start, count)];
      if text[i] == '\n' {
        lines := lines + [(start, count)];
        start, count := i + 1, 0;
      } else {
        assert all[|all| - 1 := (start, count + 1)] == lines + [(start, count + 1)];
        count := count + 1;
      }
    }
    assert text[..|text|] == text;
    lines := lines + [(start, count)];
  }

  /** Lines cover the text in order, one newline between neighbours. */
  ghost predicate LinesTile(text: string, lines: seq<(nat, nat)>) {
    && |lines| >= 1 && lines[0].0 == 0
    && (forall i :: 0 <= i < |lines| - 1 ==> lines[i + 1].0 == lines[i].0 + lines[i].1 + 1)
    && lines[|lines| - 1].0 + lines[|lines| - 1].1 == |text|
    && (forall i :: 0 <= i < |lines| - 1 ==> lines[i].0 + lines[i].1 < |text| && text[lines[i].0 + lines[i].1] == '\n')
    && (forall i, p :: 0 <= i < |lines| && lines[i].0 <= p < lines[i].0 + lines[i].1 ==> p < |text| && text[p] != '\n')
  }

  lemma TileNewline(text: string, lines: seq<(nat, nat)>)
    requires LinesTile(text, lines)
    ensures LinesTile(text + ['\n'], lines + [(|text| + 1, 0)])
  {}

  lemma TileChar(text: string, lines: seq<(nat, nat)>, c: char)
    requires LinesTile(text, lines) && c != '\n'
    ensures var last := |lines| - 1; LinesTile(text + [c], lines[last := (lines[last].0, lines[last].1 + 1)])
  {}

  lemma {:induction false} LinesMeaning(text: string)
    ensures LinesTile(text, Lines(text))
    decreases |text|
  {
    if text != "" {
      LinesMeaning(text[..|text| - 1]);
      TileGrown(text[..|text| - 1], text[|text| - 1]);
      assert text == text[..|text| - 1] + [text[|text| - 1]];
    }
  }

  lemma LinesAppend(init: string, c: char)
    ensures var before := Lines(init);
      var last := |before| - 1;
      Lines(init + [c]) == if c == '\n' then before + [(|init| + 1, 0)]
                           else before[last := (before[last].0, before[last].1 + 1)]
  {
    assert (init + [c])[..|init|] == init;
  }

  lemma TileGrown(init: string, c: char)
    requires LinesTile(init, Lines(init))
    ensures LinesTile(init + [c], Lines(init + [c]))
  {
    LinesAppend(init, c);
    if c == '\n' { TileNewline(init, Lines(init)); } else { TileChar(init, Lines(init), c); }
  }

  /** Where a position sits on its line: `LineCol` and `Lines` agree. */
  lemma {:induction false} LineColAgrees(text: string, pos: nat)
    requires pos <= |text|
    ensures var (line, col) := LineCol(text, pos);
      && line < |Lines(text)|
      && Lines(text)[line].0 + col == pos
      && col <= Lines(text)[line].1
    decreases pos
  {
    LinesMeaning(text);
    if pos > 0 {
      LineColAgrees(text, pos - 1);
    }
  }

  /** And back: the place at a column of a line is at that line and column. */
  lemma LineColOfPlace(text: string, line: nat, col: nat)
    requires line < |Lines(text)| && col <= Lines(text)[line].1
    ensures Lines(text)[line].0 + col <= |text|
    ensures LineCol(text, Lines(text)[line].0 + col) == (line, col)
  {
    var lines := Lines(text);
    LinesMeaning(text);
    LineEnds(text, line);
    var pos := lines[line].0 + col;
    LineColAgrees(text, pos);
    var (l, c) := LineCol(text, pos);
    if l < line { LineStarts(text, l, line); }
    if line < l { LineStarts(text, line, l); }
  }

  lemma LineEnds(text: string, line: nat)
    requires line < |Lines(text)|
    ensures Lines(text)[line].0 + Lines(text)[line].1 <= |text|
  {
    LinesMeaning(text);
  }

  lemma {:induction false} LineStarts(text: string, a: nat, b: nat)
    requires a < b < |Lines(text)|
    ensures Lines(text)[a].0 + Lines(text)[a].1 < Lines(text)[b].0
    decreases b
  {
    LinesMeaning(text);
    if a < b - 1 { LineStarts(text, a, b - 1); }
  }

  // --- words ---

  /** Back over chars that are, or are not, whitespace. */
  function Back(text: string, i: nat, ws: bool): (r: nat)
    requires i <= |text|
    ensures r <= i
    ensures forall p :: r <= p < i ==> IsWhitespace(text[p]) == ws
    ensures r > 0 ==> IsWhitespace(text[r - 1]) != ws
  {
    if i > 0 && IsWhitespace(text[i - 1]) == ws then Back(text, i - 1, ws) else i
  }

  function Ahead(text: string, i: nat, ws: bool): (r: nat)
    requires i <= |text|
    ensures i <= r <= |text|
    ensures forall p :: i <= p < r ==> IsWhitespace(text[p]) == ws
    ensures r < |text| ==> IsWhitespace(text[r]) != ws
    decreases |text| - i
  {
    if i < |text| && IsWhitespace(text[i]) == ws then Ahead(text, i + 1, ws) else i
  }

  function Clamp(i: nat, n: nat): nat { if i < n then i else n }

  function WordLeftOf(text: string, pos: nat): nat {
    Back(text, Back(text, Clamp(pos, |text|), true), false)
  }

  function WordRightOf(text: string, pos: nat): nat {
    Ahead(text, Ahead(text, Clamp(pos, |text|), false), true)
  }

  method FindWordLeft(text: string, pos: nat) returns (i: nat)
    ensures i == WordLeftOf(text, pos)
  {
    i := Clamp(pos, |text|);
    while i > 0 && IsWhitespace(text[i - 1])
      invariant i <= |text| && Back(text, i, true) == Back(text, Clamp(pos, |text|), true)
    {
      i := i - 1;
    }
    while i > 0 && !IsWhitespace(text[i - 1])
      invariant i <= |text| && Back(text, i, false) == WordLeftOf(text, pos)
    {
      i := i - 1;
    }
  }

  method FindWordRight(text: string, pos: nat) returns (i: nat)
    ensures i == WordRightOf(text, pos)
  {
    i := Clamp(pos, |text|);
    while i < |text| && !IsWhitespace(text[i])
      invariant i <= |text| && Ahead(text, i, false) == Ahead(text, Clamp(pos, |text|), false)
    {
      i := i + 1;
    }
    while i < |text| && IsWhitespace(text[i])
      invariant i <= |text| && Ahead(text, i, true) == WordRightOf(text, pos)
    {
      i := i + 1;
    }
  }

  // --- the buffer as a value ---

  datatype Buffer = Buffer(
    text: string,
    selection: Selection,
    goalCol: Option<nat>,
    undo: seq<Snapshot>,
    redo: seq<Snapshot>,
    preedit: Option<Preedit>,
    version: nat)

  function Bumped(v: nat): nat { (v + 1) % VERSION_MODULUS }

  function Now(b: Buffer): Snapshot { Snapshot(b.text, b.selection) }

  predicate FitsText(s: Snapshot) {
    s.selection.anchor <= |s.text| && s.selection.caret <= |s.text|
  }

  predicate Sound(b: Buffer) {
    && FitsText(Now(b))
    && (forall i :: 0 <= i < |b.undo| ==> FitsText(b.undo[i]))
    && (forall i :: 0 <= i < |b.redo| ==> FitsText(b.redo[i]))
    && |b.undo| + |b.redo| <= MAX_UNDO
    && b.version < VERSION_MODULUS
  }

  /** The undo stack after one more snapshot, oldest dropped beyond the cap. */
  function Pushed(undo: seq<Snapshot>, s: Snapshot): seq<Snapshot> {
    if |undo| < MAX_UNDO then undo + [s] else undo[1..] + [s]
  }

  /** An edit: the text between two offsets is replaced, and the past is remembered. */
  function Edited(b: Buffer, start: nat, end: nat, text: string): Buffer
    requires start <= end <= |b.text|
  {
    b.(text := b.text[..start] + text + b.text[end..], selection := At(start + |text|), goalCol := None,
       undo := Pushed(b.undo, Now(b)), redo := [], version := Bumped(b.version))
  }

  function Inserted(b: Buffer, text: string): (Buffer, bool)
    requires Sound(b)
  {
    if text == "" then (b, false) else (Edited(b, b.selection.Start(), b.selection.End(), text), true)
  }

  function Backspaced(b: Buffer): (Buffer, bool)
    requires Sound(b)
  {
    if !b.selection.IsEmpty() then (Edited(b, b.selection.Start(), b.selection.End(), ""), true)
    else if b.selection.caret == 0 then (b, false)
    else (Edited(b, b.selection.caret - 1, b.selection.caret, ""), true)
  }

  function Deleted(b: Buffer): (Buffer, bool)
    requires Sound(b)
  {
    if !b.selection.IsEmpty() then (Edited(b, b.selection.Start(), b.selection.End(), ""), true)
    else if b.selection.caret >= |b.text| then (b, false)
    else (Edited(b, b.selection.caret, b.selection.caret + 1, ""), true)
  }

  function Undone(b: Buffer): (Buffer, bool) {
    if b.undo == [] then (b, false)
    else
      var s := b.undo[|b.undo| - 1];
      (b.(text := s.text, selection := s.selection, goalCol := None, undo := b.undo[..|b.undo| - 1],
          redo := b.redo + [Now(b)], version := Bumped(b.version)), true)
  }

  function Redone(b: Buffer): (Buffer, bool) {
    if b.redo == [] then (b, false)
    else
      var s := b.redo[|b.redo| - 1];
      (b.(text := s.text, selection := s.selection, goalCol := None, redo := b.redo[..|b.redo| - 1],
          undo := b.undo + [Now(b)], version := Bumped(b.version)), true)
  }

  /** A vertical step aims at the goal column, which the first of a run of steps sets. */
  function GoalOf(b: Buffer): nat {
    b.goalCol.GetOr(LineCol(b.text, b.selection.caret).1)
  }

  function VerticalTarget(b: Buffer, down: bool): nat {
    var lines, line := Lines(b.text), LineCol(b.text, b.selection.caret).0;
    if down then
      if line + 1 >= |lines| then |b.text| else lines[line + 1].0 + Clamp(GoalOf(b), lines[line + 1].1)
    else
      if line == 0 || line > |lines| then 0 else lines[line - 1].0 + Clamp(GoalOf(b), lines[line - 1].1)
  }

  function Target(b: Buffer, m: Motion, extend: bool): nat
    requires Sound(b)
  {
    var caret := b.selection.caret;
    LineColAgrees(b.text, caret);
    var line := LineCol(b.text, caret).0;
    match m
    case Left => if !extend && !b.selection.IsEmpty() then b.selection.Start() else if caret == 0 then 0 else caret - 1
    case Right => if !extend && !b.selection.IsEmpty() then b.selection.End() else Clamp(caret + 1, |b.text|)
    case WordLeft => WordLeftOf(b.text, caret)
    case WordRight => WordRightOf(b.text, caret)
    case Home => Lines(b.text)[line].0
    case End => Lines(b.text)[line].0 + Lines(b.text)[line].1
    case BufferStart => 0
    case BufferEnd => |b.text|
    case Up => VerticalTarget(b, false)
    case Down => VerticalTarget(b, true)
  }

  function Moved(b: Buffer, m: Motion, extend: bool): Buffer
    requires Sound(b)
  {
    var target := Target(b, m, extend);
    var selection := Selection(if extend then b.selection.anchor else target, target);
    b.(selection := selection,
       goalCol := if m.Up? || m.Down? then Some(GoalOf(b)) else None,
       version := if selection != b.selection then Bumped(b.version) else b.version)
  }

  function Committed(b: Buffer, text: string): (Buffer, bool)
    requires Sound(b)
  {
    var c := b.(preedit := None);
    if text == "" then (if b.preedit.Some? then c.(version := Bumped(b.version)) else c, false)
    else Inserted(c, text)
  }

  function Reduced(b: Buffer, e: EditEvent): (Buffer, bool)
    requires Sound(b)
  {
    match e
    case Insert(text) => Inserted(b, text)
    case Backspace => Backspaced(b)
    case Delete => Deleted(b)
    case Move(m, extend) => (Moved(b, m, extend), false)
    case Undo => Undone(b)
    case Redo => Redone(b)
    case SetPreedit(p) => (if b.preedit != p then b.(preedit := p, version := Bumped(b.version)) else b, false)
    case CommitIme(text) => Committed(b, text)
  }

  function FromText(text: string): Buffer {
    Buffer(text, At(0), None, [], [], None, 0)
  }
}
