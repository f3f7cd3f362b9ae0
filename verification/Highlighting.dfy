/** The shell command-line highlighter. */
module Highlighting {
  import opened Text

  // One pass of scanning gives the only division of the text into spans that has the
  // properties promised of it.

  datatype Kind = Operator | QuotedString | ErrorUnderline | Command | Flag | Argument

  datatype Span = Span(start: nat, end: nat, kind: Kind)

  predicate IsQuote(c: char) { c == '\'' || c == '"' }

  predicate IsOperatorChar(c: char) { c in "|&;<>" }

  /** The length of the operator that begins here, and whether it separates commands. */
  function OperatorAt(text: string, i: nat): (r: Option<(nat, bool)>)
    requires i < |text|
    ensures r.Some? <==> IsOperatorChar(text[i])
    ensures r.Some? ==> 1 <= r.value.0 <= |text| - i
  {
    var c := text[i];
    var next := if i + 1 < |text| then Some(text[i + 1]) else None;
    if c == '&' && next == Some('&') then Some((2, true))
    else if c == '|' && next == Some('|') then Some((2, true))
    else if c == '|' || c == '&' || c == ';' then Some((1, true))
    else if c == '<' || c == '>' then Some((1, false))
    else None
  }

  predicate EndsWord(c: char) { IsWhitespace(c) || IsQuote(c) || IsOperatorChar(c) }

  function WordEnd(text: string, i: nat): (r: nat)
    requires i <= |text|
    ensures i <= r <= |text|
    ensures forall p :: i <= p < r ==> !EndsWord(text[p])
    ensures r < |text| ==> EndsWord(text[r])
    decreases |text| - i
  {
    if i == |text| || EndsWord(text[i]) then i else WordEnd(text, i + 1)
  }

  /** Just past the closing quote if there is one. */
  function QuoteEnd(text: string, i: nat, quote: char): (r: (nat, bool))
    requires i <= |text|
    ensures i <= r.0 <= |text|
    ensures r.1 ==> i < r.0 && text[r.0 - 1] == quote && forall p :: i <= p < r.0 - 1 ==> text[p] != quote
    ensures !r.1 ==> r.0 == |text| && forall p :: i <= p < |text| ==> text[p] != quote
    decreases |text| - i
  {
    if i == |text| then (|text|, false)
    else if text[i] == quote then (i + 1, true)
    else QuoteEnd(text, i + 1, quote)
  }

  function WordKind(c: char, expectCommand: bool): Kind {
    if expectCommand then Command else if c == '-' then Flag else Argument
  }

  /** The span that begins at a char that is not blank, and whether a command is expected
      after it. */
  function SpanAt(text: string, i: nat, expectCommand: bool): (r: (Span, bool))
    requires i < |text| && !IsWhitespace(text[i])
    ensures r.0.start == i < r.0.end <= |text|
  {
    var op := OperatorAt(text, i);
    if op.Some? then (Span(i, i + op.value.0, Operator), op.value.1)
    else if IsQuote(text[i]) then
      var (end, terminated) := QuoteEnd(text, i + 1, text[i]);
      (Span(i, end, if terminated then QuotedString else ErrorUnderline), false)
    else (Span(i, WordEnd(text, i + 1), WordKind(text[i], expectCommand)), false)
  }

  function Spans(text: string, i: nat, expectCommand: bool): seq<Span>
    requires i <= |text|
    decreases |text| - i
  {
    if i == |text| then []
    else if IsWhitespace(text[i]) then Spans(text, i + 1, expectCommand)
    else
      var (s, e) := SpanAt(text, i, expectCommand);
      [s] + Spans(text, s.end, e)
  }

  method ScanQuote(chars: string, start: nat, quote: char) returns (end: nat, terminated: bool)
    requires start < |chars|
    ensures (end, terminated) == QuoteEnd(chars, start + 1, quote)
  {
    var n := |chars|;
    var i := start + 1;
    while i < n
      invariant i <= n && QuoteEnd(chars, i, quote) == QuoteEnd(chars, start + 1, quote)
    {
      if chars[i] == quote {
        return i + 1, true;
      }
      i := i + 1;
    }
    return n, false;
  }

  method ScanWord(text: string, start: nat) returns (i: nat)
    requires start < |text| && !EndsWord(text[start])
    ensures i == WordEnd(text, start + 1)
  {
    i := start;
    while i < |text|
      invariant start <= i <= |text| && WordEnd(text, i) == WordEnd(text, start)
    {
      var ch := text[i];
      if IsWhitespace(ch) || IsQuote(ch) || OperatorAt(text, i).Some? {
        break;
      }
      i := i + 1;
    }
  }

  method ScanSpan(text: string, i: nat, expectCommand: bool) returns (s: Span, expectNext: bool)
    requires i < |text| && !IsWhitespace(text[i])
    ensures (s, expectNext) == SpanAt(text, i, expectCommand)
  {
    var c := text[i];
    var op := OperatorAt(text, i);
    if op.Some? {
      var (len, isSeparator) := op.value;
      return Span(i, i + len, Operator), isSeparator;
    }
    if IsQuote(c) {
      var end, terminated := ScanQuote(text, i, c);
      return Span(i, end, if terminated then QuotedString else ErrorUnderline), false;
    }
    var end := ScanWord(text, i);
    var kind := if expectCommand then Command else if c == '-' then Flag else Argument;
    return Span(i, end, kind), false;
  }

  /** Scan left to right, skipping blanks and taking one span after the other. */
  method HighlightCommandLine(text: string) returns (spans: seq<Span>)
    ensures spans == Spans(text, 0, true)
  {
    var n := |text|;
    spans := [];
    var i: nat := 0;
    var expectCommand := true;
    while i < n
      invariant i <= n && spans + Spans(text, i, expectCommand) == Spans(text, 0, true)
    {
      var c := text[i];
      if IsWhitespace(c) {
        i := i + 1;
        continue;
      }
      var s, expectNext := ScanSpan(text, i, expectCommand);
      Associate(spans, [s], Spans(text, s.end, expectNext));
      spans := spans + [s];
      i := s.end;
      expectCommand := expectNext;
    }
    assert spans + [] == spans;
  }

  // --- what the spans are ---

  predicate IsWordKind(k: Kind) { k == Command || k == Flag || k == Argument }

  /** The text under a span is what its kind says, and the span is as long as it can be. */
  ghost predicate Shaped(text: string, s: Span)
    requires s.start < s.end <= |text|
  {
    var piece := text[s.start..s.end];
    match s.kind
    case Operator =>
      || piece == "&&" || piece == "||" || piece == ";" || piece == "<" || piece == ">"
      || (piece == "&" && (s.end < |text| ==> text[s.end] != '&'))
      || (piece == "|" && (s.end < |text| ==> text[s.end] != '|'))
    case QuotedString =>
      && IsQuote(piece[0]) && |piece| >= 2 && piece[|piece| - 1] == piece[0]
      && forall p :: 1 <= p < |piece| - 1 ==> piece[p] != piece[0]
    case ErrorUnderline =>
      IsQuote(piece[0]) && s.end == |text| && forall p :: 1 <= p < |piece| ==> piece[p] != piece[0]
    case _ =>
      (forall p :: 0 <= p < |piece| ==> !EndsWord(piece[p])) && (s.end < |text| ==> EndsWord(text[s.end]))
  }

  predicate Separates(text: string, s: Span)
    requires s.start < |text|
  {
    s.kind == Operator && text[s.start] != '<' && text[s.start] != '>'
  }

  /** A word is a command when it comes first or straight after a separator; otherwise a
      leading dash makes it a flag. */
  predicate Kinded(text: string, first: bool, spans: seq<Span>, k: nat)
    requires k < |spans| && forall j :: 0 <= j < |spans| ==> spans[j].start < |text|
  {
    var expected := if k == 0 then first else Separates(text, spans[k - 1]);
    match spans[k].kind
    case Command => expected
    case Flag => !expected && text[spans[k].start] == '-'
    case Argument => !expected && text[spans[k].start] != '-'
    case _ => true
  }

  ghost predicate InOrder(text: string, i: nat, spans: seq<Span>) {
    && (forall k :: 0 <= k < |spans| ==> i <= spans[k].start < spans[k].end <= |text|)
    && (forall j, k :: 0 <= j < k < |spans| ==> spans[j].end <= spans[k].start)
  }

  predicate InSpan(s: Span, p: nat) { s.start <= p < s.end }

  ghost predicate Covers(text: string, i: nat, spans: seq<Span>) {
    forall p: nat :: i <= p < |text| && !IsWhitespace(text[p]) ==>
      exists k :: 0 <= k < |spans| && InSpan(spans[k], p)
  }

  /** A division of the text from `i` on: in order, in bounds, without overlap or empty spans,
      leaving out nothing but blanks, each span what it claims to be. */
  ghost predicate Divides(text: string, i: nat, first: bool, spans: seq<Span>) {
    && InOrder(text, i, spans)
    && Covers(text, i, spans)
    && (forall k :: 0 <= k < |spans| ==> Shaped(text, spans[k]))
    && (forall k: nat :: k < |spans| ==> Kinded(text, first, spans, k))
  }

  lemma SpanAtShaped(text: string, i: nat, e: bool)
    requires i < |text| && !IsWhitespace(text[i])
    ensures var (s, e') := SpanAt(text, i, e);
      Shaped(text, s) && (IsWordKind(s.kind) ==> s.kind == WordKind(text[i], e)) && e' == Separates(text, s)
  {
    var (s, e') := SpanAt(text, i, e);
    var piece := text[s.start..s.end];
    assert forall p :: 0 <= p < |piece| ==> piece[p] == text[i + p];
  }

  lemma FirstSpanInOrder(text: string, s: Span, rest: seq<Span>)
    requires s.start < s.end <= |text| && InOrder(text, s.end, rest)
    ensures InOrder(text, s.start, [s] + rest)
  {}

  lemma FirstSpanCovers(text: string, s: Span, rest: seq<Span>)
    requires s.start < s.end <= |text| && Covers(text, s.end, rest)
    ensures Covers(text, s.start, [s] + rest)
  {
    var all := [s] + rest;
    forall p: nat | s.start <= p < |text| && !IsWhitespace(text[p])
      ensures exists k :: 0 <= k < |all| && InSpan(all[k], p)
    {
      if p < s.end {
        assert InSpan(all[0], p);
      } else {
        var k :| 0 <= k < |rest| && InSpan(rest[k], p);
        assert InSpan(all[k + 1], p);
      }
    }
  }

  lemma FirstSpanKinded(text: string, s: Span, e: bool, rest: seq<Span>)
    requires s.start < s.end <= |text| && InOrder(text, s.end, rest)
    requires IsWordKind(s.kind) ==> s.kind == WordKind(text[s.start], e)
    requires forall k: nat :: k < |rest| ==> Kinded(text, Separates(text, s), rest, k)
    ensures InOrder(text, s.start, [s] + rest)
    ensures forall k: nat :: k < |[s] + rest| ==> Kinded(text, e, [s] + rest, k)
  {
    FirstSpanInOrder(text, s, rest);
    forall k: nat | k < |[s] + rest| ensures Kinded(text, e, [s] + rest, k) {
      assert k > 0 ==> Kinded(text, Separates(text, s), rest, k - 1);
    }
  }

  lemma FirstSpanDivides(text: string, i: nat, e: bool, rest: seq<Span>)
    requires i < |text| && !IsWhitespace(text[i])
    requires var (s, e') := SpanAt(text, i, e); Divides(text, s.end, e', rest)
    ensures Divides(text, i, e, [SpanAt(text, i, e).0] + rest)
  {
    var (s, e') := SpanAt(text, i, e);
    SpanAtShaped(text, i, e);
    FirstSpanKinded(text, s, e, rest);
    FirstSpanCovers(text, s, rest);
  }

  lemma {:induction false} SpansDivide(text: string, i: nat, e: bool)
    requires i <= |text|
    ensures Divides(text, i, e, Spans(text, i, e))
    decreases |text| - i
  {
    if i < |text| {
      if IsWhitespace(text[i]) {
        SpansDivide(text, i + 1, e);
      } else {
        var (s, e') := SpanAt(text, i, e);
        SpansDivide(text, s.end, e');
        FirstSpanDivides(text, i, e, Spans(text, s.end, e'));
      }
    }
  }

  /** Two spans of the right shape that begin together and agree on the kind of a word are
      the same. */
  lemma ShapeDetermines(text: string, s: Span, e: bool)
    requires s.start < s.end <= |text| && Shaped(text, s)
    requires IsWordKind(s.kind) ==> s.kind == WordKind(text[s.start], e)
    ensures !IsWhitespace(text[s.start]) && s == SpanAt(text, s.start, e).0
  {
    var i := s.start;
    var piece := text[s.start..s.end];
    assert piece[0] == text[i];
    assert forall p :: 0 <= p < |piece| ==> piece[p] == text[i + p];
    assert forall p :: i <= p < s.end ==> text[p] == piece[p - i];
  }

  lemma FrontOfDivision(text: string, i: nat, e: bool, spans: seq<Span>)
    requires i < |text| && !IsWhitespace(text[i]) && Divides(text, i, e, spans)
    ensures spans != [] && spans[0] == SpanAt(text, i, e).0
    ensures Divides(text, spans[0].end, SpanAt(text, i, e).1, spans[1..])
  {
    var k :| 0 <= k < |spans| && InSpan(spans[k], i);
    assert spans[0].start == i;
    assert Kinded(text, e, spans, 0);
    ShapeDetermines(text, spans[0], e);
    SpanAtShaped(text, i, e);
    var rest, e' := spans[1..], SpanAt(text, i, e).1;
    forall k: nat | k < |rest| ensures Kinded(text, e', rest, k) {
      assert Kinded(text, e, spans, k + 1);
    }
    forall p: nat | spans[0].end <= p < |text| && !IsWhitespace(text[p])
      ensures exists k :: 0 <= k < |rest| && InSpan(rest[k], p)
    {
      var k :| 0 <= k < |spans| && InSpan(spans[k], p);
      assert InSpan(rest[k - 1], p);
    }
  }

  lemma BlankBeforeDivision(text: string, i: nat, e: bool, spans: seq<Span>)
    requires i < |text| && IsWhitespace(text[i]) && Divides(text, i, e, spans)
    ensures Divides(text, i + 1, e, spans)
  {
    forall k | 0 <= k < |spans| ensures i + 1 <= spans[k].start {
      var piece := text[spans[k].start..spans[k].end];
      assert piece[0] == text[spans[k].start];
    }
    forall k: nat | k < |spans| ensures Kinded(text, e, spans, k) {}
  }

  lemma {:induction false} DivisionIsSpans(text: string, i: nat, e: bool, spans: seq<Span>)
    requires i <= |text| && Divides(text, i, e, spans)
    ensures spans == Spans(text, i, e)
    decreases |text| - i
  {
    if i == |text| {
    } else if IsWhitespace(text[i]) {
      BlankBeforeDivision(text, i, e, spans);
      DivisionIsSpans(text, i + 1, e, spans);
    } else {
      FrontOfDivision(text, i, e, spans);
      DivisionIsSpans(text, spans[0].end, SpanAt(text, i, e).1, spans[1..]);
    }
  }

  /** The highlighter's spans divide the text, and they are the only ones that do. */
  lemma HighlightMeaning(text: string, spans: seq<Span>)
    ensures Divides(text, 0, true, spans) <==> spans == Spans(text, 0, true)
  {
    SpansDivide(text, 0, true);
    if Divides(text, 0, true, spans) {
      DivisionIsSpans(text, 0, true, spans);
    }
  }

  ghost predicate OnlyIn(spans: seq<Span>, k: nat, p: nat)
    requires k < |spans|
  {
    forall j :: 0 <= j < |spans| ==> (InSpan(spans[j], p) <==> j == k)
  }

  /** Every char that is not blank is in exactly one span. */
  lemma ExactlyOneSpan(text: string, p: nat)
    requires p < |text| && !IsWhitespace(text[p])
    ensures exists k: nat :: k < |Spans(text, 0, true)| && OnlyIn(Spans(text, 0, true), k, p)
  {
    SpansDivide(text, 0, true);
    OneSpanOf(text, Spans(text, 0, true), p);
  }

  lemma OneSpanOf(text: string, spans: seq<Span>, p: nat)
    requires p < |text| && !IsWhitespace(text[p]) && InOrder(text, 0, spans) && Covers(text, 0, spans)
    ensures exists k: nat :: k < |spans| && OnlyIn(spans, k, p)
  {
    var k: nat :| 0 <= k < |spans| && InSpan(spans[k], p);
    assert OnlyIn(spans, k, p);
  }

  /** An error span is the last one and reaches the end of the text. */
  lemma ErrorIsLast(text: string, k: nat)
    requires k < |Spans(text, 0, true)| && Spans(text, 0, true)[k].kind == ErrorUnderline
    ensures k == |Spans(text, 0, true)| - 1 && Spans(text, 0, true)[k].end == |text|
  {
    SpansDivide(text, 0, true);
    var spans := Spans(text, 0, true);
    assert Shaped(text, spans[k]);
    var last := spans[|spans| - 1];
    assert last.start < last.end <= |text|;
  }

  // --- more text typed ---

  predicate HasError(spans: seq<Span>) {
    exists k :: 0 <= k < |spans| && spans[k].kind == ErrorUnderline
  }

  lemma {:induction false} WordEndGrown(text: string, more: string, i: nat)
    requires i <= |text| && more != "" && EndsWord(more[0])
    ensures WordEnd(text + more, i) == WordEnd(text, i)
    decreases |text| - i
  {
    if i < |text| && !EndsWord(text[i]) { WordEndGrown(text, more, i + 1); }
  }

  lemma {:induction false} QuoteEndGrown(text: string, more: string, i: nat, quote: char)
    requires i <= |text|
    ensures QuoteEnd(text, i, quote).1 ==> QuoteEnd(text + more, i, quote) == QuoteEnd(text, i, quote)
    ensures !QuoteEnd(text, i, quote).1 && more != "" && more[0] != quote ==> QuoteEnd(text + more, i, quote).0 > |text|
    decreases |text| - i
  {
    if i < |text| && text[i] != quote { QuoteEndGrown(text, more, i + 1, quote); }
  }

  lemma SpanAtGrown(text: string, more: string, i: nat, e: bool)
    requires i < |text| && !IsWhitespace(text[i]) && more != "" && IsWhitespace(more[0])
    ensures SpanAt(text, i, e).0.kind != ErrorUnderline ==> SpanAt(text + more, i, e) == SpanAt(text, i, e)
    ensures SpanAt(text, i, e).0.kind == ErrorUnderline ==> SpanAt(text + more, i, e).0.end > |text|
  {
    WordEndGrown(text, more, i + 1);
    QuoteEndGrown(text, more, i + 1, text[i]);
  }

  /** A blank and more text typed after the line leave its spans as they were exactly when it
      had no error span. */
  lemma {:induction false} OldSpansStay(text: string, more: string, i: nat, e: bool)
    requires i <= |text| && more != "" && IsWhitespace(more[0])
    ensures Spans(text, i, e) <= Spans(text + more, i, e) <==> !HasError(Spans(text, i, e))
    decreases |text| - i
  {
    if i == |text| {
      assert Spans(text, i, e) == [];
    } else if IsWhitespace(text[i]) {
      OldSpansStay(text, more, i + 1, e);
    } else {
      var (s, e') := SpanAt(text, i, e);
      var (t, e'') := SpanAt(text + more, i, e);
      SpanAtGrown(text, more, i, e);
      var before, after := Spans(text, i, e), Spans(text + more, i, e);
      if s.kind == ErrorUnderline {
        assert before[0] == s && HasError(before);
        assert after[0] == t && t.end > |text| >= s.end;
      } else {
        OldSpansStay(text, more, s.end, e');
        assert before[1..] == Spans(text, s.end, e') && after[1..] == Spans(text + more, s.end, e');
        FrontKept(s, before[1..], after[1..]);
        assert before == [s] + before[1..] && after == [s] + after[1..];
      }
    }
  }

  lemma FrontKept(s: Span, a: seq<Span>, b: seq<Span>)
    requires s.kind != ErrorUnderline
    ensures a <= b <==> [s] + a <= [s] + b
    ensures HasError([s] + a) <==> HasError(a)
  {
    if [s] + a <= [s] + b {
      assert ([s] + a)[1..] == a && ([s] + b)[1..] == b;
      assert ([s] + b)[..|a| + 1] == [s] + a;
      assert b[..|a|] == a;
    }
    if HasError(a) {
      var k :| 0 <= k < |a| && a[k].kind == ErrorUnderline;
      assert ([s] + a)[k + 1].kind == ErrorUnderline;
    }
  }

  datatype InputMode = Shell | Agent

  /** Prose gets no spans. */
  method HighlightFor(text: string, mode: InputMode) returns (spans: seq<Span>)
    ensures mode == Shell ==> Divides(text, 0, true, spans)
    ensures mode == Agent ==> spans == []
  {
    match mode
    case Shell =>
      spans := HighlightCommandLine(text);
      SpansDivide(text, 0, true);
    case Agent => spans := [];
  }
}
