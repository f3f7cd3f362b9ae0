/**
 Redaction against a registry of values: what the longest-first order buys, and exactly
 which values are always removed.
*/
module RedactedRegistry {
  import opened Text
  import opened StableSort
  import opened SecretStore
  import opened Redaction

  /** A whole registered value, alone in the text, becomes exactly the marker: a longer
      value comes first, and a shorter one inside it never gets to leave its tail behind. */
  lemma WholeValueBecomesMarker(inputs: seq<string>, v: string)
    requires v in Registered(inputs)
    requires forall w :: w in Registered(inputs) ==> !OverlapsMarker(w)
    ensures Redacted(v, LongestFirst(Registered(inputs))) == "[REDACTED]"
  {
    var values := LongestFirst(Registered(inputs));
    LongestFirstMeaning(Registered(inputs));
    WholeFrom(values, v);
  }

  predicate Arranged(values: seq<string>) {
    && (forall i, j :: 0 <= i < j < |values| ==> ByteLen(values[i]) >= ByteLen(values[j]))
    && (forall i, j :: 0 <= i < j < |values| ==> values[i] != values[j])
  }

  lemma {:induction false} WholeFrom(values: seq<string>, v: string)
    requires v in values && v != ""
    requires forall w :: w in values ==> w != "" && !OverlapsMarker(w)
    requires Arranged(values)
    ensures Redacted(v, values) == REDACTION
    decreases |values|
  {
    var w := values[0];
    if w == v {
      ValueBecomesMarker(v);
      forall u | u in values[1..] && u != "" ensures Clean(REDACTION, u) { MarkerIsClean(u); }
      CleanIsFixed(REDACTION, values[1..]);
    } else {
      LongerComesFirst(values, v);
      NotInside(v, w);
      CleanIsFixedOnce(v, w);
      assert forall u :: u in values[1..] ==> u in values;
      WholeFrom(values[1..], v);
    }
  }

  lemma LongerComesFirst(values: seq<string>, v: string)
    requires v in values && v != values[0] && Arranged(values)
    ensures ByteLen(values[0]) >= ByteLen(v)
    ensures v in values[1..] && Arranged(values[1..])
  {
    var k :| 0 <= k < |values| && values[k] == v;
    assert values[1..][k - 1] == v;
  }

  lemma CleanIsFixedOnce(text: string, w: string)
    requires w != "" && Clean(text, w)
    ensures RedactedOne(text, w) == text
  {
    AbsentIsFixed(Verbatim, text, w);
    if !HasWhitespace(w) { AbsentIsFixed(Wrapped, text, w); }
  }

  lemma ValueBecomesMarker(v: string)
    requires v != "" && !OverlapsMarker(v)
    ensures RedactedOne(v, v) == REDACTION
  {
    assert v[|v|..] == "" && MatchAt(Verbatim, v, v) == Some(|v|);
    assert Replaced(Verbatim, v, v) == REDACTION + Replaced(Verbatim, "", v) == REDACTION;
    MarkerIsClean(v);
    if !HasWhitespace(v) { AbsentIsFixed(Wrapped, REDACTION, v); }
  }

  lemma MarkerIsClean(v: string)
    requires v != "" && !OverlapsMarker(v)
    ensures Clean(REDACTION, v)
  {
    MarkerIsAbsent(Verbatim, v);
    MarkerIsAbsent(Wrapped, v);
  }

  lemma MarkerIsAbsent(p: Pass, v: string)
    requires v != "" && !OverlapsMarker(v)
    ensures Absent(p, REDACTION, v)
  {
    forall i | 0 <= i <= |REDACTION| ensures MatchAt(p, REDACTION[i..], v).None? {
      if MatchAt(p, REDACTION[i..], v).Some? {
        assert i < |REDACTION|;
        InsideMarker(p, REDACTION[i..], v, i);
      }
    }
  }

  /** A different value at least as long in bytes does not fit in a value. */
  lemma NotInside(v: string, w: string)
    requires v != "" && w != "" && w != v && ByteLen(w) >= ByteLen(v)
    ensures Clean(v, w)
  {
    forall p, i | 0 <= i <= |v| ensures MatchAt(p, v[i..], w).None? {
      if MatchAt(p, v[i..], w).Some? {
        MatchIsEmbedding(p, v[i..], w);
        SuffixLen(v, i);
        if i == 0 { assert v[i..] == v; }
        EmbeddingLen(v[i..], w);
      }
    }
  }

  /** The value's chars, in order, among the text's. */
  ghost predicate Embeds(hay: string, w: string) {
    w == "" || (hay != "" && ((hay[0] == w[0] && Embeds(hay[1..], w[1..])) || Embeds(hay[1..], w)))
  }

  lemma {:induction false} EmbedsLater(hay: string, n: nat, w: string)
    requires n <= |hay| && Embeds(hay[n..], w)
    ensures Embeds(hay, w)
    decreases n
  {
    if n == 0 {
      assert hay[0..] == hay;
    } else {
      assert hay[1..][n - 1..] == hay[n..];
      EmbedsLater(hay[1..], n - 1, w);
    }
  }

  lemma {:induction false} PrefixEmbeds(hay: string, w: string)
    requires w <= hay
    ensures Embeds(hay, w)
  {
    if w != "" { PrefixEmbeds(hay[1..], w[1..]); }
  }

  lemma {:induction false} MatchIsEmbedding(p: Pass, hay: string, w: string)
    requires w != "" && MatchAt(p, hay, w).Some?
    ensures Embeds(hay, w)
    decreases |w|
  {
    if p == Verbatim {
      PrefixEmbeds(hay, w);
    } else if |w| > 1 {
      var skip := SkipWrap(hay[1..]);
      MatchIsEmbedding(p, hay[1 + skip..], w[1..]);
      assert hay[1..][skip..] == hay[1 + skip..];
      EmbedsLater(hay[1..], skip, w[1..]);
    }
  }

  lemma {:induction false} EmbeddingLen(hay: string, w: string)
    requires Embeds(hay, w)
    ensures ByteLen(w) <= ByteLen(hay)
    ensures w != hay ==> ByteLen(w) < ByteLen(hay)
    decreases |hay|
  {
    if hay != "" { ByteLenFront(hay); }
    if w != "" {
      ByteLenFront(w);
      if hay[0] == w[0] && Embeds(hay[1..], w[1..]) {
        EmbeddingLen(hay[1..], w[1..]);
        assert w[1..] == hay[1..] ==> w == [w[0]] + w[1..] == hay;
      } else {
        EmbeddingLen(hay[1..], w);
      }
    }
  }

  lemma SuffixLen(v: string, i: nat)
    requires i <= |v|
    ensures ByteLen(v[i..]) + i <= ByteLen(v)
  {
    var a, b := v[..i], v[i..];
    assert v == a + b;
    ByteLenJoin(a, b);
    AtLeastOneByte(a);
  }

  lemma AtLeastOneByte(a: string)
    ensures |a| <= ByteLen(a)
  {
    ByteLenGrows(a, 0);
  }

  ghost predicate AlwaysRemoved(v: string)
    requires v != ""
  {
    forall inputs: seq<string>, text ::
      v in Registered(inputs) ==> Absent(Verbatim, Redacted(text, LongestFirst(Registered(inputs))), v)
  }

  /** A value is removed from every text, in every registry that holds it, exactly when it never
      lines up with the marker. */
  lemma ExactlyTheSafeValues(v: string)
    requires ByteLen(v) >= MIN_VALUE_BYTES
    ensures v != "" && (AlwaysRemoved(v) <==> !OverlapsMarker(v))
  {
    if !OverlapsMarker(v) {
      forall inputs: seq<string>, text | v in Registered(inputs)
        ensures Absent(Verbatim, Redacted(text, LongestFirst(Registered(inputs))), v)
      {
        LongestFirstMeaning(Registered(inputs));
        RedactionClears(text, LongestFirst(Registered(inputs)), v);
      }
    } else {
      var d :| -|v| < d < |REDACTION| && LinesUp(v, d);
      var inputs, text := Survives(v, d);
    }
  }

  lemma TwoInOrder(v: string, w: string)
    requires v != w && ByteLen(v) >= ByteLen(w) >= MIN_VALUE_BYTES
    ensures Registered([v, w]) == [v, w] && LongestFirst(Registered([v, w])) == [v, w]
  {
    RegisterTwo(v, w);
    SortTwo(ByteKey, v, w);
  }

  /** How often a char occurs. */
  function Times(c: char, s: string): nat { multiset(s)[c] }

  lemma TimesJoin(c: char, a: string, b: string)
    ensures Times(c, a + b) == Times(c, a) + Times(c, b)
  {}

  lemma TimesSlice(c: char, s: string, i: nat, j: nat)
    requires i <= j <= |s|
    ensures Times(c, s[i..j]) <= Times(c, s)
  {
    assert s == s[..i] + (s[i..j] + s[j..]);
    TimesJoin(c, s[..i], s[i..j] + s[j..]);
    TimesJoin(c, s[i..j], s[j..]);
  }

  lemma TimesBelow(c: char, s: string)
    requires s != "" && s[0] != c
    ensures Times(c, s) < |s|
  {
    assert s == [s[0]] + s[1..];
    assert multiset(s[1..])[c] <= |multiset(s[1..])| == |s[1..]|;
  }

  lemma {:induction false} TimesOfRun(c: char, n: nat)
    ensures Times(c, Run(c, n)) == n
  {
    if n > 0 {
      TimesOfRun(c, n - 1);
      assert Run(c, n) == Run(c, n - 1) + [c];
    }
  }

  /** One of five letters differs from four given chars. */
  function FreeLetter(p: char, q: char, r: char, t: char): (c: char)
    ensures c != p && c != q && c != r && c != t
    ensures 'a' <= c <= 'e'
  {
    if 'a' !in [p, q, r, t] then 'a'
    else if 'b' !in [p, q, r, t] then 'b'
    else if 'c' !in [p, q, r, t] then 'c'
    else if 'd' !in [p, q, r, t] then 'd'
    else 'e'
  }

  /** A registry and a text from which a value that lines up with the marker comes back: a
      second value, no longer in bytes and so taken later, leaves its marker where the first
      value's middle would be. The second value repeats one letter more often than the first
      value has it. */
  lemma Survives(v: string, d: int) returns (inputs: seq<string>, text: string)
    requires ByteLen(v) >= MIN_VALUE_BYTES && -|v| < d < |REDACTION| && LinesUp(v, d)
    ensures v in Registered(inputs)
    ensures !Absent(Verbatim, Redacted(text, LongestFirst(Registered(inputs))), v)
  {
    var x := if d < 0 then v[..-d] else "";
    var y := if |v| + d > |REDACTION| then v[|REDACTION| - d..] else "";
    var c := FreeLetter(v[0], v[|v| - 1], if x != "" then x[|x| - 1] else v[0], v[0]);
    var w := SecondValue(v, c);
    inputs, text := [v, w], x + w + y;
    TwoInOrder(v, w);
    EndsOf(v, d, x, y, c);
    AroundTheMarker(v, x, |w|, y, c);
    ShowsThrough(v, d, x, y);
  }

  lemma SecondValue(v: string, c: char) returns (w: string)
    requires ByteLen(v) >= MIN_VALUE_BYTES && v[0] != c && 'a' <= c <= 'e'
    ensures w == Run(c, |w|) && |w| > Times(c, v) && w != v
    ensures ByteLen(v) >= ByteLen(w) >= MIN_VALUE_BYTES
  {
    var n := if Times(c, v) < MIN_VALUE_BYTES then MIN_VALUE_BYTES else Times(c, v) + 1;
    w := Run(c, n);
    RunLen(c, n);
    TimesBelow(c, v);
    AtLeastOneByte(v);
    assert w[0] == c;
  }

  /** The two ends of the value are apart. */
  lemma EndsOf(v: string, d: int, x: string, y: string, c: char)
    requires v != "" && -|v| < d < |REDACTION|
    requires x == if d < 0 then v[..-d] else ""
    requires y == if |v| + d > |REDACTION| then v[|REDACTION| - d..] else ""
    ensures |x| < |v| && |y| < |v| && Times(c, x) + Times(c, y) <= Times(c, v)
  {
    if d < 0 && y != "" {
      var mid := v[-d..|REDACTION| - d];
      assert v == x + (mid + y);
      TimesJoin(c, x, mid + y);
      TimesJoin(c, mid, y);
    } else if d < 0 {
      TimesSlice(c, v, 0, -d);
    } else if y != "" {
      assert y == v[|REDACTION| - d..|v|];
      TimesSlice(c, v, |REDACTION| - d, |v|);
    }
  }

  /** Where a run of a letter separates the value's ends, only the run is replaced. */
  ghost predicate Separates(v: string, x: string, n: nat, y: string, c: char) {
    && v != "" && v[0] != c && v[|v| - 1] != c && (x != "" ==> x[|x| - 1] != c)
    && |x| < |v| && |y| < |v| && Times(c, x) + Times(c, y) <= Times(c, v) < n
    && 'a' <= c <= 'e'
  }

  lemma AroundTheMarker(v: string, x: string, n: nat, y: string, c: char)
    requires Separates(v, x, n, y, c)
    ensures var w := Run(c, n); Redacted(x + w + y, [v, w]) == x + REDACTION + y
  {
    var w := Run(c, n);
    var text := x + w + y;
    FirstLeavesAlone(Verbatim, v, x, n, y, c);
    FirstLeavesAlone(Wrapped, v, x, n, y, c);
    CleanIsFixedOnce(text, v);
    SecondMarks(x, n, y, c);
    assert [v, w][1..] == [w] && [w][1..] == [];
    assert Redacted(text, [v, w]) == Redacted(text, [w]) == RedactedOne(text, w);
  }

  lemma ShowsThrough(v: string, d: int, x: string, y: string)
    requires v != "" && -|v| < d < |REDACTION| && LinesUp(v, d)
    requires x == if d < 0 then v[..-d] else ""
    requires y == if |v| + d > |REDACTION| then v[|REDACTION| - d..] else ""
    ensures !Absent(Verbatim, x + REDACTION + y, v)
  {
    var out := x + REDACTION + y;
    var at := if d < 0 then 0 else d;
    forall i | 0 <= i < |v| ensures v[i] == out[at + i] {}
    assert v <= out[at..];
    assert MatchAt(Verbatim, out[at..], v).Some?;
  }

  function Run(z: char, n: nat): (r: string)
    ensures |r| == n && forall i :: 0 <= i < n ==> r[i] == z
  {
    seq(n, _ => z)
  }

  lemma {:induction false} RunLen(z: char, n: nat)
    ensures ByteLen(Run(z, n)) == n * Width(z)
  {
    if n > 0 {
      RunLen(z, n - 1);
      assert Run(z, n)[..n - 1] == Run(z, n - 1);
    }
  }

  /** A match starts and ends as the value does, takes at least as many chars, and holds every
      char but soft-wrap whitespace as often. */
  lemma {:induction false} MatchShape(p: Pass, hay: string, v: string, c: char)
    requires v != "" && MatchAt(p, hay, v).Some? && !IsSoftwrap(c)
    ensures var n := MatchAt(p, hay, v).value;
      && n >= |v| && hay[0] == v[0] && hay[n - 1] == v[|v| - 1]
      && Times(c, hay[..n]) == Times(c, v)
    decreases |v|
  {
    if p == Verbatim {
      assert hay[..|v|] == v;
    } else if |v| == 1 {
      assert hay[..1] == v;
    } else {
      var skip := SkipWrap(hay[1..]);
      var rest := hay[1 + skip..];
      assert MatchWrapped(rest, v[1..]) == MatchAt(p, rest, v[1..]);
      MatchShape(p, rest, v[1..], c);
      SkipHoldsNone(hay[1..], c);
      MatchPieces(hay, skip, MatchAt(p, rest, v[1..]).value, v, c);
    }
  }

  lemma SkipHoldsNone(hay: string, c: char)
    requires !IsSoftwrap(c)
    ensures Times(c, hay[..SkipWrap(hay)]) == 0
  {
    SkipWrapStops(hay);
    assert c !in hay[..SkipWrap(hay)];
  }

  lemma MatchPieces(hay: string, skip: nat, n: nat, v: string, c: char)
    requires |v| > 1 && hay != "" && hay[0] == v[0] && 1 + skip + n <= |hay|
    requires Times(c, hay[1..][..skip]) == 0 && Times(c, hay[1 + skip..][..n]) == Times(c, v[1..])
    requires n > 0 && hay[1 + skip..][n - 1] == v[1..][|v| - 2]
    ensures Times(c, hay[..1 + skip + n]) == Times(c, v) && hay[skip + n] == v[|v| - 1]
  {
    var a, b := hay[1..][..skip], hay[1 + skip..][..n];
    assert hay[..1 + skip + n] == [hay[0]] + (a + b);
    assert v == [v[0]] + v[1..];
    TimesJoin(c, [hay[0]], a + b);
    TimesJoin(c, a, b);
    TimesJoin(c, [v[0]], v[1..]);
  }

  /** A stretch as long as the value that starts and ends as it does takes in the whole run. */
  lemma SpansTheRun(v: string, x: string, n: nat, y: string, c: char, i: nat, k: nat)
    requires Separates(v, x, n, y, c) && k >= |v| && i + k <= |x| + n + |y|
    requires var text := x + Run(c, n) + y; text[i] == v[0] && text[i + k - 1] == v[|v| - 1]
    ensures i < |x| && i + k > |x| + n
  {
    var text := x + Run(c, n) + y;
    assert forall j :: |x| <= j < |x| + n ==> text[j] == c;
  }

  /** No match of the value fits beside the run, and none can hold all of it. */
  lemma NoMatchAround(p: Pass, v: string, x: string, n: nat, y: string, c: char, i: nat)
    requires Separates(v, x, n, y, c) && i <= |x| + n + |y|
    ensures MatchAt(p, (x + Run(c, n) + y)[i..], v).None?
  {
    var text := x + Run(c, n) + y;
    if MatchAt(p, text[i..], v).Some? {
      var k := MatchAt(p, text[i..], v).value;
      MatchShape(p, text[i..], v, c);
      assert text[i..][..k] == text[i..i + k];
      SpansTheRun(v, x, n, y, c, i, k);
      RunInside(text, i, i + k, |x|, n, c);
      assert false;
    }
  }

  lemma SliceOfSlice(text: string, i: nat, j: nat, at: nat, n: nat)
    requires i <= at && at + n <= j <= |text|
    ensures text[i..j][at - i..at - i + n] == text[at..at + n]
  {
    var inner, outer := text[i..j][at - i..at - i + n], text[at..at + n];
    forall k | 0 <= k < n ensures inner[k] == outer[k] {
      assert inner[k] == text[i..j][at - i + k] == text[at + k];
    }
  }

  lemma RunInside(text: string, i: nat, j: nat, at: nat, n: nat, c: char)
    requires i <= at && at + n <= j <= |text| && text[at..at + n] == Run(c, n)
    ensures Times(c, text[i..j]) >= n
  {
    TimesOfRun(c, n);
    SliceOfSlice(text, i, j, at, n);
    TimesSlice(c, text[i..j], at - i, at - i + n);
  }

  lemma FirstLeavesAlone(p: Pass, v: string, x: string, n: nat, y: string, c: char)
    requires Separates(v, x, n, y, c)
    ensures Absent(p, x + Run(c, n) + y, v)
  {
    var text := x + Run(c, n) + y;
    forall i | 0 <= i <= |text| ensures MatchAt(p, text[i..], v).None? {
      NoMatchAround(p, v, x, n, y, c, i);
    }
  }

  /** A run that is longer than the char is frequent does not occur. */
  lemma RunIsAbsent(p: Pass, text: string, c: char, n: nat)
    requires Times(c, text) < n && !IsSoftwrap(c)
    ensures Absent(p, text, Run(c, n))
  {
    forall i | 0 <= i <= |text| ensures MatchAt(p, text[i..], Run(c, n)).None? {
      if MatchAt(p, text[i..], Run(c, n)).Some? {
        var k := MatchAt(p, text[i..], Run(c, n)).value;
        MatchShape(p, text[i..], Run(c, n), c);
        TimesOfRun(c, n);
        assert text[i..][..k] == text[i..i + k];
        TimesSlice(c, text, i, i + k);
        assert false;
      }
    }
  }

  lemma {:induction false} ReplacedAfter(x: string, n: nat, y: string, c: char)
    requires n > 0 && !IsSoftwrap(c) && Times(c, x) < n && Times(c, y) < n && (x != "" ==> x[|x| - 1] != c)
    ensures Replaced(Verbatim, x + Run(c, n) + y, Run(c, n)) == x + REDACTION + y
    decreases |x|
  {
    var w := Run(c, n);
    var text := x + w + y;
    if x == "" {
      RunIsAbsent(Verbatim, y, c, n);
      ReplacedAtOnce(w, y);
    } else {
      NotYet(x, n, y, c);
      FrontOf(x, w, y);
      FrontOf(x, REDACTION, y);
      FewerTimes(c, x);
      ReplacedAfter(x[1..], n, y, c);
    }
  }

  lemma ReplacedAtOnce(w: string, y: string)
    requires w != "" && Absent(Verbatim, y, w)
    ensures Replaced(Verbatim, "" + w + y, w) == "" + REDACTION + y
  {
    var text := "" + w + y;
    assert text[|w|..] == y && w <= text;
    AbsentIsFixed(Verbatim, y, w);
  }

  lemma FrontOf(x: string, m: string, y: string)
    requires x != ""
    ensures (x + m + y)[0] == x[0] && (x + m + y)[1..] == x[1..] + m + y
    ensures [x[0]] + (x[1..] + m + y) == x + m + y
  {}

  lemma FewerTimes(c: char, x: string)
    requires x != ""
    ensures Times(c, x[1..]) <= Times(c, x)
  {
    assert x == [x[0]] + x[1..];
    TimesJoin(c, [x[0]], x[1..]);
  }

  /** The run does not start inside what comes before it. */
  lemma NotYet(x: string, n: nat, y: string, c: char)
    requires x != "" && Times(c, x) < n && x[|x| - 1] != c
    ensures !(Run(c, n) <= x + Run(c, n) + y)
  {
    var w, text := Run(c, n), x + Run(c, n) + y;
    if |x| <= n {
      assert text[|x| - 1] == x[|x| - 1] != w[|x| - 1];
    } else {
      TimesOfRun(c, n);
      TimesSlice(c, x, 0, n);
      assert text[..n] == x[0..n] != w;
    }
  }

  lemma NoneInMarker(c: char)
    requires 'a' <= c <= 'e'
    ensures Times(c, REDACTION) == 0
  {
    forall i | 0 <= i < |REDACTION| ensures REDACTION[i] != c {}
    assert c !in REDACTION;
  }

  lemma TimesAround(c: char, x: string, y: string)
    requires 'a' <= c <= 'e'
    ensures Times(c, x + REDACTION + y) == Times(c, x) + Times(c, y)
  {
    TimesJoin(c, x + REDACTION, y);
    TimesJoin(c, x, REDACTION);
    NoneInMarker(c);
  }

  lemma NoWhitespace(c: char, n: nat)
    requires 'a' <= c <= 'e'
    ensures !HasWhitespace(Run(c, n))
  {}

  lemma SecondMarks(x: string, n: nat, y: string, c: char)
    requires Times(c, x) + Times(c, y) < n && (x != "" ==> x[|x| - 1] != c) && 'a' <= c <= 'e'
    ensures RedactedOne(x + Run(c, n) + y, Run(c, n)) == x + REDACTION + y
  {
    ReplacedAfter(x, n, y, c);
    TimesAround(c, x, y);
    NoWhitespace(c, n);
    RunIsAbsent(Wrapped, x + REDACTION + y, c, n);
    AbsentIsFixed(Wrapped, x + REDACTION + y, Run(c, n));
  }
}
