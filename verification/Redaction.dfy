/** Redaction of registered secret values. */
module Redaction {
  import opened Text

  // Each value is replaced verbatim and then, when it holds no whitespace, also where a soft
  // wrap broke it with newlines or spaces; truncation, if any, comes last.

  const REDACTION := "[REDACTED]"

  predicate IsSoftwrap(c: char) {
    c == '\n' || c == '\r' || c == ' '
  }

  datatype Pass = Verbatim | Wrapped

  function SkipWrap(hay: string): (n: nat)
    ensures n <= |hay|
  {
    if hay != "" && IsSoftwrap(hay[0]) then 1 + SkipWrap(hay[1..]) else 0
  }

  lemma {:induction false} SkipWrapStops(hay: string)
    ensures forall i :: 0 <= i < SkipWrap(hay) ==> IsSoftwrap(hay[i])
    ensures SkipWrap(hay) < |hay| ==> !IsSoftwrap(hay[SkipWrap(hay)])
  {
    if hay != "" && IsSoftwrap(hay[0]) {
      SkipWrapStops(hay[1..]);
      assert forall i :: 1 <= i < SkipWrap(hay) ==> hay[i] == hay[1..][i - 1];
    }
  }

  /** A match of `secret` at the start of `hay`, with soft-wrap whitespace allowed between
      its chars: how many chars of `hay` it takes. */
  function MatchWrapped(hay: string, secret: string): (r: Option<nat>)
    ensures r.Some? ==> r.value <= |hay|
  {
    if secret == "" then Some(0)
    else if hay == "" || hay[0] != secret[0] then None
    else if |secret| == 1 then Some(1)
    else
      var skip := SkipWrap(hay[1..]);
      var rest := MatchWrapped(hay[1 + skip..], secret[1..]);
      if rest.Some? then Some(1 + skip + rest.value) else None
  }

  function MatchAt(p: Pass, hay: string, secret: string): (r: Option<nat>)
    requires secret != ""
    ensures r.Some? ==> 0 < r.value <= |hay|
  {
    if p == Verbatim then (if secret <= hay then Some(|secret|) else None)
    else
      assert MatchWrapped(hay, secret).Some? ==> MatchWrapped(hay, secret).value > 0;
      MatchWrapped(hay, secret)
  }

  /** One pass over the text: leftmost matches, one after the other, become the marker. */
  function Replaced(p: Pass, text: string, secret: string): string
    requires secret != ""
    decreases |text|
  {
    if text == "" then ""
    else match MatchAt(p, text, secret)
      case Some(n) => REDACTION + Replaced(p, text[n..], secret)
      case None => [text[0]] + Replaced(p, text[1..], secret)
  }

  method MatchSoftwrapped(hay: string, secret: string) returns (r: Option<nat>)
    ensures r == MatchWrapped(hay, secret)
  {
    var hi: nat := 0;
    ResumedMeaning(hay, secret);
    ghost var goal := MatchWrapped(hay, secret);
    for si := 0 to |secret|
      invariant hi <= |hay|
      invariant si == 0 ==> hi == 0
      invariant Resumed(hay, secret, hi, si) == goal
    {
      if si > 0 {
        hi := SkipFrom(hay, hi);
      }
      if hi >= |hay| || hay[hi] != secret[si] {
        return None;
      }
      hi := hi + 1;
    }
    r := Some(hi);
  }

  method SkipFrom(hay: string, from: nat) returns (hi: nat)
    requires from <= |hay|
    ensures hi == SkipPast(hay, from)
  {
    hi := from;
    while hi < |hay| && IsSoftwrap(hay[hi])
      invariant from <= hi <= |hay| && SkipPast(hay, hi) == SkipPast(hay, from)
    {
      hi := hi + 1;
    }
  }

  function SkipPast(hay: string, hi: nat): (at: nat)
    requires hi <= |hay|
    ensures hi <= at <= |hay|
    decreases |hay| - hi
  {
    if hi < |hay| && IsSoftwrap(hay[hi]) then SkipPast(hay, hi + 1) else hi
  }

  lemma {:induction false} SkipPastMeaning(hay: string, hi: nat)
    requires hi <= |hay|
    ensures SkipPast(hay, hi) == hi + SkipWrap(hay[hi..])
    decreases |hay| - hi
  {
    if hi < |hay| && IsSoftwrap(hay[hi]) {
      assert hay[hi..][1..] == hay[hi + 1..];
      SkipPastMeaning(hay, hi + 1);
    }
  }

  /** The outcome of the match after `si` secret chars were found in the first `hi` chars. */
  ghost function Resumed(hay: string, secret: string, hi: nat, si: nat): Option<nat>
    requires hi <= |hay| && si <= |secret|
    decreases |secret| - si
  {
    if si == |secret| then Some(hi)
    else
      var at := if si == 0 then hi else SkipPast(hay, hi);
      if at >= |hay| || hay[at] != secret[si] then None else Resumed(hay, secret, at + 1, si + 1)
  }

  function Moved(n: nat, r: Option<nat>): Option<nat> {
    if r.Some? then Some(n + r.value) else None
  }

  /** The rest of a match whose first char has been found. */
  lemma MatchAfterFirst(hay: string, secret: string, at: nat, si: nat)
    requires at < |hay| && si + 1 < |secret| && hay[at] == secret[si]
    ensures var next := SkipPast(hay, at + 1);
      Moved(at, MatchWrapped(hay[at..], secret[si..])) == Moved(next, MatchWrapped(hay[next..], secret[si + 1..]))
  {
    var x, y := hay[at..], secret[si..];
    SkipPastMeaning(hay, at + 1);
    assert x[1..] == hay[at + 1..] && y[1..] == secret[si + 1..];
    assert x[1 + SkipWrap(x[1..])..] == hay[SkipPast(hay, at + 1)..];
  }

  /** From a place where the next char matches. */
  lemma {:induction false} ResumedAt(hay: string, secret: string, at: nat, si: nat)
    requires at < |hay| && si < |secret| && hay[at] == secret[si]
    ensures Resumed(hay, secret, at + 1, si + 1) == Moved(at, MatchWrapped(hay[at..], secret[si..]))
    decreases |secret| - si
  {
    if si + 1 < |secret| {
      var next := SkipPast(hay, at + 1);
      MatchAfterFirst(hay, secret, at, si);
      if next < |hay| && hay[next] == secret[si + 1] {
        ResumedAt(hay, secret, next, si + 1);
      } else {
        NoMatchHere(hay[next..], secret[si + 1..]);
      }
    } else {
      OneCharMatch(hay[at..], secret[si..]);
    }
  }

  lemma OneCharMatch(hay: string, secret: string)
    requires hay != "" && |secret| == 1 && hay[0] == secret[0]
    ensures MatchWrapped(hay, secret) == Some(1)
  {}

  lemma NoMatchHere(hay: string, secret: string)
    requires secret != "" && (hay == "" || hay[0] != secret[0])
    ensures MatchWrapped(hay, secret) == None
  {}

  lemma ResumedMeaning(hay: string, secret: string)
    ensures Resumed(hay, secret, 0, 0) == MatchWrapped(hay, secret)
  {
    assert hay[0..] == hay && secret[0..] == secret;
    if hay != "" && secret != "" && hay[0] == secret[0] {
      ResumedAt(hay, secret, 0, 0);
    }
  }

  lemma PushReplaced(out: string, tail: string, secret: string)
    requires secret != "" && tail != ""
    ensures out + Replaced(Wrapped, tail, secret)
      == match MatchWrapped(tail, secret)
         case Some(n) => out + REDACTION + Replaced(Wrapped, tail[n..], secret)
         case None => out + [tail[0]] + Replaced(Wrapped, tail[1..], secret)
  {
    match MatchAt(Wrapped, tail, secret)
    case Some(n) => Associate(out, REDACTION, Replaced(Wrapped, tail[n..], secret));
    case None => Associate(out, [tail[0]], Replaced(Wrapped, tail[1..], secret));
  }

  method RedactSoftwrapped(text: string, secret: string) returns (out: string)
    requires secret != ""
    ensures out == Replaced(Wrapped, text, secret)
  {
    out := "";
    var i := 0;
    ghost var tail := text;
    while i < |text|
      invariant 0 <= i <= |text| && tail == text[i..]
      invariant out + Replaced(Wrapped, tail, secret) == Replaced(Wrapped, text, secret)
    {
      assert MatchAt(Wrapped, tail, secret) == MatchWrapped(tail, secret);
      PushReplaced(out, tail, secret);
      var m := MatchSoftwrapped(text[i..], secret);
      if m.Some? {
        assert text[i..][m.value..] == text[i + m.value..];
        out := out + REDACTION;
        i := i + m.value;
        tail := tail[m.value..];
      } else {
        assert text[i..][1..] == text[i + 1..];
        out := out + [text[i]];
        i := i + 1;
        tail := tail[1..];
      }
    }
    assert out + "" == out;
  }

  predicate HasWhitespace(s: string) {
    exists i :: 0 <= i < |s| && IsWhitespace(s[i])
  }

  function RedactedOne(text: string, secret: string): string {
    if secret == "" then text
    else
      var out := Replaced(Verbatim, text, secret);
      if HasWhitespace(secret) then out else Replaced(Wrapped, out, secret)
  }

  function Redacted(text: string, values: seq<string>): string
    decreases |values|
  {
    if values == [] then text else Redacted(RedactedOne(text, values[0]), values[1..])
  }

  method Redact(text: string, values: seq<string>) returns (out: string)
    ensures out == Redacted(text, values)
  {
    out := text;
    for i := 0 to |values|
      invariant Redacted(out, values[i..]) == Redacted(text, values)
    {
      assert values[i..][1..] == values[i + 1..];
      if values[i] != "" {
        out := Replaced(Verbatim, out, values[i]);
        if !HasWhitespace(values[i]) {
          out := RedactSoftwrapped(out, values[i]);
        }
      }
    }
    assert values[|values|..] == [];
  }

  // --- what a value must not do: line up with part of the marker ---

  /** Laid over the marker at an offset, with at least one position in common, the value
      agrees with it wherever both have a char. */
  predicate LinesUp(v: string, d: int) {
    && -|v| < d < |REDACTION|
    && forall i :: 0 <= i < |v| && 0 <= i + d < |REDACTION| ==> v[i] == REDACTION[i + d]
  }

  predicate OverlapsMarker(v: string) {
    v != "" && exists d :: -|v| < d < |REDACTION| && LinesUp(v, d)
  }

  /** In particular only a value that shares a char with the marker can line up with it. */
  lemma OverlapSharesChar(v: string)
    requires OverlapsMarker(v)
    ensures exists i :: 0 <= i < |v| && v[i] in REDACTION
  {
    var d :| -|v| < d < |REDACTION| && LinesUp(v, d);
    var i := if d < 0 then -d else 0;
    assert v[i] == REDACTION[i + d];
  }

  /** Which mode a value is looked for in: a value with whitespace is matched verbatim only. */
  predicate Applies(p: Pass, v: string) {
    p == Verbatim || !HasWhitespace(v)
  }

  ghost predicate Absent(p: Pass, text: string, v: string)
    requires v != ""
  {
    forall i :: 0 <= i <= |text| ==> MatchAt(p, text[i..], v).None?
  }

  // --- matches depend only on the chars they take ---

  lemma MatchIsLocal(p: Pass, hay: string, other: string, v: string)
    requires v != "" && MatchAt(p, hay, v).Some?
    requires MatchAt(p, hay, v).value <= |other|
    requires hay[..MatchAt(p, hay, v).value] == other[..MatchAt(p, hay, v).value]
    ensures MatchAt(p, other, v) == MatchAt(p, hay, v)
  {
    var n := MatchAt(p, hay, v).value;
    if p == Verbatim {
      assert other[..n] == v;
    } else {
      WrappedIsLocal(hay, other, v, n);
    }
  }

  lemma SameSlice(a: string, b: string, n: nat, k: nat)
    requires k <= n <= |a| && n <= |b| && a[..n] == b[..n]
    ensures a[k..][..n - k] == b[k..][..n - k]
    ensures k < n ==> a[k] == b[k]
  {
    assert a[k..][..n - k] == a[..n][k..] == b[..n][k..] == b[k..][..n - k];
    if k < n { assert a[k] == a[..n][k] == b[..n][k] == b[k]; }
  }

  lemma {:induction false} WrappedIsLocal(hay: string, other: string, v: string, n: nat)
    requires v != "" && MatchWrapped(hay, v) == Some(n)
    requires n <= |hay| && n <= |other| && hay[..n] == other[..n]
    ensures MatchWrapped(other, v) == Some(n)
    decreases |v|
  {
    SameSlice(hay, other, n, 0);
    if |v| > 1 {
      SameSlice(hay, other, n, 1);
      var skip := SkipWrap(hay[1..]);
      SkipIsLocal(hay[1..], other[1..], n - 1);
      SameSlice(hay, other, n, 1 + skip);
      WrappedIsLocal(hay[1 + skip..], other[1 + skip..], v[1..], n - 1 - skip);
    }
  }

  lemma {:induction false} SkipIsLocal(a: string, b: string, n: nat)
    requires n <= |a| && n <= |b| && a[..n] == b[..n] && SkipWrap(a) < n
    ensures SkipWrap(b) == SkipWrap(a)
  {
    assert a[0] == a[..n][0] == b[..n][0] == b[0];
    if IsSoftwrap(a[0]) {
      assert a[1..][..n - 1] == a[..n][1..] == b[..n][1..] == b[1..][..n - 1];
      SkipIsLocal(a[1..], b[1..], n - 1);
    }
  }

  /** A match that reaches `k` chars of unbroken text shows a stretch of the value there. */
  lemma {:induction false} MatchInto(p: Pass, hay: string, v: string, k: nat) returns (j: nat)
    requires v != "" && Applies(p, v) && MatchAt(p, hay, v).Some?
    requires k < MatchAt(p, hay, v).value
    requires k < |hay| && !IsSoftwrap(hay[k])
    ensures j < |v|
    ensures j <= k && (k == 0 ==> j == 0)
    ensures MatchAt(p, hay[k..], v[j..]).Some?
    decreases |v|
  {
    if p == Verbatim {
      j := k;
      assert v[k..] <= hay[k..];
    } else if k == 0 {
      j := 0;
      assert hay[0..] == hay && v[0..] == v;
    } else {
      var skip := SkipWrap(hay[1..]);
      assert hay[1..][k - 1] == hay[k];
      SkipWrapStops(hay[1..]);
      WhitespaceInTail(v);
      var j' := MatchInto(p, hay[1 + skip..], v[1..], k - 1 - skip);
      j := j' + 1;
      assert hay[1 + skip..][k - 1 - skip..] == hay[k..];
      assert v[1..][j'..] == v[j..];
    }
  }

  lemma WhitespaceInTail(v: string)
    requires v != ""
    ensures HasWhitespace(v[1..]) ==> HasWhitespace(v)
  {
    if i :| 0 <= i < |v[1..]| && IsWhitespace(v[1..][i]) {
      assert IsWhitespace(v[i + 1]);
    }
  }

  /** Matched against text that starts inside the marker, a value spells what is left of it,
      or as much of it as the value has chars. */
  lemma {:induction false} SpellsMarker(p: Pass, hay: string, v: string, r: nat)
    requires v != "" && r <= |REDACTION| && MatchAt(p, hay, v).Some?
    requires |REDACTION| - r <= |hay| && hay[..|REDACTION| - r] == REDACTION[r..]
    ensures forall i :: 0 <= i < |v| && i + r < |REDACTION| ==> v[i] == REDACTION[i + r]
    decreases |v|
  {
    if p == Verbatim {
      forall i | 0 <= i < |v| && i + r < |REDACTION| ensures v[i] == REDACTION[i + r] {
        assert v[i] == hay[i] == hay[..|REDACTION| - r][i];
      }
    } else if r < |REDACTION| {
      assert hay[0] == hay[..|REDACTION| - r][0] == REDACTION[r];
      if |v| > 1 {
        if r + 1 < |REDACTION| {
          assert hay[1] == hay[..|REDACTION| - r][1] == REDACTION[r + 1];
          assert SkipWrap(hay[1..]) == 0;
          assert hay[1..][..|REDACTION| - r - 1] == hay[..|REDACTION| - r][1..] == REDACTION[r + 1..];
          assert hay[1 + 0..] == hay[1..];
          SpellsMarker(p, hay[1..], v[1..], r + 1);
          forall i | 0 <= i < |v| && i + r < |REDACTION| ensures v[i] == REDACTION[i + r] {
            if i > 0 { assert v[1..][i - 1] == v[i]; }
          }
        }
      }
    }
  }

  /** A match whose span meets a marker lines the value up with the marker. */
  lemma MeetsMarker(p: Pass, hay: string, v: string, k: nat)
    requires v != "" && Applies(p, v) && MatchAt(p, hay, v).Some?
    requires k < MatchAt(p, hay, v).value
    requires k + |REDACTION| <= |hay| && hay[k..k + |REDACTION|] == REDACTION
    ensures OverlapsMarker(v)
  {
    assert hay[k] == hay[k..k + |REDACTION|][0] == REDACTION[0];
    var j: int := MatchInto(p, hay, v, k);
    assert hay[k..][..|REDACTION|] == REDACTION[0..];
    SpellsMarker(p, hay[k..], v[j..], 0);
    forall i | 0 <= i < |v| && 0 <= i - j < |REDACTION| ensures v[i] == REDACTION[i - j] {
      assert v[j..][i - j] == v[i];
    }
    assert LinesUp(v, -j);
  }

  /** Every match in a pass's output was already there, at a place the pass itself left
      alone: the marker adds none. */
  lemma {:induction false} Origin(p: Pass, text: string, s: string, q: Pass, v: string, i: nat) returns (at: nat)
    requires s != "" && v != "" && Applies(q, v) && !OverlapsMarker(v)
    requires i <= |Replaced(p, text, s)| && MatchAt(q, Replaced(p, text, s)[i..], v).Some?
    ensures at < |text| && MatchAt(q, text[at..], v).Some? && MatchAt(p, text[at..], s).None?
    decreases |text|, 1
  {
    if text == "" {
      assert false;
    } else if MatchAt(p, text, s).Some? {
      at := OriginAfterMarker(p, text, s, q, v, i);
    } else if i > 0 {
      at := OriginAfterChar(p, text, s, q, v, i);
    } else {
      at := 0;
      KeptMatch(p, text, s, q, v);
      assert text[0..] == text;
    }
  }

  lemma {:induction false} OriginAfterMarker(p: Pass, text: string, s: string, q: Pass, v: string, i: nat)
    returns (at: nat)
    requires s != "" && v != "" && Applies(q, v) && !OverlapsMarker(v)
    requires i <= |Replaced(p, text, s)| && MatchAt(q, Replaced(p, text, s)[i..], v).Some?
    requires text != "" && MatchAt(p, text, s).Some?
    ensures at < |text| && MatchAt(q, text[at..], v).Some? && MatchAt(p, text[at..], s).None?
    decreases |text|, 0
  {
    var n := MatchAt(p, text, s).value;
    var tail := text[n..];
    var rest := Replaced(p, tail, s);
    assert Replaced(p, text, s) == REDACTION + rest;
    PastMarker(q, rest, v, i);
    var after := Origin(p, tail, s, q, v, i - |REDACTION|);
    at := n + after;
    assert tail[after..] == text[at..];
  }

  lemma {:induction false} OriginAfterChar(p: Pass, text: string, s: string, q: Pass, v: string, i: nat)
    returns (at: nat)
    requires s != "" && v != "" && Applies(q, v) && !OverlapsMarker(v)
    requires 0 < i <= |Replaced(p, text, s)| && MatchAt(q, Replaced(p, text, s)[i..], v).Some?
    requires text != "" && MatchAt(p, text, s).None?
    ensures at < |text| && MatchAt(q, text[at..], v).Some? && MatchAt(p, text[at..], s).None?
    decreases |text|, 0
  {
    assert Replaced(p, text, s)[i..] == Replaced(p, text[1..], s)[i - 1..];
    at := Origin(p, text[1..], s, q, v, i - 1);
    assert text[1..][at..] == text[1 + at..];
    at := 1 + at;
  }

  lemma PastMarker(q: Pass, rest: string, v: string, i: nat)
    requires v != "" && !OverlapsMarker(v)
    requires i <= |REDACTION + rest| && MatchAt(q, (REDACTION + rest)[i..], v).Some?
    ensures i >= |REDACTION| && (REDACTION + rest)[i..] == rest[i - |REDACTION|..]
  {
    if i < |REDACTION| {
      assert (REDACTION + rest)[i..][..|REDACTION| - i] == REDACTION[i..];
      InsideMarker(q, (REDACTION + rest)[i..], v, i);
    }
  }

  /** A match at the start of the output, when the pass keeps the first char, lies wholly
      in the kept text: it cannot reach the first marker. */
  lemma KeptMatch(p: Pass, text: string, s: string, q: Pass, v: string)
    requires s != "" && v != "" && Applies(q, v) && !OverlapsMarker(v)
    requires MatchAt(q, Replaced(p, text, s)[0..], v).Some?
    ensures MatchAt(q, text[0..], v).Some?
  {
    var out := Replaced(p, text, s);
    assert out[0..] == out && text[0..] == text;
    var k := Kept(p, text, s);
    if k < MatchAt(q, out, v).value {
      MeetsMarker(q, out, v, k);
    }
    var n := MatchAt(q, out, v).value;
    assert out[..n] == out[..k][..n] == text[..k][..n] == text[..n];
    MatchIsLocal(q, out, text, v);
  }

  lemma InsideMarker(p: Pass, hay: string, v: string, r: nat)
    requires v != "" && r < |REDACTION| && MatchAt(p, hay, v).Some?
    requires |REDACTION| - r <= |hay| && hay[..|REDACTION| - r] == REDACTION[r..]
    ensures OverlapsMarker(v)
  {
    SpellsMarker(p, hay, v, r);
    assert LinesUp(v, r);
  }

  /** How many chars a pass keeps before its first marker. */
  lemma {:induction false} Kept(p: Pass, text: string, s: string) returns (k: nat)
    requires s != ""
    ensures KeptFront(text, Replaced(p, text, s), k)
    decreases |text|
  {
    k := 0;
    if text != "" && MatchAt(p, text, s).None? {
      var rest := Replaced(p, text[1..], s);
      var k' := Kept(p, text[1..], s);
      k := k' + 1;
      KeptCons(text[0], text[1..], rest, k');
      assert [text[0]] + text[1..] == text;
    }
  }

  /** The first `k` chars come out as they are, and then the marker or nothing. */
  predicate KeptFront(text: string, out: string, k: nat) {
    && k <= |text| && k <= |out| && out[..k] == text[..k]
    && (k == |out| || (k + |REDACTION| <= |out| && out[k..k + |REDACTION|] == REDACTION))
  }

  lemma KeptCons(c: char, text: string, out: string, k: nat)
    requires KeptFront(text, out, k)
    ensures KeptFront([c] + text, [c] + out, k + 1)
  {
    assert ([c] + out)[..k + 1] == [c] + out[..k] && ([c] + text)[..k + 1] == [c] + text[..k];
    if k < |out| { assert ([c] + out)[k + 1..k + 1 + |REDACTION|] == out[k..k + |REDACTION|]; }
  }

  lemma NotAbsent(q: Pass, text: string, v: string, at: nat)
    requires v != "" && at <= |text| && MatchAt(q, text[at..], v).Some?
    ensures !Absent(q, text, v)
  {}

  lemma PassKeepsAbsent(p: Pass, text: string, s: string, q: Pass, v: string)
    requires s != "" && v != "" && Applies(q, v) && !OverlapsMarker(v)
    requires Absent(q, text, v)
    ensures Absent(q, Replaced(p, text, s), v)
  {
    forall i | 0 <= i <= |Replaced(p, text, s)| ensures MatchAt(q, Replaced(p, text, s)[i..], v).None? {
      if MatchAt(q, Replaced(p, text, s)[i..], v).Some? {
        var at := Origin(p, text, s, q, v, i);
        NotAbsent(q, text, v, at);
      }
    }
  }

  lemma PassClears(p: Pass, text: string, v: string)
    requires v != "" && Applies(p, v) && !OverlapsMarker(v)
    ensures Absent(p, Replaced(p, text, v), v)
  {
    forall i | 0 <= i <= |Replaced(p, text, v)| ensures MatchAt(p, Replaced(p, text, v)[i..], v).None? {
      if MatchAt(p, Replaced(p, text, v)[i..], v).Some? {
        var at := Origin(p, text, v, p, v, i);
        assert false;
      }
    }
  }

  /** No occurrence of the value, in either of the ways it is looked for. */
  ghost predicate Clean(text: string, v: string)
    requires v != ""
  {
    Absent(Verbatim, text, v) && (!HasWhitespace(v) ==> Absent(Wrapped, text, v))
  }

  lemma OneClears(text: string, v: string)
    requires v != "" && !OverlapsMarker(v)
    ensures Clean(RedactedOne(text, v), v)
  {
    var out := Replaced(Verbatim, text, v);
    PassClears(Verbatim, text, v);
    if !HasWhitespace(v) {
      PassKeepsAbsent(Wrapped, out, v, Verbatim, v);
      PassClears(Wrapped, out, v);
    }
  }

  lemma OneKeepsClean(text: string, s: string, v: string)
    requires v != "" && !OverlapsMarker(v) && Clean(text, v)
    ensures Clean(RedactedOne(text, s), v)
  {
    if s != "" {
      var out := Replaced(Verbatim, text, s);
      PassKeepsAbsent(Verbatim, text, s, Verbatim, v);
      if !HasWhitespace(v) { PassKeepsAbsent(Verbatim, text, s, Wrapped, v); }
      if !HasWhitespace(s) {
        PassKeepsAbsent(Wrapped, out, s, Verbatim, v);
        if !HasWhitespace(v) { PassKeepsAbsent(Wrapped, out, s, Wrapped, v); }
      }
    }
  }

  lemma {:induction false} RestKeepsClean(text: string, values: seq<string>, v: string)
    requires v != "" && !OverlapsMarker(v) && Clean(text, v)
    ensures Clean(Redacted(text, values), v)
    decreases |values|
  {
    if values != [] {
      OneKeepsClean(text, values[0], v);
      RestKeepsClean(RedactedOne(text, values[0]), values[1..], v);
    }
  }

  /** A registered value that does not line up with the marker never survives, whatever the
      other values are and whatever order they are taken in. */
  lemma {:induction false} RedactionClears(text: string, values: seq<string>, v: string)
    requires v in values && v != "" && !OverlapsMarker(v)
    ensures Clean(Redacted(text, values), v)
    decreases |values|
  {
    if values[0] == v {
      OneClears(text, v);
      RestKeepsClean(RedactedOne(text, v), values[1..], v);
    } else {
      RedactionClears(RedactedOne(text, values[0]), values[1..], v);
    }
  }

  lemma {:induction false} AbsentIsFixed(p: Pass, text: string, v: string)
    requires v != "" && Absent(p, text, v)
    ensures Replaced(p, text, v) == text
    decreases |text|
  {
    if text != "" {
      assert text[0..] == text;
      forall i | 0 <= i <= |text[1..]| ensures MatchAt(p, text[1..][i..], v).None? {
        assert text[1..][i..] == text[i + 1..];
      }
      AbsentIsFixed(p, text[1..], v);
    }
  }

  lemma {:induction false} CleanIsFixed(text: string, values: seq<string>)
    requires forall v :: v in values && v != "" ==> Clean(text, v)
    ensures Redacted(text, values) == text
    decreases |values|
  {
    if values != [] {
      if values[0] != "" {
        assert Clean(text, values[0]);
        AbsentIsFixed(Verbatim, text, values[0]);
        if !HasWhitespace(values[0]) { AbsentIsFixed(Wrapped, text, values[0]); }
      }
      CleanIsFixed(text, values[1..]);
    }
  }

  lemma PutInFront(x: string, a: string, b: string)
    requires x != ""
    ensures [x[0]] + (x[1..] + a + b) == x + a + b
  {}

  /** The first match of a value becomes the marker, what stands before it stays, and the rest
      is redacted on its own. */
  lemma {:induction false} FirstMatchIsReplaced(p: Pass, x: string, m: string, y: string, v: string)
    requires v != "" && MatchAt(p, m + y, v) == Some(|m|)
    requires forall i :: 0 <= i < |x| ==> MatchAt(p, (x + m + y)[i..], v).None?
    ensures Replaced(p, x + m + y, v) == x + REDACTION + Replaced(p, y, v)
    decreases |x|
  {
    var text := x + m + y;
    if x == "" {
      assert text == m + y && (m + y)[|m|..] == y;
    } else {
      assert text[0..] == text && text[1..] == x[1..] + m + y;
      forall i | 0 <= i < |x| - 1 ensures MatchAt(p, (x[1..] + m + y)[i..], v).None? {
        assert text[1..][i..] == text[i + 1..];
      }
      FirstMatchIsReplaced(p, x[1..], m, y, v);
      PutInFront(x, REDACTION, Replaced(p, y, v));
    }
  }

  /** Redacting twice is redacting once. */
  lemma RedactionIdempotent(text: string, values: seq<string>)
    requires forall v :: v in values ==> !OverlapsMarker(v)
    ensures Redacted(Redacted(text, values), values) == Redacted(text, values)
  {
    forall v | v in values && v != "" ensures Clean(Redacted(text, values), v) {
      RedactionClears(text, values, v);
    }
    CleanIsFixed(Redacted(text, values), values);
  }

  // --- what an absent soft-wrapped value means ---

  /** The text as it reads with soft-wrap whitespace taken out. */
  function Unwrapped(s: string): string {
    if s == "" then "" else if IsSoftwrap(s[0]) then Unwrapped(s[1..]) else [s[0]] + Unwrapped(s[1..])
  }

  lemma {:induction false} UnwrappedSkip(s: string)
    ensures Unwrapped(s[SkipWrap(s)..]) == Unwrapped(s)
  {
    if s != "" && IsSoftwrap(s[0]) {
      UnwrappedSkip(s[1..]);
      assert s[1..][SkipWrap(s[1..])..] == s[SkipWrap(s)..];
    }
  }

  /** Away from leading whitespace, a soft-wrapped match is a match in the unwrapped text. */
  lemma {:induction false} WrappedMatchMeaning(hay: string, v: string)
    requires v != "" && !HasWhitespace(v) && (hay != "" ==> !IsSoftwrap(hay[0]))
    ensures MatchAt(Wrapped, hay, v).Some? <==> v <= Unwrapped(hay)
    decreases |v|
  {
    WhitespaceInTail(v);
    if hay != "" && hay[0] == v[0] && |v| > 1 {
      var skip := SkipWrap(hay[1..]);
      var hay' := hay[1 + skip..];
      assert hay[1..][skip..] == hay';
      SkipWrapStops(hay[1..]);
      UnwrappedSkip(hay[1..]);
      WrappedMatchMeaning(hay', v[1..]);
      assert Unwrapped(hay) == [hay[0]] + Unwrapped(hay');
      assert v == [v[0]] + v[1..];
      assert v <= Unwrapped(hay) <==> v[1..] <= Unwrapped(hay') by {
        if v <= Unwrapped(hay) { assert Unwrapped(hay)[1..] == Unwrapped(hay'); }
      }
    }
  }

  /** No soft-wrapped occurrence is left exactly when the value is not in the text read
      without its soft-wrap whitespace. */
  lemma {:induction false} AbsentWrappedMeaning(text: string, v: string)
    requires v != "" && !HasWhitespace(v)
    ensures Absent(Wrapped, text, v) <==> !Contains(Unwrapped(text), v)
    decreases |text|
  {
    assert text[0..] == text;
    if text == "" {
      assert Contains("", v) ==> v == "";
    } else {
      var rest := text[1..];
      AbsentWrappedMeaning(rest, v);
      forall i | 1 <= i <= |text| ensures text[i..] == rest[i - 1..] {}
      assert Absent(Wrapped, text, v) <==> MatchAt(Wrapped, text, v).None? && Absent(Wrapped, rest, v) by {
        if MatchAt(Wrapped, text, v).None? && Absent(Wrapped, rest, v) {
          forall i | 0 <= i <= |text| ensures MatchAt(Wrapped, text[i..], v).None? {}
        }
        if Absent(Wrapped, text, v) {
          forall i | 0 <= i <= |rest| ensures MatchAt(Wrapped, rest[i..], v).None? {
            assert text[i + 1..] == rest[i..];
          }
        }
      }
      if IsSoftwrap(text[0]) {
        assert IsWhitespace(text[0]);
        assert MatchAt(Wrapped, text, v).None?;
      } else {
        WrappedMatchMeaning(text, v);
        ContainsCons(text[0], Unwrapped(rest), v);
      }
    }
  }

  lemma OccursAfterFirst(c: char, s: string, v: string, i: int)
    ensures OccursAt([c] + s, v, i + 1) && i >= 0 <==> OccursAt(s, v, i)
  {
    var t := [c] + s;
    if 0 <= i && i + |v| <= |s| {
      assert t[i + 1..i + 1 + |v|] == s[i..i + |v|];
    }
  }

  lemma ContainsCons(c: char, s: string, v: string)
    requires v != ""
    ensures Contains([c] + s, v) <==> v <= [c] + s || Contains(s, v)
  {
    var t := [c] + s;
    if v <= t { assert OccursAt(t, v, 0); }
    if i :| 0 <= i <= |s| && OccursAt(s, v, i) {
      OccursAfterFirst(c, s, v, i);
      assert OccursAt(t, v, i + 1);
    }
    if i :| 0 <= i <= |t| && OccursAt(t, v, i) {
      if i > 0 { OccursAfterFirst(c, s, v, i - 1); }
    }
  }

  lemma AbsentVerbatimMeaning(text: string, v: string)
    requires v != ""
    ensures Absent(Verbatim, text, v) <==> !Contains(text, v)
  {
    forall i | 0 <= i <= |text| ensures MatchAt(Verbatim, text[i..], v).Some? <==> OccursAt(text, v, i) {
      if v <= text[i..] { assert text[i..i + |v|] == text[i..][..|v|]; }
      if OccursAt(text, v, i) { assert text[i..][..|v|] == text[i..i + |v|]; }
    }
  }

  // --- truncation ---

  /** Cutting the text short removes matches and adds none. */
  lemma PrefixStaysClean(text: string, n: nat, v: string)
    requires v != "" && n <= |text| && Clean(text, v)
    ensures Clean(text[..n], v)
  {
    PrefixStaysAbsent(Verbatim, text, n, v);
    if !HasWhitespace(v) { PrefixStaysAbsent(Wrapped, text, n, v); }
  }

  lemma PrefixStaysAbsent(p: Pass, text: string, n: nat, v: string)
    requires v != "" && n <= |text| && Absent(p, text, v)
    ensures Absent(p, text[..n], v)
  {
    forall i | 0 <= i <= n ensures MatchAt(p, text[..n][i..], v).None? {
      var hay := text[..n][i..];
      if MatchAt(p, hay, v).Some? {
        var m := MatchAt(p, hay, v).value;
        assert text[i..][..m] == hay[..m];
        MatchIsLocal(p, hay, text[i..], v);
        assert false;
      }
    }
  }

  predicate IsCharBoundary(s: string, at: nat) {
    exists n :: 0 <= n <= |s| && ByteLen(s[..n]) == at
  }

  method TruncateOnCharBoundary(s: string, max: nat) returns (r: string)
    ensures r <= s
    ensures ByteLen(s) <= max ==> r == s
    ensures ByteLen(r) <= max
    ensures forall n :: 0 <= n <= |s| && ByteLen(s[..n]) <= max ==> n <= |r|
  {
    forall n | 0 <= n <= |s| ensures ByteLen(s[..n]) <= ByteLen(s) { ByteLenGrows(s, n); }
    if ByteLen(s) <= max {
      return s;
    }
    var end := max;
    assert ByteLen(s[..0]) == 0;
    while end > 0 && !IsCharBoundary(s, end)
      invariant 0 <= end <= max
      invariant forall n :: 0 <= n <= |s| && ByteLen(s[..n]) <= max ==> ByteLen(s[..n]) <= end
    {
      end := end - 1;
    }
    assert IsCharBoundary(s, end);
    var n :| 0 <= n <= |s| && ByteLen(s[..n]) == end;
    r := s[..n];
    forall m | 0 <= m <= |s| && ByteLen(s[..m]) <= max ensures m <= |r| {
      if m > n {
        assert s[..m][..n] == s[..n];
        ByteLenGrows(s[..m], n);
      }
    }
  }

  /** Redaction first, truncation after it: no value survives the cut. */
  method Sanitize(text: string, values: seq<string>, maxLen: Option<nat>) returns (out: string)
    ensures out <= Redacted(text, values)
    ensures maxLen.None? ==> out == Redacted(text, values)
    ensures maxLen.Some? ==> ByteLen(out) <= maxLen.value
    ensures maxLen.Some? ==>
      forall n | 0 <= n <= |Redacted(text, values)| && ByteLen(Redacted(text, values)[..n]) <= maxLen.value ::
        n <= |out|
    ensures maxLen.Some? && ByteLen(Redacted(text, values)) <= maxLen.value ==> out == Redacted(text, values)
    ensures forall v :: v in values && v != "" && !OverlapsMarker(v) ==> Clean(out, v)
  {
    var redacted := Redact(text, values);
    if maxLen.Some? && ByteLen(redacted) > maxLen.value {
      out := TruncateOnCharBoundary(redacted, maxLen.value);
    } else {
      out := redacted;
    }
    assert out == redacted[..|out|];
    forall v | v in values && v != "" && !OverlapsMarker(v) ensures Clean(out, v) {
      RedactionClears(text, values, v);
      PrefixStaysClean(redacted, |out|, v);
    }
  }
}
