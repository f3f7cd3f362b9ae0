/**
 Text helpers shared by the other modules: splitting, trimming, joining, searching, and lengths
 in bytes. Text is a sequence of Unicode scalars, as in a string of the modelled code.
*/
module Text {

  datatype Option<+T> = None | Some(value: T) {
    function GetOr(default: T): T {
      if Some? then value else default
    }
  }

  datatype Result<+T, +E> = Ok(value: T) | Err(error: E)

  lemma Associate<T>(a: seq<T>, b: seq<T>, c: seq<T>)
    ensures (a + b) + c == a + (b + c)
  {}

  /** `str::split` on one char: always at least one piece. */
  function Split(s: string, sep: char): (r: seq<string>)
    ensures |r| >= 1
  {
    if s == "" then [""]
    else if s[0] == sep then [""] + Split(s[1..], sep)
    else
      var r := Split(s[1..], sep);
      [[s[0]] + r[0]] + r[1..]
  }

  lemma {:induction false} SplitKeepsChars(s: string, sep: char, c: char)
    requires c !in s
    ensures forall i :: 0 <= i < |Split(s, sep)| ==> c !in Split(s, sep)[i]
  {
    if s != "" { SplitKeepsChars(s[1..], sep, c); }
  }

  lemma {:induction false} SplitPieces(s: string, sep: char)
    ensures forall i :: 0 <= i < |Split(s, sep)| ==> sep !in Split(s, sep)[i]
  {
    if s != "" { SplitPieces(s[1..], sep); }
  }

  /** Every char but the separator is in some piece. */
  lemma {:induction false} SplitHolds(s: string, sep: char, c: char) returns (i: nat)
    requires c in s && c != sep
    ensures i < |Split(s, sep)| && c in Split(s, sep)[i]
  {
    if s[0] == c {
      i := 0;
    } else {
      assert c in s[1..] by { assert s == [s[0]] + s[1..]; }
      var k := SplitHolds(s[1..], sep, c);
      i := if s[0] == sep then k + 1 else k;
    }
  }

  /** Pieces without the separator come back from their join. */
  lemma {:induction false} SplitOfPieces(parts: seq<string>, sep: char)
    requires parts != [] && forall i :: 0 <= i < |parts| ==> sep !in parts[i]
    ensures Split(Join(parts, [sep]), sep) == parts
    decreases |parts|
  {
    SplitWithout(parts[0], sep);
    if |parts| > 1 {
      SplitOfPieces(parts[1..], sep);
      SplitOfJoin(parts[0], sep, Join(parts[1..], [sep]));
    }
  }

  /** `char::is_whitespace`: the Unicode White_Space property. */
  predicate IsWhitespace(c: char) {
    || '\U{0009}' <= c <= '\U{000D}'
    || c == ' ' || c == '\U{0085}' || c == '\U{00A0}' || c == '\U{1680}'
    || '\U{2000}' <= c <= '\U{200A}'
    || c == '\U{2028}' || c == '\U{2029}' || c == '\U{202F}' || c == '\U{205F}' || c == '\U{3000}'
  }

  predicate IsBlank(s: string) {
    forall i :: 0 <= i < |s| ==> IsWhitespace(s[i])
  }

  /** `str::trim`. */
  function Trim(s: string): (r: string)
    ensures r == "" <==> IsBlank(s)
  {
    if s == "" then ""
    else if IsWhitespace(s[0]) then
      assert IsBlank(s[1..]) ==> forall i :: 1 <= i < |s| ==> s[i] == s[1..][i - 1];
      Trim(s[1..])
    else TrimEnd(s)
  }

  function TrimEnd(s: string): (r: string)
    ensures r == "" <==> IsBlank(s)
    ensures r <= s
  {
    if s != "" && IsWhitespace(s[|s| - 1]) then
      assert IsBlank(s[..|s| - 1]) ==> forall i :: 0 <= i < |s| - 1 ==> s[i] == s[..|s| - 1][i];
      TrimEnd(s[..|s| - 1])
    else s
  }

  /** `str::split_whitespace`. */
  function Words(s: string): (r: seq<string>)
    ensures s != "" && !IsWhitespace(s[0]) ==> r != []
  {
    if s == "" then []
    else if IsWhitespace(s[0]) then Words(s[1..])
    else if |s| > 1 && !IsWhitespace(s[1]) then
      var rest := Words(s[1..]);
      [[s[0]] + rest[0]] + rest[1..]
    else [[s[0]]] + Words(s[1..])
  }

  // --- what a word and a trimmed text are ---

  predicate NoSpace(s: string) {
    forall i :: 0 <= i < |s| ==> !IsWhitespace(s[i])
  }

  /** The first word of a text: what stands between the blanks before it and the next blank. */
  predicate FirstWord(s: string, i: nat, j: nat) {
    i < j <= |s| && IsBlank(s[..i]) && NoSpace(s[i..j]) && (j < |s| ==> IsWhitespace(s[j]))
  }

  /** The text is exactly these words, with blanks around and between them. */
  ghost predicate SplitsInto(s: string, ws: seq<string>)
    decreases |ws|
  {
    if ws == [] then IsBlank(s)
    else exists i: nat, j: nat :: FirstWord(s, i, j) && s[i..j] == ws[0] && SplitsInto(s[j..], ws[1..])
  }

  lemma FirstWordIsUnique(s: string, i: nat, j: nat, k: nat, l: nat)
    requires FirstWord(s, i, j) && FirstWord(s, k, l)
    ensures i == k && j == l
  {
    FirstWordChars(s, i, j);
    FirstWordChars(s, k, l);
    assert !IsWhitespace(s[i]) && !IsWhitespace(s[k]);
  }

  lemma FirstWordChars(s: string, i: nat, j: nat)
    requires FirstWord(s, i, j)
    ensures forall p :: 0 <= p < i ==> IsWhitespace(s[p])
    ensures forall p :: i <= p < j ==> !IsWhitespace(s[p])
  {
    forall p | 0 <= p < i ensures IsWhitespace(s[p]) { assert s[..i][p] == s[p]; }
    forall p | i <= p < j ensures !IsWhitespace(s[p]) { assert s[i..j][p - i] == s[p]; }
  }

  lemma BlankHasNoWord(s: string, i: nat, j: nat)
    requires FirstWord(s, i, j)
    ensures !IsBlank(s)
  {
    assert s[i..j][0] == s[i];
  }

  /** There is one way to split a text into words. */
  lemma {:induction false} SplitsOneWay(s: string, ws: seq<string>, vs: seq<string>)
    requires SplitsInto(s, ws) && SplitsInto(s, vs)
    ensures ws == vs
    decreases |ws|
  {
    if ws != [] {
      var i: nat, j: nat :| FirstWord(s, i, j) && s[i..j] == ws[0] && SplitsInto(s[j..], ws[1..]);
      BlankHasNoWord(s, i, j);
      var k: nat, l: nat :| FirstWord(s, k, l) && s[k..l] == vs[0] && SplitsInto(s[l..], vs[1..]);
      FirstWordIsUnique(s, i, j, k, l);
      SplitsOneWay(s[j..], ws[1..], vs[1..]);
      assert ws == [ws[0]] + ws[1..] && vs == [vs[0]] + vs[1..];
    } else if vs != [] {
      var k: nat, l: nat :| FirstWord(s, k, l) && s[k..l] == vs[0] && SplitsInto(s[l..], vs[1..]);
      BlankHasNoWord(s, k, l);
      assert false;
    }
  }

  lemma SplitsLater(c: char, s: string, ws: seq<string>)
    requires IsWhitespace(c) && SplitsInto(s, ws)
    ensures SplitsInto([c] + s, ws)
  {
    if ws != [] {
      var i: nat, j: nat :| FirstWord(s, i, j) && s[i..j] == ws[0] && SplitsInto(s[j..], ws[1..]);
      FirstWordLater(c, s, i, j);
    }
  }

  lemma FirstWordLater(c: char, s: string, i: nat, j: nat)
    requires IsWhitespace(c) && FirstWord(s, i, j)
    ensures var t := [c] + s;
      FirstWord(t, i + 1, j + 1) && t[i + 1..j + 1] == s[i..j] && t[j + 1..] == s[j..]
  {
    var t := [c] + s;
    assert t[..i + 1] == [c] + s[..i];
    assert t[i + 1..j + 1] == s[i..j];
  }

  /** A char in front of the first word grows it. */
  lemma SplitsGrown(c: char, s: string, ws: seq<string>)
    requires !IsWhitespace(c) && s != "" && !IsWhitespace(s[0]) && SplitsInto(s, ws) && ws != []
    ensures SplitsInto([c] + s, [[c] + ws[0]] + ws[1..])
  {
    var t := [c] + s;
    var i: nat, j: nat :| FirstWord(s, i, j) && s[i..j] == ws[0] && SplitsInto(s[j..], ws[1..]);
    FirstWordChars(s, i, j);
    assert t[0..j + 1] == [c] + s[0..j] && t[j + 1..] == s[j..] && t[..0] == "";
    assert FirstWord(t, 0, j + 1);
    assert ([[c] + ws[0]] + ws[1..])[1..] == ws[1..];
  }

  lemma SplitsNew(c: char, s: string, ws: seq<string>)
    requires !IsWhitespace(c) && (s == "" || IsWhitespace(s[0])) && SplitsInto(s, ws)
    ensures SplitsInto([c] + s, [[c]] + ws)
  {
    var t := [c] + s;
    assert t[0..1] == [c] && t[1..] == s && t[..0] == "";
    assert FirstWord(t, 0, 1);
    assert ([[c]] + ws)[1..] == ws;
  }

  /** The words of a text are the one way to split it. */
  lemma {:induction false} WordsMeaning(s: string)
    ensures SplitsInto(s, Words(s))
  {
    if s != "" {
      var c, rest := s[0], s[1..];
      assert s == [c] + rest;
      WordsMeaning(rest);
      if IsWhitespace(c) {
        SplitsLater(c, rest, Words(rest));
      } else if rest != "" && !IsWhitespace(rest[0]) {
        SplitsGrown(c, rest, Words(rest));
      } else {
        SplitsNew(c, rest, Words(rest));
      }
    }
  }

  lemma {:induction false} WordsAreWords(s: string, ws: seq<string>)
    requires SplitsInto(s, ws)
    ensures forall i :: 0 <= i < |ws| ==> ws[i] != "" && NoSpace(ws[i])
    decreases |ws|
  {
    if ws != [] {
      var i: nat, j: nat :| FirstWord(s, i, j) && s[i..j] == ws[0] && SplitsInto(s[j..], ws[1..]);
      WordsAreWords(s[j..], ws[1..]);
    }
  }

  /** A text without blanks at its ends, and the blanks around it. */
  predicate Padded(s: string, p: string, core: string, q: string) {
    && s == p + core + q && IsBlank(p) && IsBlank(q)
    && (core != "" ==> !IsWhitespace(core[0]) && !IsWhitespace(core[|core| - 1]))
  }

  /** Every text is its trimmed text with blanks around it. */
  lemma {:induction false} TrimPads(s: string) returns (p: string, q: string)
    ensures Padded(s, p, Trim(s), q)
  {
    if s == "" {
      p, q := "", "";
    } else if IsWhitespace(s[0]) {
      p, q := TrimPads(s[1..]);
      p := [s[0]] + p;
      assert s == [s[0]] + s[1..];
    } else {
      p := "";
      q := TrimEndPads(s);
    }
  }

  lemma {:induction false} TrimEndPads(s: string) returns (q: string)
    ensures s == TrimEnd(s) + q && IsBlank(q)
    ensures TrimEnd(s) != "" ==> TrimEnd(s)[0] == s[0] && !IsWhitespace(TrimEnd(s)[|TrimEnd(s)| - 1])
  {
    if s != "" && IsWhitespace(s[|s| - 1]) {
      q := TrimEndPads(s[..|s| - 1]);
      q := q + [s[|s| - 1]];
      assert s == s[..|s| - 1] + [s[|s| - 1]];
    } else {
      q := "";
    }
  }

  /** Trimming drops exactly the blanks at both ends. */
  lemma {:induction false} TrimMeaning(s: string, p: string, core: string, q: string)
    requires Padded(s, p, core, q)
    ensures Trim(s) == core
    decreases |p|
  {
    if core == "" {
      assert IsBlank(s);
    } else if p != "" {
      assert IsWhitespace(p[0]) && s[1..] == p[1..] + core + q;
      assert forall i :: 0 <= i < |p| - 1 ==> p[1..][i] == p[i + 1];
      TrimMeaning(s[1..], p[1..], core, q);
    } else {
      assert s == core + q;
      TrimEndMeaning(core, q);
    }
  }

  lemma {:induction false} TrimEndMeaning(core: string, q: string)
    requires IsBlank(q) && core != "" && !IsWhitespace(core[|core| - 1])
    ensures TrimEnd(core + q) == core
    decreases |q|
  {
    if q == "" {
      assert core + q == core;
    } else {
      assert (core + q)[..|core + q| - 1] == core + q[..|q| - 1];
      assert (core + q)[|core + q| - 1] == q[|q| - 1];
      TrimEndMeaning(core, q[..|q| - 1]);
    }
  }

  lemma {:induction false} WordsOfJoin(a: string, c: char, b: string)
    requires IsWhitespace(c)
    ensures Words(a + [c] + b) == Words(a) + Words(b)
  {
    if a == "" {
      assert (a + [c] + b)[1..] == b;
    } else {
      assert (a + [c] + b)[1..] == a[1..] + [c] + b;
      WordsOfJoin(a[1..], c, b);
    }
  }

  /** `[String]::join`. */
  function Join(parts: seq<string>, sep: string): string {
    if parts == [] then ""
    else if |parts| == 1 then parts[0]
    else parts[0] + sep + Join(parts[1..], sep)
  }

  /** `char::to_ascii_lowercase`. */
  function Lower(c: char): (r: char)
  {
    if 'A' <= c <= 'Z' then (c as int + 32) as char else c
  }

  function LowerAll(s: string): (r: string)
    ensures |r| == |s|
    ensures forall i :: 0 <= i < |s| ==> r[i] == Lower(s[i])
  {
    seq(|s|, i requires 0 <= i < |s| => Lower(s[i]))
  }

  predicate OccursAt(hay: string, needle: string, i: int) {
    0 <= i && i + |needle| <= |hay| && hay[i..i + |needle|] == needle
  }

  /** `str::contains`. */
  predicate Contains(hay: string, needle: string) {
    exists i :: 0 <= i <= |hay| && OccursAt(hay, needle, i)
  }

  /** `str::starts_with`. */
  predicate StartsWith(s: string, p: string) {
    p <= s
  }

  lemma {:induction false} WordsOfBlank(s: string)
    requires IsBlank(s)
    ensures Words(s) == []
  {
    if s != "" {
      assert IsWhitespace(s[0]);
      assert forall i :: 0 <= i < |s| - 1 ==> s[1..][i] == s[i + 1];
      WordsOfBlank(s[1..]);
    }
  }

  lemma {:induction false} SplitWithout(s: string, sep: char)
    requires sep !in s
    ensures Split(s, sep) == [s]
  {
    if s != "" {
      SplitWithout(s[1..], sep);
      assert [s[0]] + s[1..] == s;
    }
  }

  lemma {:induction false} JoinOfSplit(s: string, sep: char)
    ensures Join(Split(s, sep), [sep]) == s
  {
    if s != "" {
      JoinOfSplit(s[1..], sep);
      var rest := Split(s[1..], sep);
      if s[0] == sep {
        assert ([""] + rest)[1..] == rest;
        assert "" + [sep] + s[1..] == s;
      } else {
        assert ([[s[0]] + rest[0]] + rest[1..])[1..] == rest[1..];
        if |rest| > 1 {
          var after := Join(rest[1..], [sep]);
          assert [s[0]] + rest[0] + [sep] + after == [s[0]] + (rest[0] + [sep] + after);
        }
      }
    }
  }

  lemma {:induction false} SplitOfJoin(a: string, sep: char, b: string)
    ensures Split(a + [sep] + b, sep) == Split(a, sep) + Split(b, sep)
  {
    if a == "" {
      assert (a + [sep] + b)[1..] == b;
    } else {
      assert (a + [sep] + b)[1..] == a[1..] + [sep] + b;
      SplitOfJoin(a[1..], sep, b);
    }
  }

  function Width(c: char): nat {
    if c < '\U{0080}' then 1 else if c < '\U{0800}' then 2 else if c < '\U{10000}' then 3 else 4
  }

  /** `str::len`: the number of UTF-8 bytes. */
  function ByteLen(s: string): nat {
    if s == "" then 0 else ByteLen(s[..|s| - 1]) + Width(s[|s| - 1])
  }

  lemma {:induction false} ByteLenGrows(s: string, n: nat)
    requires n <= |s|
    ensures ByteLen(s[..n]) + (|s| - n) <= ByteLen(s)
    decreases |s|
  {
    if n == |s| {
      assert s[..n] == s;
    } else {
      assert s[..|s| - 1][..n] == s[..n];
      ByteLenGrows(s[..|s| - 1], n);
    }
  }

  lemma {:induction false} ByteLenJoin(a: string, b: string)
    ensures ByteLen(a + b) == ByteLen(a) + ByteLen(b)
    decreases |b|
  {
    if b == "" {
      assert a + b == a;
    } else {
      assert (a + b)[..|a + b| - 1] == a + b[..|b| - 1];
      ByteLenJoin(a, b[..|b| - 1]);
    }
  }

  lemma {:induction false} ByteLenFront(s: string)
    requires s != ""
    ensures ByteLen(s) == Width(s[0]) + ByteLen(s[1..])
    decreases |s|
  {
    if |s| > 1 {
      ByteLenFront(s[..|s| - 1]);
      assert s[..|s| - 1][1..] == s[1..][..|s| - 2];
    }
  }
}
