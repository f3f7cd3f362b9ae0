/** The `glob` tool's pattern matcher. */
module Wildcard {
  import opened Text

  // A two-pointer backtracking scan matches one path segment; it is lifted to `/`-separated
  // paths where a whole `**` segment spans any number of segments. `Wild` and `SegWild` say
  // what a pattern means. `Scan` is the state the loop walks through, and the lemmas relate
  // the two.

  /** What a one-segment pattern means: `*` any run, `?` any one char, else itself. */
  ghost predicate Wild(p: string, s: string)
    decreases |p|
  {
    if p == "" then s == ""
    else if p[0] == '*' then exists j :: 0 <= j <= |s| && Wild(p[1..], s[j..])
    else s != "" && Fits(p[0], s[0]) && Wild(p[1..], s[1..])
  }

  predicate Fits(pc: char, c: char) {
    pc == '?' || pc == c
  }

  predicate AllStars(p: string) {
    forall i :: 0 <= i < |p| ==> p[i] == '*'
  }

  /** Where to resume after a mismatch: just after the last star, one char further on. */
  datatype Restart = NoStar | Star(at: nat, from: nat)

  ghost predicate ScanState(p: string, s: string, pi: nat, si: nat, star: Restart) {
    && pi <= |p| && si <= |s|
    && (star.Star? ==> star.at < pi && star.from <= si && p[star.at] == '*')
  }

  /** The scan from one loop state on. The restart position only moves forward; between two
      moves either the subject index or the pattern index advances. */
  function Scan(p: string, s: string, pi: nat, si: nat, star: Restart): bool
    requires ScanState(p, s, pi, si, star)
    decreases |s| - (if star.Star? then star.from else 0), |s| - si, |p| - pi
  {
    if si == |s| then AllStars(p[pi..])
    else if pi < |p| && Fits(p[pi], s[si]) then Scan(p, s, pi + 1, si + 1, star)
    else if pi < |p| && p[pi] == '*' then Scan(p, s, pi + 1, si, Star(pi, si))
    else if star.Star? then Scan(p, s, star.at + 1, star.from + 1, Star(star.at, star.from + 1))
    else false
  }

  function OneSegment(p: string, s: string): bool {
    Scan(p, s, 0, 0, NoStar)
  }

  /** Two pointers, with the place to come back to when the last star must take one more char. */
  method OneSegmentMatch(p: string, s: string) returns (r: bool)
    ensures r == OneSegment(p, s)
    ensures r ==> Wild(p, s)
    ensures '*' !in s && Wild(p, s) ==> r
  {
    Sound(p, s);
    if '*' !in s { Exact(p, s); }
    var pi: nat, si: nat := 0, 0;
    var star := NoStar;
    while si < |s|
      invariant ScanState(p, s, pi, si, star)
      invariant Scan(p, s, pi, si, star) == OneSegment(p, s)
      decreases |s| - (if star.Star? then star.from else 0), |s| - si, |p| - pi
    {
      if pi < |p| && (p[pi] == '?' || p[pi] == s[si]) {
        pi, si := pi + 1, si + 1;
      } else if pi < |p| && p[pi] == '*' {
        star := Star(pi, si);
        pi := pi + 1;
      } else if star.Star? {
        star := Star(star.at, star.from + 1);
        pi, si := star.at + 1, star.from;
      } else {
        return false;
      }
    }
    ghost var rest := p[pi..];
    while pi < |p| && p[pi] == '*'
      invariant pi <= |p|
      invariant AllStars(p[pi..]) == AllStars(rest)
    {
      assert p[pi..][1..] == p[pi + 1..];
      assert forall i :: 1 <= i < |p[pi..]| ==> p[pi..][i] == p[pi + 1..][i - 1];
      pi := pi + 1;
    }
    assert pi < |p| ==> p[pi..][0] != '*';
    r := pi == |p|;
  }

  lemma {:induction false} StarsMatchEmpty(p: string)
    ensures Wild(p, "") <==> AllStars(p)
    decreases |p|
  {
    if p != "" {
      StarsMatchEmpty(p[1..]);
      if p[0] == '*' {
        assert Wild(p, "") <==> Wild(p[1..], ""[0..]);
        assert AllStars(p[1..]) ==> forall i :: 1 <= i < |p| ==> p[i] == p[1..][i - 1];
      }
    }
  }

  /** A match for what is left, either here or from a later restart. */
  ghost predicate Reaches(p: string, s: string, pi: nat, si: nat, star: Restart)
    requires ScanState(p, s, pi, si, star)
  {
    || Wild(p[pi..], s[si..])
    || (star.Star? && LaterMatch(p[star.at + 1..], s, star.from + 1))
  }

  ghost predicate LaterMatch(q: string, s: string, from: nat) {
    exists k :: from <= k <= |s| && Wild(q, s[k..])
  }

  lemma DropStar(p: string, s: string, pi: nat, si: nat)
    requires pi < |p| && si <= |s| && p[pi] == '*'
    ensures Wild(p[pi..], s[si..]) <==> LaterMatch(p[pi + 1..], s, si)
  {
    assert p[pi..][1..] == p[pi + 1..];
    forall j | 0 <= j <= |s[si..]| ensures s[si..][j..] == s[si + j..] {}
    if LaterMatch(p[pi + 1..], s, si) {
      var k :| si <= k <= |s| && Wild(p[pi + 1..], s[k..]);
      assert s[si..][k - si..] == s[k..];
    }
  }

  lemma DropChar(p: string, s: string, pi: nat, si: nat)
    requires pi < |p| && si < |s| && p[pi] != '*'
    ensures Wild(p[pi..], s[si..]) <==> Fits(p[pi], s[si]) && Wild(p[pi + 1..], s[si + 1..])
  {
    assert p[pi..][1..] == p[pi + 1..] && s[si..][1..] == s[si + 1..];
  }

  /** Soundness needs nothing of the subject: consuming a literal `*` is one way a star
      can match. */
  lemma {:induction false} ScanSound(p: string, s: string, pi: nat, si: nat, star: Restart)
    requires ScanState(p, s, pi, si, star)
    requires Scan(p, s, pi, si, star)
    ensures Reaches(p, s, pi, si, star)
    decreases |s| - (if star.Star? then star.from else 0), |s| - si, |p| - pi
  {
    if si == |s| {
      StarsMatchEmpty(p[pi..]);
    } else if pi < |p| && Fits(p[pi], s[si]) {
      ScanSound(p, s, pi + 1, si + 1, star);
      if Wild(p[pi + 1..], s[si + 1..]) {
        if p[pi] == '*' { DropStar(p, s, pi, si); } else { DropChar(p, s, pi, si); }
      }
    } else if pi < |p| && p[pi] == '*' {
      ScanSound(p, s, pi + 1, si, Star(pi, si));
      DropStar(p, s, pi, si);
    } else {
      ScanSound(p, s, star.at + 1, star.from + 1, Star(star.at, star.from + 1));
    }
  }

  lemma Sound(p: string, s: string)
    ensures OneSegment(p, s) ==> Wild(p, s)
  {
    if OneSegment(p, s) {
      ScanSound(p, s, 0, 0, NoStar);
      assert p[0..] == p && s[0..] == s;
    }
  }

  /** Since the last star the pattern has been consumed char by char. */
  ghost predicate SinceStar(p: string, s: string, pi: nat, si: nat, star: Restart)
    requires ScanState(p, s, pi, si, star)
  {
    star.Star? ==>
      && pi - (star.at + 1) == si - star.from
      && forall i :: star.at < i < pi ==> p[i] != '*'
  }

  /** A match of the text after the star, taken at the current restart, must go through the
      current position; so a failure here sends every match to a later restart. */
  lemma {:induction false} ThroughHere(p: string, s: string, a: nat, from: nat, n: nat)
    requires a + n <= |p| && from + n <= |s|
    requires forall i :: a <= i < a + n ==> p[i] != '*'
    requires Wild(p[a..], s[from..])
    ensures Wild(p[a + n..], s[from + n..])
    decreases n
  {
    if n > 0 {
      DropChar(p, s, a, from);
      ThroughHere(p, s, a + 1, from + 1, n - 1);
    }
  }

  /** What a complete scan has to find: a match from here, or one from some restart. */
  ghost predicate Target(p: string, s: string, pi: nat, si: nat, star: Restart)
    requires ScanState(p, s, pi, si, star)
  {
    if star.Star? then LaterMatch(p[star.at + 1..], s, star.from) else Wild(p[pi..], s[si..])
  }

  /** Any match found from the last restart on passes the current pattern position, no
      earlier in the subject than the scan has come. */
  lemma FromRestart(p: string, s: string, pi: nat, si: nat, star: Restart) returns (k: nat)
    requires ScanState(p, s, pi, si, star) && SinceStar(p, s, pi, si, star) && star.Star?
    requires Target(p, s, pi, si, star)
    ensures si <= k <= |s| && Wild(p[pi..], s[k..])
    ensures k > si ==> LaterMatch(p[star.at + 1..], s, star.from + 1)
  {
    var from :| star.from <= from <= |s| && Wild(p[star.at + 1..], s[from..]);
    var n := pi - star.at - 1;
    StarOfLength(p[star.at + 1..], s[from..], n);
    ThroughHere(p, s, star.at + 1, from, n);
    k := from + n;
  }

  /** With no `*` in the subject the scan finds every match: backtracking to the last star
      alone is enough, because an earlier star can only lead to a later start. */
  lemma {:induction false} ScanComplete(p: string, s: string, pi: nat, si: nat, star: Restart)
    requires '*' !in s
    requires ScanState(p, s, pi, si, star) && SinceStar(p, s, pi, si, star)
    requires Target(p, s, pi, si, star)
    ensures Scan(p, s, pi, si, star)
    decreases |s| - (if star.Star? then star.from else 0), |s| - si, |p| - pi
  {
    if si == |s| {
      EndOfSubject(p, s, pi, si, star);
    } else if pi < |p| && Fits(p[pi], s[si]) {
      if star.NoStar? { DropChar(p, s, pi, si); }
      ScanComplete(p, s, pi + 1, si + 1, star);
    } else if pi < |p| && p[pi] == '*' {
      NewStar(p, s, pi, si, star);
      ScanComplete(p, s, pi + 1, si, Star(pi, si));
    } else {
      Retry(p, s, pi, si, star);
      ScanComplete(p, s, star.at + 1, star.from + 1, Star(star.at, star.from + 1));
    }
  }

  lemma EndOfSubject(p: string, s: string, pi: nat, si: nat, star: Restart)
    requires ScanState(p, s, pi, si, star) && SinceStar(p, s, pi, si, star)
    requires Target(p, s, pi, si, star) && si == |s|
    ensures AllStars(p[pi..])
  {
    if star.Star? { var k := FromRestart(p, s, pi, si, star); }
    StarsMatchEmpty(p[pi..]);
  }

  lemma NewStar(p: string, s: string, pi: nat, si: nat, star: Restart)
    requires ScanState(p, s, pi, si, star) && SinceStar(p, s, pi, si, star)
    requires Target(p, s, pi, si, star) && pi < |p| && p[pi] == '*'
    ensures Target(p, s, pi + 1, si, Star(pi, si))
  {
    var k := si;
    if star.Star? { k := FromRestart(p, s, pi, si, star); }
    DropStar(p, s, pi, k);
  }

  lemma Retry(p: string, s: string, pi: nat, si: nat, star: Restart)
    requires ScanState(p, s, pi, si, star) && SinceStar(p, s, pi, si, star)
    requires Target(p, s, pi, si, star)
    requires si < |s| && (pi < |p| ==> p[pi] != '*' && !Fits(p[pi], s[si]))
    ensures star.Star? && LaterMatch(p[star.at + 1..], s, star.from + 1)
  {
    if pi < |p| { DropChar(p, s, pi, si); }
    if star.Star? { var k := FromRestart(p, s, pi, si, star); }
  }

  /** `n` leading chars that are not stars need `n` subject chars. */
  lemma {:induction false} StarOfLength(p: string, s: string, n: nat)
    requires n <= |p| && Wild(p, s)
    requires forall i :: 0 <= i < n ==> p[i] != '*'
    ensures n <= |s|
    decreases n
  {
    if n > 0 { StarOfLength(p[1..], s[1..], n - 1); }
  }

  lemma Exact(p: string, s: string)
    requires '*' !in s
    ensures OneSegment(p, s) <==> Wild(p, s)
  {
    Sound(p, s);
    assert p[0..] == p && s[0..] == s;
    if Wild(p, s) { ScanComplete(p, s, 0, 0, NoStar); }
  }

  /** A pattern that means the subject and is not matched: its star is taken for the
      subject's. */
  function Missed(s: string): string
    requires '*' in s
  {
    s[..FirstStar(s)] + ("*" + Marks(|s| - FirstStar(s)))
  }

  lemma StarAndMarks(s: string)
    ensures Wild("*" + Marks(|s|), s)
  {
    MarksMatch(s);
    StarTakesNothing(Marks(|s|), s);
  }

  lemma MissedMeans(s: string)
    requires '*' in s
    ensures Wild(Missed(s), s)
  {
    var k := FirstStar(s);
    SplitMeans(s, k);
  }

  lemma SplitMeans(s: string, k: nat)
    requires k <= |s| && '*' !in s[..k]
    ensures Wild(s[..k] + ("*" + Marks(|s| - k)), s)
  {
    var front, rest := s[..k], s[k..];
    var tail := "*" + Marks(|rest|);
    StarAndMarks(rest);
    assert front + rest == s;
    PrefixMeans(front, tail, rest, s);
  }

  lemma PrefixMeans(front: string, p: string, rest: string, s: string)
    requires '*' !in front && Wild(p, rest) && front + rest == s
    ensures Wild(front + p, s)
  {
    LiteralPrefix(front, p, rest);
  }

  lemma StarTakesNothing(p: string, s: string)
    requires Wild(p, s)
    ensures Wild("*" + p, s)
  {
    assert s[0..] == s && ("*" + p)[1..] == p;
  }

  lemma MissedIsMissed(s: string)
    requires '*' in s
    ensures !OneSegment(Missed(s), s)
  {
    MissesMatch(s, FirstStar(s), Missed(s), 0);
  }

  /** Exactly the subjects without `*` are matched correctly by every pattern. */
  lemma CorrectOnSubject(s: string)
    ensures (forall p :: OneSegment(p, s) == Wild(p, s)) <==> '*' !in s
  {
    if '*' !in s {
      forall p ensures OneSegment(p, s) == Wild(p, s) { Exact(p, s); }
    } else {
      MissedMeans(s);
      MissedIsMissed(s);
    }
  }

  function Marks(n: nat): (r: string)
    ensures |r| == n && forall i :: 0 <= i < n ==> r[i] == '?'
  {
    seq(n, _ => '?')
  }

  function FirstStar(s: string): (k: nat)
    requires '*' in s
    ensures k < |s| && s[k] == '*' && '*' !in s[..k]
  {
    if s[0] == '*' then 0 else
      assert s == [s[0]] + s[1..];
      var k := FirstStar(s[1..]);
      assert s[..k + 1] == [s[0]] + s[1..][..k];
      k + 1
  }

  lemma {:induction false} MarksMatch(s: string)
    ensures Wild(Marks(|s|), s)
    decreases |s|
  {
    if s != "" {
      MarksMatch(s[1..]);
      assert Marks(|s|)[1..] == Marks(|s| - 1);
    }
  }

  lemma LiteralFirst(c: char, p: string, s: string)
    requires c != '*' && Wild(p, s)
    ensures Wild([c] + p, [c] + s)
  {
    assert ([c] + p)[1..] == p && ([c] + s)[1..] == s;
  }

  lemma {:induction false} LiteralPrefix(x: string, p: string, s: string)
    requires '*' !in x && Wild(p, s)
    ensures Wild(x + p, x + s)
    decreases |x|
  {
    if x == "" {
      assert x + p == p && x + s == s;
    } else {
      assert x == [x[0]] + x[1..];
      LiteralPrefix(x[1..], p, s);
      LiteralFirst(x[0], x[1..] + p, x[1..] + s);
      assert x + p == [x[0]] + (x[1..] + p) && x + s == [x[0]] + (x[1..] + s);
    }
  }

  /** The literal test comes first, so the pattern's `*` is spent on the subject's `*`, no
      restart is ever recorded, and one `?` is left over. */
  lemma {:induction false} MissesMatch(s: string, k: nat, p: string, i: nat)
    requires k < |s| && s[k] == '*' && p == s[..k] + ("*" + Marks(|s| - k))
    requires i <= |s|
    ensures !Scan(p, s, i, i, NoStar)
    decreases |s| - i
  {
    if i < |s| {
      MissesMatch(s, k, p, i + 1);
    } else {
      assert p[i..][0] == '?';
    }
  }

  // --- whole paths ---

  /** What a segment list pattern means: `**` any number of segments. */
  ghost predicate SegWild(pat: seq<string>, txt: seq<string>)
    decreases |pat|
  {
    if pat == [] then txt == []
    else if pat[0] == "**" then exists i :: 0 <= i <= |txt| && SegWild(pat[1..], txt[i..])
    else txt != [] && Wild(pat[0], txt[0]) && SegWild(pat[1..], txt[1..])
  }

  predicate SegMatch(pat: seq<string>, txt: seq<string>)
    decreases |pat|
  {
    if pat == [] then txt == []
    else if pat[0] == "**" then exists i :: 0 <= i <= |txt| && SegMatch(pat[1..], txt[i..])
    else txt != [] && OneSegment(pat[0], txt[0]) && SegMatch(pat[1..], txt[1..])
  }

  function GlobMatch(pattern: string, path: string): bool {
    SegMatch(Split(pattern, '/'), Split(path, '/'))
  }

  lemma {:induction false} SegSound(pat: seq<string>, txt: seq<string>)
    requires SegMatch(pat, txt)
    ensures SegWild(pat, txt)
    decreases |pat|
  {
    if pat == [] {
    } else if pat[0] == "**" {
      var i :| 0 <= i <= |txt| && SegMatch(pat[1..], txt[i..]);
      SegSound(pat[1..], txt[i..]);
    } else {
      Sound(pat[0], txt[0]);
      SegSound(pat[1..], txt[1..]);
    }
  }

  lemma {:induction false} SegComplete(pat: seq<string>, txt: seq<string>)
    requires forall i :: 0 <= i < |txt| ==> '*' !in txt[i]
    requires SegWild(pat, txt)
    ensures SegMatch(pat, txt)
    decreases |pat|
  {
    if pat == [] {
    } else if pat[0] == "**" {
      var i :| 0 <= i <= |txt| && SegWild(pat[1..], txt[i..]);
      SegComplete(pat[1..], txt[i..]);
    } else {
      Exact(pat[0], txt[0]);
      SegComplete(pat[1..], txt[1..]);
    }
  }

  /** The glob returns only paths its pattern describes, and all of them unless a path holds
      a literal `*`. */
  lemma GlobCorrect(pattern: string, path: string)
    ensures GlobMatch(pattern, path) ==> SegWild(Split(pattern, '/'), Split(path, '/'))
    ensures '*' !in path ==> (GlobMatch(pattern, path) <==> SegWild(Split(pattern, '/'), Split(path, '/')))
  {
    if GlobMatch(pattern, path) { SegSound(Split(pattern, '/'), Split(path, '/')); }
    if '*' !in path && SegWild(Split(pattern, '/'), Split(path, '/')) {
      SplitKeepsChars(path, '/', '*');
      SegComplete(Split(pattern, '/'), Split(path, '/'));
    }
  }

  // --- the paths on which the glob is wrong ---

  /** A pattern for one segment that means it, and misses it if it holds a `*`. */
  function SegmentPattern(s: string): (p: string)
    ensures p != "**" && ('/' !in s ==> '/' !in p)
  {
    if '*' in s then
      assert Missed(s)[|Missed(s)| - 1] == '?';
      Missed(s)
    else
      assert s != "" ==> Marks(|s|)[0] == '?';
      Marks(|s|)
  }

  function SegmentPatterns(txt: seq<string>): (r: seq<string>)
    ensures |r| == |txt| && forall i :: 0 <= i < |r| ==> r[i] == SegmentPattern(txt[i])
  {
    seq(|txt|, i requires 0 <= i < |txt| => SegmentPattern(txt[i]))
  }

  lemma {:induction false} SegmentPatternsMean(txt: seq<string>)
    ensures SegWild(SegmentPatterns(txt), txt)
    decreases |txt|
  {
    if txt != [] {
      SegmentPatternsMean(txt[1..]);
      assert SegmentPatterns(txt)[1..] == SegmentPatterns(txt[1..]);
      if '*' in txt[0] { MissedMeans(txt[0]); } else { MarksMatch(txt[0]); }
    }
  }

  lemma {:induction false} SegmentPatternsMiss(txt: seq<string>, i: nat)
    requires i < |txt| && '*' in txt[i]
    ensures !SegMatch(SegmentPatterns(txt), txt)
    decreases |txt|
  {
    assert SegmentPatterns(txt)[1..] == SegmentPatterns(txt[1..]);
    if i == 0 { MissedIsMissed(txt[0]); } else { SegmentPatternsMiss(txt[1..], i - 1); }
  }

  /** A pattern that describes a path and does not match it. */
  lemma MissedPath(path: string) returns (pattern: string)
    requires '*' in path
    ensures SegWild(Split(pattern, '/'), Split(path, '/')) && !GlobMatch(pattern, path)
  {
    var txt := Split(path, '/');
    var pat := SegmentPatterns(txt);
    pattern := Join(pat, "/");
    SplitPieces(path, '/');
    SplitOfPieces(pat, '/');
    SegmentPatternsMean(txt);
    var i := SplitHolds(path, '/', '*');
    SegmentPatternsMiss(txt, i);
  }

  ghost predicate GlobIsRight(path: string) {
    forall pattern :: GlobMatch(pattern, path) <==> SegWild(Split(pattern, '/'), Split(path, '/'))
  }

  /** The paths on which the glob is right for every pattern are exactly those without a
      literal `*`. */
  lemma GlobCorrectOnPath(path: string)
    ensures GlobIsRight(path) <==> '*' !in path
  {
    if '*' in path {
      var pattern := MissedPath(path);
    } else {
      forall pattern
        ensures GlobMatch(pattern, path) <==> SegWild(Split(pattern, '/'), Split(path, '/'))
      {
        GlobCorrect(pattern, path);
      }
    }
  }
}
