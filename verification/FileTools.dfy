/** The in-process file tools. */
module FileTools {
  import opened Text

  // Reads record what the agent saw, and an edit of a file that has changed since is refused.
  // Each tool call is one step; outside changes come between steps.

  /** A file is well-formed UTF-8, and then it is its text, or it is other bytes. */
  datatype Content = Utf8(text: string) | Other(bytes: seq<bv8>)

  datatype Reason =
    | Sensitive | EmptyOldStr | Escapes | Unreadable | Stale | NotUtf8 | NotFound | Ambiguous(count: nat) | WriteFailed

  datatype Outcome = Shown(body: string) | Changed | Refused(reason: Reason)

  /** What is fixed outside the sink: the deny-set test, where a path leads, which targets lie
      in the workspace, the content hash, and how bytes that are not UTF-8 are shown. */
  datatype Env = Env(
    sensitive: string -> bool,
    locate: string -> string,
    confined: string -> bool,
    hash: Content -> int,
    lossy: seq<bv8> -> string)

  ghost predicate Injective(env: Env) {
    forall a, b :: env.hash(a) == env.hash(b) ==> a == b
  }

  datatype Files = Files(disk: map<string, Content>, baselines: map<string, int>)

  /** The disk may fail any read or write. */
  datatype Action =
    | Read(path: string, range: Option<(int, int)>, works: bool)
    | Write(path: string, text: string, works: bool)
    | Edit(path: string, oldStr: string, newStr: string, readable: bool, works: bool)
    | Outside(key: string, now: Option<Content>)

  // --- matching ---

  /** Where the pattern first occurs from `i` on. */
  function FindFrom(text: string, pat: string, i: nat): (r: Option<nat>)
    requires i <= |text|
    ensures r.Some? ==> i <= r.value && OccursAt(text, pat, r.value)
    ensures r.Some? ==> forall q :: i <= q < r.value ==> !OccursAt(text, pat, q)
    ensures r.None? ==> forall q :: i <= q ==> !OccursAt(text, pat, q)
    decreases |text| - i
  {
    if OccursAt(text, pat, i) then Some(i)
    else if i == |text| then None
    else FindFrom(text, pat, i + 1)
  }

  /** `str::matches`: the occurrences met going left to right, none overlapping the last. */
  function MatchesFrom(text: string, pat: string, i: nat): (r: seq<nat>)
    requires pat != "" && i <= |text|
    ensures forall k :: 0 <= k < |r| ==> i <= r[k] && OccursAt(text, pat, r[k])
    decreases |text| - i
  {
    var p := FindFrom(text, pat, i);
    if p.None? then [] else [p.value] + MatchesFrom(text, pat, p.value + |pat|)
  }

  function Count(text: string, pat: string): nat
    requires pat != ""
  {
    |MatchesFrom(text, pat, 0)|
  }

  /** `str::replacen` with one replacement. */
  function ReplaceFirst(text: string, pat: string, put: string): string {
    var p := FindFrom(text, pat, 0);
    if p.None? then text else text[..p.value] + put + text[p.value + |pat|..]
  }

  /** The pattern occurs at `p`, nowhere before it, and nowhere clear of it. */
  ghost predicate OnlyClearMatch(text: string, pat: string, p: nat) {
    && OccursAt(text, pat, p)
    && (forall q: nat :: q < p ==> !OccursAt(text, pat, q))
    && (forall q: nat :: p + |pat| <= q ==> !OccursAt(text, pat, q))
  }

  lemma ClearIsFirst(text: string, pat: string, p: nat)
    requires OnlyClearMatch(text, pat, p)
    ensures FindFrom(text, pat, 0) == Some(p)
  {}

  /** The first match is counted, and then those that are clear of it. */
  lemma CountAfterFirst(text: string, pat: string, p: nat)
    requires pat != "" && FindFrom(text, pat, 0) == Some(p)
    ensures p + |pat| <= |text| && Count(text, pat) == 1 + |MatchesFrom(text, pat, p + |pat|)|
  {}

  lemma NoMatches(text: string, pat: string, i: nat)
    requires pat != "" && i <= |text|
    ensures |MatchesFrom(text, pat, i)| == 0 <==> FindFrom(text, pat, i).None?
  {}

  lemma CountOne(text: string, pat: string)
    requires pat != ""
    ensures Count(text, pat) == 1 <==> exists p: nat :: OnlyClearMatch(text, pat, p)
    ensures forall p: nat, put :: OnlyClearMatch(text, pat, p) ==>
      ReplaceFirst(text, pat, put) == text[..p] + put + text[p + |pat|..]
  {
    var first := FindFrom(text, pat, 0);
    forall p: nat | OnlyClearMatch(text, pat, p) ensures first == Some(p) { ClearIsFirst(text, pat, p); }
    if first.Some? {
      CountAfterFirst(text, pat, first.value);
      NoMatches(text, pat, first.value + |pat|);
      FirstIsClear(text, pat, first.value);
    }
  }

  lemma FirstIsClear(text: string, pat: string, p: nat)
    requires pat != "" && FindFrom(text, pat, 0) == Some(p) && p + |pat| <= |text|
    ensures OnlyClearMatch(text, pat, p) <==> FindFrom(text, pat, p + |pat|).None?
  {}

  ghost predicate OccursOnce(text: string, pat: string) {
    exists p: nat :: OccursAt(text, pat, p) && forall q: nat :: OccursAt(text, pat, q) ==> q == p
  }

  /** Some proper prefix of the pattern is also its suffix. */
  ghost predicate Bordered(pat: string) {
    exists b: nat :: 0 < b < |pat| && pat[..b] == pat[|pat| - b..]
  }

  /** Two occurrences that overlap make a border. */
  lemma OverlapIsBorder(text: string, pat: string, p: nat, q: nat)
    requires p < q < p + |pat| && OccursAt(text, pat, p) && OccursAt(text, pat, q)
    ensures Bordered(pat)
  {
    var b := p + |pat| - q;
    assert text[q..p + |pat|] == text[q..q + |pat|][..b] == pat[..b];
    assert text[q..p + |pat|] == text[p..p + |pat|][q - p..] == pat[|pat| - b..];
  }

  /** A pattern laid over itself at a border is counted once and occurs twice. */
  lemma BorderHidesMatch(pat: string, b: nat)
    requires 0 < b < |pat| && pat[..b] == pat[|pat| - b..]
    ensures var text := pat[..|pat| - b] + pat; Count(text, pat) == 1 && !OccursOnce(text, pat)
  {
    var n := |pat|;
    var text := pat[..n - b] + pat;
    assert text[..n] == pat by {
      assert pat == pat[..n - b] + pat[n - b..];
      assert text[..n] == pat[..n - b] + pat[..b];
    }
    assert OccursAt(text, pat, 0);
    assert OccursAt(text, pat, n - b);
    assert OnlyClearMatch(text, pat, 0);
    CountOne(text, pat);
  }

  lemma UnborderedOnce(text: string, pat: string)
    requires pat != "" && !Bordered(pat) && Count(text, pat) == 1
    ensures OccursOnce(text, pat)
  {
    CountOne(text, pat);
    var p: nat :| OnlyClearMatch(text, pat, p);
    forall q: nat | OccursAt(text, pat, q) ensures q == p {
      if p < q < p + |pat| { OverlapIsBorder(text, pat, p, q); }
    }
  }

  ghost predicate CountIsTrue(pat: string)
    requires pat != ""
  {
    forall text :: Count(text, pat) == 1 ==> OccursOnce(text, pat)
  }

  lemma BorderedIsMiscounted(pat: string)
    requires pat != "" && Bordered(pat)
    ensures !CountIsTrue(pat)
  {
    var b: nat :| 0 < b < |pat| && pat[..b] == pat[|pat| - b..];
    BorderHidesMatch(pat, b);
  }

  /** The documented rule, one occurrence and no more, holds of what the edit counts exactly
      for patterns without a border. */
  lemma CountMeansOnce(pat: string)
    requires pat != ""
    ensures CountIsTrue(pat) <==> !Bordered(pat)
  {
    if Bordered(pat) {
      BorderedIsMiscounted(pat);
    } else {
      forall text | Count(text, pat) == 1 ensures OccursOnce(text, pat) {
        UnborderedOnce(text, pat);
      }
    }
  }

  /** `aa` is counted once in `aaa` and occurs there twice. */
  lemma CountedOnceOccursTwice()
    ensures Count("aaa", "aa") == 1 && !OccursOnce("aaa", "aa")
  {
    var pat := "aa";
    assert pat[..1] == pat[|pat| - 1..];
    BorderHidesMatch(pat, 1);
    assert pat[..1] + pat == "aaa";
  }

  // --- lines ---

  function WithoutReturn(line: string): string {
    if line != "" && line[|line| - 1] == '\r' then line[..|line| - 1] else line
  }

  function WithoutReturns(parts: seq<string>): (r: seq<string>)
    ensures |r| == |parts| && forall i :: 0 <= i < |r| ==> r[i] == WithoutReturn(parts[i])
  {
    seq(|parts|, i requires 0 <= i < |parts| => WithoutReturn(parts[i]))
  }

  /** `str::lines`: what ends each line is dropped, and nothing after the last end counts. */
  function LinesOf(text: string): seq<string> {
    var parts := Split(text, '\n');
    var last := parts[|parts| - 1];
    WithoutReturns(parts[..|parts| - 1]) + if last == "" then [] else [last]
  }

  /** The lines `start` to `end`, counted from one, both included and clamped. */
  function Between(lines: seq<string>, start: int, end: int): string {
    var total := |lines|;
    var first, last := if start < 1 then 1 else start, if end < 0 then 0 else end;
    if total == 0 || first > total || last < first then ""
    else Join(lines[first - 1..if last > total then total else last], "\n")
  }

  function SliceLines(text: string, start: int, end: int): string {
    Between(LinesOf(text), start, end)
  }

  lemma {:induction false} JoinTwo(a: seq<string>, b: seq<string>, sep: string)
    requires a != [] && b != []
    ensures Join(a + b, sep) == Join(a, sep) + sep + Join(b, sep)
  {
    assert (a + b)[1..] == a[1..] + b;
    if |a| > 1 {
      JoinTwo(a[1..], b, sep);
      Associate(a[0] + sep, Join(a[1..], sep) + sep, Join(b, sep));
      Associate(a[0] + sep, Join(a[1..], sep), sep);
    } else {
      assert a + b == [a[0]] + b;
    }
  }

  lemma SliceApart(xs: seq<string>, i: nat, j: nat, k: nat)
    requires i <= j <= k <= |xs|
    ensures xs[i..k] == xs[i..j] + xs[j..k]
  {}

  lemma BetweenAdjoin(lines: seq<string>, start: int, middle: int, end: int)
    requires 1 <= start <= middle < end && middle < |lines|
    ensures Between(lines, start, end) == Between(lines, start, middle) + "\n" + Between(lines, middle + 1, end)
  {
    var last := if end > |lines| then |lines| else end;
    SliceApart(lines, start - 1, middle, last);
    JoinTwo(lines[start - 1..middle], lines[middle..last], "\n");
  }

  /** Two reads of adjoining line ranges give what one read of both gives. */
  lemma RangesAdjoin(text: string, start: int, middle: int, end: int)
    requires 1 <= start <= middle < end && middle < |LinesOf(text)|
    ensures SliceLines(text, start, end)
         == SliceLines(text, start, middle) + "\n" + SliceLines(text, middle + 1, end)
  {
    BetweenAdjoin(LinesOf(text), start, middle, end);
  }

  lemma NoReturns(parts: seq<string>)
    requires forall i :: 0 <= i < |parts| ==> '\r' !in parts[i]
    ensures WithoutReturns(parts) == parts
  {
    forall i | 0 <= i < |parts| ensures WithoutReturn(parts[i]) == parts[i] {
      if parts[i] != "" { assert parts[i][|parts[i]| - 1] in parts[i]; }
    }
  }

  lemma LinesWithoutReturns(text: string, init: seq<string>, last: string)
    requires '\r' !in text && Split(text, '\n') == init + [last]
    ensures LinesOf(text) == init + if last == "" then [] else [last]
  {
    var parts := Split(text, '\n');
    SplitKeepsChars(text, '\n', '\r');
    assert parts[..|parts| - 1] == init && parts[|parts| - 1] == last;
    forall i | 0 <= i < |init| ensures '\r' !in init[i] { assert init[i] == parts[i]; }
    NoReturns(init);
  }

  lemma EveryLine(text: string, end: int)
    requires end >= |LinesOf(text)|
    ensures SliceLines(text, 1, end) == Join(LinesOf(text), "\n")
  {
    var lines := LinesOf(text);
    assert lines[0..|lines|] == lines;
  }

  lemma LastPiece(text: string) returns (init: seq<string>, last: string)
    ensures Split(text, '\n') == init + [last] && '\n' !in last
    ensures text == (if init == [] then "" else Join(init, "\n") + "\n") + last
  {
    var parts := Split(text, '\n');
    init, last := parts[..|parts| - 1], parts[|parts| - 1];
    JoinOfSplit(text, '\n');
    SplitPieces(text, '\n');
    assert parts == init + [last];
    if init != [] { JoinTwo(init, [last], "\n"); }
  }

  /** In a text without carriage returns, a read of every line gives the text back but for one
      newline at its end. */
  lemma AllLinesAreTheText(text: string, end: int)
    requires '\r' !in text && end >= |LinesOf(text)|
    ensures SliceLines(text, 1, end)
         == if text != "" && text[|text| - 1] == '\n' then text[..|text| - 1] else text
  {
    var init, last := LastPiece(text);
    LinesWithoutReturns(text, init, last);
    EveryLine(text, end);
    JoinOfSplit(text, '\n');
    FrontAndLast(init, last, text);
  }

  lemma FrontAndLast(init: seq<string>, last: string, text: string)
    requires text == (if init == [] then "" else Join(init, "\n") + "\n") + last && '\n' !in last
    requires text == Join(init + [last], "\n")
    ensures Join(init + if last == "" then [] else [last], "\n")
         == if text != "" && text[|text| - 1] == '\n' then text[..|text| - 1] else text
  {
    if last == "" {
      assert init + [] == init;
      assert init != [] ==> text[..|text| - 1] == Join(init, "\n");
    } else {
      assert text[|text| - 1] == last[|last| - 1] && last[|last| - 1] in last;
    }
  }

  /** How many lines end in a text. */
  function Newlines(text: string): nat {
    if text == "" then 0 else (if text[0] == '\n' then 1 else 0) + Newlines(text[1..])
  }

  lemma {:induction false} SplitLength(text: string)
    ensures |Split(text, '\n')| == Newlines(text) + 1
  {
    if text != "" { SplitLength(text[1..]); }
  }

  /** What comes before a line: nothing, or text that ends in a newline. */
  predicate LineStart(pre: string) {
    pre == "" || pre[|pre| - 1] == '\n'
  }

  lemma PartsBefore(pre: string, rest: string) returns (parts: seq<string>)
    requires LineStart(pre)
    ensures |parts| == Newlines(pre) && Split(pre + rest, '\n') == parts + Split(rest, '\n')
  {
    if pre == "" {
      assert pre + rest == rest;
      parts := [];
      assert [] + Split(rest, '\n') == Split(rest, '\n');
    } else {
      var front := pre[..|pre| - 1];
      assert pre == front + ['\n'] + "" && pre + rest == front + ['\n'] + rest;
      SplitOfJoin(front, '\n', "");
      SplitOfJoin(front, '\n', rest);
      SplitLength(pre);
      parts := Split(front, '\n');
    }
  }

  lemma LineOfParts(text: string, k: nat)
    requires k + 1 < |Split(text, '\n')|
    ensures k < |LinesOf(text)| && LinesOf(text)[k] == WithoutReturn(Split(text, '\n')[k])
  {}

  lemma LastLineOfParts(text: string, k: nat)
    requires k + 1 == |Split(text, '\n')| && Split(text, '\n')[k] != ""
    ensures |LinesOf(text)| == k + 1 && LinesOf(text)[k] == Split(text, '\n')[k]
  {}

  lemma OneOfLines(text: string, k: nat)
    requires k < |LinesOf(text)|
    ensures SliceLines(text, k + 1, k + 1) == LinesOf(text)[k]
  {
    var lines := LinesOf(text);
    assert lines[k..k + 1] == [lines[k]];
  }

  /** The n-th line is what stands between the newline that ends the line before it and its own
      end, be that a newline or a carriage return and a newline. */
  lemma LineIsShown(pre: string, line: string, eol: string, post: string)
    requires LineStart(pre) && '\n' !in line && (eol == "\n" || eol == "\r\n")
    requires eol == "\n" && line != "" ==> line[|line| - 1] != '\r'
    ensures SliceLines(pre + (line + eol + post), Newlines(pre) + 1, Newlines(pre) + 1) == line
  {
    var rest := line + eol + post;
    var body := FirstPart(line, eol, post);
    var parts := PartsBefore(pre, rest);
    ThatPart(Split(pre + rest, '\n'), parts, body, Split(post, '\n'));
    LineOfParts(pre + rest, |parts|);
    OneOfLines(pre + rest, |parts|);
  }

  lemma ThatPart(all: seq<string>, parts: seq<string>, body: string, more: seq<string>)
    requires all == parts + ([body] + more) && more != []
    ensures |parts| + 1 < |all| && all[|parts|] == body
  {}

  lemma FirstPart(line: string, eol: string, post: string) returns (body: string)
    requires '\n' !in line && (eol == "\n" || eol == "\r\n")
    requires eol == "\n" && line != "" ==> line[|line| - 1] != '\r'
    ensures Split(line + eol + post, '\n') == [body] + Split(post, '\n') && WithoutReturn(body) == line
  {
    body := if eol == "\n" then line else line + ['\r'];
    assert line + eol + post == body + ['\n'] + post;
    SplitWithout(body, '\n');
    SplitOfJoin(body, '\n', post);
  }

  /** A last line that no newline ends is shown as it is. */
  lemma LastLineIsShown(pre: string, line: string)
    requires LineStart(pre) && '\n' !in line && line != ""
    ensures SliceLines(pre + line, Newlines(pre) + 1, Newlines(pre) + 1) == line
  {
    SplitWithout(line, '\n');
    var parts := PartsBefore(pre, line);
    LastPart(Split(pre + line, '\n'), parts, line);
    LastLineOfParts(pre + line, |parts|);
    OneOfLines(pre + line, |parts|);
  }

  lemma LastPart(all: seq<string>, parts: seq<string>, line: string)
    requires all == parts + [line]
    ensures |all| == |parts| + 1 && all[|parts|] == line
  {}

  /** A range is cut to the lines there are, and one that holds none shows nothing. */
  lemma RangeIsClamped(text: string, start: int, end: int)
    ensures var n := |LinesOf(text)|;
      && (start < 1 ==> SliceLines(text, start, end) == SliceLines(text, 1, end))
      && (end > n ==> SliceLines(text, start, end) == SliceLines(text, start, n))
      && (start > n || end < 1 || end < start ==> SliceLines(text, start, end) == "")
  {}

  // --- the tools ---

  /** What is shown of a file. */
  function Decoded(env: Env, c: Content): string {
    match c
    case Utf8(text) => text
    case Other(bytes) => env.lossy(bytes)
  }

  function Part(text: string, range: Option<(int, int)>): string {
    match range
    case Some((start, end)) => SliceLines(text, start, end)
    case None => text
  }

  function Record(env: Env, fs: Files, key: string, c: Content): Files {
    fs.(baselines := fs.baselines[key := env.hash(c)])
  }

  function Put(env: Env, fs: Files, key: string, c: Content): Files {
    Record(env, fs.(disk := fs.disk[key := c]), key, c)
  }

  function ReadStep(env: Env, fs: Files, a: Action): (Outcome, Files)
    requires a.Read?
  {
    var key := env.locate(a.path);
    if env.sensitive(a.path) then (Refused(Sensitive), fs)
    else if !a.works || key !in fs.disk then (Refused(Unreadable), fs)
    else (Shown(Part(Decoded(env, fs.disk[key]), a.range)), Record(env, fs, key, fs.disk[key]))
  }

  function WriteStep(env: Env, fs: Files, a: Action): (Outcome, Files)
    requires a.Write?
  {
    if env.sensitive(a.path) then (Refused(Sensitive), fs)
    else if !env.confined(a.path) then (Refused(Escapes), fs)
    else if !a.works then (Refused(WriteFailed), fs)
    else (Changed, Put(env, fs, env.locate(a.path), Utf8(a.text)))
  }

  /** The edit's refusals in the order they are tried, or the text it will write. */
  function EditPlan(env: Env, fs: Files, a: Action): Result<string, Reason>
    requires a.Edit?
  {
    var key := env.locate(a.path);
    if env.sensitive(a.path) then Err(Sensitive)
    else if a.oldStr == "" then Err(EmptyOldStr)
    else if !env.confined(a.path) then Err(Escapes)
    else if !a.readable || key !in fs.disk then Err(Unreadable)
    else if key in fs.baselines && fs.baselines[key] != env.hash(fs.disk[key]) then Err(Stale)
    else if fs.disk[key].Other? then Err(NotUtf8)
    else
      var text := fs.disk[key].text;
      var count := Count(text, a.oldStr);
      if count == 0 then Err(NotFound)
      else if count > 1 then Err(Ambiguous(count))
      else Ok(ReplaceFirst(text, a.oldStr, a.newStr))
  }

  function EditStep(env: Env, fs: Files, a: Action): (Outcome, Files)
    requires a.Edit?
  {
    var plan := EditPlan(env, fs, a);
    if plan.Err? then (Refused(plan.error), fs)
    else if !a.works then (Refused(WriteFailed), fs)
    else (Changed, Put(env, fs, env.locate(a.path), Utf8(plan.value)))
  }

  function OutsideStep(fs: Files, a: Action): Files
    requires a.Outside?
  {
    match a.now
    case Some(c) => fs.(disk := fs.disk[a.key := c])
    case None => fs.(disk := fs.disk - {a.key})
  }

  function Step(env: Env, fs: Files, a: Action): (Option<Outcome>, Files) {
    match a
    case Read(_, _, _) => var (o, fs') := ReadStep(env, fs, a); (Some(o), fs')
    case Write(_, _, _) => var (o, fs') := WriteStep(env, fs, a); (Some(o), fs')
    case Edit(_, _, _, _, _) => var (o, fs') := EditStep(env, fs, a); (Some(o), fs')
    case Outside(_, _) => (None, OutsideStep(fs, a))
  }

  // --- the sink ---

  class FileSink {
    const env: Env
    var baselines: map<string, int>
    var disk: map<string, Content>

    constructor (env: Env, disk: map<string, Content>)
      ensures this.env == env && State() == Files(disk, map[])
    {
      this.env := env;
      this.disk := disk;
      baselines := map[];
    }

    ghost function State(): Files
      reads this
    {
      Files(disk, baselines)
    }

    method RecordBaseline(key: string, c: Content)
      modifies this`baselines
      ensures State() == Record(env, old(State()), key, c)
    {
      baselines := baselines[key := env.hash(c)];
    }

    method AtomicWrite(key: string, c: Content, works: bool)
      modifies this`disk
      ensures disk == if works then old(disk)[key := c] else old(disk)
    {
      if works {
        disk := disk[key := c];
      }
    }

    method ReadFile(a: Action) returns (o: Outcome)
      requires a.Read?
      modifies this
      ensures (o, State()) == ReadStep(env, old(State()), a)
    {
      if env.sensitive(a.path) {
        return Refused(Sensitive);
      }
      var abs := env.locate(a.path);
      if !a.works || abs !in disk {
        return Refused(Unreadable);
      }
      var bytes := disk[abs];
      RecordBaseline(abs, bytes);
      var text := if bytes.Utf8? then bytes.text else env.lossy(bytes.bytes);
      match a.range {
        case Some((start, end)) => o := Shown(SliceLines(text, start, end));
        case None => o := Shown(text);
      }
    }

    method WriteFile(a: Action) returns (o: Outcome)
      requires a.Write?
      modifies this
      ensures (o, State()) == WriteStep(env, old(State()), a)
    {
      if env.sensitive(a.path) {
        return Refused(Sensitive);
      }
      if !env.confined(a.path) {
        return Refused(Escapes);
      }
      var target := env.locate(a.path);
      AtomicWrite(target, Utf8(a.text), a.works);
      if !a.works {
        return Refused(WriteFailed);
      }
      RecordBaseline(target, Utf8(a.text));
      o := Changed;
    }

    method EditFile(a: Action) returns (o: Outcome)
      requires a.Edit?
      modifies this
      ensures (o, State()) == EditStep(env, old(State()), a)
    {
      if env.sensitive(a.path) {
        return Refused(Sensitive);
      }
      if a.oldStr == "" {
        return Refused(EmptyOldStr);
      }
      if !env.confined(a.path) {
        return Refused(Escapes);
      }
      var target := env.locate(a.path);
      if !a.readable || target !in disk {
        return Refused(Unreadable);
      }
      var current := disk[target];
      var currentHash := env.hash(current);
      if target in baselines {
        var baseline := baselines[target];
        if baseline != currentHash {
          return Refused(Stale);
        }
      }
      if current.Other? {
        return Refused(NotUtf8);
      }
      var text := current.text;
      var count := Count(text, a.oldStr);
      if count == 0 {
        return Refused(NotFound);
      }
      if count > 1 {
        return Refused(Ambiguous(count));
      }
      var updated := ReplaceFirst(text, a.oldStr, a.newStr);
      AtomicWrite(target, Utf8(updated), a.works);
      if !a.works {
        return Refused(WriteFailed);
      }
      RecordBaseline(target, Utf8(updated));
      o := Changed;
    }
  }

  // --- runs ---

  function Run(env: Env, start: Files, trace: seq<Action>): Files {
    if trace == [] then start
    else Step(env, Run(env, start, trace[..|trace| - 1]), trace[|trace| - 1]).1
  }

  /** What one step let the agent see of a file: what the file held when it was read, whole or
      in part, or what was put there. */
  function Seen(env: Env, fs: Files, a: Action, key: string): Option<Content> {
    if a.Outside? || env.locate(a.path) != key then None
    else
      var (o, after) := Step(env, fs, a);
      if o.value.Refused? || key !in after.disk then None else Some(after.disk[key])
  }

  /** What the agent last saw of a file in a run. */
  function LastSeen(env: Env, start: Files, trace: seq<Action>, key: string): Option<Content> {
    if trace == [] then None
    else
      var before := trace[..|trace| - 1];
      var now := Seen(env, Run(env, start, before), trace[|trace| - 1], key);
      if now.Some? then now else LastSeen(env, start, before, key)
  }

  ghost predicate BaselinesAreSeen(env: Env, start: Files, trace: seq<Action>) {
    var fs := Run(env, start, trace);
    forall key ::
      && (key in fs.baselines <==> LastSeen(env, start, trace, key).Some?)
      && (key in fs.baselines ==> fs.baselines[key] == env.hash(LastSeen(env, start, trace, key).value))
  }

  /** Over every run, the baselines are the hashes of what the agent last saw. */
  lemma {:induction false} BaselinesFollow(env: Env, start: Files, trace: seq<Action>)
    requires start.baselines == map[]
    ensures BaselinesAreSeen(env, start, trace)
    decreases |trace|
  {
    if trace != [] {
      var before, a := trace[..|trace| - 1], trace[|trace| - 1];
      BaselinesFollow(env, start, before);
      StepRecords(env, Run(env, start, before), a);
    }
  }

  /** A step records exactly what it let the agent see. */
  lemma StepRecords(env: Env, fs: Files, a: Action)
    ensures var after := Step(env, fs, a).1;
      forall key ::
        match Seen(env, fs, a, key)
        case Some(c) => key in after.baselines && after.baselines[key] == env.hash(c)
        case None =>
          && (key in after.baselines <==> key in fs.baselines)
          && (key in after.baselines ==> after.baselines[key] == fs.baselines[key])
  {}

  /** The text of the one file edited: what stood before the match, the new text, what stood
      after. */
  ghost predicate Spliced(before: string, a: Action, after: string)
    requires a.Edit?
  {
    exists p: nat :: OnlyClearMatch(before, a.oldStr, p) && after == before[..p] + a.newStr + before[p + |a.oldStr|..]
  }

  /** When an edit goes through: allowed, of a text the agent has not seen otherwise, with one
      match. */
  ghost predicate EditApplies(env: Env, start: Files, trace: seq<Action>, a: Action)
    requires a.Edit?
  {
    var key, disk := env.locate(a.path), Run(env, start, trace).disk;
    && !env.sensitive(a.path) && env.confined(a.path) && a.readable && a.works && a.oldStr != ""
    && key in disk && disk[key].Utf8?
    && (LastSeen(env, start, trace, key).Some? ==> LastSeen(env, start, trace, key).value == disk[key])
    && exists p: nat :: OnlyClearMatch(disk[key].text, a.oldStr, p)
  }

  lemma EditIffApplies(env: Env, start: Files, trace: seq<Action>, a: Action)
    requires Injective(env) && start.baselines == map[] && a.Edit?
    ensures EditStep(env, Run(env, start, trace), a).0.Changed? <==> EditApplies(env, start, trace, a)
  {
    var fs, key := Run(env, start, trace), env.locate(a.path);
    BaselinesFollow(env, start, trace);
    if a.oldStr != "" && key in fs.disk && fs.disk[key].Utf8? {
      CountOne(fs.disk[key].text, a.oldStr);
    }
  }

  /** What an edit does to the files. */
  ghost predicate EditedOne(env: Env, fs: Files, a: Action, o: Outcome, after: Files)
    requires a.Edit?
  {
    var key := env.locate(a.path);
    if o.Refused? then after == fs
    else
      && key in fs.disk && fs.disk[key].Utf8? && after.disk.Keys == fs.disk.Keys
      && after.disk[key].Utf8? && Spliced(fs.disk[key].text, a, after.disk[key].text)
      && forall k :: k in fs.disk && k != key ==> after.disk[k] == fs.disk[k]
  }

  lemma EditSplices(env: Env, fs: Files, a: Action)
    requires a.Edit?
    ensures var (o, after) := EditStep(env, fs, a); EditedOne(env, fs, a, o, after)
  {
    var key := env.locate(a.path);
    if a.oldStr != "" && key in fs.disk && fs.disk[key].Utf8? {
      CountOne(fs.disk[key].text, a.oldStr);
    }
  }

  /** In every run of reads, writes, edits and outside changes, an edit goes through exactly
      when it may and the file is what the agent last saw of it, so no outside change is lost;
      then the one file is the old text with the one match replaced, and otherwise nothing
      has changed. */
  lemma EditLosesNothing(env: Env, start: Files, trace: seq<Action>, a: Action)
    requires Injective(env) && start.baselines == map[] && a.Edit?
    ensures var fs := Run(env, start, trace);
      var (o, after) := EditStep(env, fs, a);
      (o.Changed? <==> EditApplies(env, start, trace, a)) && EditedOne(env, fs, a, o, after)
  {
    EditIffApplies(env, start, trace, a);
    EditSplices(env, Run(env, start, trace), a);
  }

  /** Two occurrences that do not overlap. */
  ghost predicate OccursTwice(text: string, pat: string) {
    exists p: nat, q: nat :: OccursAt(text, pat, p) && OccursAt(text, pat, q) && p + |pat| <= q
  }

  lemma ManyMatches(text: string, pat: string)
    requires pat != "" && Count(text, pat) > 1
    ensures OccursTwice(text, pat)
  {
    var first := FindFrom(text, pat, 0);
    CountAfterFirst(text, pat, first.value);
    var rest := MatchesFrom(text, pat, first.value + |pat|);
    assert OccursAt(text, pat, rest[0]);
  }

  lemma NoMatch(text: string, pat: string)
    requires pat != "" && Count(text, pat) == 0
    ensures forall p: nat :: !OccursAt(text, pat, p)
  {
    NoMatches(text, pat, 0);
  }

  /** What is wrong when an edit is refused for a reason. */
  ghost predicate TrueOf(env: Env, start: Files, trace: seq<Action>, a: Action, reason: Reason)
    requires a.Edit?
  {
    var key, disk := env.locate(a.path), Run(env, start, trace).disk;
    match reason
    case Sensitive => env.sensitive(a.path)
    case EmptyOldStr => a.oldStr == ""
    case Escapes => !env.confined(a.path)
    case Unreadable => !a.readable || key !in disk
    case Stale =>
      key in disk && LastSeen(env, start, trace, key).Some? && LastSeen(env, start, trace, key).value != disk[key]
    case NotUtf8 => key in disk && disk[key].Other?
    case NotFound => key in disk && disk[key].Utf8? && forall p: nat :: !OccursAt(disk[key].text, a.oldStr, p)
    case Ambiguous(n) => key in disk && disk[key].Utf8? && n > 1 && OccursTwice(disk[key].text, a.oldStr)
    case WriteFailed => !a.works
  }

  /** Over every run, an edit is refused only for a reason that is true, and a sensitive path for
      that before anything else is looked at. */
  lemma RefusedForTheReason(env: Env, start: Files, trace: seq<Action>, a: Action)
    requires start.baselines == map[] && a.Edit?
    ensures var o := EditStep(env, Run(env, start, trace), a).0;
      && (o.Refused? ==> TrueOf(env, start, trace, a, o.reason))
      && (env.sensitive(a.path) ==> o == Refused(Sensitive))
  {
    var fs, key := Run(env, start, trace), env.locate(a.path);
    BaselinesFollow(env, start, trace);
    if a.oldStr != "" && key in fs.disk && fs.disk[key].Utf8? {
      var text := fs.disk[key].text;
      if Count(text, a.oldStr) == 0 { NoMatch(text, a.oldStr); }
      if Count(text, a.oldStr) > 1 { ManyMatches(text, a.oldStr); }
    }
  }

  /** The file is missing or differs from what the agent last saw of it. */
  ghost predicate SeenOtherwise(env: Env, start: Files, trace: seq<Action>, key: string, seen: Content) {
    var disk := Run(env, start, trace).disk;
    LastSeen(env, start, trace, key) == Some(seen) && (key in disk ==> disk[key] != seen)
  }

  /** A step in which the agent neither reads nor writes the file, and no one else puts back
      what the agent had seen. Edits may be tried. */
  ghost predicate LeftOtherwise(env: Env, fs: Files, a: Action, key: string, seen: Content) {
    match a
    case Outside(k, now) => k == key ==> now != Some(seen)
    case Edit(_, _, _, _, _) => true
    case _ => Seen(env, fs, a, key).None?
  }

  lemma EditIsRefused(env: Env, start: Files, trace: seq<Action>, a: Action, seen: Content)
    requires Injective(env) && start.baselines == map[]
    requires a.Edit? && SeenOtherwise(env, start, trace, env.locate(a.path), seen)
    ensures EditStep(env, Run(env, start, trace), a).0.Refused?
  {
    EditIffApplies(env, start, trace, a);
  }

  lemma StepLeavesOtherwise(env: Env, start: Files, trace: seq<Action>, a: Action, key: string, seen: Content)
    requires Injective(env) && start.baselines == map[] && SeenOtherwise(env, start, trace, key, seen)
    requires LeftOtherwise(env, Run(env, start, trace), a, key, seen)
    ensures SeenOtherwise(env, start, trace + [a], key, seen)
  {
    assert (trace + [a])[..|trace|] == trace;
    if a.Edit? && env.locate(a.path) == key { EditIsRefused(env, start, trace, a, seen); }
  }

  ghost predicate AllLeaveOtherwise(env: Env, start: Files, trace: seq<Action>, later: seq<Action>,
                                    key: string, seen: Content)
    decreases |later|
  {
    later == [] || (
      && LeftOtherwise(env, Run(env, start, trace), later[0], key, seen)
      && AllLeaveOtherwise(env, start, trace + [later[0]], later[1..], key, seen))
  }

  lemma {:induction false} StaysOtherwise(env: Env, start: Files, trace: seq<Action>, later: seq<Action>,
                                          key: string, seen: Content)
    requires Injective(env) && start.baselines == map[] && SeenOtherwise(env, start, trace, key, seen)
    requires AllLeaveOtherwise(env, start, trace, later, key, seen)
    ensures SeenOtherwise(env, start, trace + later, key, seen)
    decreases |later|
  {
    if later == [] {
      assert trace + later == trace;
    } else {
      StepLeavesOtherwise(env, start, trace, later[0], key, seen);
      StaysOtherwise(env, start, trace + [later[0]], later[1..], key, seen);
      assert (trace + [later[0]]) + later[1..] == trace + later;
    }
  }

  /** Once a file was changed outside, every edit of it is refused and changes nothing, until
      the agent reads or writes it again or someone puts the seen content back. */
  lemma OutsideChangeStops(env: Env, start: Files, trace: seq<Action>, later: seq<Action>, a: Action, seen: Content)
    requires Injective(env) && start.baselines == map[] && a.Edit?
    requires SeenOtherwise(env, start, trace, env.locate(a.path), seen)
    requires AllLeaveOtherwise(env, start, trace, later, env.locate(a.path), seen)
    ensures EditStep(env, Run(env, start, trace + later), a).0.Refused?
  {
    StaysOtherwise(env, start, trace, later, env.locate(a.path), seen);
    EditIsRefused(env, start, trace + later, a, seen);
  }

  // --- what is written is what is read ---

  function WholeRead(path: string): Action { Read(path, None, true) }

  /** A read that works shows the text of the file, whole or the lines asked for, and changes
      no file; one that is refused changes nothing. */
  lemma ReadShowsTheFile(env: Env, fs: Files, path: string, range: Option<(int, int)>, works: bool)
    ensures var (o, after) := ReadStep(env, fs, Read(path, range, works));
      var key := env.locate(path);
      && after.disk == fs.disk
      && (o.Shown? <==> !env.sensitive(path) && works && key in fs.disk)
      && (o.Refused? ==> after == fs && o.reason == if env.sensitive(path) then Sensitive else Unreadable)
      && (o.Shown? && fs.disk[key].Utf8? ==>
            o.body == if range.None? then fs.disk[key].text
                      else SliceLines(fs.disk[key].text, range.value.0, range.value.1))
  {}

  /** After a write that reports a change, a whole read of the path shows exactly the text that
      was written, and every other file is as it was; a refused write changes nothing. */
  lemma WrittenIsRead(env: Env, fs: Files, path: string, text: string, works: bool)
    ensures var (o, after) := WriteStep(env, fs, Write(path, text, works));
      var key := env.locate(path);
      && (o.Changed? <==> !env.sensitive(path) && env.confined(path) && works)
      && (o.Changed? ==>
            && ReadStep(env, after, WholeRead(path)).0 == Shown(text)
            && after.disk.Keys == fs.disk.Keys + {key}
            && forall k :: k in fs.disk && k != key ==> after.disk[k] == fs.disk[k])
      && (!o.Changed? ==>
            && o.Refused? && after == fs
            && o.reason == if env.sensitive(path) then Sensitive
                           else if env.confined(path) then WriteFailed else Escapes)
  {}

  /** A step that writes, edits and changes nothing under a key. */
  predicate LeavesFile(env: Env, a: Action, key: string) {
    match a
    case Read(_, _, _) => true
    case Write(path, _, _) => env.locate(path) != key
    case Edit(path, _, _, _, _) => env.locate(path) != key
    case Outside(k, _) => k != key
  }

  lemma {:induction false} FileStays(env: Env, start: Files, trace: seq<Action>, later: seq<Action>, key: string)
    requires forall i :: 0 <= i < |later| ==> LeavesFile(env, later[i], key)
    ensures key in Run(env, start, trace + later).disk <==> key in Run(env, start, trace).disk
    ensures key in Run(env, start, trace).disk ==>
      Run(env, start, trace + later).disk[key] == Run(env, start, trace).disk[key]
    decreases |later|
  {
    if later == [] {
      assert trace + later == trace;
    } else {
      var init, last := later[..|later| - 1], later[|later| - 1];
      FileStays(env, start, trace, init, key);
      assert trace + later == (trace + init) + [last];
      OneMoreStep(env, start, trace + init, last, key);
    }
  }

  lemma OneMoreStep(env: Env, start: Files, trace: seq<Action>, a: Action, key: string)
    requires LeavesFile(env, a, key)
    ensures var before, after := Run(env, start, trace).disk, Run(env, start, trace + [a]).disk;
      (key in after <==> key in before) && (key in before ==> after[key] == before[key])
  {
    assert (trace + [a])[..|trace|] == trace;
  }

  /** And over runs: with no later write, edit or outside change of the file, the read still
      shows that text. */
  lemma WrittenStays(env: Env, start: Files, trace: seq<Action>, path: string, text: string, later: seq<Action>)
    requires !env.sensitive(path) && env.confined(path)
    requires forall i :: 0 <= i < |later| ==> LeavesFile(env, later[i], env.locate(path))
    ensures ReadStep(env, Run(env, start, trace + [Write(path, text, true)] + later), WholeRead(path)).0 == Shown(text)
  {
    var wrote := trace + [Write(path, text, true)];
    assert wrote[..|trace|] == trace;
    WrittenIsRead(env, Run(env, start, trace), path, text, true);
    FileStays(env, start, wrote, later, env.locate(path));
  }
}
