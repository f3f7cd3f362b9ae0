/** The sandbox profile language as text: how its reader cuts it into tokens and forms, and
    what the two escapings the profile relies on give back when they are read. */
module SandboxText {
  import opened Text

  datatype Token = Open | Close | Word(name: string) | Quoted(text: string) | Raw(regex: string)

  /** What the reader is in the middle of. */
  datatype Mode =
    | Between
    | InWord(acc: string)
    | InQuoted(acc: string, escaped: bool)
    | AfterHash
    | InRaw(acc: string, escaped: bool)
    | InComment

  datatype Reader = Reader(tokens: seq<Token>, mode: Mode)

  predicate Blank(c: char) { c == ' ' || c == '\n' }

  predicate Plain(c: char) { !Blank(c) && c != '(' && c != ')' && c != '"' && c != ';' && c != '#' }

  function FromBetween(tokens: seq<Token>, c: char): Reader {
    if Blank(c) then Reader(tokens, Between)
    else if c == '(' then Reader(tokens + [Open], Between)
    else if c == ')' then Reader(tokens + [Close], Between)
    else if c == '"' then Reader(tokens, InQuoted("", false))
    else if c == ';' then Reader(tokens, InComment)
    else if c == '#' then Reader(tokens, AfterHash)
    else Reader(tokens, InWord([c]))
  }

  /** One char. A quoted text drops the backslash of an escape; a raw one keeps it, and is
      not ended by an escaped quote. */
  function ReadChar(r: Reader, c: char): Reader {
    match r.mode
    case Between => FromBetween(r.tokens, c)
    case InWord(acc) =>
      if Plain(c) then Reader(r.tokens, InWord(acc + [c])) else FromBetween(r.tokens + [Word(acc)], c)
    case InQuoted(acc, escaped) =>
      if escaped then Reader(r.tokens, InQuoted(acc + [c], false))
      else if c == '\\' then Reader(r.tokens, InQuoted(acc, true))
      else if c == '"' then Reader(r.tokens + [Quoted(acc)], Between)
      else Reader(r.tokens, InQuoted(acc + [c], false))
    case AfterHash =>
      if c == '"' then Reader(r.tokens, InRaw("", false)) else FromBetween(r.tokens + [Word("#")], c)
    case InRaw(acc, escaped) =>
      if escaped then Reader(r.tokens, InRaw(acc + [c], false))
      else if c == '"' then Reader(r.tokens + [Raw(acc)], Between)
      else Reader(r.tokens, InRaw(acc + [c], c == '\\'))
    case InComment => if c == '\n' then Reader(r.tokens, Between) else r
  }

  function ReadAll(r: Reader, s: string): Reader
    decreases |s|
  {
    if s == "" then r else ReadAll(ReadChar(r, s[0]), s[1..])
  }

  lemma {:induction false} ReadAppend(r: Reader, a: string, b: string)
    ensures ReadAll(r, a + b) == ReadAll(ReadAll(r, a), b)
    decreases |a|
  {
    if a == "" {
      assert a + b == b;
    } else {
      assert (a + b)[1..] == a[1..] + b;
      ReadAppend(ReadChar(r, a[0]), a[1..], b);
    }
  }

  lemma ReadCons(r: Reader, c: char, s: string)
    ensures ReadAll(r, [c] + s) == ReadAll(ReadChar(r, c), s)
  {
    assert ([c] + s)[1..] == s;
  }

  /** The piece of text reads as these tokens, wherever it stands between tokens. */
  ghost predicate Reads(piece: string, tokens: seq<Token>) {
    forall before :: ReadAll(Reader(before, Between), piece) == Reader(before + tokens, Between)
  }

  lemma ReadsJoin(a: string, s: seq<Token>, b: string, t: seq<Token>)
    requires Reads(a, s) && Reads(b, t)
    ensures Reads(a + b, s + t)
  {
    forall before ensures ReadAll(Reader(before, Between), a + b) == Reader(before + (s + t), Between) {
      ReadAppend(Reader(before, Between), a, b);
      assert before + s + t == before + (s + t);
    }
  }

  lemma ReadsMark(c: char)
    requires Blank(c) || c == '(' || c == ')'
    ensures Reads([c], if Blank(c) then [] else if c == '(' then [Open] else [Close])
  {
    var t := if Blank(c) then [] else if c == '(' then [Open] else [Close];
    forall before ensures ReadAll(Reader(before, Between), [c]) == Reader(before + t, Between) {
      assert ReadAll(Reader(before, Between), [c]) == ReadAll(ReadChar(Reader(before, Between), c), []);
    }
  }

  lemma {:induction false} ReadInWord(before: seq<Token>, acc: string, w: string)
    requires forall i :: 0 <= i < |w| ==> Plain(w[i])
    ensures ReadAll(Reader(before, InWord(acc)), w) == Reader(before, InWord(acc + w))
    decreases |w|
  {
    if w == "" {
      assert acc + w == acc;
    } else {
      assert acc + [w[0]] + w[1..] == acc + w;
      ReadInWord(before, acc + [w[0]], w[1..]);
    }
  }

  /** A word and the blank or bracket that ends it. */
  lemma ReadsWord(w: string, c: char)
    requires w != "" && forall i :: 0 <= i < |w| ==> Plain(w[i])
    requires Blank(c) || c == ')'
    ensures Reads(w + [c], if Blank(c) then [Word(w)] else [Word(w), Close])
  {
    var t := if Blank(c) then [Word(w)] else [Word(w), Close];
    forall before ensures ReadAll(Reader(before, Between), w + [c]) == Reader(before + t, Between) {
      var r := Reader(before, Between);
      ReadAppend(r, w, [c]);
      assert [w[0]] + w[1..] == w;
      ReadInWord(before, [w[0]], w[1..]);
      var r' := Reader(before, InWord(w));
      assert ReadAll(r', [c]) == ReadAll(ReadChar(r', c), []);
    }
  }

  lemma {:induction false} ReadInComment(before: seq<Token>, s: string)
    requires '\n' !in s
    ensures ReadAll(Reader(before, InComment), s) == Reader(before, InComment)
    decreases |s|
  {
    if s != "" { ReadInComment(before, s[1..]); }
  }

  lemma ReadsComment(s: string)
    requires '\n' !in s
    ensures Reads(";" + s + "\n", [])
  {
    forall before ensures ReadAll(Reader(before, Between), ";" + s + "\n") == Reader(before + [], Between) {
      var r := Reader(before, Between);
      assert ";" + s + "\n" == ";" + (s + "\n");
      ReadAppend(r, ";", s + "\n");
      assert ReadAll(r, ";") == ReadAll(ReadChar(r, ';'), []) == Reader(before, InComment);
      ReadAppend(Reader(before, InComment), s, "\n");
      ReadInComment(before, s);
      assert ReadAll(Reader(before, InComment), "\n") == ReadAll(ReadChar(Reader(before, InComment), '\n'), []);
    }
  }

  // --- quoted texts ---

  /** `str::replace` of one char. */
  function ReplaceChar(s: string, c: char, with: string): string {
    if s == "" then "" else (if s[0] == c then with else [s[0]]) + ReplaceChar(s[1..], c, with)
  }

  lemma {:induction false} ReplaceCharJoin(a: string, b: string, c: char, with: string)
    ensures ReplaceChar(a + b, c, with) == ReplaceChar(a, c, with) + ReplaceChar(b, c, with)
  {
    if a == "" {
      assert a + b == b;
    } else {
      assert (a + b)[1..] == a[1..] + b;
      ReplaceCharJoin(a[1..], b, c, with);
    }
  }

  function EscapeQuoted(s: string): string {
    ReplaceChar(ReplaceChar(s, '\\', "\\\\"), '"', "\\\"")
  }

  function EscapedChar(c: char): string {
    if c == '\\' then "\\\\" else if c == '"' then "\\\"" else [c]
  }

  lemma EscapeFront(s: string)
    requires s != ""
    ensures EscapeQuoted(s) == EscapedChar(s[0]) + EscapeQuoted(s[1..])
  {
    var head := if s[0] == '\\' then "\\\\" else [s[0]];
    ReplaceCharJoin(head, ReplaceChar(s[1..], '\\', "\\\\"), '"', "\\\"");
    assert ReplaceChar(head, '"', "\\\"") == EscapedChar(s[0]) by {
      if s[0] == '\\' {
        assert head[1..] == "\\";
        assert ReplaceChar("\\", '"', "\\\"") == "\\" by { assert "\\"[1..] == ""; }
      } else {
        assert head[1..] == "";
      }
    }
  }

  lemma ReadEscapedChar(before: seq<Token>, acc: string, c: char)
    ensures ReadAll(Reader(before, InQuoted(acc, false)), EscapedChar(c)) == Reader(before, InQuoted(acc + [c], false))
  {
    var r := Reader(before, InQuoted(acc, false));
    var e := EscapedChar(c);
    if |e| == 1 {
      assert e[1..] == "";
    } else {
      assert e[1..] == [c] && e[1..][1..] == "";
      assert ReadAll(r, e) == ReadAll(ReadChar(r, '\\'), [c]);
    }
  }

  lemma ReadInQuotedFront(before: seq<Token>, acc: string, s: string)
    requires s != ""
    ensures ReadAll(Reader(before, InQuoted(acc, false)), EscapeQuoted(s))
      == ReadAll(Reader(before, InQuoted(acc + [s[0]], false)), EscapeQuoted(s[1..]))
  {
    EscapeFront(s);
    ReadAppend(Reader(before, InQuoted(acc, false)), EscapedChar(s[0]), EscapeQuoted(s[1..]));
    ReadEscapedChar(before, acc, s[0]);
  }

  lemma {:induction false} ReadInQuoted(before: seq<Token>, acc: string, s: string)
    ensures ReadAll(Reader(before, InQuoted(acc, false)), EscapeQuoted(s)) == Reader(before, InQuoted(acc + s, false))
    decreases |s|
  {
    if s == "" {
      assert acc + s == acc;
    } else {
      var acc' := acc + [s[0]];
      ReadInQuotedFront(before, acc, s);
      ReadInQuoted(before, acc', s[1..]);
      FrontMoves(acc, s);
    }
  }

  lemma FrontMoves(acc: string, s: string)
    requires s != ""
    ensures (acc + [s[0]]) + s[1..] == acc + s
  {}

  /** Whatever the text holds, quoting it is undone by reading, and reading stops at its
      closing quote. */
  lemma ReadsQuoted(s: string)
    ensures Reads("\"" + EscapeQuoted(s) + "\"", [Quoted(s)])
  {
    var q := "\"";
    forall before
      ensures ReadAll(Reader(before, Between), q + EscapeQuoted(s) + q) == Reader(before + [Quoted(s)], Between)
    {
      var r := Reader(before, Between);
      assert q + EscapeQuoted(s) + q == q + (EscapeQuoted(s) + q);
      ReadAppend(r, q, EscapeQuoted(s) + q);
      assert ReadAll(r, q) == ReadAll(ReadChar(r, '"'), []) == Reader(before, InQuoted("", false));
      ReadAppend(Reader(before, InQuoted("", false)), EscapeQuoted(s), q);
      ReadInQuoted(before, "", s);
      assert "" + s == s;
      var r' := Reader(before, InQuoted(s, false));
      assert ReadAll(r', q) == ReadAll(ReadChar(r', '"'), []);
    }
  }

  // --- regex texts ---

  predicate IsLetter(c: char) { 'a' <= c <= 'z' || 'A' <= c <= 'Z' }

  /** `char::to_ascii_uppercase`. */
  function Upper(c: char): char {
    if 'a' <= c <= 'z' then (c as int - 32) as char else c
  }

  predicate IsMeta(c: char) { c in ".^$*+?()[]{}|\\" }

  function CharRegex(c: char): string {
    if IsLetter(c) then ['[', Upper(c), Lower(c), ']']
    else if IsMeta(c) then ['\\', c]
    else if c == '"' then ['\\', '"']
    else [c]
  }

  /** The regex printed for one pattern. */
  function PatternRegex(pattern: string): string {
    if pattern == "" then "" else CharRegex(pattern[0]) + PatternRegex(pattern[1..])
  }

  lemma RegexFront(before: string, pattern: string, i: nat)
    requires i < |pattern|
    ensures before + PatternRegex(pattern[i..]) == before + CharRegex(pattern[i]) + PatternRegex(pattern[i + 1..])
  {
    assert pattern[i..][1..] == pattern[i + 1..];
  }

  /** Print the pattern char by char. */
  method SecretPathRegex(pattern: string) returns (out: string)
    ensures out == PatternRegex(pattern)
  {
    out := "";
    for i := 0 to |pattern|
      invariant out + PatternRegex(pattern[i..]) == PatternRegex(pattern)
    {
      var ch := pattern[i];
      ghost var before := out;
      if IsLetter(ch) {
        out := out + ['['];
        out := out + [Upper(ch)];
        out := out + [Lower(ch)];
        out := out + [']'];
      } else if IsMeta(ch) {
        out := out + ['\\'];
        out := out + [ch];
      } else if ch == '"' {
        out := out + ['\\'];
        out := out + ['"'];
      } else {
        out := out + [ch];
      }
      assert out == before + CharRegex(ch);
      RegexFront(before, pattern, i);
    }
    assert out + [] == out;
  }

  lemma ReadCharRegex(before: seq<Token>, acc: string, c: char)
    ensures ReadAll(Reader(before, InRaw(acc, false)), CharRegex(c)) == Reader(before, InRaw(acc + CharRegex(c), false))
  {
    var r := Reader(before, InRaw(acc, false));
    var e := CharRegex(c);
    if |e| == 1 {
      assert e[1..] == "";
    } else if |e| == 2 {
      assert e[1..] == [e[1]] && e[1..][1..] == "";
      var a := Reader(before, InRaw(acc + ['\\'], true));
      assert ReadAll(r, e) == ReadAll(a, [e[1]]) == ReadAll(ReadChar(a, e[1]), "");
      assert acc + ['\\'] + [e[1]] == acc + e;
    } else {
      ReadCons(r, '[', [Upper(c), Lower(c), ']']);
      ReadCons(ReadChar(r, '['), Upper(c), [Lower(c), ']']);
      ReadCons(ReadChar(ReadChar(r, '['), Upper(c)), Lower(c), [']']);
      ReadCons(ReadChar(ReadChar(ReadChar(r, '['), Upper(c)), Lower(c)), ']', "");
      assert e == ['['] + [Upper(c), Lower(c), ']'];
      assert [Upper(c), Lower(c), ']'] == [Upper(c)] + [Lower(c), ']'];
      assert [Lower(c), ']'] == [Lower(c)] + [']'];
      assert "]" == "]" + "";
      assert acc + ['['] + [Upper(c)] + [Lower(c)] + [']'] == acc + e;
    }
  }

  lemma {:induction false} ReadInRaw(before: seq<Token>, acc: string, pattern: string)
    ensures ReadAll(Reader(before, InRaw(acc, false)), PatternRegex(pattern))
      == Reader(before, InRaw(acc + PatternRegex(pattern), false))
    decreases |pattern|
  {
    if pattern == "" {
      assert acc + PatternRegex(pattern) == acc;
    } else {
      var e, rest := CharRegex(pattern[0]), PatternRegex(pattern[1..]);
      ReadAppend(Reader(before, InRaw(acc, false)), e, rest);
      ReadCharRegex(before, acc, pattern[0]);
      assert acc + e + rest == acc + (e + rest);
      ReadInRaw(before, acc + e, pattern[1..]);
    }
  }

  /** No pattern ends its own literal early: the whole printed regex is read back. */
  lemma ReadsRaw(pattern: string)
    ensures Reads("#\"" + PatternRegex(pattern) + "\"", [Raw(PatternRegex(pattern))])
  {
    var regex, q := PatternRegex(pattern), "\"";
    forall before
      ensures ReadAll(Reader(before, Between), "#\"" + regex + q) == Reader(before + [Raw(regex)], Between)
    {
      var r := Reader(before, Between);
      assert "#\"" + regex + q == "#" + (q + (regex + q));
      ReadAppend(r, "#", q + (regex + q));
      assert ReadAll(r, "#") == ReadAll(ReadChar(r, '#'), []) == Reader(before, AfterHash);
      ReadAppend(Reader(before, AfterHash), q, regex + q);
      assert ReadAll(Reader(before, AfterHash), q)
        == ReadAll(ReadChar(Reader(before, AfterHash), '"'), []) == Reader(before, InRaw("", false));
      ReadAppend(Reader(before, InRaw("", false)), regex, q);
      ReadInRaw(before, "", pattern);
      assert "" + regex == regex;
      var r' := Reader(before, InRaw(regex, false));
      assert ReadAll(r', q) == ReadAll(ReadChar(r', '"'), []);
    }
  }

  // --- forms ---

  /** A bracketed form: words and texts, then bracketed filters of words and texts. */
  datatype Form = Form(head: seq<Token>, filters: seq<seq<Token>>)

  predicate Flat(ts: seq<Token>) {
    forall i :: 0 <= i < |ts| ==> ts[i] != Open && ts[i] != Close
  }

  /** How many tokens stand before the first bracket. */
  function FlatPrefix(ts: seq<Token>): (n: nat)
    ensures n <= |ts| && Flat(ts[..n])
    ensures n < |ts| ==> ts[n] == Open || ts[n] == Close
  {
    if ts == [] || ts[0] == Open || ts[0] == Close then 0
    else
      var n := FlatPrefix(ts[1..]);
      assert ts[..n + 1] == [ts[0]] + ts[1..][..n];
      n + 1
  }

  function ReadFilters(ts: seq<Token>): (r: Option<(seq<seq<Token>>, seq<Token>)>)
    ensures r.Some? ==> |r.value.1| < |ts|
    decreases |ts|
  {
    if ts == [] then None
    else if ts[0] == Close then Some(([], ts[1..]))
    else if ts[0] != Open then None
    else
      var n := FlatPrefix(ts[1..]);
      if n + 1 < |ts| && ts[n + 1] == Close then
        var rest := ReadFilters(ts[n + 2..]);
        if rest.Some? then Some(([ts[1..][..n]] + rest.value.0, rest.value.1)) else None
      else None
  }

  function ReadForms(ts: seq<Token>): Option<seq<Form>>
    decreases |ts|
  {
    if ts == [] then Some([])
    else if ts[0] != Open then None
    else
      var n := FlatPrefix(ts[1..]);
      var fs := ReadFilters(ts[n + 1..]);
      if fs.None? then None
      else
        var rest := ReadForms(fs.value.1);
        if rest.Some? then Some([Form(ts[1..][..n], fs.value.0)] + rest.value) else None
  }

  function FilterTokens(fs: seq<seq<Token>>): seq<Token> {
    if fs == [] then [] else [Open] + fs[0] + [Close] + FilterTokens(fs[1..])
  }

  function FormTokens(f: Form): seq<Token> {
    [Open] + f.head + FilterTokens(f.filters) + [Close]
  }

  function AllTokens(fs: seq<Form>): seq<Token> {
    if fs == [] then [] else FormTokens(fs[0]) + AllTokens(fs[1..])
  }

  predicate WellFormed(f: Form) {
    Flat(f.head) && forall i :: 0 <= i < |f.filters| ==> Flat(f.filters[i])
  }

  lemma {:induction false} FlatPrefixOf(a: seq<Token>, rest: seq<Token>)
    requires Flat(a) && rest != [] && (rest[0] == Open || rest[0] == Close)
    ensures FlatPrefix(a + rest) == |a|
  {
    if a == [] {
      assert a + rest == rest;
    } else {
      assert (a + rest)[1..] == a[1..] + rest;
      FlatPrefixOf(a[1..], rest);
    }
  }

  lemma {:induction false} ReadFiltersBack(fs: seq<seq<Token>>, rest: seq<Token>)
    requires forall i :: 0 <= i < |fs| ==> Flat(fs[i])
    ensures ReadFilters(FilterTokens(fs) + [Close] + rest) == Some((fs, rest))
    decreases |fs|
  {
    var ts := FilterTokens(fs) + [Close] + rest;
    if fs == [] {
      assert ts[1..] == rest;
    } else {
      var more := FilterTokens(fs[1..]) + [Close] + rest;
      FilterTokensSplit(fs, rest);
      FlatPrefixOf(fs[0], [Close] + more);
      ReadFiltersBack(fs[1..], rest);
      assert [fs[0]] + fs[1..] == fs;
    }
  }

  /** How the tokens of a clause's filters divide. */
  lemma FilterTokensSplit(fs: seq<seq<Token>>, rest: seq<Token>)
    requires fs != []
    ensures var ts, more := FilterTokens(fs) + [Close] + rest, FilterTokens(fs[1..]) + [Close] + rest;
      && ts != [] && ts[0] == Open && ts[1..] == fs[0] + ([Close] + more)
      && |fs[0]| + 2 <= |ts| && ts[|fs[0]| + 2..] == more && ts[1..][..|fs[0]|] == fs[0]
  {
    var f, later := fs[0], FilterTokens(fs[1..]);
    BracketsRegroup(f, later, rest);
    BracketedSplit(f, later + [Close] + rest);
  }

  lemma BracketsRegroup(f: seq<Token>, later: seq<Token>, rest: seq<Token>)
    ensures [Open] + f + [Close] + later + [Close] + rest == [Open] + (f + ([Close] + (later + [Close] + rest)))
  {
    var front, more := [Open] + f + [Close], later + [Close] + rest;
    Associate(front, later, [Close]);
    Associate(front, later + [Close], rest);
    Associate([Open] + f, [Close], more);
    Associate([Open], f, [Close] + more);
  }

  lemma BracketedSplit(f: seq<Token>, more: seq<Token>)
    ensures var ts := [Open] + (f + ([Close] + more));
      ts[1..] == f + ([Close] + more) && ts[|f| + 2..] == more && ts[1..][..|f|] == f
  {
    var ts := [Open] + (f + ([Close] + more));
    assert ts[1..] == f + ([Close] + more);
    assert ts[|f| + 2..] == more;
  }

  /** How a form's tokens divide. */
  lemma FormTokensSplit(f: Form, more: seq<Token>)
    ensures var ts, tail := FormTokens(f) + more, FilterTokens(f.filters) + [Close] + more;
      && ts != [] && ts[0] == Open && ts[1..] == f.head + tail
      && ts[|f.head| + 1..] == tail && ts[1..][..|f.head|] == f.head
  {}

  lemma ReadFormBack(f: Form, more: seq<Token>)
    requires WellFormed(f) && ReadForms(more).Some?
    ensures ReadForms(FormTokens(f) + more) == Some([f] + ReadForms(more).value)
  {
    var ts, tail := FormTokens(f) + more, FilterTokens(f.filters) + [Close] + more;
    FormTokensSplit(f, more);
    FlatPrefixOf(f.head, tail);
    ReadFiltersBack(f.filters, more);
    assert ReadFilters(ts[FlatPrefix(ts[1..]) + 1..]) == Some((f.filters, more));
  }

  lemma {:induction false} ReadFormsBack(fs: seq<Form>)
    requires forall i :: 0 <= i < |fs| ==> WellFormed(fs[i])
    ensures ReadForms(AllTokens(fs)) == Some(fs)
    decreases |fs|
  {
    if fs != [] {
      ReadFormsBack(fs[1..]);
      ReadFormBack(fs[0], AllTokens(fs[1..]));
      assert [fs[0]] + fs[1..] == fs;
    }
  }

  /** What the sandbox makes of a profile text. */
  function ReadProfile(text: string): Option<seq<Form>> {
    var r := ReadAll(Reader([], Between), text);
    if r.mode == Between then ReadForms(r.tokens) else None
  }
}
