/** The sandbox profile of one command: the text that is printed, and what it permits once it
    is read back under the rule that the last matching clause decides. */
module SandboxProfile {
  import opened Text
  import opened SandboxText

  const DEV_WRITE_SINKS: seq<string> := ["/dev/null", "/dev/stdout", "/dev/stderr"]

  // The notes are cut into pieces short enough for the verifier to read char by char, which
  // the proof that they hold no newline needs.

  const WRITES_NOTE := "; writes: deny " + "everywhere, re-allow " + "only project/cwd " + "+ /dev sinks"
  const WRITE_DENY_NOTE := "; ...but never a " + "secret path, even " + "inside the writable " + "tree"
  const READ_DENY_NOTE := "; secret reads: deny " + "(shared with the " + "gate's Secrets " + "deny-set)"
  const EGRESS_NOTE := "; egress: deny " + "outbound, keep only " + "local IPC (unix " + "sockets)"

  datatype Policy = Policy(writable: seq<string>, allowNetwork: bool, allowlist: seq<string>)

  // --- the text ---

  function LiteralLine(path: string): string { "  (literal \"" + path + "\")\n" }

  function SubpathLine(path: string): string { "  (subpath \"" + EscapeQuoted(path) + "\")\n" }

  function RegexLine(pattern: string): string { "  (regex #\"" + PatternRegex(pattern) + "\")\n" }

  function HostClause(host: string): string {
    Remote() + ("remote" + " " + ("ip" + " ") + ("\"" + EscapeQuoted(host) + "\"") + ")") + ")\n"
  }

  function Lines(line: string -> string, items: seq<string>): string {
    if items == [] then "" else line(items[0]) + Lines(line, items[1..])
  }

  /** `(a b)` on a line of its own. */
  function Clause(a: string, b: string): string { "(" + a + " " + b + ")\n" }

  /** `(a b` with its filters to come. */
  function Opening(a: string, b: string): string { "(" + a + " " + b + "\n" }

  /** `(allow network-outbound (`. */
  function Remote(): string { "(" + "allow" + " " + "network-outbound" + " " + "(" }

  function Note(text: string): string { ";" + text + "\n" }

  function HeaderText(): string { Clause("version", "1") + Clause("allow", "default") + "\n" }

  function WritesText(writable: seq<string>): string {
    Note(WRITES_NOTE) + Clause("deny", "file-write*")
    + (Opening("allow", "file-write*") + (Lines(LiteralLine, DEV_WRITE_SINKS) + Lines(SubpathLine, writable)) + ")\n")
  }

  function WriteDenyText(patterns: seq<string>): string {
    if patterns == [] then ""
    else
      Note(WRITE_DENY_NOTE) + (Opening("deny", "file-write*") + Lines(RegexLine, patterns) + ")\n")
  }

  function ReadDenyText(patterns: seq<string>): string {
    if patterns == [] then ""
    else
      Note(READ_DENY_NOTE) + (Opening("deny", "file-read*") + Lines(RegexLine, patterns) + ")\n") + "\n"
  }

  function EgressText(policy: Policy): string {
    if policy.allowNetwork then ""
    else
      Note(EGRESS_NOTE) + Clause("deny", "network-outbound")
      + (Remote() + ("remote" + " " + ("unix" + ")")) + ")\n") + Lines(HostClause, policy.allowlist)
  }

  function ProfileText(patterns: seq<string>, policy: Policy): string {
    HeaderText() + WritesText(policy.writable) + WriteDenyText(patterns) + "\n" + ReadDenyText(patterns)
    + EgressText(policy)
  }

  method PushLines(p: string, line: string -> string, items: seq<string>) returns (out: string)
    ensures out == p + Lines(line, items)
  {
    out := p;
    for i := 0 to |items|
      invariant out + Lines(line, items[i..]) == p + Lines(line, items)
    {
      assert items[i..][1..] == items[i + 1..];
      assert out + (line(items[i]) + Lines(line, items[i + 1..]))
        == out + line(items[i]) + Lines(line, items[i + 1..]);
      out := out + line(items[i]);
    }
    assert out + "" == out;
  }

  method PushWrites(p: string, writable: seq<string>) returns (out: string)
    ensures out == p + WritesText(writable)
  {
    out := p + Note(WRITES_NOTE);
    out := out + Clause("deny", "file-write*");
    ghost var before := Note(WRITES_NOTE) + Clause("deny", "file-write*");
    assert out == p + before;
    out := out + Opening("allow", "file-write*");
    out := PushLines(out, LiteralLine, DEV_WRITE_SINKS);
    out := PushLines(out, SubpathLine, writable);
    out := out + ")\n";
    ghost var sinks, paths := Lines(LiteralLine, DEV_WRITE_SINKS), Lines(SubpathLine, writable);
    RegroupPushes(p, before, Opening("allow", "file-write*"), sinks, paths, ")\n");
  }

  lemma RegroupPushes(p: string, before: string, a: string, b: string, c: string, d: string)
    ensures p + before + a + b + c + d == p + (before + (a + (b + c) + d))
  {}

  method PushDeny(p: string, note: string, opening: string, patterns: seq<string>) returns (out: string)
    ensures out == p + (Note(note) + (opening + Lines(RegexLine, patterns) + ")\n"))
  {
    out := p + Note(note);
    out := out + opening;
    out := PushLines(out, RegexLine, patterns);
    out := out + ")\n";
  }

  method PushEgress(p: string, policy: Policy) returns (out: string)
    ensures out == p + EgressText(policy)
  {
    out := p;
    if !policy.allowNetwork {
      out := out + Note(EGRESS_NOTE);
      out := out + Clause("deny", "network-outbound");
      out := out + (Remote() + ("remote" + " " + ("unix" + ")")) + ")\n");
      out := PushLines(out, HostClause, policy.allowlist);
    }
  }

  method PushReadDeny(p: string, patterns: seq<string>) returns (out: string)
    ensures out == p + ReadDenyText(patterns)
  {
    out := p;
    if patterns != [] {
      out := PushDeny(out, READ_DENY_NOTE, Opening("deny", "file-read*"), patterns);
      out := out + "\n";
    }
  }

  method PushWriteDeny(p: string, patterns: seq<string>) returns (out: string)
    ensures out == p + WriteDenyText(patterns)
  {
    out := p;
    if patterns != [] {
      out := PushDeny(out, WRITE_DENY_NOTE, Opening("deny", "file-write*"), patterns);
    }
  }

  /** Push the sections one after the other: writes, secret writes, secret reads, egress. */
  method Profile(patterns: seq<string>, policy: Policy) returns (p: string)
    ensures p == ProfileText(patterns, policy)
  {
    p := Clause("version", "1");
    p := p + Clause("allow", "default");
    p := p + "\n";
    p := PushWrites(p, policy.writable);
    p := PushWriteDeny(p, patterns);
    p := p + "\n";
    p := PushReadDeny(p, patterns);
    p := PushEgress(p, policy);
  }

  // --- the forms the text is meant to hold ---

  function LiteralFilter(path: string): seq<Token> { [Word("literal"), Quoted(path)] }

  function SubpathFilter(path: string): seq<Token> { [Word("subpath"), Quoted(path)] }

  function RegexFilter(pattern: string): seq<Token> { [Word("regex"), Raw(PatternRegex(pattern))] }

  function HostForm(host: string): Form {
    RemoteForm([Word("remote"), Word("ip"), Quoted(host)])
  }

  function Each<T>(f: string -> T, items: seq<string>): (r: seq<T>)
    ensures |r| == |items| && forall i :: 0 <= i < |r| ==> r[i] == f(items[i])
  {
    seq(|items|, i requires 0 <= i < |items| => f(items[i]))
  }

  function HeaderForms(): seq<Form> {
    [Form([Word("version"), Word("1")], []), Form([Word("allow"), Word("default")], [])]
  }

  function WritesForms(writable: seq<string>): seq<Form> {
    [Form([Word("deny"), Word("file-write*")], []),
     Form([Word("allow"), Word("file-write*")], Each(LiteralFilter, DEV_WRITE_SINKS) + Each(SubpathFilter, writable))]
  }

  function DenyForms(op: string, patterns: seq<string>): seq<Form> {
    if patterns == [] then [] else [Form([Word("deny"), Word(op)], Each(RegexFilter, patterns))]
  }

  function EgressForms(policy: Policy): seq<Form> {
    if policy.allowNetwork then []
    else
      [Form([Word("deny"), Word("network-outbound")], []),
       RemoteForm([Word("remote"), Word("unix")])]
      + Each(HostForm, policy.allowlist)
  }

  function ProfileForms(patterns: seq<string>, policy: Policy): seq<Form> {
    HeaderForms() + WritesForms(policy.writable) + DenyForms("file-write*", patterns)
    + DenyForms("file-read*", patterns) + EgressForms(policy)
  }

  // --- the text holds those forms ---

  ghost predicate Spells(text: string, forms: seq<Form>) {
    Reads(text, AllTokens(forms))
  }

  lemma {:induction false} AllTokensJoin(a: seq<Form>, b: seq<Form>)
    ensures AllTokens(a + b) == AllTokens(a) + AllTokens(b)
  {
    if a == [] {
      assert a + b == b;
    } else {
      assert (a + b)[1..] == a[1..] + b;
      AllTokensJoin(a[1..], b);
    }
  }

  lemma SpellsJoin(a: string, f: seq<Form>, b: string, g: seq<Form>)
    requires Spells(a, f) && Spells(b, g)
    ensures Spells(a + b, f + g)
  {
    ReadsJoin(a, AllTokens(f), b, AllTokens(g));
    AllTokensJoin(f, g);
  }

  predicate IsWord(w: string) {
    w != "" && forall i :: 0 <= i < |w| ==> Plain(w[i])
  }

  /** `(a b` and what ends the second word. */
  lemma ReadsHead(a: string, b: string, c: char)
    requires IsWord(a) && IsWord(b) && (Blank(c) || c == ')')
    ensures Reads("(" + a + " " + b + [c], [Open, Word(a), Word(b)] + if c == ')' then [Close] else [])
  {
    ReadsMark('(');
    ReadsWord(a, ' ');
    ReadsWord(b, c);
    ReadsJoin("(", [Open], a + " ", [Word(a)]);
    ReadsJoin("(" + (a + " "), [Open] + [Word(a)], b + [c], if Blank(c) then [Word(b)] else [Word(b), Close]);
    assert "(" + a + " " + b + [c] == "(" + (a + " ") + (b + [c]);
  }

  /** A clause without filters. */
  lemma SpellsClause(a: string, b: string)
    requires IsWord(a) && IsWord(b)
    ensures Spells(Clause(a, b), [Form([Word(a), Word(b)], [])])
  {
    ReadsHead(a, b, ')');
    ReadsMark('\n');
    ReadsJoin("(" + a + " " + b + ")", [Open, Word(a), Word(b)] + [Close], "\n", []);
    assert Clause(a, b) == "(" + a + " " + b + ")" + "\n";
    var form := Form([Word(a), Word(b)], []);
    assert AllTokens([form]) == FormTokens(form) by { assert [form][1..] == []; }
    assert FormTokens(form) == [Open, Word(a), Word(b)] + [Close] + [];
  }

  lemma FilteredTokens(a: string, b: string, filters: seq<seq<Token>>)
    ensures AllTokens([Form([Word(a), Word(b)], filters)])
         == [Open, Word(a), Word(b)] + FilterTokens(filters) + [Close]
  {
    var form := Form([Word(a), Word(b)], filters);
    assert AllTokens([form]) == FormTokens(form) by { assert [form][1..] == []; }
  }

  lemma ReadsOpening(a: string, b: string)
    requires IsWord(a) && IsWord(b)
    ensures Reads(Opening(a, b), [Open, Word(a), Word(b)])
  {
    ReadsHead(a, b, '\n');
    assert [Open, Word(a), Word(b)] + [] == [Open, Word(a), Word(b)];
  }

  /** A clause around filters that are already known to read right. */
  lemma SpellsFiltered(a: string, b: string, body: string, filters: seq<seq<Token>>)
    requires IsWord(a) && IsWord(b) && Reads(body, FilterTokens(filters))
    ensures Spells(Opening(a, b) + body + ")\n", [Form([Word(a), Word(b)], filters)])
  {
    var head, opening := Opening(a, b), [Open, Word(a), Word(b)];
    ReadsOpening(a, b);
    ReadsEnd();
    ReadsJoin(head, opening, body, FilterTokens(filters));
    ReadsJoin(head + body, opening + FilterTokens(filters), ")\n", [Close]);
    FilteredTokens(a, b, filters);
  }

  lemma {:induction false} FilterTokensJoin(a: seq<seq<Token>>, b: seq<seq<Token>>)
    ensures FilterTokens(a + b) == FilterTokens(a) + FilterTokens(b)
  {
    if a == [] {
      assert a + b == b;
    } else {
      assert (a + b)[1..] == a[1..] + b;
      FilterTokensJoin(a[1..], b);
    }
  }

  lemma ReadsIndent()
    ensures Reads("  (", [Open])
  {
    ReadsMark(' ');
    ReadsMark('(');
    ReadsJoin(" ", [], " ", []);
    ReadsJoin(" " + " ", [] + [], "(", [Open]);
    assert "  (" == " " + " " + "(" && [Open] == [] + [] + [Open];
  }

  lemma ReadsEnd()
    ensures Reads(")\n", [Close])
  {
    ReadsMark(')');
    ReadsMark('\n');
    ReadsJoin(")", [Close], "\n", []);
    assert ")\n" == ")" + "\n" && [Close] == [Close] + [];
  }

  /** One filter line: `  (kind text)`. */
  lemma ReadsFilter(kind: string, text: string, token: Token)
    requires IsWord(kind) && Reads(text, [token])
    ensures Reads("  (" + (kind + " ") + text + ")\n", [Open] + [Word(kind), token] + [Close])
  {
    ReadsIndent();
    ReadsWord(kind, ' ');
    ReadsJoin("  (", [Open], kind + " ", [Word(kind)]);
    ReadsJoin("  (" + (kind + " "), [Open] + [Word(kind)], text, [token]);
    ReadsEnd();
    ReadsJoin("  (" + (kind + " ") + text, [Open] + [Word(kind)] + [token], ")\n", [Close]);
    assert [Open] + [Word(kind), token] + [Close] == [Open] + [Word(kind)] + [token] + [Close];
  }

  lemma {:induction false} PlainNeedsNoEscape(s: string)
    requires '"' !in s && '\\' !in s
    ensures EscapeQuoted(s) == s
  {
    if s != "" {
      EscapeFront(s);
      PlainNeedsNoEscape(s[1..]);
    }
  }

  lemma ReadsLiteralLine(path: string)
    requires '"' !in path && '\\' !in path
    ensures Reads(LiteralLine(path), [Open] + LiteralFilter(path) + [Close])
  {
    PlainNeedsNoEscape(path);
    ReadsQuoted(path);
    ReadsFilter("literal", "\"" + path + "\"", Quoted(path));
    assert LiteralLine(path) == "  (" + ("literal" + " ") + ("\"" + path + "\"") + ")\n";
  }

  lemma ReadsSubpathLine(path: string)
    ensures Reads(SubpathLine(path), [Open] + SubpathFilter(path) + [Close])
  {
    ReadsQuoted(path);
    ReadsFilter("subpath", "\"" + EscapeQuoted(path) + "\"", Quoted(path));
    assert SubpathLine(path) == "  (" + ("subpath" + " ") + ("\"" + EscapeQuoted(path) + "\"") + ")\n";
  }

  lemma ReadsRegexLine(pattern: string)
    ensures Reads(RegexLine(pattern), [Open] + RegexFilter(pattern) + [Close])
  {
    ReadsRaw(pattern);
    ReadsFilter("regex", "#\"" + PatternRegex(pattern) + "\"", Raw(PatternRegex(pattern)));
    assert RegexLine(pattern) == "  (" + ("regex" + " ") + ("#\"" + PatternRegex(pattern) + "\"") + ")\n";
  }

  lemma {:induction false} ReadsLines(line: string -> string, filter: string -> seq<Token>, items: seq<string>)
    requires forall i :: 0 <= i < |items| ==> Reads(line(items[i]), [Open] + filter(items[i]) + [Close])
    ensures Reads(Lines(line, items), FilterTokens(Each(filter, items)))
    decreases |items|
  {
    if items == [] {
    } else {
      ReadsLines(line, filter, items[1..]);
      ReadsJoin(line(items[0]), [Open] + filter(items[0]) + [Close],
        Lines(line, items[1..]), FilterTokens(Each(filter, items[1..])));
      assert Each(filter, items)[1..] == Each(filter, items[1..]);
    }
  }

  lemma SpellsHeader()
    ensures Spells(HeaderText(), HeaderForms())
  {
    assert IsWord("version") && IsWord("1") && IsWord("allow") && IsWord("default");
    SpellsClause("version", "1");
    SpellsClause("allow", "default");
    var one, two := [Form([Word("version"), Word("1")], [])], [Form([Word("allow"), Word("default")], [])];
    SpellsJoin(Clause("version", "1"), one, Clause("allow", "default"), two);
    ReadsMark('\n');
    SpellsJoin(Clause("version", "1") + Clause("allow", "default"), one + two, "\n", []);
    assert one + two + [] == HeaderForms();
  }

  lemma SpellsNote(note: string)
    requires '\n' !in note
    ensures Spells(Note(note), [])
  {
    ReadsComment(note);
  }

  lemma WritesNote()
    ensures '\n' !in WRITES_NOTE
  {}

  lemma WriteDenyNote()
    ensures '\n' !in WRITE_DENY_NOTE
  {}

  lemma ReadDenyNote()
    ensures '\n' !in READ_DENY_NOTE
  {}

  lemma EgressNote()
    ensures '\n' !in EGRESS_NOTE
  {}

  /** The filters of the one clause that allows writes. */
  function WriteFilters(writable: seq<string>): seq<seq<Token>> {
    Each(LiteralFilter, DEV_WRITE_SINKS) + Each(SubpathFilter, writable)
  }

  lemma ReadsWriteFilters(writable: seq<string>)
    ensures Reads(Lines(LiteralLine, DEV_WRITE_SINKS) + Lines(SubpathLine, writable),
                  FilterTokens(WriteFilters(writable)))
  {
    forall i | 0 <= i < |DEV_WRITE_SINKS|
      ensures Reads(LiteralLine(DEV_WRITE_SINKS[i]), [Open] + LiteralFilter(DEV_WRITE_SINKS[i]) + [Close])
    {
      ReadsLiteralLine(DEV_WRITE_SINKS[i]);
    }
    ReadsLines(LiteralLine, LiteralFilter, DEV_WRITE_SINKS);
    forall i | 0 <= i < |writable|
      ensures Reads(SubpathLine(writable[i]), [Open] + SubpathFilter(writable[i]) + [Close])
    {
      ReadsSubpathLine(writable[i]);
    }
    ReadsLines(SubpathLine, SubpathFilter, writable);
    var f, g := Each(LiteralFilter, DEV_WRITE_SINKS), Each(SubpathFilter, writable);
    ReadsJoin(Lines(LiteralLine, DEV_WRITE_SINKS), FilterTokens(f), Lines(SubpathLine, writable), FilterTokens(g));
    FilterTokensJoin(f, g);
  }

  lemma SpellsWrites(writable: seq<string>)
    ensures Spells(WritesText(writable), WritesForms(writable))
  {
    assert IsWord("deny") && IsWord("allow") && IsWord("file-write*");
    WritesNote();
    SpellsNote(WRITES_NOTE);
    SpellsClause("deny", "file-write*");
    var deny := [Form([Word("deny"), Word("file-write*")], [])];
    SpellsJoin(Note(WRITES_NOTE), [], Clause("deny", "file-write*"), deny);
    var body := Lines(LiteralLine, DEV_WRITE_SINKS) + Lines(SubpathLine, writable);
    ReadsWriteFilters(writable);
    SpellsFiltered("allow", "file-write*", body, WriteFilters(writable));
    SpellsJoin(Note(WRITES_NOTE) + Clause("deny", "file-write*"), [] + deny,
      Opening("allow", "file-write*") + body + ")\n",
      [Form([Word("allow"), Word("file-write*")], WriteFilters(writable))]);
    assert [] + deny + [Form([Word("allow"), Word("file-write*")], WriteFilters(writable))] == WritesForms(writable);
  }

  lemma SpellsDeny(op: string, note: string, patterns: seq<string>)
    requires IsWord(op) && '\n' !in note && patterns != []
    ensures Spells(Note(note) + (Opening("deny", op) + Lines(RegexLine, patterns) + ")\n"), DenyForms(op, patterns))
  {
    assert IsWord("deny");
    forall i | 0 <= i < |patterns|
      ensures Reads(RegexLine(patterns[i]), [Open] + RegexFilter(patterns[i]) + [Close])
    {
      ReadsRegexLine(patterns[i]);
    }
    ReadsLines(RegexLine, RegexFilter, patterns);
    SpellsFiltered("deny", op, Lines(RegexLine, patterns), Each(RegexFilter, patterns));
    var deny := Opening("deny", op) + Lines(RegexLine, patterns) + ")\n";
    SpellsNote(note);
    SpellsJoin(Note(note), [], deny, DenyForms(op, patterns));
    assert [] + DenyForms(op, patterns) == DenyForms(op, patterns);
  }

  lemma SpellsNothing()
    ensures Spells("", []) && Spells("\n", [])
  {
    ReadsMark('\n');
    forall before ensures ReadAll(Reader(before, Between), "") == Reader(before + [], Between) {}
  }

  lemma SpellsWriteDeny(patterns: seq<string>)
    ensures Spells(WriteDenyText(patterns), DenyForms("file-write*", patterns))
  {
    if patterns == [] {
      SpellsNothing();
    } else {
      WriteDenyNote();
      assert IsWord("file-write*");
      SpellsDeny("file-write*", WRITE_DENY_NOTE, patterns);
      assert WriteDenyText(patterns)
        == Note(WRITE_DENY_NOTE) + (Opening("deny", "file-write*") + Lines(RegexLine, patterns) + ")\n");
    }
  }

  lemma SpellsReadDeny(patterns: seq<string>)
    ensures Spells(ReadDenyText(patterns), DenyForms("file-read*", patterns))
  {
    SpellsNothing();
    if patterns != [] {
      ReadDenyNote();
      assert IsWord("file-read*");
      SpellsDeny("file-read*", READ_DENY_NOTE, patterns);
      ThenBlankLine(Note(READ_DENY_NOTE) + (Opening("deny", "file-read*") + Lines(RegexLine, patterns) + ")\n"),
        DenyForms("file-read*", patterns));
    }
  }

  lemma ThenBlankLine(text: string, forms: seq<Form>)
    requires Spells(text, forms)
    ensures Spells(text + "\n", forms)
  {
    SpellsNothing();
    SpellsJoin(text, forms, "\n", []);
    assert forms + [] == forms;
  }

  lemma ReadsRemote()
    ensures Reads(Remote(), [Open, Word("allow"), Word("network-outbound"), Open])
  {
    assert IsWord("allow") && IsWord("network-outbound");
    ReadsHead("allow", "network-outbound", ' ');
    ReadsMark('(');
    var head := "(" + "allow" + " " + "network-outbound" + " ";
    var opening := [Open, Word("allow"), Word("network-outbound")];
    ReadsJoin(head, opening + [], "(", [Open]);
    assert opening + [] + [Open] == [Open, Word("allow"), Word("network-outbound"), Open];
  }

  function RemoteForm(filter: seq<Token>): Form {
    Form([Word("allow"), Word("network-outbound")], [filter])
  }

  lemma RemoteTokens(filter: seq<Token>)
    ensures AllTokens([RemoteForm(filter)])
         == [Open, Word("allow"), Word("network-outbound"), Open] + (filter + [Close]) + [Close]
  {
    var form := RemoteForm(filter);
    assert FilterTokens([filter]) == [Open] + filter + [Close] by { assert [filter][1..] == []; }
    assert AllTokens([form]) == FormTokens(form) by { assert [form][1..] == []; }
  }

  /** `(allow network-outbound (remote ...))`, the filter with its closing bracket given. */
  lemma SpellsRemote(body: string, filter: seq<Token>)
    requires Reads(body, filter + [Close])
    ensures Spells(Remote() + body + ")\n", [RemoteForm(filter)])
  {
    var opening := [Open, Word("allow"), Word("network-outbound"), Open];
    ReadsRemote();
    ReadsEnd();
    ReadsJoin(Remote(), opening, body, filter + [Close]);
    ReadsJoin(Remote() + body, opening + (filter + [Close]), ")\n", [Close]);
    RemoteTokens(filter);
  }

  lemma SpellsHost(host: string)
    ensures Spells(HostClause(host), [HostForm(host)])
  {
    var quoted := "\"" + EscapeQuoted(host) + "\"";
    ReadsQuoted(host);
    assert IsWord("remote") && IsWord("ip");
    ReadsWord("remote", ' ');
    ReadsWord("ip", ' ');
    ReadsJoin("remote" + " ", [Word("remote")], "ip" + " ", [Word("ip")]);
    ReadsJoin("remote" + " " + ("ip" + " "), [Word("remote")] + [Word("ip")], quoted, [Quoted(host)]);
    ReadsMark(')');
    var body := "remote" + " " + ("ip" + " ") + quoted;
    var filter := [Word("remote"), Word("ip"), Quoted(host)];
    assert [Word("remote")] + [Word("ip")] + [Quoted(host)] == filter;
    ReadsJoin(body, filter, ")", [Close]);
    SpellsRemote(body + ")", filter);
  }

  lemma {:induction false} SpellsHosts(hosts: seq<string>)
    ensures Spells(Lines(HostClause, hosts), Each(HostForm, hosts))
    decreases |hosts|
  {
    if hosts == [] {
      SpellsNothing();
    } else {
      SpellsHost(hosts[0]);
      SpellsHosts(hosts[1..]);
      SpellsJoin(HostClause(hosts[0]), [HostForm(hosts[0])], Lines(HostClause, hosts[1..]), Each(HostForm, hosts[1..]));
      assert Each(HostForm, hosts) == [HostForm(hosts[0])] + Each(HostForm, hosts[1..]);
    }
  }

  lemma SpellsUnix()
    ensures Spells((Remote() + ("remote" + " " + ("unix" + ")")) + ")\n"), [RemoteForm([Word("remote"), Word("unix")])])
  {
    assert IsWord("remote") && IsWord("unix");
    ReadsWord("remote", ' ');
    ReadsWord("unix", ')');
    var filter := [Word("remote"), Word("unix")];
    ReadsJoin("remote" + " ", [Word("remote")], "unix" + ")", [Word("unix"), Close]);
    assert [Word("remote")] + [Word("unix"), Close] == filter + [Close];
    SpellsRemote("remote" + " " + ("unix" + ")"), filter);
  }

  lemma SpellsEgress(policy: Policy)
    ensures Spells(EgressText(policy), EgressForms(policy))
  {
    if policy.allowNetwork {
      SpellsNothing();
    } else {
      var note := Note(EGRESS_NOTE);
      EgressNote();
      SpellsNote(EGRESS_NOTE);
      assert IsWord("deny") && IsWord("network-outbound");
      SpellsClause("deny", "network-outbound");
      var deny := Clause("deny", "network-outbound");
      var first := [Form([Word("deny"), Word("network-outbound")], [])];
      var second := [RemoteForm([Word("remote"), Word("unix")])];
      SpellsJoin(note, [], deny, first);
      SpellsUnix();
      SpellsJoin(note + deny, [] + first, (Remote() + ("remote" + " " + ("unix" + ")")) + ")\n"), second);
      SpellsHosts(policy.allowlist);
      SpellsJoin(note + deny + (Remote() + ("remote" + " " + ("unix" + ")")) + ")\n"), [] + first + second,
        Lines(HostClause, policy.allowlist), Each(HostForm, policy.allowlist));
      assert [] + first + second + Each(HostForm, policy.allowlist) == EgressForms(policy);
    }
  }

  /** Whatever the patterns, paths and hosts hold, the profile reads back as exactly the
      intended forms: no text leaves its own literal. */
  lemma ProfileReadsBack(patterns: seq<string>, policy: Policy)
    ensures ReadProfile(ProfileText(patterns, policy)) == Some(ProfileForms(patterns, policy))
  {
    SpellsHeader();
    SpellsWrites(policy.writable);
    SpellsWriteDeny(patterns);
    SpellsNothing();
    SpellsReadDeny(patterns);
    SpellsEgress(policy);
    var a, b, c := HeaderText(), WritesText(policy.writable), WriteDenyText(patterns);
    var f, g, h := HeaderForms(), WritesForms(policy.writable), DenyForms("file-write*", patterns);
    SpellsJoin(a, f, b, g);
    SpellsJoin(a + b, f + g, c, h);
    SpellsJoin(a + b + c, f + g + h, "\n", []);
    assert f + g + h + [] == f + g + h;
    SpellsJoin(a + b + c + "\n", f + g + h, ReadDenyText(patterns), DenyForms("file-read*", patterns));
    SpellsJoin(a + b + c + "\n" + ReadDenyText(patterns), f + g + h + DenyForms("file-read*", patterns),
      EgressText(policy), EgressForms(policy));
    var forms := ProfileForms(patterns, policy);
    assert Spells(ProfileText(patterns, policy), forms);
    assert [] + AllTokens(forms) == AllTokens(forms);
    assert ReadAll(Reader([], Between), ProfileText(patterns, policy)) == Reader(AllTokens(forms), Between);
    FormsWellFormed(patterns, policy);
    ReadFormsBack(forms);
  }

  lemma FormsWellFormed(patterns: seq<string>, policy: Policy)
    ensures forall i :: 0 <= i < |ProfileForms(patterns, policy)| ==> WellFormed(ProfileForms(patterns, policy)[i])
  {
    forall f | f in EgressForms(policy) ensures WellFormed(f) {}
    forall f | f in DenyForms("file-write*", patterns) + DenyForms("file-read*", patterns) ensures WellFormed(f) {}
    forall f | f in HeaderForms() + WritesForms(policy.writable) ensures WellFormed(f) {}
    forall i | 0 <= i < |ProfileForms(patterns, policy)| ensures WellFormed(ProfileForms(patterns, policy)[i]) {
      assert ProfileForms(patterns, policy)[i] in ProfileForms(patterns, policy);
    }
  }
}
