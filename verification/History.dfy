/** The shared history ring, its lenses, the ghost suggestion and the recall cursor. */
module History {
  import opened Text
  import opened Highlighting

  datatype Entry = Entry(text: string, mode: InputMode, at: int)

  datatype Scope = ForMode(mode: InputMode) | All {
    predicate Matches(m: InputMode) { All? || mode == m }
  }

  // --- what the ring holds ---

  function Last<T>(xs: seq<T>, n: nat): seq<T> {
    if |xs| <= n then xs else xs[|xs| - n..]
  }

  function NonBlank(log: seq<Entry>): seq<Entry> {
    if log == [] then []
    else NonBlank(log[..|log| - 1]) + if IsBlank(log[|log| - 1].text) then [] else [log[|log| - 1]]
  }

  /** The lens: what the scope lets through, newest first. */
  function Scoped(entries: seq<Entry>, scope: Scope): seq<Entry> {
    if entries == [] then []
    else
      var e := entries[|entries| - 1];
      (if scope.Matches(e.mode) then [e] else []) + Scoped(entries[..|entries| - 1], scope)
  }

  class HistoryRing {
    var entries: seq<Entry>
    const cap: nat

    /** Every submission so far. */
    ghost var log: seq<Entry>

    /** The ring is the last `cap` submissions that were not blank. */
    ghost predicate Valid()
      reads this
    {
      cap >= 1 && entries == Last(NonBlank(log), cap)
    }

    constructor (capacity: nat)
      ensures Valid() && log == [] && cap == if capacity < 1 then 1 else capacity
    {
      entries, log := [], [];
      cap := if capacity < 1 then 1 else capacity;
    }

    method Push(e: Entry)
      requires Valid()
      modifies this
      ensures Valid() && log == old(log) + [e]
    {
      log := log + [e];
      assert log[..|log| - 1] == old(log);
      if Trim(e.text) == "" {
        return;
      }
      if |entries| == cap {
        entries := entries[1..];
      }
      entries := entries + [e];
    }
  }

  lemma {:induction false} ScopedJoin(a: seq<Entry>, b: seq<Entry>, scope: Scope)
    ensures Scoped(a + b, scope) == Scoped(b, scope) + Scoped(a, scope)
    decreases |b|
  {
    if b == [] {
      assert a + b == a;
    } else {
      assert (a + b)[..|a + b| - 1] == a + b[..|b| - 1];
      ScopedJoin(a, b[..|b| - 1], scope);
    }
  }

  /** Forgetting the oldest submissions only shortens a lens at its far end: what is left is
      what an unbounded history would show first. */
  lemma LensOfRing(log: seq<Entry>, cap: nat, scope: Scope)
    ensures Scoped(Last(NonBlank(log), cap), scope) <= Scoped(NonBlank(log), scope)
  {
    var xs := NonBlank(log);
    if |xs| > cap {
      assert xs == xs[..|xs| - cap] + xs[|xs| - cap..];
      ScopedJoin(xs[..|xs| - cap], xs[|xs| - cap..], scope);
    }
  }

  ghost predicate Shifted(lens: seq<Entry>, after: seq<Entry>, scope: Scope, e: Entry, kept: nat) {
    |lens| - 1 <= kept <= |lens| && after == (if scope.Matches(e.mode) then [e] else []) + lens[..kept]
  }

  /** What a full ring gives up to make room. */
  function Room(held: seq<Entry>, cap: nat): seq<Entry> {
    if |held| == cap && held != [] then held[1..] else held
  }

  lemma NonBlankPush(log: seq<Entry>, e: Entry)
    requires !IsBlank(e.text)
    ensures NonBlank(log + [e]) == NonBlank(log) + [e]
  {
    assert (log + [e])[..|log|] == log;
  }

  lemma LastPush(xs: seq<Entry>, cap: nat, e: Entry)
    requires cap >= 1
    ensures Last(xs + [e], cap) == Room(Last(xs, cap), cap) + [e]
  {}

  lemma RingAfter(log: seq<Entry>, cap: nat, e: Entry)
    requires cap >= 1 && !IsBlank(e.text)
    ensures Last(NonBlank(log + [e]), cap) == Room(Last(NonBlank(log), cap), cap) + [e]
  {
    NonBlankPush(log, e);
    LastPush(NonBlank(log), cap, e);
  }

  lemma LensAfter(held: seq<Entry>, cap: nat, scope: Scope, e: Entry)
    ensures exists kept: nat :: Shifted(Scoped(held, scope), Scoped(Room(held, cap) + [e], scope), scope, e, kept)
  {
    var stay, lens := Room(held, cap), Scoped(held, scope);
    ScopedJoin(stay, [e], scope);
    assert Scoped([e], scope) == if scope.Matches(e.mode) then [e] else [];
    var kept: nat := |Scoped(stay, scope)|;
    if stay != held {
      var first := held[..1];
      assert held == first + stay;
      ScopedJoin(first, stay, scope);
      assert first[..0] == [];
    }
    assert Scoped(stay, scope) == lens[..kept];
    assert Shifted(lens, Scoped(stay + [e], scope), scope, e, kept);
  }

  /** A submission in view moves every entry of the lens one place back, and can only drop the
      last: an open recall then stands on a newer entry than it did. */
  lemma PushShifts(log: seq<Entry>, cap: nat, scope: Scope, e: Entry)
    requires cap >= 1 && !IsBlank(e.text)
    ensures exists kept: nat ::
      Shifted(Scoped(Last(NonBlank(log), cap), scope), Scoped(Last(NonBlank(log + [e]), cap), scope), scope, e, kept)
  {
    RingAfter(log, cap, e);
    LensAfter(Last(NonBlank(log), cap), cap, scope, e);
  }

  /** A lens holds just the entries its scope lets through, each as often as the ring does. */
  lemma {:induction false} LensHolds(entries: seq<Entry>, scope: Scope, e: Entry)
    ensures multiset(Scoped(entries, scope))[e] == if scope.Matches(e.mode) then multiset(entries)[e] else 0
  {
    if entries != [] {
      var front, last := entries[..|entries| - 1], entries[|entries| - 1];
      LensHolds(front, scope, e);
      assert entries == front + [last];
    }
  }

  // --- suggestions ---

  function FirstExtending(lens: seq<Entry>, prefix: string): Option<Entry> {
    if lens == [] then None
    else if ByteLen(lens[0].text) > ByteLen(prefix) && StartsWith(lens[0].text, prefix) then Some(lens[0])
    else FirstExtending(lens[1..], prefix)
  }

  function Suggested(entries: seq<Entry>, scope: Scope, prefix: string): Option<Entry> {
    if prefix == "" then None else FirstExtending(Scoped(entries, scope), prefix)
  }

  predicate Extends(e: Entry, prefix: string) {
    prefix < e.text
  }

  lemma ExtendsByBytes(t: string, prefix: string)
    ensures prefix < t <==> ByteLen(t) > ByteLen(prefix) && StartsWith(t, prefix)
  {
    if prefix <= t {
      ByteLenGrows(t, |prefix|);
      assert t[..|prefix|] == prefix;
    }
  }

  /** The entry at `i` goes on from the prefix and no newer one does. */
  ghost predicate NewestExtending(lens: seq<Entry>, prefix: string, i: nat) {
    i < |lens| && Extends(lens[i], prefix) && forall j :: 0 <= j < i ==> !Extends(lens[j], prefix)
  }

  ghost predicate NoneExtends(lens: seq<Entry>, prefix: string) {
    forall i :: 0 <= i < |lens| ==> !Extends(lens[i], prefix)
  }

  lemma {:induction false} FirstIsNewest(lens: seq<Entry>, prefix: string)
    ensures FirstExtending(lens, prefix).None? ==> NoneExtends(lens, prefix)
    ensures FirstExtending(lens, prefix).Some? ==>
      exists i: nat :: NewestExtending(lens, prefix, i) && lens[i] == FirstExtending(lens, prefix).value
  {
    if lens != [] {
      ExtendsByBytes(lens[0].text, prefix);
      if Extends(lens[0], prefix) {
        assert NewestExtending(lens, prefix, 0);
      } else {
        FirstIsNewest(lens[1..], prefix);
        assert forall j :: 1 <= j < |lens| ==> lens[j] == lens[1..][j - 1];
        if FirstExtending(lens, prefix).Some? {
          var i: nat :| NewestExtending(lens[1..], prefix, i) && lens[1..][i] == FirstExtending(lens, prefix).value;
          assert NewestExtending(lens, prefix, i + 1);
        }
      }
    }
  }

  /** A suggestion is made exactly when there is something typed that a shell entry in view
      goes on from, and it is the newest such entry: it always has a tail to show. */
  method GhostFor(text: string, mode: InputMode, ring: HistoryRing, scope: Scope) returns (shown: Option<string>)
    ensures shown.Some? <==> mode == Shell && text != "" && !NoneExtends(Scoped(ring.entries, scope), text)
    ensures shown.Some? ==> exists i: nat ::
      NewestExtending(Scoped(ring.entries, scope), text, i) && Scoped(ring.entries, scope)[i].text == shown.value
  {
    if mode != Shell {
      return None;
    }
    FirstIsNewest(Scoped(ring.entries, scope), text);
    var entry := Suggested(ring.entries, scope, text);
    match entry
    case None => return None;
    case Some(e) => return Some(e.text);
  }

  // --- recall ---

  class Recall {
    const scope: Scope
    var cursor: Option<nat>

    constructor (scope: Scope)
      ensures this.scope == scope && cursor == None
    {
      this.scope := scope;
      cursor := None;
    }

    method Reset()
      modifies this
      ensures cursor == None
    {
      cursor := None;
    }

    method Older(ring: HistoryRing) returns (text: Option<string>)
      modifies this
      ensures (cursor, text) == OlderOf(Scoped(ring.entries, scope), old(cursor))
    {
      var next := if cursor.Some? then cursor.value + 1 else 0;
      var lens := Scoped(ring.entries, scope);
      if next >= |lens| {
        return None;
      }
      cursor := Some(next);
      text := Some(lens[next].text);
    }

    method Newer(ring: HistoryRing) returns (text: Option<string>)
      modifies this
      ensures (cursor, text) == NewerOf(Scoped(ring.entries, scope), old(cursor))
    {
      match cursor
      case None => text := None;
      case Some(n) =>
        if n == 0 {
          cursor := None;
          text := None;
        } else {
          var prev := n - 1;
          var lens := Scoped(ring.entries, scope);
          text := if prev < |lens| then Some(lens[prev].text) else None;
          cursor := Some(prev);
        }
    }
  }

  function OlderOf(lens: seq<Entry>, cursor: Option<nat>): (Option<nat>, Option<string>) {
    var next := if cursor.Some? then cursor.value + 1 else 0;
    if next < |lens| then (Some(next), Some(lens[next].text)) else (cursor, None)
  }

  function NewerOf(lens: seq<Entry>, cursor: Option<nat>): (Option<nat>, Option<string>) {
    match cursor
    case None => (None, None)
    case Some(n) =>
      if n == 0 then (None, None)
      else (Some(n - 1), if n - 1 < |lens| then Some(lens[n - 1].text) else None)
  }

  datatype Key = Up | Down

  function Pressed(lens: seq<Entry>, cursor: Option<nat>, k: Key): (Option<nat>, Option<string>) {
    if k == Up then OlderOf(lens, cursor) else NewerOf(lens, cursor)
  }

  function Walk(lens: seq<Entry>, cursor: Option<nat>, keys: seq<Key>): Option<nat>
    decreases |keys|
  {
    if keys == [] then cursor else Walk(lens, Pressed(lens, cursor, keys[0]).0, keys[1..])
  }

  /** How far the cursor is from the draft. */
  function Depth(cursor: Option<nat>): nat {
    if cursor.None? then 0 else cursor.value + 1
  }

  function Min(a: int, b: int): int { if a < b then a else b }

  function Max(a: int, b: int): int { if a < b then b else a }

  function Times(k: Key, n: nat): (r: seq<Key>)
    ensures |r| == n && forall i :: 0 <= i < n ==> r[i] == k
  {
    seq(n, i => k)
  }

  /** One key moves one entry, stopping at the oldest and at the draft, and shows the entry
      arrived at; at either end it shows nothing. The cursor stays on an entry of the lens. */
  lemma OneKey(lens: seq<Entry>, cursor: Option<nat>, k: Key)
    requires Depth(cursor) <= |lens|
    ensures var (c, shown) := Pressed(lens, cursor, k);
      && Depth(c) == (if k == Up then Min(Depth(cursor) + 1, |lens|) else Max(Depth(cursor) - 1, 0))
      && (shown.Some? <==> Depth(c) != Depth(cursor) && Depth(c) > 0)
      && (shown.Some? ==> shown.value == lens[Depth(c) - 1].text)
  {}

  lemma {:induction false} Ups(lens: seq<Entry>, cursor: Option<nat>, n: nat)
    requires Depth(cursor) <= |lens|
    ensures Depth(Walk(lens, cursor, Times(Up, n))) == Min(Depth(cursor) + n, |lens|)
    decreases n
  {
    if n > 0 {
      assert Times(Up, n)[1..] == Times(Up, n - 1);
      OneKey(lens, cursor, Up);
      Ups(lens, Pressed(lens, cursor, Up).0, n - 1);
    }
  }

  lemma {:induction false} Downs(lens: seq<Entry>, cursor: Option<nat>, n: nat)
    requires Depth(cursor) <= |lens|
    ensures Depth(Walk(lens, cursor, Times(Down, n))) == Max(Depth(cursor) - n, 0)
    decreases n
  {
    if n > 0 {
      assert Times(Down, n)[1..] == Times(Down, n - 1);
      OneKey(lens, cursor, Down);
      Downs(lens, Pressed(lens, cursor, Down).0, n - 1);
    }
  }

  /** From the draft, the j-th step back shows the j-th newest entry in view, while there is
      one. */
  lemma NthNewest(lens: seq<Entry>, j: nat)
    requires j > 0
    ensures Pressed(lens, Walk(lens, None, Times(Up, j - 1)), Up).1
      == if j <= |lens| then Some(lens[j - 1].text) else None
  {
    Ups(lens, None, j - 1);
    OneKey(lens, Walk(lens, None, Times(Up, j - 1)), Up);
  }

  lemma SameDepth(a: Option<nat>, b: Option<nat>)
    ensures a == b <==> Depth(a) == Depth(b)
  {}

  /** Down undoes Up exactly when no step back was swallowed at the oldest entry, or the walk
      began at the draft. */
  lemma UpsThenDowns(lens: seq<Entry>, cursor: Option<nat>, n: nat)
    requires Depth(cursor) <= |lens|
    ensures Walk(lens, Walk(lens, cursor, Times(Up, n)), Times(Down, n)) == cursor
      <==> Depth(cursor) + n <= |lens| || cursor == None
  {
    Ups(lens, cursor, n);
    Downs(lens, Walk(lens, cursor, Times(Up, n)), n);
    SameDepth(Walk(lens, Walk(lens, cursor, Times(Up, n)), Times(Down, n)), cursor);
  }

  /** Up undoes Down exactly when no step was swallowed at the draft, or the walk began at the
      oldest entry. */
  lemma DownsThenUps(lens: seq<Entry>, cursor: Option<nat>, n: nat)
    requires Depth(cursor) <= |lens|
    ensures Walk(lens, Walk(lens, cursor, Times(Down, n)), Times(Up, n)) == cursor
      <==> n <= Depth(cursor) || Depth(cursor) == |lens|
  {
    Downs(lens, cursor, n);
    Ups(lens, Walk(lens, cursor, Times(Down, n)), n);
    SameDepth(Walk(lens, Walk(lens, cursor, Times(Down, n)), Times(Up, n)), cursor);
  }

  /** Over any keys, while the ring is unchanged, the cursor stays on an entry of the lens or
      on the draft. */
  lemma {:induction false} CursorStaysValid(lens: seq<Entry>, cursor: Option<nat>, keys: seq<Key>)
    requires Depth(cursor) <= |lens|
    ensures Depth(Walk(lens, cursor, keys)) <= |lens|
    decreases |keys|
  {
    if keys != [] {
      OneKey(lens, cursor, keys[0]);
      CursorStaysValid(lens, Pressed(lens, cursor, keys[0]).0, keys[1..]);
    }
  }
}
