/** The tab-completion finder: a greedy subsequence match with a rank score, and the ranking. */
module Completion {
  import opened Text
  import opened StableSort

  datatype FuzzyMatch = FuzzyMatch(hits: seq<bool>, score: int)

  /** An ordered choice of candidate positions for the first query chars, letter case
      aside. */
  ghost predicate Picks(query: string, cand: string, at: seq<nat>) {
    && |at| <= |query|
    && (forall k :: 0 <= k < |at| ==> at[k] < |cand| && Lower(cand[at[k]]) == Lower(query[k]))
    && (forall j, k :: 0 <= j < k < |at| ==> at[j] < at[k])
  }

  /** A choice for the whole query. */
  ghost predicate Embeds(query: string, cand: string, at: seq<nat>) {
    Picks(query, cand, at) && |at| == |query|
  }

  /** The documented score of a choice: where it starts, plus how loose it is. */
  function ScoreOf(at: seq<nat>): int
    requires at != []
  {
    at[0] + ((at[|at| - 1] - at[0] + 1) - |at|)
  }

  /** Position by position no choice is ahead of this one, and none that goes further does
      so within the first `n` chars. */
  ghost predicate Ahead(query: string, cand: string, n: nat, at: seq<nat>, other: seq<nat>) {
    && (forall j :: 0 <= j < |other| && j < |at| ==> at[j] <= other[j])
    && (|other| > |at| ==> other[|at|] >= n)
  }

  ghost predicate AheadOfAll(query: string, cand: string, n: nat, at: seq<nat>) {
    forall other :: Picks(query, cand, other) ==> Ahead(query, cand, n, at, other)
  }

  lemma AheadStep(query: string, cand: string, n: nat, at: seq<nat>, other: seq<nat>)
    requires n < |cand| && |at| < |query|
    requires Picks(query, cand, other) && Ahead(query, cand, n, at, other)
    ensures Ahead(query, cand, n + 1, Step(query, cand, n, at), other)
  {}

  function Step(query: string, cand: string, n: nat, at: seq<nat>): seq<nat>
    requires n < |cand| && |at| < |query|
  {
    if Lower(cand[n]) == Lower(query[|at|]) then at + [n] else at
  }

  lemma PicksStep(query: string, cand: string, n: nat, at: seq<nat>)
    requires n < |cand| && |at| < |query|
    requires Picks(query, cand, at) && forall k :: 0 <= k < |at| ==> at[k] < n
    ensures var at' := Step(query, cand, n, at);
      Picks(query, cand, at') && forall k :: 0 <= k < |at'| ==> at'[k] < n + 1
  {}

  lemma AheadOfAllStep(query: string, cand: string, n: nat, at: seq<nat>)
    requires n < |cand| && |at| < |query| && AheadOfAll(query, cand, n, at)
    ensures AheadOfAll(query, cand, n + 1, Step(query, cand, n, at))
  {
    var at' := Step(query, cand, n, at);
    forall other | Picks(query, cand, other) ensures Ahead(query, cand, n + 1, at', other) {
      AheadStep(query, cand, n, at, other);
    }
  }

  /** The greedy choice: each query char at the first place it can go. */
  function Picked(query: string, cand: string, n: nat, at: seq<nat>): seq<nat>
    requires n <= |cand|
    decreases |cand| - n
  {
    if n == |cand| || |at| >= |query| then at else Picked(query, cand, n + 1, Step(query, cand, n, at))
  }

  lemma {:induction false} PickedIsGreedy(query: string, cand: string, n: nat, at: seq<nat>)
    requires n <= |cand| && Picks(query, cand, at) && AheadOfAll(query, cand, n, at)
    requires forall k :: 0 <= k < |at| ==> at[k] < n
    ensures var r := Picked(query, cand, n, at);
      && Picks(query, cand, r)
      && exists m :: n <= m <= |cand| && AheadOfAll(query, cand, m, r) && (|r| < |query| ==> m == |cand|)
    decreases |cand| - n
  {
    if n < |cand| && |at| < |query| {
      PicksStep(query, cand, n, at);
      AheadOfAllStep(query, cand, n, at);
      PickedIsGreedy(query, cand, n + 1, Step(query, cand, n, at));
    }
  }

  function Flagged(cand: string, at: seq<nat>): (r: seq<bool>)
    ensures |r| == |cand| && forall i: nat :: i < |r| ==> (r[i] <==> i in at)
  {
    seq(|cand|, i requires 0 <= i < |cand| => (i as nat) in at)
  }

  function Matched(query: string, cand: string): Option<FuzzyMatch> {
    if query == "" then Some(FuzzyMatch(Flagged(cand, []), 0))
    else
      var at := Picked(query, cand, 0, []);
      if |at| < |query| then None else Some(FuzzyMatch(Flagged(cand, at), ScoreOf(at)))
  }

  /** A match exactly when the query is a subsequence of the candidate, letter case aside;
      its flags are those of a choice that spells the query; its score is where that choice
      ends less the query's length; and no other choice scores lower. */
  lemma MatchMeaning(query: string, cand: string)
    ensures Matched(query, cand).Some? <==> exists at :: Embeds(query, cand, at)
    ensures Matched(query, cand).Some? && query != "" ==>
      exists at :: Embeds(query, cand, at)
        && Matched(query, cand).value == FuzzyMatch(Flagged(cand, at), at[|at| - 1] + 1 - |query|)
    ensures Matched(query, cand).Some? && query != "" ==>
      forall other :: Embeds(query, cand, other) ==> Matched(query, cand).value.score <= ScoreOf(other)
  {
    var at := Picked(query, cand, 0, []);
    PickedIsGreedy(query, cand, 0, []);
    if query == "" {
      assert Embeds(query, cand, []);
    } else if |at| < |query| {
      forall other | Picks(query, cand, other) ensures |other| != |query| {
        assert Ahead(query, cand, |cand|, at, other);
      }
    } else {
      assert Embeds(query, cand, at);
      forall other | Embeds(query, cand, other) ensures ScoreOf(at) <= ScoreOf(other) {
        var m :| 0 <= m <= |cand| && AheadOfAll(query, cand, m, at);
        assert Ahead(query, cand, m, at, other);
      }
    }
  }

  /** Walk the candidate once and take each char that is the next one of the query. */
  method Match(query: string, cand: string) returns (r: Option<FuzzyMatch>)
    ensures r == Matched(query, cand)
  {
    var hits := Flagged(cand, []);
    if query == "" {
      return Some(FuzzyMatch(hits, 0));
    }
    var qi, i: nat := 0, 0;
    var first: Option<nat> := None;
    var last: nat := 0;
    ghost var at: seq<nat> := [];
    while i < |cand|
      invariant i <= |cand| && qi == |at| <= |query|
      invariant hits == Flagged(cand, at)
      invariant Picked(query, cand, i, at) == Picked(query, cand, 0, [])
      invariant forall k :: 0 <= k < |at| ==> at[0] <= at[k] < i
      invariant first == if at == [] then None else Some(at[0])
      invariant at != [] ==> last == at[|at| - 1]
    {
      if qi >= |query| {
        break;
      }
      if Lower(cand[i]) == Lower(query[qi]) {
        hits := hits[i := true];
        if first.None? { first := Some(i); }
        last := i;
        qi := qi + 1;
        at := at + [i];
      }
      i := i + 1;
    }
    if qi < |query| {
      return None;
    }
    var start := first.GetOr(0);
    var span := last - start + 1;
    r := Some(FuzzyMatch(hits, start + (span - |query|)));
  }

  // --- ranking ---

  datatype Candidate = Candidate(text: string, desc: string)

  datatype Item = Item(text: string, desc: string, hits: seq<bool>, score: int)

  /** The matching candidates, in order. */
  function Matching(query: string, cs: seq<Candidate>): seq<Item> {
    if cs == [] then []
    else
      var m := Matched(query, cs[0].text);
      (if m.Some? then [Item(cs[0].text, cs[0].desc, m.value.hits, m.value.score)] else []) + Matching(query, cs[1..])
  }

  /** A candidate is listed exactly when it matches, with its own text and description. */
  lemma MatchingOne(query: string, c: Candidate)
    ensures var items := Matching(query, [c]);
      if exists at :: Embeds(query, c.text, at) then
        && |items| == 1 && items[0].text == c.text && items[0].desc == c.desc
        && Matched(query, c.text) == Some(FuzzyMatch(items[0].hits, items[0].score))
      else items == []
  {
    MatchMeaning(query, c.text);
    assert [c][1..] == [];
  }

  /** And the candidates are taken one by one, in order. */
  lemma {:induction false} MatchingJoin(query: string, a: seq<Candidate>, b: seq<Candidate>)
    ensures Matching(query, a + b) == Matching(query, a) + Matching(query, b)
  {
    if a == [] {
      assert a + b == b;
    } else {
      assert (a + b)[1..] == a[1..] + b;
      MatchingJoin(query, a[1..], b);
      var m := Matched(query, a[0].text);
      Associate(if m.Some? then [Item(a[0].text, a[0].desc, m.value.hits, m.value.score)] else [],
        Matching(query, a[1..]), Matching(query, b));
    }
  }

  function ItemScore(i: Item): real { i.score as real }

  function Ranked(query: string, cs: seq<Candidate>, limit: nat): seq<Item> {
    var sorted := Sort(ItemScore, Matching(query, cs));
    if limit < |sorted| then sorted[..limit] else sorted
  }

  method Rank(query: string, cs: seq<Candidate>, limit: nat) returns (out: seq<Item>)
    ensures out == Ranked(query, cs, limit)
  {
    out := [];
    for i := 0 to |cs|
      invariant out + Matching(query, cs[i..]) == Matching(query, cs)
    {
      assert cs[i..][1..] == cs[i + 1..];
      var m := Match(query, cs[i].text);
      if m.Some? {
        out := out + [Item(cs[i].text, cs[i].desc, m.value.hits, m.value.score)];
      }
    }
    assert out == Matching(query, cs) by {
      assert cs[|cs|..] == [];
      assert out + [] == out;
    }
    out := Sort(ItemScore, out);
    if limit < |out| {
      out := out[..limit];
    }
  }

  /** `shown` followed by `rest` is every match, best first, equal scores in the order of
      the candidates. */
  ghost predicate BestFirst(all: seq<Item>, shown: seq<Item>, rest: seq<Item>) {
    && multiset(shown + rest) == multiset(all)
    && (forall i, j :: 0 <= i < j < |shown + rest| ==> (shown + rest)[i].score <= (shown + rest)[j].score)
    && (forall k :: WithKey(ItemScore, k, shown + rest) == WithKey(ItemScore, k, all))
  }

  lemma SortedIsBestFirst(all: seq<Item>, n: nat)
    requires n <= |Sort(ItemScore, all)|
    ensures BestFirst(all, Sort(ItemScore, all)[..n], Sort(ItemScore, all)[n..])
  {
    SortMeaning(ItemScore, all);
    var sorted := Sort(ItemScore, all);
    assert sorted[..n] + sorted[n..] == sorted;
    forall i, j | 0 <= i < j < |sorted| ensures sorted[i].score <= sorted[j].score {
      assert ItemScore(sorted[i]) <= ItemScore(sorted[j]);
    }
  }

  lemma SortedLength(all: seq<Item>)
    ensures |Sort(ItemScore, all)| == |all|
  {
    SortMeaning(ItemScore, all);
  }

  /** The rows shown are as many as fit, and they are the front of the stable best-first
      order of every candidate that matches. */
  lemma RankMeaning(query: string, cs: seq<Candidate>, limit: nat)
    ensures var all, shown := Matching(query, cs), Ranked(query, cs, limit);
      && |shown| == (if limit < |all| then limit else |all|)
      && exists rest :: BestFirst(all, shown, rest)
  {
    var all := Matching(query, cs);
    SortedLength(all);
    var sorted := Sort(ItemScore, all);
    var n := if limit < |sorted| then limit else |sorted|;
    SortedIsBestFirst(all, n);
    assert Ranked(query, cs, limit) == sorted[..n];
  }

  // --- the popover ---

  class Popover {
    var open: bool
    var items: seq<Item>
    var index: nat

    /** Open exactly when there is something to show, with the active row among it. */
    ghost predicate Valid()
      reads this
    {
      (open <==> items != []) && (if items == [] then index == 0 else index < |items|)
    }

    constructor ()
      ensures Valid() && !open
    {
      open, items, index := false, [], 0;
    }

    method OpenWith(ranked: seq<Item>)
      modifies this
      ensures Valid() && items == ranked && index == 0
    {
      items := ranked;
      index := 0;
      open := items != [];
    }

    method Refresh(ranked: seq<Item>)
      requires Valid()
      modifies this
      ensures Valid()
      ensures items == if old(open) then ranked else []
      ensures items != [] ==> index == if old(index) < |items| then old(index) else |items| - 1
    {
      if !open {
        return;
      }
      items := ranked;
      if items == [] {
        Close();
      } else {
        index := if index < |items| - 1 then index else |items| - 1;
      }
    }

    method Close()
      modifies this
      ensures Valid() && !open
    {
      open := false;
      items := [];
      index := 0;
    }

    method MoveUp()
      requires Valid()
      modifies this`index
      ensures Valid() && index == if old(index) == 0 then 0 else old(index) - 1
    {
      if index > 0 { index := index - 1; }
    }

    method MoveDown()
      requires Valid()
      modifies this`index
      ensures Valid() && index == if old(index) + 1 < |items| then old(index) + 1 else old(index)
    {
      if items != [] {
        index := if index + 1 < |items| - 1 then index + 1 else |items| - 1;
      }
    }

    method SetIndex(i: nat)
      requires Valid()
      modifies this`index
      ensures Valid() && (items != [] ==> index == if i < |items| then i else |items| - 1)
    {
      if items != [] {
        index := if i < |items| - 1 then i else |items| - 1;
      }
    }
  }
}
