/**
 The one source of what is sensitive: path patterns for the gate and the sandbox, and concrete
 values for redaction. A value is held once, short ones not at all, and the longest come first.
*/
module SecretStore {
  import opened Text
  import opened StableSort

  const MIN_VALUE_BYTES := 6

  /** Short values are ignored, and a value is held once. */
  function Register(values: seq<string>, v: string): seq<string> {
    if ByteLen(v) >= MIN_VALUE_BYTES && v !in values then values + [v] else values
  }

  function Registered(inputs: seq<string>): (r: seq<string>)
    ensures forall i, j :: 0 <= i < j < |r| ==> r[i] != r[j]
    ensures forall v :: v in r <==> v in inputs && ByteLen(v) >= MIN_VALUE_BYTES
  {
    if inputs == [] then []
    else
      assert inputs == inputs[..|inputs| - 1] + [inputs[|inputs| - 1]];
      Register(Registered(inputs[..|inputs| - 1]), inputs[|inputs| - 1])
  }

  /** The first place of a value. */
  predicate FirstAt(inputs: seq<string>, v: string, k: nat) {
    k < |inputs| && inputs[k] == v && v !in inputs[..k]
  }

  /** Values are held in the order in which they were first registered. */
  lemma {:induction false} RegisteredInOrder(inputs: seq<string>, i: nat, j: nat, a: nat, b: nat)
    requires i < j < |Registered(inputs)|
    requires FirstAt(inputs, Registered(inputs)[i], a) && FirstAt(inputs, Registered(inputs)[j], b)
    ensures a < b
    decreases |inputs|
  {
    var init, last := inputs[..|inputs| - 1], inputs[|inputs| - 1];
    var before := Registered(init);
    assert inputs == init + [last];
    if j < |before| {
      assert before[i] in init && before[j] in init;
      FirstInFront(init, last, before[i], a);
      FirstInFront(init, last, before[j], b);
      RegisteredInOrder(init, i, j, a, b);
    } else {
      assert before[i] in init && last !in init;
      FirstInFront(init, last, before[i], a);
    }
  }

  lemma FirstInFront(init: seq<string>, last: string, v: string, k: nat)
    requires v in init && FirstAt(init + [last], v, k)
    ensures FirstAt(init, v, k)
  {
    var all := init + [last];
    var at :| 0 <= at < |init| && init[at] == v;
    assert all[at] == v;
    forall p | 0 <= p < k ensures all[p] != v { assert all[..k][p] == all[p]; }
    assert all[..k] == init[..k];
  }

  function ByteKey(v: string): real {
    0.0 - ByteLen(v) as real
  }

  /** The values in the order redaction takes them. */
  function LongestFirst(values: seq<string>): seq<string> {
    Sort(ByteKey, values)
  }

  /** The values of one length, in order. */
  function OfLength(n: nat, values: seq<string>): seq<string> {
    if values == [] then []
    else (if ByteLen(values[0]) == n then [values[0]] else []) + OfLength(n, values[1..])
  }

  lemma {:induction false} OfLengthByKey(n: nat, values: seq<string>)
    ensures OfLength(n, values) == WithKey(ByteKey, 0.0 - n as real, values)
  {
    if values != [] { OfLengthByKey(n, values[1..]); }
  }

  /** The longest come first, and those of one length in the order they were registered. */
  lemma LongestFirstMeaning(values: seq<string>)
    ensures var r := LongestFirst(values);
      && (forall i, j :: 0 <= i < j < |r| ==> ByteLen(r[i]) >= ByteLen(r[j]))
      && multiset(r) == multiset(values)
      && (forall v :: v in r <==> v in values)
      && ((forall i, j :: 0 <= i < j < |values| ==> values[i] != values[j])
          ==> forall i, j :: 0 <= i < j < |r| ==> r[i] != r[j])
      && (forall n: nat :: OfLength(n, r) == OfLength(n, values))
  {
    var r := LongestFirst(values);
    SortMeaning(ByteKey, values);
    forall n: nat ensures OfLength(n, r) == OfLength(n, values) {
      OfLengthByKey(n, r);
      OfLengthByKey(n, values);
    }
    forall v ensures v in r <==> v in values {
      assert v in r <==> v in multiset(r);
      assert v in values <==> v in multiset(values);
    }
    if forall i, j :: 0 <= i < j < |values| ==> values[i] != values[j] {
      forall i, j | 0 <= i < j < |r| ensures r[i] != r[j] {
        if r[i] == r[j] {
          OccursTwice(r, i, j);
          OccursOnce(values, r[i]);
        }
      }
    }
  }

  lemma OccursTwice(s: seq<string>, i: nat, j: nat)
    requires i < j < |s| && s[i] == s[j]
    ensures multiset(s)[s[i]] >= 2
  {
    assert s == s[..j] + [s[j]] + s[j + 1..];
    assert s[i] in s[..j];
  }

  lemma {:induction false} OccursOnce(s: seq<string>, v: string)
    requires forall i, j :: 0 <= i < j < |s| ==> s[i] != s[j]
    ensures multiset(s)[v] <= 1
  {
    if s != [] {
      OccursOnce(s[1..], v);
      assert s == [s[0]] + s[1..];
    }
  }

  lemma RegisterTwo(v: string, w: string)
    requires v != w && ByteLen(v) >= MIN_VALUE_BYTES && ByteLen(w) >= MIN_VALUE_BYTES
    ensures Registered([v, w]) == [v, w]
  {
    var one, two := [v], [v, w];
    assert one[..0] == [] && two[..1] == one;
    assert Registered(one) == Register(Registered(one[..0]), v);
    assert Registered(two) == Register(Registered(two[..1]), w);
  }

  /** A path is sensitive when some pattern occurs in it, letter case aside. */
  predicate IsSensitivePath(path: string, patterns: seq<string>) {
    && path != ""
    && exists i :: 0 <= i < |patterns| && patterns[i] != "" && Contains(LowerAll(path), LowerAll(patterns[i]))
  }

  /** Blank fragments are ignored, and a pattern is held once. */
  function WithPath(patterns: seq<string>, f: string): (r: seq<string>)
    ensures patterns <= r && forall p :: p in r <==> p in patterns || (p == f && p != "")
    ensures |r| == |patterns| + if f != "" && f !in patterns then 1 else 0
  {
    if f != "" && f !in patterns then patterns + [f] else patterns
  }

  class Secrets {
    var sensitivePaths: seq<string>
    var values: seq<string>

    /** The inputs registered so far, whether kept or not. */
    ghost var inputs: seq<string>

    ghost predicate Valid()
      reads this
    {
      values == Registered(inputs) && "" !in sensitivePaths
    }

    constructor (seed: seq<string>)
      requires "" !in seed
      ensures Valid() && inputs == [] && sensitivePaths == seed
    {
      sensitivePaths, values, inputs := seed, [], [];
    }

    method AddValue(v: string)
      requires Valid()
      modifies this
      ensures Valid() && inputs == old(inputs) + [v] && sensitivePaths == old(sensitivePaths)
    {
      inputs := inputs + [v];
      assert inputs[..|inputs| - 1] == old(inputs);
      if ByteLen(v) >= MIN_VALUE_BYTES && v !in values {
        values := values + [v];
      }
    }

    method AddSensitivePath(fragment: string)
      requires Valid()
      modifies this`sensitivePaths
      ensures Valid()
      ensures sensitivePaths == WithPath(old(sensitivePaths), Trim(fragment))
    {
      var f := Trim(fragment);
      if f != "" && f !in sensitivePaths {
        sensitivePaths := sensitivePaths + [f];
      }
    }
  }
}
