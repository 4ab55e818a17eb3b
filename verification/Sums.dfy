/** Sums of integer weights over sequences: the `sum(...)` expressions and the
    accumulating loops of every service are measured with these. */
module Sums {

  /** A named weight function (rather than a bare lambda) is passed as `f` everywhere,
      so that two mentions of the same sum are the same term. */
  function SumBy<T>(s: seq<T>, f: T -> int): int {
    if s == [] then 0 else SumBy(s[..|s| - 1], f) + f(s[|s| - 1])
  }

  predicate Distinct<T(==)>(s: seq<T>) {
    forall i, j :: 0 <= i < j < |s| ==> s[i] != s[j]
  }

  lemma SumSnoc<T>(s: seq<T>, x: T, f: T -> int)
    ensures SumBy(s + [x], f) == SumBy(s, f) + f(x)
  {
    assert (s + [x])[..|s|] == s;
  }

  lemma SumPrefix<T>(s: seq<T>, i: nat, f: T -> int)
    requires i < |s|
    ensures SumBy(s[..i + 1], f) == SumBy(s[..i], f) + f(s[i])
  {
    assert s[..i + 1] == s[..i] + [s[i]];
    SumSnoc(s[..i], s[i], f);
  }

  lemma {:induction false} SumConcat<T>(s: seq<T>, t: seq<T>, f: T -> int)
    ensures SumBy(s + t, f) == SumBy(s, f) + SumBy(t, f)
    decreases |t|
  {
    if t == [] {
      assert s + t == s;
    } else {
      var l := |t| - 1;
      assert s + t == (s + t[..l]) + [t[l]];
      SumSnoc(s + t[..l], t[l], f);
      SumConcat(s, t[..l], f);
    }
  }

  lemma SumUpdate<T>(s: seq<T>, i: nat, x: T, f: T -> int)
    requires i < |s|
    ensures SumBy(s[i := x], f) == SumBy(s, f) - f(s[i]) + f(x)
  {
    var tail := s[i + 1..];
    assert s == s[..i] + [s[i]] + tail;
    assert s[i := x] == s[..i] + [x] + tail;
    SumConcat(s[..i] + [s[i]], tail, f);
    SumConcat(s[..i] + [x], tail, f);
    SumSnoc(s[..i], s[i], f);
    SumSnoc(s[..i], x, f);
  }

  /** Two sequences whose weights agree position by position have the same sum. */
  lemma {:induction false} SumPointwise<S, T>(s: seq<S>, t: seq<T>, f: S -> int, g: T -> int)
    requires |s| == |t|
    requires forall i :: 0 <= i < |s| ==> f(s[i]) == g(t[i])
    ensures SumBy(s, f) == SumBy(t, g)
    decreases |s|
  {
    if s != [] {
      SumPointwise(s[..|s| - 1], t[..|t| - 1], f, g);
    }
  }

  lemma {:induction false} SumMonotone<T>(s: seq<T>, f: T -> int, g: T -> int)
    requires forall i :: 0 <= i < |s| ==> f(s[i]) <= g(s[i])
    ensures SumBy(s, f) <= SumBy(s, g)
    decreases |s|
  {
    if s != [] {
      SumMonotone(s[..|s| - 1], f, g);
    }
  }

  /** h = a*f + b*g, weight by weight, lifts to the sums. */
  lemma {:induction false} SumLinear<T>(s: seq<T>, f: T -> int, g: T -> int, h: T -> int, a: int, b: int)
    requires forall i :: 0 <= i < |s| ==> h(s[i]) == a * f(s[i]) + b * g(s[i])
    ensures SumBy(s, h) == a * SumBy(s, f) + b * SumBy(s, g)
    decreases |s|
  {
    if s != [] {
      SumLinear(s[..|s| - 1], f, g, h, a, b);
      var x := s[|s| - 1];
      assert a * (SumBy(s[..|s| - 1], f) + f(x)) == a * SumBy(s[..|s| - 1], f) + a * f(x);
      assert b * (SumBy(s[..|s| - 1], g) + g(x)) == b * SumBy(s[..|s| - 1], g) + b * g(x);
    }
  }

  lemma Distribute(k: int, a: int, b: int)
    ensures k * (a + b) == k * a + k * b && (a + b) * k == a * k + b * k
  {}

  lemma {:induction false} SumZero<T>(s: seq<T>, f: T -> int)
    requires forall i :: 0 <= i < |s| ==> f(s[i]) == 0
    ensures SumBy(s, f) == 0
    decreases |s|
  {
    if s != [] {
      SumZero(s[..|s| - 1], f);
    }
  }

  /** A weight that is zero everywhere but at one position sums to what it is there. */
  lemma SumOnly<T>(s: seq<T>, at: nat, f: T -> int)
    requires at < |s| && forall i :: 0 <= i < |s| && i != at ==> f(s[i]) == 0
    ensures SumBy(s, f) == f(s[at])
  {
    assert s == s[..at] + [s[at]] + s[at + 1..];
    SumZero(s[..at], f);
    SumZero(s[at + 1..], f);
    SumSnoc(s[..at], s[at], f);
    SumConcat(s[..at] + [s[at]], s[at + 1..], f);
  }

  lemma {:induction false} SumPermutation<T>(s: seq<T>, t: seq<T>, f: T -> int)
    requires multiset(s) == multiset(t)
    ensures SumBy(s, f) == SumBy(t, f)
    decreases |s|
  {
    if s == [] {
      assert |multiset(t)| == 0;
      assert t == [];
    } else {
      var l := |s| - 1;
      var x := s[l];
      assert s == s[..l] + [x];
      assert x in multiset(t);
      var k :| 0 <= k < |t| && t[k] == x;
      assert t == t[..k] + [x] + t[k + 1..];
      var rest := t[..k] + t[k + 1..];
      assert multiset(s[..l]) == multiset(s) - multiset{x};
      assert multiset(rest) == multiset(t) - multiset{x};
      SumPermutation(s[..l], rest, f);
      SumConcat(t[..k], t[k + 1..], f);
      SumConcat(t[..k] + [x], t[k + 1..], f);
      SumSnoc(t[..k], x, f);
    }
  }

  /** The weight of the rows that carry one key. */
  function OfKey<T, K(==)>(key: T -> K, f: T -> int, k: K): T -> int {
    (x: T) => if key(x) == k then f(x) else 0
  }

  function KeySum<T, K(==)>(s: seq<T>, key: T -> K, f: T -> int): K -> int {
    (k: K) => SumBy(s, OfKey(key, f, k))
  }

  /** Grouping rows under distinct keys that cover them loses and duplicates nothing. */
  lemma {:induction false} SumByKeys<T, K>(s: seq<T>, keys: seq<K>, key: T -> K, f: T -> int)
    requires Distinct(keys)
    requires forall i :: 0 <= i < |s| ==> key(s[i]) in keys
    ensures SumBy(keys, KeySum(s, key, f)) == SumBy(s, f)
    decreases |s|
  {
    if s == [] {
      SumZero(keys, KeySum(s, key, f));
    } else {
      var l := |s| - 1;
      var x := s[l];
      SumByKeys(s[..l], keys, key, f);
      var at :| 0 <= at < |keys| && keys[at] == key(x);
      assert key(s[l]) == keys[at];
      OneKeyMore(s, keys, key, f, at);
    }
  }

  lemma OneKeyMore<T, K>(s: seq<T>, keys: seq<K>, key: T -> K, f: T -> int, at: nat)
    requires s != [] && Distinct(keys) && at < |keys| && keys[at] == key(s[|s| - 1])
    ensures SumBy(keys, KeySum(s, key, f)) == SumBy(keys, KeySum(s[..|s| - 1], key, f)) + f(s[|s| - 1])
  {
    var old' := KeySum(s[..|s| - 1], key, f);
    var new' := KeySum(s, key, f);
    assert keys == keys[..at] + [keys[at]] + keys[at + 1..];
    SumConcat(keys[..at] + [keys[at]], keys[at + 1..], old');
    SumConcat(keys[..at] + [keys[at]], keys[at + 1..], new');
    SumSnoc(keys[..at], keys[at], old');
    SumSnoc(keys[..at], keys[at], new');
    SumPointwise(keys[..at], keys[..at], old', new');
    SumPointwise(keys[at + 1..], keys[at + 1..], old', new');
  }

  /** The distinct values of a sequence, in order of first appearance. */
  function Dedupe<K(==,!new)>(s: seq<K>): (r: seq<K>)
    ensures Distinct(r)
    ensures forall k :: k in r <==> k in s
  {
    if s == [] then []
    else
      var rest := Dedupe(s[..|s| - 1]);
      assert s == s[..|s| - 1] + [s[|s| - 1]];
      if s[|s| - 1] in rest then rest else rest + [s[|s| - 1]]
  }

  lemma {:induction false} SumNonNegative<T>(s: seq<T>, f: T -> int)
    requires forall i :: 0 <= i < |s| ==> f(s[i]) >= 0
    ensures SumBy(s, f) >= 0
    decreases |s|
  {
    if s != [] {
      SumNonNegative(s[..|s| - 1], f);
    }
  }

  /** The keys of some rows, in order of first appearance: the key order of a dictionary
      filled by a loop over the rows. */
  function KeysOf<T, K(==)>(rows: seq<T>, key: T -> K): seq<K> {
    if rows == [] then []
    else
      var rest, k := KeysOf(rows[..|rows| - 1], key), key(rows[|rows| - 1]);
      if k in rest then rest else rest + [k]
  }

  lemma {:induction false} KeysListed<T, K>(rows: seq<T>, key: T -> K)
    ensures Distinct(KeysOf(rows, key))
    ensures forall i :: 0 <= i < |rows| ==> key(rows[i]) in KeysOf(rows, key)
    decreases |rows|
  {
    if rows != [] {
      KeysListed(rows[..|rows| - 1], key);
    }
  }

  lemma {:induction false} KeyHasRow<T, K>(rows: seq<T>, key: T -> K, k: K) returns (i: nat)
    requires k in KeysOf(rows, key)
    ensures i < |rows| && key(rows[i]) == k
    decreases |rows|
  {
    var front := rows[..|rows| - 1];
    if k in KeysOf(front, key) {
      i := KeyHasRow(front, key, k);
    } else {
      i := |rows| - 1;
    }
  }

  lemma KeysOfPrefix<T, K>(rows: seq<T>, i: nat, key: T -> K)
    requires i < |rows|
    ensures KeysOf(rows[..i + 1], key)
         == if key(rows[i]) in KeysOf(rows[..i], key) then KeysOf(rows[..i], key)
             else KeysOf(rows[..i], key) + [key(rows[i])]
  {
    assert rows[..i + 1][..i] == rows[..i];
  }

  lemma KeySumPrefix<T, K>(rows: seq<T>, i: nat, key: T -> K, f: T -> int, q: K)
    requires i < |rows|
    ensures KeySum(rows[..i + 1], key, f)(q)
        == KeySum(rows[..i], key, f)(q) + (if q == key(rows[i]) then f(rows[i]) else 0)
  {
    SumPrefix(rows, i, OfKey(key, f, q));
  }

  lemma AbsentKeySum<T, K>(rows: seq<T>, key: T -> K, f: T -> int, k: K)
    requires k !in KeysOf(rows, key)
    ensures KeySum(rows, key, f)(k) == 0
  {
    KeysListed(rows, key);
    SumZero(rows, OfKey(key, f, k));
  }

  /** `totals` maps exactly `keys`, each to the weight of its rows. */
  ghost predicate Tallies<T, K>(rows: seq<T>, key: T -> K, f: T -> int, keys: seq<K>, totals: map<K, int>) {
    && keys == KeysOf(rows, key)
    && totals.Keys == (set k | k in keys)
    && (forall k :: k in keys ==> totals[k] == KeySum(rows, key, f)(k))
  }

  function At<K(==)>(totals: map<K, int>, k: K): int {
    if k in totals then totals[k] else 0
  }

  lemma TallyOneMore<T, K>(rows: seq<T>, i: nat, key: T -> K, f: T -> int, keys: seq<K>, totals: map<K, int>)
    requires i < |rows| && Tallies(rows[..i], key, f, keys, totals)
    ensures
      var k := key(rows[i]);
      Tallies(rows[..i + 1], key, f, if k in keys then keys else keys + [k], totals[k := At(totals, k) + f(rows[i])])
  {
    var k := key(rows[i]);
    var more := if k in keys then keys else keys + [k];
    var after := totals[k := At(totals, k) + f(rows[i])];
    KeysOfPrefix(rows, i, key);
    forall q | q in more ensures after[q] == KeySum(rows[..i + 1], key, f)(q) {
      KeySumPrefix(rows, i, key, f, q);
      if q !in keys {
        AbsentKeySum(rows[..i], key, f, q);
      }
    }
  }

  /** Accumulate a weight per key, as `d[key] = d.get(key, 0) + weight` does. */
  method GroupTotals<T, K(==)>(rows: seq<T>, key: T -> K, f: T -> int) returns (keys: seq<K>, totals: map<K, int>)
    ensures keys == KeysOf(rows, key)
    ensures totals.Keys == (set k | k in keys)
    ensures forall k :: k in keys ==> totals[k] == KeySum(rows, key, f)(k)
  {
    keys, totals := [], map[];
    var i := 0;
    while i < |rows|
      invariant 0 <= i <= |rows| && Tallies(rows[..i], key, f, keys, totals)
    {
      TallyOneMore(rows, i, key, f, keys, totals);
      var k := key(rows[i]);
      totals := totals[k := At(totals, k) + f(rows[i])];
      keys := if k in keys then keys else keys + [k];
      i := i + 1;
    }
    assert rows[..i] == rows;
  }
}
