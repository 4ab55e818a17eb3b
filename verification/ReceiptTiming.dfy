/** Receipt timing: which dated payments count as history, and the amount-weighted median
    delay that projects an invoice's due date. Dates are day numbers. */
module ReceiptTiming {
  import opened Options
  import opened Sums

  datatype Family = Calibration | Financial

  /** A payment with its own party and due date already resolved. */
  datatype Event = Event(id: string, invoice: string, party: string, due: int, paid: int, amount: int, family: Family)

  const MINIMUM_EVENTS := 3
  const LOOKBACK_DAYS := 180

  function Delay(e: Event): int {
    e.paid - e.due
  }

  function Amount(): Event -> int {
    (e: Event) => e.amount
  }

  function AtMost(m: int): Event -> int {
    (e: Event) => if Delay(e) <= m then e.amount else 0
  }

  function Below(m: int): Event -> int {
    (e: Event) => if Delay(e) < m then e.amount else 0
  }

  predicate Positive(events: seq<Event>) {
    forall e :: e in events ==> e.amount > 0
  }

  // ----- a stable sort by delay -----

  predicate Sorted(s: seq<Event>) {
    forall i, j :: 0 <= i < j < |s| ==> Delay(s[i]) <= Delay(s[j])
  }

  function Insert(s: seq<Event>, e: Event): seq<Event> {
    if s == [] || Delay(s[|s| - 1]) <= Delay(e) then s + [e] else Insert(s[..|s| - 1], e) + [s[|s| - 1]]
  }

  function SortByDelay(s: seq<Event>): seq<Event> {
    if s == [] then [] else Insert(SortByDelay(s[..|s| - 1]), s[|s| - 1])
  }

  lemma {:induction false} InsertAdds(s: seq<Event>, e: Event)
    ensures multiset(Insert(s, e)) == multiset(s) + multiset{e}
    decreases |s|
  {
    if s != [] && Delay(s[|s| - 1]) > Delay(e) {
      InsertAdds(s[..|s| - 1], e);
      assert s == s[..|s| - 1] + [s[|s| - 1]];
    }
  }

  lemma SortedSnoc(s: seq<Event>, e: Event)
    requires Sorted(s) && forall x :: x in s ==> Delay(x) <= Delay(e)
    ensures Sorted(s + [e])
  {
    forall i, j | 0 <= i < j < |s + [e]| ensures Delay((s + [e])[i]) <= Delay((s + [e])[j]) {
      assert s[i] in s;
    }
  }

  lemma {:induction false} InsertSorts(s: seq<Event>, e: Event)
    requires Sorted(s)
    ensures Sorted(Insert(s, e)) && multiset(Insert(s, e)) == multiset(s) + multiset{e}
    decreases |s|
  {
    InsertAdds(s, e);
    if s == [] || Delay(s[|s| - 1]) <= Delay(e) {
      SortedSnoc(s, e);
    } else {
      var front, last := s[..|s| - 1], s[|s| - 1];
      InsertSorts(front, e);
      forall x | x in Insert(front, e) ensures Delay(x) <= Delay(last) {
        assert x in multiset(Insert(front, e));
        if x != e {
          assert x in front;
        }
      }
      SortedSnoc(Insert(front, e), last);
    }
  }

  lemma {:induction false} SortByDelaySorts(s: seq<Event>)
    ensures Sorted(SortByDelay(s)) && multiset(SortByDelay(s)) == multiset(s)
    decreases |s|
  {
    if s != [] {
      SortByDelaySorts(s[..|s| - 1]);
      InsertSorts(SortByDelay(s[..|s| - 1]), s[|s| - 1]);
      assert s == s[..|s| - 1] + [s[|s| - 1]];
    }
  }

  // ----- the weighted median -----

  /** Half the paid mass has arrived by delay `m`, and had not arrived before it. */
  predicate IsMedian(events: seq<Event>, m: int) {
    && 2 * SumBy(events, AtMost(m)) >= SumBy(events, Amount())
    && 2 * SumBy(events, Below(m)) < SumBy(events, Amount())
  }

  /** The scan over the sorted events, from position `i` with `running` already summed. */
  function Scan(ordered: seq<Event>, i: nat, running: int, total: int): Option<int>
    requires i <= |ordered|
    decreases |ordered| - i
  {
    if i == |ordered| then None
    else if 2 * (running + ordered[i].amount) >= total then Some(Delay(ordered[i]))
    else Scan(ordered, i + 1, running + ordered[i].amount, total)
  }

  /** `weighted_median_delay`; None is its ValueError. */
  function MedianDelay(events: seq<Event>): Option<int> {
    var total := SumBy(SortByDelay(events), Amount());
    if total <= 0 then None else Scan(SortByDelay(events), 0, 0, total)
  }

  lemma {:induction false} ScanReturns(ordered: seq<Event>, i: nat, total: int)
    requires i < |ordered| && total == SumBy(ordered, Amount()) && total > 0
    ensures Scan(ordered, i, SumBy(ordered[..i], Amount()), total).Some?
    decreases |ordered| - i
  {
    SumPrefix(ordered, i, Amount());
    if i + 1 == |ordered| {
      assert ordered[..i + 1] == ordered;
    } else {
      ScanReturns(ordered, i + 1, total);
    }
  }

  /** A positive total always answers inside the loop: the final raise is dead code. */
  lemma {:induction false} MedianAnswersExactlyOnPositiveTotal(events: seq<Event>)
    ensures MedianDelay(events).Some? <==> SumBy(events, Amount()) > 0
  {
    var ordered := SortByDelay(events);
    SortByDelaySorts(events);
    SumPermutation(ordered, events, Amount());
    if SumBy(ordered, Amount()) > 0 {
      ScanReturns(ordered, 0, SumBy(ordered, Amount()));
      assert ordered[..0] == [];
    }
  }

  lemma BelowCut(ordered: seq<Event>, i: nat, m: int)
    requires Sorted(ordered) && Positive(ordered) && i < |ordered| && m == Delay(ordered[i])
    ensures SumBy(ordered, Below(m)) <= SumBy(ordered[..i], Amount())
  {
    var left, right := ordered[..i], ordered[i..];
    assert ordered == left + right;
    SumConcat(left, right, Below(m));
    forall k | 0 <= k < |right| ensures Below(m)(right[k]) == 0 { assert right[k] == ordered[i + k]; }
    SumZero(right, Below(m));
    forall k | 0 <= k < |left| ensures Below(m)(left[k]) <= Amount()(left[k]) { assert left[k] in ordered; }
    SumMonotone(left, Below(m), Amount());
  }

  lemma AllAtMost(s: seq<Event>, m: int)
    requires forall e :: e in s ==> Delay(e) <= m
    ensures SumBy(s, AtMost(m)) == SumBy(s, Amount())
  {
    SumPointwise(s, s, AtMost(m), Amount());
  }

  lemma EarlierDelays(ordered: seq<Event>, i: nat)
    requires Sorted(ordered) && i < |ordered|
    ensures forall e :: e in ordered[..i + 1] ==> Delay(e) <= Delay(ordered[i])
  {
    forall e | e in ordered[..i + 1] ensures Delay(e) <= Delay(ordered[i]) {
      var k :| 0 <= k < i + 1 && ordered[k] == e;
      assert k < i ==> Delay(ordered[k]) <= Delay(ordered[i]);
    }
  }

  lemma AtMostCut(ordered: seq<Event>, i: nat, m: int)
    requires Sorted(ordered) && Positive(ordered) && i < |ordered| && m == Delay(ordered[i])
    ensures SumBy(ordered, AtMost(m)) >= SumBy(ordered[..i + 1], Amount())
  {
    var left, right := ordered[..i + 1], ordered[i + 1..];
    assert ordered == left + right;
    SumConcat(left, right, AtMost(m));
    assert left[i] == ordered[i];
    EarlierDelays(ordered, i);
    AllAtMost(left, m);
    AtMostNonNegative(right, m);
  }

  lemma AtMostNonNegative(s: seq<Event>, m: int)
    requires Positive(s)
    ensures SumBy(s, AtMost(m)) >= 0
  {
    SumNonNegative(s, AtMost(m));
  }

  lemma {:induction false} ScanFindsMedian(ordered: seq<Event>, i: nat, total: int)
    requires Sorted(ordered) && Positive(ordered) && i < |ordered|
    requires total == SumBy(ordered, Amount()) && total > 0
    requires 2 * SumBy(ordered[..i], Amount()) < total
    ensures Scan(ordered, i, SumBy(ordered[..i], Amount()), total).Some?
    ensures IsMedian(ordered, Scan(ordered, i, SumBy(ordered[..i], Amount()), total).value)
    decreases |ordered| - i
  {
    SumPrefix(ordered, i, Amount());
    BelowCut(ordered, i, Delay(ordered[i]));
    AtMostCut(ordered, i, Delay(ordered[i]));
    assert ordered[..|ordered|] == ordered;
    if 2 * SumBy(ordered[..i + 1], Amount()) < total {
      ScanFindsMedian(ordered, i + 1, total);
    }
  }

  lemma PermutedMedian(s: seq<Event>, t: seq<Event>, m: int)
    requires multiset(s) == multiset(t)
    ensures IsMedian(s, m) <==> IsMedian(t, m)
  {
    SumPermutation(s, t, AtMost(m));
    SumPermutation(s, t, Below(m));
    SumPermutation(s, t, Amount());
  }

  lemma {:induction false} PositiveTotal(events: seq<Event>)
    requires Positive(events) && events != []
    ensures SumBy(events, Amount()) > 0
    decreases |events|
  {
    assert events[|events| - 1].amount > 0;
    if |events| > 1 {
      PositiveTotal(events[..|events| - 1]);
    }
  }

  lemma MedianIsMedian(events: seq<Event>)
    requires Positive(events) && events != []
    ensures MedianDelay(events).Some? && IsMedian(events, MedianDelay(events).value)
  {
    var ordered := SortByDelay(events);
    SortByDelaySorts(events);
    forall e | e in ordered ensures e in events { assert e in multiset(events); }
    PositiveTotal(events);
    SumPermutation(ordered, events, Amount());
    assert ordered[..0] == [];
    assert |ordered| > 0;
    ScanFindsMedian(ordered, 0, SumBy(ordered, Amount()));
    PermutedMedian(ordered, events, MedianDelay(events).value);
  }

  /** What was paid by `m` days after its due date, and before that day. */
  function PaidBy(m: int): Event -> int {
    (e: Event) => if e.paid <= e.due + m then e.amount else 0
  }

  function PaidBefore(m: int): Event -> int {
    (e: Event) => if e.paid < e.due + m then e.amount else 0
  }

  /** Over the dates themselves: at least half the amount was paid by that many days after its
      due date, and less than half before. */
  lemma MedianInDates(events: seq<Event>)
    requires Positive(events) && events != []
    ensures
      exists m :: MedianDelay(events) == Some(m) && 2 * SumBy(events, PaidBy(m)) >= SumBy(events, Amount())
              && 2 * SumBy(events, PaidBefore(m)) < SumBy(events, Amount())
  {
    MedianIsMedian(events);
    var m := MedianDelay(events).value;
    SumPointwise(events, events, AtMost(m), PaidBy(m));
    SumPointwise(events, events, Below(m), PaidBefore(m));
  }

  /** When everything was paid the same number of days after its due date, that is the median. */
  lemma HabitIsMedian(events: seq<Event>, k: int)
    requires Positive(events) && events != [] && forall e :: e in events ==> e.paid == e.due + k
    ensures MedianDelay(events) == Some(k)
  {
    MedianInDates(events);
    PositiveTotal(events);
    var m := MedianDelay(events).value;
    forall i | 0 <= i < |events| ensures events[i].paid == events[i].due + k {
      assert events[i] in events;
    }
    if m < k {
      SumZero(events, PaidBy(m));
    } else if m > k {
      SumPointwise(events, events, PaidBefore(m), Amount());
    }
  }

  lemma MedianIsUnique(events: seq<Event>, m: int, n: int)
    requires Positive(events) && IsMedian(events, m) && IsMedian(events, n)
    ensures m == n
  {
    if m < n {
      SumMonotone(events, AtMost(m), Below(n));
    } else if n < m {
      SumMonotone(events, AtMost(n), Below(m));
    }
  }

  /** The same events in some order. */
  ghost predicate Shuffled(s: seq<Event>, t: seq<Event>) {
    multiset(s) == multiset(t)
  }

  /** The proposed delay does not depend on the order in which history was read. */
  lemma {:induction false} MedianIgnoresOrder(s: seq<Event>, t: seq<Event>)
    requires Positive(s) && s != [] && Shuffled(s, t)
    ensures MedianDelay(s) == MedianDelay(t)
  {
    forall e | e in t ensures e in s { assert e in multiset(s); }
    assert |multiset(s)| == |multiset(t)|;
    MedianIsMedian(s);
    MedianIsMedian(t);
    PermutedMedian(s, t, MedianDelay(s).value);
    MedianIsUnique(t, MedianDelay(s).value, MedianDelay(t).value);
  }

  function Abs(x: int): int {
    if x >= 0 then x else -x
  }

  function Deviation(x: int): Event -> int {
    (e: Event) => e.amount * Abs(Delay(e) - x)
  }

  /** Moving the estimate from `m` to `x` costs at least the mass it moves away from. */
  lemma {:induction false} DeviationBound(events: seq<Event>, m: int, x: int)
    requires Positive(events)
    ensures x >= m ==> SumBy(events, Deviation(x)) >= SumBy(events, Deviation(m))
                       + (x - m) * (2 * SumBy(events, AtMost(m)) - SumBy(events, Amount()))
    ensures x < m ==> SumBy(events, Deviation(x)) >= SumBy(events, Deviation(m))
                      + (m - x) * (SumBy(events, Amount()) - 2 * SumBy(events, Below(m)))
    decreases |events|
  {
    if events != [] {
      var front, e := events[..|events| - 1], events[|events| - 1];
      DeviationBound(front, m, x);
      OneDeviation(e, m, x);
      if x >= m {
        Distribute(x - m, 2 * SumBy(front, AtMost(m)) - SumBy(front, Amount()), 2 * AtMost(m)(e) - e.amount);
      } else {
        Distribute(m - x, SumBy(front, Amount()) - 2 * SumBy(front, Below(m)), e.amount - 2 * Below(m)(e));
      }
    }
  }

  lemma ProductNonNegative(a: int, b: int)
    requires a >= 0 && b >= 0
    ensures a * b >= 0
  {}

  lemma OneDeviation(e: Event, m: int, x: int)
    requires e.amount > 0
    ensures x >= m ==> Deviation(x)(e) >= Deviation(m)(e) + (x - m) * (2 * AtMost(m)(e) - e.amount)
    ensures x < m ==> Deviation(x)(e) >= Deviation(m)(e) + (m - x) * (e.amount - 2 * Below(m)(e))
  {
    var d, w := Delay(e), e.amount;
    var gain := if x >= m then (if d <= m then x - m else m - x) else (if d < m then x - m else m - x);
    assert Abs(d - x) >= Abs(d - m) + gain;
    assert w * Abs(d - x) >= w * (Abs(d - m) + gain);
    assert w * (Abs(d - m) + gain) == w * Abs(d - m) + w * gain;
    assert (x - m) * w == w * (x - m) && (m - x) * w == w * (m - x);
    assert (x - m) * -w == w * (m - x) && (m - x) * -w == w * (x - m);
  }

  /** No other integer delay is closer to the paid history, weighted by amount. */
  lemma MedianMinimisesDeviation(events: seq<Event>, x: int)
    requires Positive(events) && events != []
    ensures MedianDelay(events).Some?
    ensures SumBy(events, Deviation(MedianDelay(events).value)) <= SumBy(events, Deviation(x))
  {
    MedianIsMedian(events);
    AnyMedianMinimises(events, MedianDelay(events).value, x);
  }

  lemma AnyMedianMinimises(events: seq<Event>, m: int, x: int)
    requires Positive(events) && IsMedian(events, m)
    ensures SumBy(events, Deviation(m)) <= SumBy(events, Deviation(x))
  {
    DeviationBound(events, m, x);
    if x >= m {
      ProductNonNegative(x - m, 2 * SumBy(events, AtMost(m)) - SumBy(events, Amount()));
    } else {
      ProductNonNegative(m - x, SumBy(events, Amount()) - 2 * SumBy(events, Below(m)));
    }
  }

  /** The service's loop. */
  method WeightedMedianDelay(events: seq<Event>) returns (delay: Option<int>)
    ensures delay == MedianDelay(events)
    ensures Positive(events) && events != [] ==> delay.Some? && IsMedian(events, delay.value)
  {
    if Positive(events) && events != [] {
      MedianIsMedian(events);
    }
    var ordered := SortByDelay(events);
    var total := SumBy(ordered, Amount());
    if total <= 0 {
      return None;
    }
    var running, i := 0, 0;
    while i < |ordered|
      invariant 0 <= i <= |ordered|
      invariant Scan(ordered, 0, 0, total) == Scan(ordered, i, running, total)
    {
      running := running + ordered[i].amount;
      if 2 * running >= total {
        return Some(Delay(ordered[i]));
      }
      i := i + 1;
    }
    delay := None;
  }

  // ----- which events count -----

  datatype Fingerprint = Fingerprint(party: string, invoice: string, due: int, paid: int, amount: int)

  function Print(e: Event): Fingerprint {
    Fingerprint(e.party, e.invoice, e.due, e.paid, e.amount)
  }

  function InWindow(rows: seq<Event>, asOf: int): seq<Event> {
    if rows == [] then []
    else
      var r := rows[|rows| - 1];
      InWindow(rows[..|rows| - 1], asOf) + (if asOf - LOOKBACK_DAYS <= r.paid <= asOf then [r] else [])
  }

  predicate Known(rows: seq<Event>, id: string) {
    exists e :: e in rows && e.id == id
  }

  /** Every row recorded under `id` describes the same payment. */
  predicate Consistent(rows: seq<Event>, id: string) {
    forall e, f :: e in rows && f in rows && e.id == id && f.id == id ==> Print(e) == Print(f)
  }

  function Firsts(rows: seq<Event>): seq<Event> {
    if rows == [] then []
    else
      var front, r := rows[..|rows| - 1], rows[|rows| - 1];
      Firsts(front) + (if Known(front, r.id) then [] else [r])
  }

  function Keep(firsts: seq<Event>, rows: seq<Event>): seq<Event> {
    if firsts == [] then []
    else
      var r := firsts[|firsts| - 1];
      Keep(firsts[..|firsts| - 1], rows) + (if Consistent(rows, r.id) then [r] else [])
  }

  /** One event per identity, dropping identities whose rows disagree. */
  function Selected(rows: seq<Event>): seq<Event> {
    Keep(Firsts(rows), rows)
  }

  /** Parties with a disagreeing identity, or with one payment told by both families. */
  function Ambiguous(rows: seq<Event>): set<string> {
    Contradicted(rows) + ToldTwice(Selected(rows))
  }

  function Contradicted(rows: seq<Event>): set<string> {
    set e | e in rows && !Consistent(rows, e.id) :: e.party
  }

  function ToldTwice(selected: seq<Event>): set<string> {
    set e, f | e in selected && f in selected && Print(e) == Print(f) && e.family != f.family :: e.party
  }

  lemma FirstsSnoc(rows: seq<Event>, r: Event)
    ensures Firsts(rows + [r]) == Firsts(rows) + (if Known(rows, r.id) then [] else [r])
  {
    assert (rows + [r])[..|rows|] == rows;
  }

  /** Some row already tells `r`'s payment under `r`'s identity, in either family. */
  predicate Told(rows: seq<Event>, r: Event) {
    exists e :: e in rows && e.id == r.id && Print(e) == Print(r)
  }

  lemma {:induction false} FirstsIgnoreRepeats(a: seq<Event>, r: Event, b: seq<Event>)
    requires Told(a, r)
    ensures Firsts(a + [r] + b) == Firsts(a + b)
    decreases |b|
  {
    if b == [] {
      assert a + [r] + b == a + [r] && a + b == a;
      FirstsSnoc(a, r);
    } else {
      var front, last := b[..|b| - 1], b[|b| - 1];
      var with, without := a + [r] + front, a + front;
      assert a + [r] + b == with + [last] && a + b == without + [last];
      FirstsIgnoreRepeats(a, r, front);
      FirstsSnoc(with, last);
      FirstsSnoc(without, last);
      SameIdentities(a, r, front, last.id);
    }
  }

  lemma SameIdentities(a: seq<Event>, r: Event, b: seq<Event>, id: string)
    requires Told(a, r)
    ensures Known(a + [r] + b, id) <==> Known(a + b, id)
  {
    var e :| e in a && e.id == r.id;
    assert e in a + b;
    forall f ensures f in a + [r] + b <==> f in a + b || f == r {}
  }

  lemma SameConsistency(a: seq<Event>, r: Event, b: seq<Event>, id: string)
    requires Told(a, r)
    ensures Consistent(a + [r] + b, id) <==> Consistent(a + b, id)
  {
    var e :| e in a && e.id == r.id && Print(e) == Print(r);
    assert e in a + b;
    forall f ensures f in a + [r] + b <==> f in a + b || f == r {}
  }

  lemma {:induction false} KeepDependsOnConsistency(firsts: seq<Event>, rows: seq<Event>, more: seq<Event>)
    requires forall id :: Consistent(rows, id) <==> Consistent(more, id)
    ensures Keep(firsts, rows) == Keep(firsts, more)
    decreases |firsts|
  {
    if firsts != [] {
      KeepDependsOnConsistency(firsts[..|firsts| - 1], rows, more);
    }
  }

  lemma SameContradictions(a: seq<Event>, r: Event, b: seq<Event>)
    requires Told(a, r) && forall id :: Consistent(a + [r] + b, id) <==> Consistent(a + b, id)
    ensures Contradicted(a + [r] + b) == Contradicted(a + b)
  {
    var e :| e in a && e.id == r.id && Print(e) == Print(r);
    assert e in a + b && e.party == r.party;
    forall f ensures f in a + [r] + b <==> f in a + b || f == r {}
  }

  /** Telling a payment again under its identity, from either family and at any later position,
      selects the same events and leaves the same parties ambiguous. */
  lemma {:induction false} RepeatedRowsChangeNothing(a: seq<Event>, r: Event, b: seq<Event>)
    requires Told(a, r)
    ensures Selected(a + [r] + b) == Selected(a + b)
    ensures Ambiguous(a + [r] + b) == Ambiguous(a + b)
  {
    forall id ensures Consistent(a + [r] + b, id) <==> Consistent(a + b, id) {
      SameConsistency(a, r, b, id);
    }
    FirstsIgnoreRepeats(a, r, b);
    KeepDependsOnConsistency(Firsts(a + b), a + [r] + b, a + b);
    SameContradictions(a, r, b);
  }

  /** No payment counts twice: selected events have distinct identities, and each is a row
      that no other row under its identity contradicts. */
  lemma {:induction false} SelectedOncePerIdentity(firsts: seq<Event>, rows: seq<Event>)
    requires forall i, j :: 0 <= i < j < |firsts| ==> firsts[i].id != firsts[j].id
    ensures forall i, j :: 0 <= i < j < |Keep(firsts, rows)| ==> Keep(firsts, rows)[i].id != Keep(firsts, rows)[j].id
    ensures forall e :: e in Keep(firsts, rows) <==> e in firsts && Consistent(rows, e.id)
    decreases |firsts|
  {
    if firsts != [] {
      SelectedOncePerIdentity(firsts[..|firsts| - 1], rows);
      assert firsts == firsts[..|firsts| - 1] + [firsts[|firsts| - 1]];
    }
  }

  lemma {:induction false} FirstsAreFirst(rows: seq<Event>)
    ensures forall i, j :: 0 <= i < j < |Firsts(rows)| ==> Firsts(rows)[i].id != Firsts(rows)[j].id
    ensures forall e :: e in Firsts(rows) ==> e in rows
    ensures forall e :: e in rows ==> Known(Firsts(rows), e.id)
    decreases |rows|
  {
    if rows != [] {
      var front, r := rows[..|rows| - 1], rows[|rows| - 1];
      FirstsAreFirst(front);
      assert rows == front + [r];
      forall e | e in Firsts(front) ensures e.id == r.id ==> Known(front, r.id) {}
      forall e | e in rows ensures Known(Firsts(rows), e.id) {
        if e in front || Known(front, r.id) {
          assert Known(Firsts(front), e.id);
        } else {
          assert r in Firsts(rows);
        }
      }
    }
  }

  /** Each identity told consistently contributes exactly one event; no other contributes any. */
  lemma OneEventPerConsistentIdentity(rows: seq<Event>, id: string)
    ensures Known(Selected(rows), id) <==> Known(rows, id) && Consistent(rows, id)
    ensures forall i, j :: 0 <= i < j < |Selected(rows)| ==> Selected(rows)[i].id != Selected(rows)[j].id
  {
    FirstsAreFirst(rows);
    SelectedOncePerIdentity(Firsts(rows), rows);
  }

  /** Two rows describe one payment: party, invoice, dates and amount. */
  predicate SamePayment(a: Event, b: Event) {
    && a.party == b.party && a.invoice == b.invoice && a.due == b.due && a.paid == b.paid && a.amount == b.amount
  }

  /** Another row under the identity describes another payment. */
  ghost predicate Disagrees(rows: seq<Event>, id: string) {
    exists e, f :: e in rows && f in rows && e.id == id && f.id == id && !SamePayment(e, f)
  }

  /** Over the rows themselves: an identity has an event exactly when it is known and its rows
      agree; a party is ambiguous exactly when it is named by a row whose identity disagrees, or
      when two events of it describe one payment under the two families. */
  lemma {:induction false} HistoryIsSelectedExactly(rows: seq<Event>, id: string, party: string)
    ensures Known(Selected(rows), id) <==> Known(rows, id) && !Disagrees(rows, id)
    ensures party in Ambiguous(rows) <==>
      || (exists e :: e in rows && e.party == party && Disagrees(rows, e.id))
      || (exists e, f :: e in Selected(rows) && f in Selected(rows) && e.party == party
            && SamePayment(e, f) && e.family != f.family)
  {
    OneEventPerConsistentIdentity(rows, id);
    forall a, b ensures Print(a) == Print(b) <==> SamePayment(a, b) {}
    forall x ensures Consistent(rows, x) <==> !Disagrees(rows, x) {}
  }

  // ----- the service's pass over the rows -----

  function OfParty(events: seq<Event>, party: string): seq<Event> {
    if events == [] then []
    else
      var e := events[|events| - 1];
      OfParty(events[..|events| - 1], party) + (if e.party == party then [e] else [])
  }

  function Get(m: map<string, seq<Event>>, k: string): seq<Event> {
    if k in m then m[k] else []
  }

  /** `groups` is `by_identity`, `order` its keys in first-appearance order. */
  ghost predicate InOrder(rows: seq<Event>, order: seq<string>, groups: map<string, seq<Event>>) {
    Leads(Firsts(rows), order, groups)
  }

  /** Each of `firsts` heads the group of its identity. */
  ghost predicate Leads(firsts: seq<Event>, order: seq<string>, groups: map<string, seq<Event>>) {
    |order| == |firsts| &&
    forall k :: 0 <= k < |order| ==>
      order[k] == firsts[k].id && order[k] in groups && groups[order[k]] != [] && groups[order[k]][0] == firsts[k]
  }

  ghost predicate Complete(rows: seq<Event>, groups: map<string, seq<Event>>) {
    && (forall id :: id in groups <==> Known(rows, id))
    && (forall id, e :: id in groups ==> (e in groups[id] <==> e in rows && e.id == id))
  }

  lemma KnownSnoc(rows: seq<Event>, r: Event, id: string)
    ensures Known(rows + [r], id) <==> Known(rows, id) || id == r.id
  {
    if Known(rows, id) {
      var e :| e in rows && e.id == id;
      assert e in rows + [r];
    }
    assert r in rows + [r];
  }

  lemma CompleteSnoc(rows: seq<Event>, r: Event, groups: map<string, seq<Event>>)
    requires Complete(rows, groups)
    ensures Complete(rows + [r], groups[r.id := Get(groups, r.id) + [r]])
  {
    forall id ensures Known(rows + [r], id) <==> Known(rows, id) || id == r.id { KnownSnoc(rows, r, id); }
  }

  lemma LeadsSnoc(firsts: seq<Event>, r: Event, order: seq<string>, groups: map<string, seq<Event>>)
    requires Leads(firsts, order, groups)
    ensures
      var after := groups[r.id := Get(groups, r.id) + [r]];
      if r.id in groups then Leads(firsts, order, after) else Leads(firsts + [r], order + [r.id], after)
  {
    var after := groups[r.id := Get(groups, r.id) + [r]];
    forall k | 0 <= k < |order| ensures order[k] in after && after[order[k]] != [] && after[order[k]][0] == firsts[k] {
      assert order[k] in groups && groups[order[k]] != [] && groups[order[k]][0] == firsts[k];
    }
  }

  lemma InOrderSnoc(rows: seq<Event>, r: Event, order: seq<string>, groups: map<string, seq<Event>>)
    requires InOrder(rows, order, groups) && Complete(rows, groups)
    ensures
      var after := groups[r.id := Get(groups, r.id) + [r]];
      InOrder(rows + [r], if r.id in groups then order else order + [r.id], after)
  {
    FirstsSnoc(rows, r);
    assert r.id in groups <==> Known(rows, r.id);
    assert Firsts(rows) + [] == Firsts(rows);
    LeadsSnoc(Firsts(rows), r, order, groups);
  }

  lemma NothingGrouped(rows: seq<Event>, order: seq<string>, groups: map<string, seq<Event>>)
    requires rows == [] && order == [] && groups == map[]
    ensures InOrder(rows, order, groups) && Complete(rows, groups)
  {}

  lemma WindowPrefix(rows: seq<Event>, i: nat, asOf: int)
    requires i < |rows|
    ensures InWindow(rows[..i + 1], asOf)
         == InWindow(rows[..i], asOf) + (if asOf - LOOKBACK_DAYS <= rows[i].paid <= asOf then [rows[i]] else [])
  {
    assert rows[..i + 1][..i] == rows[..i];
  }

  method GroupByIdentity(rows: seq<Event>, asOf: int) returns (order: seq<string>, groups: map<string, seq<Event>>)
    ensures InOrder(InWindow(rows, asOf), order, groups) && Complete(InWindow(rows, asOf), groups)
  {
    order, groups := [], map[];
    var i := 0;
    NothingGrouped(InWindow(rows[..i], asOf), order, groups);
    while i < |rows|
      invariant 0 <= i <= |rows|
      invariant InOrder(InWindow(rows[..i], asOf), order, groups) && Complete(InWindow(rows[..i], asOf), groups)
    {
      var r := rows[i];
      WindowPrefix(rows, i, asOf);
      if asOf - LOOKBACK_DAYS <= r.paid <= asOf {
        InOrderSnoc(InWindow(rows[..i], asOf), r, order, groups);
        CompleteSnoc(InWindow(rows[..i], asOf), r, groups);
        order := if r.id in groups then order else order + [r.id];
        groups := groups[r.id := Get(groups, r.id) + [r]];
      } else {
        assert InWindow(rows[..i + 1], asOf) == InWindow(rows[..i], asOf);
      }
      i := i + 1;
    }
    assert rows[..i] == rows;
  }

  predicate Agree(versions: seq<Event>)
    requires versions != []
  {
    forall e :: e in versions ==> Print(e) == Print(versions[0])
  }

  lemma GroupTellsConsistency(rows: seq<Event>, versions: seq<Event>, id: string)
    requires versions != [] && forall e :: e in versions <==> e in rows && e.id == id
    ensures Consistent(rows, id) <==> Agree(versions)
  {
    assert versions[0] in versions;
  }

  function Parties(versions: seq<Event>): set<string> {
    set e | e in versions :: e.party
  }

  /** The parties of those among `ids` whose rows disagree. */
  function Disputed(rows: seq<Event>, ids: seq<string>): set<string> {
    set e | e in rows && e.id in ids && !Consistent(rows, e.id) :: e.party
  }

  lemma DisputedSnoc(rows: seq<Event>, ids: seq<string>, id: string, versions: seq<Event>)
    requires forall e :: e in versions <==> e in rows && e.id == id
    ensures Disputed(rows, ids + [id]) == Disputed(rows, ids) + (if Consistent(rows, id) then {} else Parties(versions))
  {}

  ghost predicate ByParty(events: map<string, seq<Event>>, selected: seq<Event>) {
    forall party :: Get(events, party) == OfParty(selected, party)
  }

  lemma ByPartySnoc(events: map<string, seq<Event>>, selected: seq<Event>, e: Event)
    requires ByParty(events, selected)
    ensures ByParty(events[e.party := Get(events, e.party) + [e]], selected + [e])
  {
    assert (selected + [e])[..|selected|] == selected;
    var after := events[e.party := Get(events, e.party) + [e]];
    forall party ensures Get(after, party) == OfParty(selected + [e], party) {
      assert Get(events, party) == OfParty(selected, party);
      assert OfParty(selected, party) + [] == OfParty(selected, party);
    }
  }

  lemma KeepNext(firsts: seq<Event>, rows: seq<Event>, k: nat)
    requires k < |firsts|
    ensures Keep(firsts[..k + 1], rows)
        == Keep(firsts[..k], rows) + (if Consistent(rows, firsts[k].id) then [firsts[k]] else [])
  {
    assert firsts[..k + 1][..k] == firsts[..k];
  }

  lemma GroupAt(rows: seq<Event>, order: seq<string>, groups: map<string, seq<Event>>, k: nat)
    requires InOrder(rows, order, groups) && Complete(rows, groups) && k < |order|
    ensures order[k] in groups && groups[order[k]] != []
    ensures k < |Firsts(rows)| && groups[order[k]][0] == Firsts(rows)[k] && Firsts(rows)[k].id == order[k]
    ensures forall e :: e in groups[order[k]] <==> e in rows && e.id == order[k]
  {}

  /** The rows of the k-th identity, in the order they were read. */
  ghost predicate VersionsAt(rows: seq<Event>, k: nat, versions: seq<Event>) {
    && k < |Firsts(rows)| && versions != [] && versions[0] == Firsts(rows)[k]
    && forall e :: e in versions <==> e in rows && e.id == Firsts(rows)[k].id
  }

  /** `by_identity.values()`. */
  method Versions(rows: seq<Event>, asOf: int) returns (values: seq<seq<Event>>)
    ensures |values| == |Firsts(InWindow(rows, asOf))|
    ensures forall k :: 0 <= k < |values| ==> VersionsAt(InWindow(rows, asOf), k, values[k])
  {
    var order, groups := GroupByIdentity(rows, asOf);
    forall k | 0 <= k < |order| ensures order[k] in groups && VersionsAt(InWindow(rows, asOf), k, groups[order[k]]) {
      GroupAt(InWindow(rows, asOf), order, groups, k);
    }
    values := seq(|order|, k requires 0 <= k < |order| => groups[order[k]]);
  }

  function Ids(events: seq<Event>): seq<string> {
    seq(|events|, k requires 0 <= k < |events| => events[k].id)
  }

  lemma VersionsKept(rows: seq<Event>, k: nat, versions: seq<Event>)
    requires VersionsAt(rows, k, versions)
    ensures Keep(Firsts(rows)[..k + 1], rows)
        == Keep(Firsts(rows)[..k], rows) + (if Agree(versions) then [versions[0]] else [])
  {
    GroupTellsConsistency(rows, versions, Firsts(rows)[k].id);
    KeepNext(Firsts(rows), rows, k);
  }

  lemma DisputedNext(rows: seq<Event>, firsts: seq<Event>, k: nat, versions: seq<Event>)
    requires k < |firsts| && versions != [] && forall e :: e in versions <==> e in rows && e.id == firsts[k].id
    ensures Disputed(rows, Ids(firsts[..k + 1]))
        == Disputed(rows, Ids(firsts[..k])) + (if Agree(versions) then {} else Parties(versions))
  {
    var id := firsts[k].id;
    GroupTellsConsistency(rows, versions, id);
    DisputedSnoc(rows, Ids(firsts[..k]), id, versions);
    assert Ids(firsts[..k + 1]) == Ids(firsts[..k]) + [id];
  }

  lemma VersionsDisputed(rows: seq<Event>, k: nat, versions: seq<Event>)
    requires VersionsAt(rows, k, versions)
    ensures Disputed(rows, Ids(Firsts(rows)[..k + 1]))
         == Disputed(rows, Ids(Firsts(rows)[..k])) + (if Agree(versions) then {} else Parties(versions))
  {
    DisputedNext(rows, Firsts(rows), k, versions);
  }

  lemma NothingSelected(rows: seq<Event>, none: seq<Event>)
    requires none == []
    ensures Keep(none, rows) == [] && ByParty(map[], none) && Disputed(rows, Ids(none)) == {}
  {}

  /** `_history`: events by party, and the parties whose history must be asked about. */
  method History(rows: seq<Event>, asOf: int) returns (events: map<string, seq<Event>>, ambiguous: set<string>)
    ensures ByParty(events, Selected(InWindow(rows, asOf)))
    ensures ambiguous == Ambiguous(InWindow(rows, asOf))
  {
    var values := Versions(rows, asOf);
    ghost var window := InWindow(rows, asOf);
    var selected: seq<Event> := [];
    events, ambiguous := map[], {};
    var k := 0;
    NothingSelected(window, selected);
    assert Firsts(window)[..k] == selected;
    while k < |values|
      invariant 0 <= k <= |values|
      invariant selected == Keep(Firsts(window)[..k], window)
      invariant ByParty(events, selected)
      invariant ambiguous == Disputed(window, Ids(Firsts(window)[..k]))
    {
      var versions := values[k];
      VersionsKept(window, k, versions);
      VersionsDisputed(window, k, versions);
      if Agree(versions) {
        var first := versions[0];
        ByPartySnoc(events, selected, first);
        events := events[first.party := Get(events, first.party) + [first]];
        selected := selected + [first];
      } else {
        ambiguous := ambiguous + Parties(versions);
      }
      k := k + 1;
    }
    assert Firsts(window)[..k] == Firsts(window);
    AllTold(window, selected);
    ambiguous := ambiguous + ToldTwice(selected);
  }

  lemma AllTold(rows: seq<Event>, selected: seq<Event>)
    requires selected == Keep(Firsts(rows), rows)
    ensures selected == Selected(rows)
    ensures Disputed(rows, Ids(Firsts(rows))) + ToldTwice(selected) == Ambiguous(rows)
  {
    AllDisputed(rows);
  }

  lemma AllDisputed(rows: seq<Event>)
    ensures Disputed(rows, Ids(Firsts(rows))) == Contradicted(rows)
  {
    FirstsAreFirst(rows);
    forall e | e in rows ensures e.id in Ids(Firsts(rows)) {
      var f :| f in Firsts(rows) && f.id == e.id;
      var k :| 0 <= k < |Firsts(rows)| && Firsts(rows)[k] == f;
      assert Ids(Firsts(rows))[k] == e.id;
    }
  }
}
