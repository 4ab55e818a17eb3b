/** The remaining amount of an imported invoice: one dated payment snapshot and the events
    after it, or the full dated event history. */
module InvoiceBalance {
  import opened Options
  import opened Sums

  datatype Settlement = Settlement(id: string, invoice: string, receipt: bool, date: int, amount: int)
  datatype PaymentSnapshot = PaymentSnapshot(asOf: int, paid: int, included: Option<set<string>>)
  datatype Invoice = Invoice(id: string, reference: string, sale: bool, amount: int, snapshot: Option<PaymentSnapshot>)
  datatype Allocation = Allocation(invoice: string, reversed: bool, date: Option<int>, amount: int)

  datatype Reason = IdentityAmbiguous | CutoffAfterReport | EventsUnknown | PaymentDatesMissing
  datatype Balance = Unknown(reason: Reason) | Known(remaining: int, paid: int)

  /** The settlements of this invoice, in its direction, up to the report date. */
  predicate Relevant(inv: Invoice, s: Settlement, asOf: int) {
    s.invoice == inv.reference && s.receipt == inv.sale && s.date <= asOf
  }

  function Events(inv: Invoice, settlements: seq<Settlement>, asOf: int): seq<Settlement> {
    if settlements == [] then []
    else
      var s := settlements[|settlements| - 1];
      Events(inv, settlements[..|settlements| - 1], asOf) + (if Relevant(inv, s, asOf) then [s] else [])
  }

  predicate DistinctIds(events: seq<Settlement>) {
    forall i, j :: 0 <= i < j < |events| ==> events[i].id != events[j].id
  }

  function Paid(): Settlement -> int {
    (s: Settlement) => s.amount
  }

  /** The events a snapshot leaves to be added. */
  function PaidBeyond(snap: PaymentSnapshot): Settlement -> int {
    (s: Settlement) =>
      if s.date > snap.asOf && (snap.included.None? || s.id !in snap.included.value) then s.amount else 0
  }

  /** The events a snapshot stands for. */
  function PaidWithin(snap: PaymentSnapshot): Settlement -> int {
    (s: Settlement) =>
      if s.date > snap.asOf && (snap.included.None? || s.id !in snap.included.value) then 0 else s.amount
  }

  predicate Counts(inv: Invoice, a: Allocation) {
    !a.reversed && a.invoice == inv.id
  }

  function Allocated(inv: Invoice, asOf: int): Allocation -> int {
    (a: Allocation) => if Counts(inv, a) && a.date.Some? && a.date.value <= asOf then a.amount else 0
  }

  predicate UsesSnapshot(inv: Invoice, asOf: int) {
    inv.snapshot.Some? && inv.snapshot.value.asOf <= asOf
  }

  /** `invoice_remaining`. */
  function Remaining(inv: Invoice, settlements: seq<Settlement>, asOf: int, complete: bool,
                     allocations: seq<Allocation>): Balance
  {
    var events := Events(inv, settlements, asOf);
    if !DistinctIds(events) then Unknown(IdentityAmbiguous)
    else if inv.snapshot.Some? && inv.snapshot.value.asOf > asOf && !complete then Unknown(CutoffAfterReport)
    else if UsesSnapshot(inv, asOf) && inv.snapshot.value.included.None? then Unknown(EventsUnknown)
    else if inv.snapshot.None? && !complete then Unknown(PaymentDatesMissing)
    else if exists i :: 0 <= i < |allocations| && Counts(inv, allocations[i]) && allocations[i].date.None? then
      Unknown(PaymentDatesMissing)
    else
      var settled := if UsesSnapshot(inv, asOf)
                     then inv.snapshot.value.paid + SumBy(events, PaidBeyond(inv.snapshot.value))
                     else SumBy(events, Paid());
      var paid := settled + SumBy(allocations, Allocated(inv, asOf));
      Known(inv.amount - paid, paid)
  }

  /** The events of the invoice, one pass. */
  method RelevantEvents(inv: Invoice, settlements: seq<Settlement>, asOf: int) returns (events: seq<Settlement>)
    ensures events == Events(inv, settlements, asOf)
  {
    events := [];
    var i := 0;
    while i < |settlements|
      invariant 0 <= i <= |settlements| && events == Events(inv, settlements[..i], asOf)
    {
      assert settlements[..i + 1][..i] == settlements[..i];
      if Relevant(inv, settlements[i], asOf) {
        events := events + [settlements[i]];
      } else {
        assert events + [] == events;
      }
      i := i + 1;
    }
    assert settlements[..i] == settlements;
  }

  /** The service's loops over events and allocations. */
  method InvoiceRemaining(inv: Invoice, settlements: seq<Settlement>, asOf: int, complete: bool,
                          allocations: seq<Allocation>)
    returns (b: Balance)
    ensures b == Remaining(inv, settlements, asOf, complete, allocations)
    ensures b.Known? ==> b.paid + b.remaining == inv.amount
  {
    var events := RelevantEvents(inv, settlements, asOf);
    if !DistinctIds(events) {
      return Unknown(IdentityAmbiguous);
    }
    var known := complete;
    var usesSnapshot := false;
    if inv.snapshot.Some? {
      if inv.snapshot.value.asOf > asOf {
        if !complete {
          return Unknown(CutoffAfterReport);
        }
      } else {
        if inv.snapshot.value.included.None? {
          return Unknown(EventsUnknown);
        }
        known, usesSnapshot := true, true;
      }
    }
    if !known {
      return Unknown(PaymentDatesMissing);
    }
    var paid := if usesSnapshot then inv.snapshot.value.paid else 0;
    ghost var start := paid;
    ghost var weight := if usesSnapshot then PaidBeyond(inv.snapshot.value) else Paid();
    var j := 0;
    while j < |events|
      invariant 0 <= j <= |events| && paid == start + SumBy(events[..j], weight)
    {
      SumPrefix(events, j, weight);
      if !usesSnapshot
         || (events[j].date > inv.snapshot.value.asOf && events[j].id !in inv.snapshot.value.included.value)
      {
        paid := paid + events[j].amount;
      }
      j := j + 1;
    }
    assert events[..j] == events;
    ghost var settled := paid;
    var k := 0;
    while k < |allocations|
      invariant 0 <= k <= |allocations| && paid == settled + SumBy(allocations[..k], Allocated(inv, asOf))
      invariant forall l :: 0 <= l < k && Counts(inv, allocations[l]) ==> allocations[l].date.Some?
    {
      var a := allocations[k];
      SumPrefix(allocations, k, Allocated(inv, asOf));
      if Counts(inv, a) {
        if a.date.None? {
          return Unknown(PaymentDatesMissing);
        }
        if a.date.value <= asOf {
          paid := paid + a.amount;
        }
      }
      k := k + 1;
    }
    assert allocations[..k] == allocations;
    b := Known(inv.amount - paid, paid);
  }

  // ----- the snapshot refines the replay -----

  lemma SnapshotSplitsEvents(events: seq<Settlement>, snap: PaymentSnapshot)
    ensures SumBy(events, Paid()) == SumBy(events, PaidWithin(snap)) + SumBy(events, PaidBeyond(snap))
  {
    SumLinear(events, PaidWithin(snap), PaidBeyond(snap), Paid(), 1, 1);
  }

  /** A snapshot gives the answer of the complete event history exactly when its paid amount
      is the sum of the events it stands for: those up to its date, and those it names. */
  lemma SnapshotRefinesReplayExactly(inv: Invoice, settlements: seq<Settlement>, asOf: int, complete: bool,
                                     allocations: seq<Allocation>)
    requires UsesSnapshot(inv, asOf) && inv.snapshot.value.included.Some?
    requires Remaining(inv, settlements, asOf, complete, allocations).Known?
    ensures
      Remaining(inv, settlements, asOf, complete, allocations)
        == Remaining(inv.(snapshot := None), settlements, asOf, true, allocations)
      <==> inv.snapshot.value.paid == SumBy(Events(inv, settlements, asOf), PaidWithin(inv.snapshot.value))
  {
    var replay := inv.(snapshot := None);
    SameEvents(inv, replay, settlements, asOf);
    SnapshotSplitsEvents(Events(inv, settlements, asOf), inv.snapshot.value);
    SumPointwise(allocations, allocations, Allocated(inv, asOf), Allocated(replay, asOf));
    forall i | 0 <= i < |allocations| ensures Counts(inv, allocations[i]) <==> Counts(replay, allocations[i]) {}
  }

  lemma {:induction false} SameEvents(a: Invoice, b: Invoice, settlements: seq<Settlement>, asOf: int)
    requires a.reference == b.reference && a.sale == b.sale
    ensures Events(a, settlements, asOf) == Events(b, settlements, asOf)
    decreases |settlements|
  {
    if settlements != [] {
      SameEvents(a, b, settlements[..|settlements| - 1], asOf);
    }
  }

  function PaidUpTo(d: int): Settlement -> int {
    (s: Settlement) => if s.date <= d then s.amount else 0
  }

  /** A faithful snapshot: it pays exactly the events up to its date and names exactly them. */
  lemma FaithfulSnapshotReplays(inv: Invoice, settlements: seq<Settlement>, asOf: int, complete: bool,
                                allocations: seq<Allocation>)
    requires UsesSnapshot(inv, asOf)
    requires
      var snap, events := inv.snapshot.value, Events(inv, settlements, asOf);
      && snap.included == Some(set i | 0 <= i < |events| && events[i].date <= snap.asOf :: events[i].id)
      && snap.paid == SumBy(events, PaidUpTo(snap.asOf))
    ensures Remaining(inv, settlements, asOf, complete, allocations)
         == Remaining(inv.(snapshot := None), settlements, asOf, true, allocations)
  {
    var snap, events := inv.snapshot.value, Events(inv, settlements, asOf);
    SameEvents(inv, inv.(snapshot := None), settlements, asOf);
    forall i | 0 <= i < |allocations|
      ensures Counts(inv, allocations[i]) <==> Counts(inv.(snapshot := None), allocations[i])
    {}
    if Remaining(inv, settlements, asOf, complete, allocations).Known? {
      forall i | 0 <= i < |events| ensures PaidWithin(snap)(events[i]) == PaidUpTo(snap.asOf)(events[i]) {}
      SumPointwise(events, events, PaidWithin(snap), PaidUpTo(snap.asOf));
      SnapshotRefinesReplayExactly(inv, settlements, asOf, complete, allocations);
    }
  }

  // ----- over the recorded fields -----

  /** What the events of an invoice pay by a day: its reference, its direction, dated by then. */
  function PaidTo(inv: Invoice, asOf: int): Settlement -> int {
    (s: Settlement) =>
      if s.invoice == inv.reference && s.receipt == inv.sale && s.date <= asOf then s.amount else 0
  }

  /** Those a snapshot neither covers by its date nor names. */
  function PaidSince(inv: Invoice, asOf: int, cutoff: int, included: set<string>): Settlement -> int {
    (s: Settlement) =>
      if s.invoice == inv.reference && s.receipt == inv.sale && cutoff < s.date <= asOf && s.id !in included
      then s.amount else 0
  }

  /** What its unreversed allocations pay by a day. */
  function AllocatedTo(inv: Invoice, asOf: int): Allocation -> int {
    (a: Allocation) =>
      if a.invoice == inv.id && !a.reversed && a.date.Some? && a.date.value <= asOf then a.amount else 0
  }

  lemma {:induction false} EventsSum(inv: Invoice, settlements: seq<Settlement>, asOf: int, f: Settlement -> int,
                                     g: Settlement -> int)
    requires forall s :: g(s) == if Relevant(inv, s, asOf) then f(s) else 0
    ensures SumBy(Events(inv, settlements, asOf), f) == SumBy(settlements, g)
    decreases |settlements|
  {
    if settlements != [] {
      var front, s := settlements[..|settlements| - 1], settlements[|settlements| - 1];
      EventsSum(inv, front, asOf, f, g);
      if Relevant(inv, s, asOf) {
        SumSnoc(Events(inv, front, asOf), s, f);
      } else {
        assert Events(inv, settlements, asOf) == Events(inv, front, asOf);
      }
    }
  }

  /** A known balance, over the records themselves: the invoice amount less what its events and
      its allocations paid by the day, events a used snapshot stands for replaced by its paid
      amount. */
  lemma {:induction false} KnownBalanceIsPaid(inv: Invoice, settlements: seq<Settlement>, asOf: int, complete: bool,
                                              allocations: seq<Allocation>)
    requires Remaining(inv, settlements, asOf, complete, allocations).Known?
    ensures
      var b := Remaining(inv, settlements, asOf, complete, allocations);
      var settled := SumBy(allocations, AllocatedTo(inv, asOf));
      && b.remaining == inv.amount - b.paid
      && (inv.snapshot.None? || inv.snapshot.value.asOf > asOf ==>
            complete && b.paid == SumBy(settlements, PaidTo(inv, asOf)) + settled)
      && (inv.snapshot.Some? && inv.snapshot.value.asOf <= asOf ==>
            var snap := inv.snapshot.value;
            && snap.included.Some?
            && b.paid == snap.paid + settled
                         + SumBy(settlements, PaidSince(inv, asOf, snap.asOf, snap.included.value)))
  {
    SumPointwise(allocations, allocations, Allocated(inv, asOf), AllocatedTo(inv, asOf));
    EventsSum(inv, settlements, asOf, Paid(), PaidTo(inv, asOf));
    if UsesSnapshot(inv, asOf) {
      var snap := inv.snapshot.value;
      EventsSum(inv, settlements, asOf, PaidBeyond(snap), PaidSince(inv, asOf, snap.asOf, snap.included.value));
    }
  }

  lemma {:induction false} EventsAreRelevant(inv: Invoice, settlements: seq<Settlement>, asOf: int, i: nat, j: nat)
    requires i < j < |settlements| && settlements[i].id == settlements[j].id
    requires Relevant(inv, settlements[i], asOf) && Relevant(inv, settlements[j], asOf)
    ensures !DistinctIds(Events(inv, settlements, asOf))
    decreases |settlements|
  {
    var front, last := settlements[..|settlements| - 1], settlements[|settlements| - 1];
    var es := Events(inv, settlements, asOf);
    if j < |front| {
      EventsAreRelevant(inv, front, asOf, i, j);
      var a, b :| 0 <= a < b < |Events(inv, front, asOf)|
        && Events(inv, front, asOf)[a].id == Events(inv, front, asOf)[b].id;
      assert es[a].id == es[b].id;
    } else {
      RelevantIsListed(inv, front, asOf, i);
      var a :| 0 <= a < |Events(inv, front, asOf)| && Events(inv, front, asOf)[a] == front[i];
      assert es[a].id == es[|es| - 1].id;
    }
  }

  lemma {:induction false} RelevantIsListed(inv: Invoice, settlements: seq<Settlement>, asOf: int, i: nat)
    requires i < |settlements| && Relevant(inv, settlements[i], asOf)
    ensures settlements[i] in Events(inv, settlements, asOf)
    decreases |settlements|
  {
    if i < |settlements| - 1 {
      RelevantIsListed(inv, settlements[..|settlements| - 1], asOf, i);
    }
  }

  /** Two events of the invoice under one id. */
  ghost predicate RepeatedId(inv: Invoice, settlements: seq<Settlement>, asOf: int) {
    exists i, j ::
      && 0 <= i < j < |settlements| && settlements[i].id == settlements[j].id
      && Relevant(inv, settlements[i], asOf) && Relevant(inv, settlements[j], asOf)
  }

  lemma {:induction false} EventsRepeat(inv: Invoice, settlements: seq<Settlement>, asOf: int)
    requires !DistinctIds(Events(inv, settlements, asOf))
    ensures RepeatedId(inv, settlements, asOf)
    decreases |settlements|
  {
    if settlements != [] {
      var front, last := settlements[..|settlements| - 1], settlements[|settlements| - 1];
      if !DistinctIds(Events(inv, front, asOf)) {
        EventsRepeat(inv, front, asOf);
        var i, j :| 0 <= i < j < |front| && front[i].id == front[j].id
          && Relevant(inv, front[i], asOf) && Relevant(inv, front[j], asOf);
        assert settlements[i] == front[i] && settlements[j] == front[j];
      } else {
        var es := Events(inv, front, asOf);
        var a :| 0 <= a < |es| && es[a].id == last.id;
        var i := ListedIsRelevant(inv, front, asOf, es[a]);
        assert settlements[i] == front[i];
      }
    }
  }

  lemma {:induction false} ListedIsRelevant(inv: Invoice, settlements: seq<Settlement>, asOf: int, e: Settlement)
    returns (i: nat)
    requires e in Events(inv, settlements, asOf)
    ensures i < |settlements| && settlements[i] == e && Relevant(inv, e, asOf)
    decreases |settlements|
  {
    var front, last := settlements[..|settlements| - 1], settlements[|settlements| - 1];
    if Relevant(inv, last, asOf) && e == last {
      i := |front|;
    } else {
      i := ListedIsRelevant(inv, front, asOf, e);
    }
  }

  /** Why a balance is unknown, in the source's order: an event id told twice, a snapshot from
      after the day, one that does not name its events, or payments without dates. */
  lemma {:induction false} BalanceIsUnknownExactly(inv: Invoice, settlements: seq<Settlement>, asOf: int,
                                                   complete: bool, allocations: seq<Allocation>)
    ensures
      var b := Remaining(inv, settlements, asOf, complete, allocations);
      var undated := exists i ::
        && 0 <= i < |allocations| && allocations[i].invoice == inv.id
        && !allocations[i].reversed && allocations[i].date.None?;
      if RepeatedId(inv, settlements, asOf) then b == Unknown(IdentityAmbiguous)
      else if inv.snapshot.Some? && inv.snapshot.value.asOf > asOf && !complete then b == Unknown(CutoffAfterReport)
      else if inv.snapshot.Some? && inv.snapshot.value.asOf <= asOf && inv.snapshot.value.included.None? then
        b == Unknown(EventsUnknown)
      else if (inv.snapshot.None? && !complete) || undated then b == Unknown(PaymentDatesMissing)
      else b.Known?
  {
    if RepeatedId(inv, settlements, asOf) {
      var i, j :| 0 <= i < j < |settlements| && settlements[i].id == settlements[j].id
        && Relevant(inv, settlements[i], asOf) && Relevant(inv, settlements[j], asOf);
      EventsAreRelevant(inv, settlements, asOf, i, j);
    } else if !DistinctIds(Events(inv, settlements, asOf)) {
      EventsRepeat(inv, settlements, asOf);
    }
    assert forall i :: 0 <= i < |allocations| ==>
      (Counts(inv, allocations[i]) <==> allocations[i].invoice == inv.id && !allocations[i].reversed);
  }
}
