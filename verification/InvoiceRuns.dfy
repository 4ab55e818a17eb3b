/** A concrete run whose view of a past day states a negative remaining. */
module InvoiceRuns {
  import opened Options
  import opened Sums
  import opened InvoiceEvidence
  import opened Invoices
  import opened InvoiceSafety
  import opened InvoiceGuarantees

  function Posted(date: int): Journal {
    Journal(date, None, None, "p", 100)
  }

  const RECEIPTS := Book(
    map["j0" := Posted(0), "j1" := Posted(1), "j2" := Posted(1)],
    map["sale" := Operation(SaleService, Some("j0"), "S"), "r1" := Operation(Receipt, Some("j1"), "A"),
        "r2" := Operation(Receipt, Some("j2"), "B")],
    {"j0", "j1", "j2"})
  const NO_DATES := Payload(None, true, None, true)

  function Sale0(): Source {
    Source("sale", SaleService, "j0", "p", 0, 100, None)
  }

  function Receipt1(): Source {
    Source("r1", Receipt, "j1", "p", 1, 100, None)
  }

  function Receipt2(): Source {
    Source("r2", Receipt, "j2", "p", 1, 100, None)
  }

  function First(reversedOn: Option<int>): Allocation {
    Allocation(0, Receipt1(), 100, None, reversedOn)
  }

  function Second(): Allocation {
    Allocation(0, Receipt2(), 100, None, None)
  }

  function Sold(today: int, version: nat, rows: seq<Allocation>): Store {
    Store(today, RECEIPTS, [Invoice("sale", Sale, Sale0(), version)], rows, [], [Terms(0, 1, 0, NO_DATES)])
  }

  // ----- the evidence stands on every day -----

  lemma NothingReversed(j: JournalId, asOf: int)
    ensures !Reversed(RECEIPTS, j, asOf)
  {
    assert forall r :: r in RECEIPTS.journals ==> RECEIPTS.journals[r].reversalOf.None?;
  }

  lemma Proved(op: OperationId, source: Source, asOf: int, today: int, chosen: Option<JournalId>)
    requires source in [Sale0(), Receipt1(), Receipt2()] && op == source.operation
    requires source.date <= asOf && source.date <= today && (chosen == None || chosen == Some(source.journal))
    ensures Proof(RECEIPTS, op, asOf, today, chosen) == Some(source)
  {
    NothingReversed(source.journal, asOf);
  }

  lemma OnlyTerms(ts: seq<Terms>, d: int)
    requires ts == [Terms(0, 1, 0, NO_DATES)] && d >= 0
    ensures TermsFor(ts, 0, d) == Some(ts[0])
  {
    assert ts[..0] == [];
  }

  predicate CurrentRows(s: Store, d: int, n: nat)
    requires n <= |s.allocations|
  {
    forall i :: 0 <= i < n ==> Current(s, s.allocations[i].source, d)
  }

  lemma {:induction false} CurrentLines(s: Store, d: int, n: nat)
    requires n <= |s.allocations| && CurrentRows(s, d, n)
    ensures forall i :: 0 <= i < |LinesUpTo(s, 0, d, n)| ==> LinesUpTo(s, 0, d, n)[i].current
  {
    if n > 0 {
      CurrentLines(s, d, n - 1);
    }
  }

  /** With its receipts standing, a view states the amount less what is live that day. */
  lemma {:induction false} RemainingIs(s: Store, version: nat, rows: seq<Allocation>, d: int)
    requires 1 <= d <= s.today && s == Sold(s.today, version, rows)
    requires forall i :: 0 <= i < |rows| ==> rows[i].source == Receipt1() || rows[i].source == Receipt2()
    ensures Detail(s, 0, d).remaining == Some(100 - SumBy(rows, LiveOn(0, d)))
  {
    Proved("sale", Sale0(), d, s.today, Some("j0"));
    OnlyTerms(s.terms, d);
    forall i | 0 <= i < |rows| ensures Current(s, rows[i].source, d) {
      Proved(rows[i].source.operation, rows[i].source, d, s.today, Some(rows[i].source.journal));
    }
    CurrentLines(s, d, |rows|);
    DetailRemaining(s, 0, d);
  }

  // ----- the steps -----

  const CREATE := StepCreate(CreateInput("sale", "j0", "S", NO_DATES))
  const REVERSE := StepReverse(0, 2, 0, true)

  function Use(source: Source, version: nat): AllocateInput {
    AllocateInput(0, version, source.operation, None, source.journal, 100)
  }

  lemma SaleIsCreated(s: Store)
    requires s == Fresh(5, RECEIPTS)
    ensures Apply(s, CREATE) == Sold(5, 1, [])
  {
    Proved("sale", Sale0(), 5, 5, None);
    var t := s.(invoices := [] + [Invoice("sale", Sale, Sale0(), 1)]);
    assert TermsAccepted(t, 0, NO_DATES, 0);
    assert t.invoices == Sold(5, 1, []).invoices;
    assert AppendTerms(t, 0, NO_DATES, 0).terms == Sold(5, 1, []).terms;
  }

  /** Nothing on the invoice is live, and this receipt was never used. */
  lemma {:induction false} ReceiptIsFree(s: Store, version: nat, rows: seq<Allocation>, source: Source)
    requires s.today >= 1 && s == Sold(s.today, version, rows) && (source == Receipt1() || source == Receipt2())
    requires rows == [] || (rows == [First(Some(s.today))] && source == Receipt2())
    ensures AllocateSource(s, Use(source, version)) == Some(source)
    ensures NewAllocation(s, 0, source, 100) == Allocation(0, source, 100, None, None)
  {
    SumZero(rows, LiveOn(0, s.today));
    RemainingIs(s, version, rows, s.today);
    Proved(source.operation, source, s.today, s.today, None);
    CapacityIsWhole(s, rows, source);
    assert !EverReversed(s, source.operation);
    assert EffectiveDate(s, 0, source) == 1;
  }

  lemma CapacityIsWhole(s: Store, rows: seq<Allocation>, source: Source)
    requires s.allocations == rows && source.amount == 100
    requires rows == [] || (|rows| == 1 && rows[0].source.operation != source.operation)
    ensures Capacity(s, source) == Some(100)
  {
    SumZero(rows, ActiveOf(source.operation));
  }

  lemma {:induction false} ReceiptIsAllocated(s: Store, version: nat, rows: seq<Allocation>, source: Source)
    requires s.today >= 1 && s == Sold(s.today, version, rows) && (source == Receipt1() || source == Receipt2())
    requires rows == [] || (rows == [First(Some(s.today))] && source == Receipt2())
    ensures Apply(s, StepAllocate(Use(source, version)))
         == Sold(s.today, version + 1, rows + [Allocation(0, source, 100, None, None)])
  {
    ReceiptIsFree(s, version, rows, source);
  }

  lemma FirstIsReversed(s: Store)
    requires s == Sold(5, 2, [First(None)])
    ensures Apply(Apply(s, StepClock(10)), REVERSE) == Sold(10, 3, [First(Some(10))])
  {
    assert Apply(s, StepClock(10)) == Sold(10, 2, [First(None)]);
    assert [First(None)][0 := First(Some(10))] == [First(Some(10))];
  }

  lemma BothLiveOnDaySeven(rows: seq<Allocation>, first: Allocation, second: Allocation)
    requires first == First(Some(10)) && second == Second() && rows == [first] + [second]
    ensures SumBy(rows, LiveOn(0, 7)) == 200
  {
    var w := LiveOn(0, 7);
    SumSnoc([], first, w);
    assert [] + [first] == [first];
    SumSnoc([first], second, w);
    assert w(first) == 100 && w(second) == 100;
  }

  lemma {:induction false} OverdrawnOnDaySeven(s: Store, rows: seq<Allocation>)
    requires s == Sold(10, 4, rows) && rows == [First(Some(10))] + [Second()]
    ensures Detail(s, 0, 7).remaining == Some(-100)
  {
    BothLiveOnDaySeven(rows, First(Some(10)), Second());
    RemainingIs(s, 4, rows, 7);
  }

  // ----- the run -----

  function Start(): seq<Step> {
    [] + [CREATE] + [StepAllocate(Use(Receipt1(), 1))]
  }

  lemma StartSells()
    ensures Run(Fresh(5, RECEIPTS), Start()) == Sold(5, 2, [First(None)])
  {
    var s0 := Fresh(5, RECEIPTS);
    RunOneMore(s0, [], CREATE);
    RunOneMore(s0, [] + [CREATE], StepAllocate(Use(Receipt1(), 1)));
    SaleIsCreated(Run(s0, []));
    ReceiptIsAllocated(Run(s0, [] + [CREATE]), 1, [], Receipt1());
    assert [] + [First(None)] == [First(None)];
  }

  lemma RunOneMore(s: Store, steps: seq<Step>, step: Step)
    ensures Run(s, steps + [step]) == Apply(Run(s, steps), step)
  {
    assert (steps + [step])[..|steps|] == steps;
  }

  /** Allocate a receipt, reverse it later, allocate an older one: between their common date
      and the reversal both were visible, and that day's view of the invoice of 100 states a
      remaining of -100. */
  lemma PastRemainingCanBeNegative()
    ensures
      var s := Run(Fresh(5, RECEIPTS), Start() + [StepClock(10)] + [REVERSE] + [StepAllocate(Use(Receipt2(), 3))]);
      |s.invoices| == 1 && s.today == 10 && Detail(s, 0, 7).remaining == Some(-100)
  {
    var s0, later := Fresh(5, RECEIPTS), Start() + [StepClock(10)] + [REVERSE];
    RunOneMore(s0, Start(), StepClock(10));
    RunOneMore(s0, Start() + [StepClock(10)], REVERSE);
    RunOneMore(s0, later, StepAllocate(Use(Receipt2(), 3)));
    StartSells();
    FirstIsReversed(Run(s0, Start()));
    ReceiptIsAllocated(Run(s0, later), 3, [First(Some(10))], Receipt2());
    var rows := [First(Some(10))] + [Second()];
    OverdrawnOnDaySeven(Run(s0, later + [StepAllocate(Use(Receipt2(), 3))]), rows);
  }
}
