/** What the dated invoice records promise over every run, and the one promise that needs a
    condition. */
module InvoiceGuarantees {
  import opened Options
  import opened Sums
  import opened InvoiceEvidence
  import opened Invoices
  import opened InvoiceSafety

  /** At every date, over all invoices, the allocations of one receipt or payment that are
      visible then cite one journal and total at most what that journal posted. */
  lemma NoReceiptIsDoubleCounted(today: int, book: Book, steps: seq<Step>, op: OperationId, d: int, i: nat)
    requires
      var s := Run(Fresh(today, book), steps);
      i < |s.allocations| && s.allocations[i].source.operation == op && Live(s.allocations[i], d)
    ensures
      var s := Run(Fresh(today, book), steps);
      var journal := s.allocations[i].source.journal;
      && journal in s.book.journals
      && SumBy(s.allocations, LiveOf(op, d)) <= s.book.journals[journal].amount
      && (forall j :: 0 <= j < |s.allocations| && s.allocations[j].source.operation == op && Live(s.allocations[j], d)
            ==> s.allocations[j].source.journal == journal)
  {
    var s := Run(Fresh(today, book), steps);
    RunKeepsInv(today, book, steps);
    assert NotDoubleCounted(s.allocations, op, d);
    assert AllocationOk(s, s.allocations[i]);
  }

  /** Whenever today's view states a remaining, it lies between zero and the selected amount. */
  lemma RemainingTodayInRange(today: int, book: Book, steps: seq<Step>, inv: InvoiceId)
    requires inv < |Run(Fresh(today, book), steps).invoices|
    requires Detail(Run(Fresh(today, book), steps), inv, Run(Fresh(today, book), steps).today).remaining.Some?
    ensures
      var s := Run(Fresh(today, book), steps);
      0 <= Detail(s, inv, s.today).remaining.value <= SelectedSource(s, inv, s.today).amount
  {
    var s := Run(Fresh(today, book), steps);
    RunKeepsInv(today, book, steps);
    DetailRemaining(s, inv, s.today);
    LiveTodayIsActive(s, inv);
    assert WithinInvoice(s, inv);
    forall i | 0 <= i < |s.allocations| ensures LiveOn(inv, s.today)(s.allocations[i]) >= 0 {
      assert AllocationOk(s, s.allocations[i]);
    }
    SumNonNegative(s.allocations, LiveOn(inv, s.today));
  }

  // ----- history is not rewritten -----

  lemma {:induction false} SameLines(s: Store, t: Store, inv: InvoiceId, d: int, n: nat)
    requires n <= |s.allocations| && n <= |t.allocations|
    requires forall i :: 0 <= i < n ==>
      && LineOf(s, i, d) == LineOf(t, i, d) && s.allocations[i].invoice == t.allocations[i].invoice
      && (Visible(s.allocations[i], d) <==> Visible(t.allocations[i], d))
    ensures LinesUpTo(s, inv, d, n) == LinesUpTo(t, inv, d, n)
  {
    if n > 0 {
      SameLines(s, t, inv, d, n - 1);
      assert LineOf(s, n - 1, d) == LineOf(t, n - 1, d);
    }
  }

  /** A view is determined by its source, its terms, its evidence and its lines. */
  lemma SameView(s: Store, t: Store, k: InvoiceId, d: int)
    requires k < |s.invoices| && k < |t.invoices| && SelectedSource(s, k, d) == SelectedSource(t, k, d)
    requires s.book == t.book && s.today == t.today && TermsFor(s.terms, k, d) == TermsFor(t.terms, k, d)
    requires LinesUpTo(s, k, d, |s.allocations|) == LinesUpTo(t, k, d, |t.allocations|)
    ensures Detail(s, k, d) == Detail(t, k, d)
  {}

  /** Adopting a replacement source today leaves every earlier day's view of every invoice as
      it was: source, terms, allocations, availability and remaining. */
  lemma AdoptionKeepsThePast(s: Store, inv: InvoiceId, version: nat, journal: JournalId, reasoned: bool, k: InvoiceId,
                             d: int)
    requires k < |s.invoices| && d < s.today
    ensures |Adopt(s, inv, version, journal, reasoned).invoices| == |s.invoices|
    ensures Detail(Adopt(s, inv, version, journal, reasoned), k, d) == Detail(s, k, d)
  {
    var t := Adopt(s, inv, version, journal, reasoned);
    if t != s {
      SnocRevision(s.revisions, t.revisions[|s.revisions|], k, d);
      SameLines(s, t, k, d, |s.allocations|);
      SameView(s, t, k, d);
    }
  }

  lemma ReversalKeepsThePast(s: Store, inv: InvoiceId, version: nat, id: nat, reasoned: bool, k: InvoiceId, d: int)
    requires k < |s.invoices| && d < s.today
    ensures |ReverseAllocation(s, inv, version, id, reasoned).invoices| == |s.invoices|
    ensures Detail(ReverseAllocation(s, inv, version, id, reasoned), k, d) == Detail(s, k, d)
  {
    var t := ReverseAllocation(s, inv, version, id, reasoned);
    SameLines(s, t, k, d, |s.allocations|);
    SameView(s, t, k, d);
  }

  /** An allocation changes no view dated before it takes effect. */
  lemma AllocationKeepsEarlierDays(s: Store, x: AllocateInput, k: InvoiceId, d: int)
    requires k < |s.invoices| && AllocateSource(s, x).Some?
    requires d < EffectiveDate(s, x.invoice, AllocateSource(s, x).value)
    ensures Detail(Allocate(s, x), k, d) == Detail(s, k, d)
  {
    var t := Allocate(s, x);
    SameLines(s, t, k, d, |s.allocations|);
    SameView(s, t, k, d);
  }

  /** New terms change no view dated before they take effect. */
  lemma {:induction false} TermsKeepEarlierDays(s: Store, step: Step, k: InvoiceId, d: int)
    requires k < |s.invoices| && step.StepTerms? && d < step.effective
    ensures k < |Apply(s, step).invoices| && Detail(Apply(s, step), k, d) == Detail(s, k, d)
  {
    var t := Apply(s, step);
    SameLines(s, t, k, d, |s.allocations|);
    if t != s {
      assert t.terms[..|s.terms|] == s.terms;
      SameView(s, t, k, d);
    }
  }

  // ----- remaining at past dates -----

  /** At every date every invoice is charged at most its source as of that date. */
  ghost predicate NeverOverdrawn(s: Store) {
    forall inv, d ::
      0 <= inv < |s.invoices| ==> SumBy(s.allocations, LiveOn(inv, d)) <= SelectedSource(s, inv, d).amount
  }

  /** What the caller would have to check, and the service checks for today only: the amount
      fits the invoice on every day from the allocation's effective date on. */
  ghost predicate FitsThroughout(s: Store, x: AllocateInput) {
    AllocateSource(s, x).Some? ==>
      forall d :: EffectiveDate(s, x.invoice, AllocateSource(s, x).value) <= d <= s.today ==>
        SumBy(s.allocations, LiveOn(x.invoice, d)) + x.amount <= SelectedSource(s, x.invoice, d).amount
  }

  /** After today nothing more becomes visible, so today's figures stand. */
  lemma FutureIsToday(s: Store, inv: InvoiceId, d: int)
    requires RowsOk(s) && d >= s.today && inv < |s.invoices|
    ensures SumBy(s.allocations, LiveOn(inv, d)) == SumBy(s.allocations, LiveOn(inv, s.today))
    ensures SelectedSource(s, inv, d) == SelectedSource(s, inv, s.today)
  {
    forall i | 0 <= i < |s.allocations|
      ensures LiveOn(inv, d)(s.allocations[i]) == LiveOn(inv, s.today)(s.allocations[i])
    {
      assert AllocationOk(s, s.allocations[i]);
    }
    SumPointwise(s.allocations, s.allocations, LiveOn(inv, d), LiveOn(inv, s.today));
    SameRevisions(s.revisions, inv, d, s.today);
  }

  lemma FitsFromEffectiveOn(s: Store, x: AllocateInput, d: int)
    requires Inv(s) && AllocateSource(s, x).Some? && FitsThroughout(s, x)
    requires d >= EffectiveDate(s, x.invoice, AllocateSource(s, x).value)
    ensures SumBy(s.allocations, LiveOn(x.invoice, d)) + x.amount <= SelectedSource(s, x.invoice, d).amount
  {
    ProofIsBacked(s, x.operation, x.journal);
    EffectiveDateInRange(s, x.invoice, AllocateSource(s, x).value);
    if d > s.today {
      FutureIsToday(s, x.invoice, d);
    }
  }

  /** One allocation keeps every day's remaining non-negative exactly when its amount fits
      every day from its effective date to today. */
  lemma AllocationKeepsPastExactly(s: Store, x: AllocateInput)
    requires Inv(s) && NeverOverdrawn(s)
    ensures NeverOverdrawn(Allocate(s, x)) <==> FitsThroughout(s, x)
  {
    var t := Allocate(s, x);
    if AllocateSource(s, x).Some? {
      var source := AllocateSource(s, x).value;
      var a := NewAllocation(s, x.invoice, source, x.amount);
      ProofIsBacked(s, x.operation, x.journal);
      EffectiveDateInRange(s, x.invoice, source);
      forall inv, d | 0 <= inv < |s.invoices|
        ensures SumBy(t.allocations, LiveOn(inv, d)) == SumBy(s.allocations, LiveOn(inv, d)) + LiveOn(inv, d)(a)
      {
        SumSnoc(s.allocations, a, LiveOn(inv, d));
      }
      if FitsThroughout(s, x) {
        forall inv, d | 0 <= inv < |t.invoices|
          ensures SumBy(t.allocations, LiveOn(inv, d)) <= SelectedSource(t, inv, d).amount
        {
          assert SumBy(s.allocations, LiveOn(inv, d)) <= SelectedSource(s, inv, d).amount;
          if inv == x.invoice && Live(a, d) {
            FitsFromEffectiveOn(s, x, d);
          }
        }
      } else {
        var d :| EffectiveDate(s, x.invoice, source) <= d <= s.today
          && SumBy(s.allocations, LiveOn(x.invoice, d)) + x.amount > SelectedSource(s, x.invoice, d).amount;
        assert Live(a, d) && SelectedSource(t, x.invoice, d) == SelectedSource(s, x.invoice, d);
      }
    }
  }

  /** A simple way to meet the condition: take effect no earlier than any reversal on the invoice. */
  ghost predicate FollowsReversals(s: Store, x: AllocateInput) {
    AllocateSource(s, x).Some? ==>
      forall i :: 0 <= i < |s.allocations| && s.allocations[i].invoice == x.invoice && s.allocations[i].reversedOn.Some?
        ==> s.allocations[i].reversedOn.value <= EffectiveDate(s, x.invoice, AllocateSource(s, x).value)
  }

  lemma FollowingReversalsFits(s: Store, x: AllocateInput)
    requires Inv(s) && FollowsReversals(s, x)
    ensures FitsThroughout(s, x)
  {
    if AllocateSource(s, x).Some? {
      var source := AllocateSource(s, x).value;
      ProofIsBacked(s, x.operation, x.journal);
      DetailRemaining(s, x.invoice, s.today);
      LiveTodayIsActive(s, x.invoice);
      forall d | EffectiveDate(s, x.invoice, source) <= d <= s.today
        ensures SumBy(s.allocations, LiveOn(x.invoice, d)) + x.amount <= SelectedSource(s, x.invoice, d).amount
      {
        forall i | 0 <= i < |s.allocations|
          ensures LiveOn(x.invoice, d)(s.allocations[i]) <= ActiveOn(x.invoice)(s.allocations[i])
        {
          assert AllocationOk(s, s.allocations[i]);
        }
        SumMonotone(s.allocations, LiveOn(x.invoice, d), ActiveOn(x.invoice));
        SourceSettledBy(s, x.invoice, source, d);
      }
    }
  }

  /** From an allocation's effective date on, the invoice's selected source is today's. */
  lemma SourceSettledBy(s: Store, inv: InvoiceId, source: Source, d: int)
    requires Inv(s) && inv < |s.invoices| && source.date <= s.today && d >= EffectiveDate(s, inv, source)
    ensures SelectedSource(s, inv, d) == SelectedSource(s, inv, s.today)
  {
    NewestIsLast(s.revisions, inv, s.today);
    forall i | 0 <= i < |s.revisions| && s.revisions[i].invoice == inv
      ensures s.revisions[i].effective <= d && s.revisions[i].effective <= s.today
    {
      assert LastRevision(s.revisions, inv, s.today).value.effective >= s.revisions[i].effective;
    }
    SameRevisions(s.revisions, inv, d, s.today);
  }

  lemma AdoptKeepsPastRemaining(s: Store, inv: InvoiceId, version: nat, journal: JournalId, reasoned: bool)
    requires Inv(s) && NeverOverdrawn(s)
    ensures NeverOverdrawn(Adopt(s, inv, version, journal, reasoned))
  {
    var t := Adopt(s, inv, version, journal, reasoned);
    if t != s {
      AdoptKeepsInv(s, inv, version, journal, reasoned);
      forall k, d | 0 <= k < |t.invoices| ensures SumBy(t.allocations, LiveOn(k, d)) <= SelectedSource(t, k, d).amount {
        assert SumBy(s.allocations, LiveOn(k, d)) <= SelectedSource(s, k, d).amount;
        if k == inv && d >= s.today {
          forall i | 0 <= i < |s.allocations| ensures LiveOn(k, d)(s.allocations[i]) == 0 {
            assert AllocationOk(s, s.allocations[i]);
          }
          SumZero(s.allocations, LiveOn(k, d));
          SelectedPositive(t, k, d);
        } else {
          SnocRevision(s.revisions, t.revisions[|s.revisions|], k, d);
        }
      }
    }
  }

  lemma ReverseKeepsPastRemaining(s: Store, inv: InvoiceId, version: nat, id: nat, reasoned: bool)
    requires Inv(s) && NeverOverdrawn(s)
    ensures NeverOverdrawn(ReverseAllocation(s, inv, version, id, reasoned))
  {
    var t := ReverseAllocation(s, inv, version, id, reasoned);
    if t != s {
      forall k, d | 0 <= k < |t.invoices| ensures SumBy(t.allocations, LiveOn(k, d)) <= SelectedSource(t, k, d).amount {
        assert SumBy(s.allocations, LiveOn(k, d)) <= SelectedSource(s, k, d).amount;
        SumUpdate(s.allocations, id, t.allocations[id], LiveOn(k, d));
        assert AllocationOk(s, s.allocations[id]);
      }
    }
  }

  lemma CreateKeepsPastRemaining(s: Store, x: CreateInput)
    requires Inv(s) && NeverOverdrawn(s)
    ensures NeverOverdrawn(Create(s, x))
  {
    var t := Create(s, x);
    if t != s {
      InvoiceRowsKeepInv(s, x);
      forall k, d | 0 <= k < |t.invoices| ensures SumBy(t.allocations, LiveOn(k, d)) <= SelectedSource(t, k, d).amount {
        if k < |s.invoices| {
          assert SumBy(s.allocations, LiveOn(k, d)) <= SelectedSource(s, k, d).amount;
        } else {
          forall i | 0 <= i < |s.allocations| ensures s.allocations[i].invoice != k {
            assert AllocationOk(s, s.allocations[i]);
          }
          SumZero(s.allocations, LiveOn(k, d));
          SelectedPositive(t, k, d);
        }
      }
    }
  }

  lemma StepKeepsPastRemaining(s: Store, step: Step)
    requires Inv(s) && NeverOverdrawn(s) && (step.StepAllocate? ==> FitsThroughout(s, step.input))
    ensures NeverOverdrawn(Apply(s, step))
  {
    match step
    case StepCreate(x) => CreateKeepsPastRemaining(s, x);
    case StepAllocate(x) => AllocationKeepsPastExactly(s, x);
    case StepReverse(inv, version, id, reasoned) => ReverseKeepsPastRemaining(s, inv, version, id, reasoned);
    case StepAdopt(inv, version, journal, reasoned) => AdoptKeepsPastRemaining(s, inv, version, journal, reasoned);
    case _ =>
      var t := Apply(s, step);
      forall k, d | 0 <= k < |t.invoices| ensures SumBy(t.allocations, LiveOn(k, d)) <= SelectedSource(t, k, d).amount {
        assert SumBy(s.allocations, LiveOn(k, d)) <= SelectedSource(s, k, d).amount;
      }
  }

  /** The store before the `i`-th step of a run. */
  function Before(today: int, book: Book, steps: seq<Step>, i: nat): Store
    requires i <= |steps|
  {
    Run(Fresh(today, book), steps[..i])
  }

  ghost predicate EveryAllocationFits(today: int, book: Book, steps: seq<Step>) {
    forall i ::
      0 <= i < |steps| && steps[i].StepAllocate? ==> FitsThroughout(Before(today, book, steps, i), steps[i].input)
  }

  lemma OneStepOn(today: int, book: Book, steps: seq<Step>, i: nat)
    requires i < |steps|
    ensures Inv(Before(today, book, steps, i))
    ensures Before(today, book, steps, i + 1) == Apply(Before(today, book, steps, i), steps[i])
  {
    RunKeepsInv(today, book, steps[..i]);
    assert steps[..i + 1][..i] == steps[..i];
  }

  lemma {:induction false} FittingRunIsNeverOverdrawn(today: int, book: Book, steps: seq<Step>, n: nat)
    requires n <= |steps| && EveryAllocationFits(today, book, steps)
    ensures NeverOverdrawn(Before(today, book, steps, n))
  {
    if n > 0 {
      FittingRunIsNeverOverdrawn(today, book, steps, n - 1);
      OneStepOn(today, book, steps, n - 1);
      StepKeepsPastRemaining(Before(today, book, steps, n - 1), steps[n - 1]);
    }
  }

  lemma {:induction false} NeverOverdrawnFits(today: int, book: Book, steps: seq<Step>, i: nat)
    requires i < |steps| && steps[i].StepAllocate?
    requires NeverOverdrawn(Before(today, book, steps, i)) && NeverOverdrawn(Before(today, book, steps, i + 1))
    ensures FitsThroughout(Before(today, book, steps, i), steps[i].input)
  {
    OneStepOn(today, book, steps, i);
    AllocationKeepsPastExactly(Before(today, book, steps, i), steps[i].input);
  }

  /** Throughout a run no day's remaining was ever negative, exactly when each allocation of
      the run fitted every day from its effective date to the day it was made. */
  lemma {:induction false} NeverOverdrawnExactly(today: int, book: Book, steps: seq<Step>)
    ensures (forall n :: 0 <= n <= |steps| ==> NeverOverdrawn(Before(today, book, steps, n)))
            <==> EveryAllocationFits(today, book, steps)
  {
    if EveryAllocationFits(today, book, steps) {
      forall n | 0 <= n <= |steps| ensures NeverOverdrawn(Before(today, book, steps, n)) {
        FittingRunIsNeverOverdrawn(today, book, steps, n);
      }
    }
    if forall n :: 0 <= n <= |steps| ==> NeverOverdrawn(Before(today, book, steps, n)) {
      forall i | 0 <= i < |steps| && steps[i].StepAllocate?
        ensures FitsThroughout(Before(today, book, steps, i), steps[i].input)
      {
        NeverOverdrawnFits(today, book, steps, i);
      }
    }
  }

  /** A day's stated remaining is never negative in a run whose allocations all fit. */
  lemma {:induction false} PastRemainingNonNegative(today: int, book: Book, steps: seq<Step>, inv: InvoiceId, d: int)
    requires EveryAllocationFits(today, book, steps)
    requires inv < |Run(Fresh(today, book), steps).invoices|
        && Detail(Run(Fresh(today, book), steps), inv, d).remaining.Some?
    ensures Detail(Run(Fresh(today, book), steps), inv, d).remaining.value >= 0
  {
    assert steps[..|steps|] == steps;
    FittingRunIsNeverOverdrawn(today, book, steps, |steps|);
    DetailRemaining(Run(Fresh(today, book), steps), inv, d);
  }
}
