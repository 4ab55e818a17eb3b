/** Receipts are never double-counted at any historical date, and remaining stays in range. */
module InvoiceSafety {
  import opened Options
  import opened Sums
  import opened InvoiceEvidence
  import opened Invoices

  // ----- the invariant -----

  predicate Backed(b: Book, source: Source) {
    source.journal in b.journals && b.journals[source.journal].amount == source.amount && source.amount > 0
  }

  predicate AllocationOk(s: Store, a: Allocation) {
    && a.invoice < |s.invoices| && a.amount > 0 && Backed(s.book, a.source)
    && a.source.date <= s.today && Effective(a) <= s.today
    && (a.reversedOn.Some? ==> a.reversedOn.value <= s.today)
  }

  ghost predicate RowsOk(s: Store) {
    && (forall i :: 0 <= i < |s.allocations| ==> AllocationOk(s, s.allocations[i]))
    && (forall i :: 0 <= i < |s.invoices| ==> s.invoices[i].source.amount > 0)
    && (forall i :: 0 <= i < |s.revisions| ==> s.revisions[i].source.amount > 0 && s.revisions[i].effective <= s.today)
  }

  /** Revisions are dated and numbered in the order they were made. */
  ghost predicate Ordered(rs: seq<Revision>) {
    && (forall i, j :: 0 <= i < j < |rs| ==> rs[i].effective <= rs[j].effective)
    && (forall i, j :: 0 <= i < j < |rs| && rs[i].invoice == rs[j].invoice ==> rs[i].version < rs[j].version)
    && (forall i :: 0 <= i < |rs| ==> rs[i].version <= SumBy(rs, RevisionCount(rs[i].invoice)))
  }

  /** At day `d` the visible allocations of one operation cite one journal and stay within it. */
  ghost predicate NotDoubleCounted(rows: seq<Allocation>, op: OperationId, d: int) {
    && (forall i, j :: 0 <= i < |rows| && 0 <= j < |rows|
          && rows[i].source.operation == op && Live(rows[i], d) && rows[j].source.operation == op && Live(rows[j], d)
          ==> rows[i].source.journal == rows[j].source.journal)
    && (forall i :: 0 <= i < |rows| && rows[i].source.operation == op && Live(rows[i], d)
          ==> SumBy(rows, LiveOf(op, d)) <= rows[i].source.amount)
  }

  function ActiveOn(inv: InvoiceId): Allocation -> int {
    (a: Allocation) => if a.invoice == inv && a.reversedOn.None? then a.amount else 0
  }

  ghost predicate WithinInvoice(s: Store, inv: InvoiceId)
    requires inv < |s.invoices|
  {
    SumBy(s.allocations, ActiveOn(inv)) <= SelectedSource(s, inv, s.today).amount
  }

  ghost predicate Inv(s: Store) {
    && RowsOk(s) && Ordered(s.revisions)
    && (forall op, d :: NotDoubleCounted(s.allocations, op, d))
    && (forall inv :: 0 <= inv < |s.invoices| ==> WithinInvoice(s, inv))
  }

  // ----- the newest revision is the last one made -----

  lemma {:induction false} NewestIsLast(rs: seq<Revision>, inv: InvoiceId, d: int)
    requires forall i, j :: 0 <= i < j < |rs| ==> rs[i].effective <= rs[j].effective
    requires forall i, j :: 0 <= i < j < |rs| && rs[i].invoice == rs[j].invoice ==> rs[i].version < rs[j].version
    ensures NewestRevision(rs, inv, d) == LastRevision(rs, inv, d)
    ensures NewestRevision(rs, inv, d).Some? ==>
      var r := NewestRevision(rs, inv, d).value; r in rs && r.invoice == inv && r.effective <= d
    ensures forall i :: 0 <= i < |rs| && rs[i].invoice == inv && rs[i].effective <= d ==>
      NewestRevision(rs, inv, d).Some? && NewestRevision(rs, inv, d).value.effective >= rs[i].effective
      && NewestRevision(rs, inv, d).value.version >= rs[i].version
    decreases |rs|
  {
    if rs != [] {
      NewestIsLast(rs[..|rs| - 1], inv, d);
    }
  }

  /** Days at which exactly the same revisions are effective select the same one. */
  lemma {:induction false} SameRevisions(rs: seq<Revision>, inv: InvoiceId, d: int, e: int)
    requires forall i :: 0 <= i < |rs| && rs[i].invoice == inv ==> (rs[i].effective <= d <==> rs[i].effective <= e)
    ensures NewestRevision(rs, inv, d) == NewestRevision(rs, inv, e)
    decreases |rs|
  {
    if rs != [] {
      SameRevisions(rs[..|rs| - 1], inv, d, e);
    }
  }

  lemma SnocRevision(rs: seq<Revision>, r: Revision, inv: InvoiceId, d: int)
    requires r.invoice != inv || r.effective > d
    ensures NewestRevision(rs + [r], inv, d) == NewestRevision(rs, inv, d)
  {
    assert (rs + [r])[..|rs|] == rs;
  }

  lemma {:induction false} NewestMatches(rs: seq<Revision>, inv: InvoiceId, d: int)
    ensures NewestRevision(rs, inv, d).Some? ==>
      var r := NewestRevision(rs, inv, d).value; r in rs && r.invoice == inv && r.effective <= d
    decreases |rs|
  {
    if rs != [] {
      NewestMatches(rs[..|rs| - 1], inv, d);
    }
  }

  lemma SelectedPositive(s: Store, inv: InvoiceId, d: int)
    requires RowsOk(s) && inv < |s.invoices|
    ensures SelectedSource(s, inv, d).amount > 0
  {
    NewestMatches(s.revisions, inv, d);
  }

  // ----- sums over allocations when one is appended or reversed -----

  lemma AppendedSums(rows: seq<Allocation>, a: Allocation)
    ensures forall op, d :: SumBy(rows + [a], LiveOf(op, d)) == SumBy(rows, LiveOf(op, d)) + LiveOf(op, d)(a)
    ensures forall inv :: SumBy(rows + [a], ActiveOn(inv)) == SumBy(rows, ActiveOn(inv)) + ActiveOn(inv)(a)
  {
    forall op, d ensures SumBy(rows + [a], LiveOf(op, d)) == SumBy(rows, LiveOf(op, d)) + LiveOf(op, d)(a) {
      SumSnoc(rows, a, LiveOf(op, d));
    }
    forall inv ensures SumBy(rows + [a], ActiveOn(inv)) == SumBy(rows, ActiveOn(inv)) + ActiveOn(inv)(a) {
      SumSnoc(rows, a, ActiveOn(inv));
    }
  }

  /** From today on, or when nothing of the operation was ever reversed, what is visible is
      among what is active. */
  lemma LiveWithinActive(s: Store, op: OperationId, d: int)
    requires RowsOk(s)
    requires d >= s.today || !EverReversed(s, op)
    ensures SumBy(s.allocations, LiveOf(op, d)) <= SumBy(s.allocations, ActiveOf(op))
    ensures forall i :: 0 <= i < |s.allocations| && s.allocations[i].source.operation == op && Live(s.allocations[i], d)
              ==> s.allocations[i].reversedOn.None?
  {
    forall i | 0 <= i < |s.allocations| && s.allocations[i].source.operation == op && Live(s.allocations[i], d)
      ensures s.allocations[i].reversedOn.None?
    {
      assert AllocationOk(s, s.allocations[i]);
    }
    forall i | 0 <= i < |s.allocations| ensures LiveOf(op, d)(s.allocations[i]) <= ActiveOf(op)(s.allocations[i]) {
      assert AllocationOk(s, s.allocations[i]);
    }
    SumMonotone(s.allocations, LiveOf(op, d), ActiveOf(op));
  }

  // ----- detail lines and sums -----

  lemma {:induction false} LinesSum(s: Store, inv: InvoiceId, d: int, n: nat)
    requires n <= |s.allocations| && !AnyInvalid(LinesUpTo(s, inv, d, n))
    ensures SumBy(LinesUpTo(s, inv, d, n), Counted()) == SumBy(s.allocations[..n], LiveOn(inv, d))
  {
    if n > 0 {
      var a := s.allocations[n - 1];
      var rest := LinesUpTo(s, inv, d, n - 1);
      SumPrefix(s.allocations, n - 1, LiveOn(inv, d));
      if a.invoice == inv && Visible(a, d) {
        var line := LineOf(s, n - 1, d);
        var lines := LinesUpTo(s, inv, d, n);
        assert lines == rest + [line];
        forall i | 0 <= i < |rest| ensures rest[i].reversed || rest[i].current { assert lines[i] == rest[i]; }
        assert lines[|rest|] == line;
        SumSnoc(rest, line, Counted());
      }
      LinesSum(s, inv, d, n - 1);
    }
  }

  lemma DetailRemaining(s: Store, inv: InvoiceId, d: int)
    requires inv < |s.invoices| && Detail(s, inv, d).reason.None?
    ensures Detail(s, inv, d).remaining == Some(SelectedSource(s, inv, d).amount - SumBy(s.allocations, LiveOn(inv, d)))
  {
    LinesSum(s, inv, d, |s.allocations|);
    assert s.allocations[..|s.allocations|] == s.allocations;
  }

  lemma LiveTodayIsActive(s: Store, inv: InvoiceId)
    requires RowsOk(s)
    ensures SumBy(s.allocations, LiveOn(inv, s.today)) == SumBy(s.allocations, ActiveOn(inv))
  {
    forall i | 0 <= i < |s.allocations|
      ensures LiveOn(inv, s.today)(s.allocations[i]) == ActiveOn(inv)(s.allocations[i])
    {
      assert AllocationOk(s, s.allocations[i]);
    }
    SumPointwise(s.allocations, s.allocations, LiveOn(inv, s.today), ActiveOn(inv));
  }

  // ----- allocate -----

  lemma ProofIsBacked(s: Store, op: OperationId, chosen: Option<JournalId>)
    requires Proof(s.book, op, s.today, s.today, chosen).Some?
    ensures
      var source := Proof(s.book, op, s.today, s.today, chosen).value;
      Backed(s.book, source) && source.operation == op && source.date <= s.today
  {}

  lemma EffectiveDateInRange(s: Store, inv: InvoiceId, source: Source)
    requires RowsOk(s) && source.date <= s.today
    ensures source.date <= EffectiveDate(s, inv, source) <= s.today
    ensures EverReversed(s, source.operation) ==> EffectiveDate(s, inv, source) == s.today
    ensures Effective(NewAllocation(s, inv, source, 1)) == EffectiveDate(s, inv, source)
  {
    LastMatches(s.revisions, inv, s.today);
  }

  lemma {:induction false} LastMatches(rs: seq<Revision>, inv: InvoiceId, d: int)
    ensures LastRevision(rs, inv, d).Some? ==> LastRevision(rs, inv, d).value.effective <= d
    decreases |rs|
  {
    if rs != [] {
      LastMatches(rs[..|rs| - 1], inv, d);
    }
  }

  /** The heart of it: wherever a newly allocated receipt is visible, it meets only
      allocations of the same journal and exceeds it at no date, past or future. */
  lemma NewAllocationFits(s: Store, x: AllocateInput, d: int)
    requires RowsOk(s) && AllocateSource(s, x).Some?
    requires Live(NewAllocation(s, x.invoice, AllocateSource(s, x).value, x.amount), d)
    ensures
      var source := AllocateSource(s, x).value;
      && Backed(s.book, source)
      && SumBy(s.allocations, LiveOf(source.operation, d)) + x.amount <= source.amount
      && forall i ::
        0 <= i < |s.allocations| && s.allocations[i].source.operation == source.operation && Live(s.allocations[i], d)
        ==> s.allocations[i].source.journal == source.journal && s.allocations[i].source.amount == source.amount
  {
    var source := AllocateSource(s, x).value;
    ProofIsBacked(s, x.operation, x.journal);
    EffectiveDateInRange(s, x.invoice, source);
    LiveWithinActive(s, source.operation, d);
    assert Released(s, source);
    forall i |
      0 <= i < |s.allocations| && s.allocations[i].source.operation == source.operation && Live(s.allocations[i], d)
      ensures s.allocations[i].source.journal == source.journal && s.allocations[i].source.amount == source.amount
    {
      assert AllocationOk(s, s.allocations[i]);
    }
  }

  lemma OneMoreNotDoubleCounted(rows: seq<Allocation>, a: Allocation, op: OperationId, d: int)
    requires NotDoubleCounted(rows, op, d)
    requires a.source.operation == op && Live(a, d) ==> SumBy(rows, LiveOf(op, d)) + a.amount <= a.source.amount
    requires a.source.operation == op && Live(a, d) ==>
      forall i :: 0 <= i < |rows| && rows[i].source.operation == op && Live(rows[i], d)
        ==> rows[i].source.journal == a.source.journal && rows[i].source.amount == a.source.amount
    ensures NotDoubleCounted(rows + [a], op, d)
  {
    SumSnoc(rows, a, LiveOf(op, d));
  }

  lemma AllocationNotDoubleCounted(s: Store, x: AllocateInput, op: OperationId, d: int)
    requires RowsOk(s) && NotDoubleCounted(s.allocations, op, d) && AllocateSource(s, x).Some?
    ensures NotDoubleCounted(Allocate(s, x).allocations, op, d)
  {
    var source := AllocateSource(s, x).value;
    var a := NewAllocation(s, x.invoice, source, x.amount);
    ProofIsBacked(s, x.operation, x.journal);
    if op == source.operation && Live(a, d) {
      NewAllocationFits(s, x, d);
    }
    OneMoreNotDoubleCounted(s.allocations, a, op, d);
  }

  lemma AllocateKeepsInv(s: Store, x: AllocateInput)
    requires Inv(s)
    ensures Inv(Allocate(s, x))
  {
    if AllocateSource(s, x).Some? {
      var source := AllocateSource(s, x).value;
      var a := NewAllocation(s, x.invoice, source, x.amount);
      var t := Allocate(s, x);
      ProofIsBacked(s, x.operation, x.journal);
      EffectiveDateInRange(s, x.invoice, source);
      forall i | 0 <= i < |t.allocations| ensures AllocationOk(t, t.allocations[i]) {
        if i < |s.allocations| { assert AllocationOk(s, s.allocations[i]); }
      }
      forall op, d ensures NotDoubleCounted(t.allocations, op, d) {
        assert NotDoubleCounted(s.allocations, op, d);
        AllocationNotDoubleCounted(s, x, op, d);
      }
      AppendedSums(s.allocations, a);
      DetailRemaining(s, x.invoice, s.today);
      LiveTodayIsActive(s, x.invoice);
      forall inv | 0 <= inv < |t.invoices| ensures WithinInvoice(t, inv) {
        assert WithinInvoice(s, inv);
      }
    }
  }

  // ----- reverse, adopt, evidence, clock -----

  lemma ReverseKeepsInv(s: Store, inv: InvoiceId, version: nat, id: nat, reasoned: bool)
    requires Inv(s)
    ensures Inv(ReverseAllocation(s, inv, version, id, reasoned))
  {
    if CanReverse(s, inv, version, id, reasoned) {
      var t := ReverseAllocation(s, inv, version, id, reasoned);
      var before, after := s.allocations[id], t.allocations[id];
      forall i | 0 <= i < |t.allocations| ensures AllocationOk(t, t.allocations[i]) {
        assert AllocationOk(s, s.allocations[i]);
      }
      forall op, d ensures NotDoubleCounted(t.allocations, op, d) {
        assert NotDoubleCounted(s.allocations, op, d);
        SumUpdate(s.allocations, id, after, LiveOf(op, d));
        assert AllocationOk(s, before);
        forall i | 0 <= i < |t.allocations| && Live(t.allocations[i], d) ensures Live(s.allocations[i], d) {}
      }
      forall k | 0 <= k < |t.invoices| ensures WithinInvoice(t, k) {
        assert WithinInvoice(s, k);
        SumUpdate(s.allocations, id, after, ActiveOn(k));
        assert AllocationOk(s, before);
      }
    }
  }

  lemma AdoptKeepsInv(s: Store, inv: InvoiceId, version: nat, journal: JournalId, reasoned: bool)
    requires Inv(s)
    ensures Inv(Adopt(s, inv, version, journal, reasoned))
  {
    var source := AdoptSource(s, inv, version, journal, reasoned);
    if source.Some? {
      var t := Adopt(s, inv, version, journal, reasoned);
      var r := t.revisions[|s.revisions|];
      ProofIsBacked(s, s.invoices[inv].operation, Some(journal));
      forall k
        ensures SumBy(t.revisions, RevisionCount(k)) == SumBy(s.revisions, RevisionCount(k)) + RevisionCount(k)(r)
      {
        SumSnoc(s.revisions, r, RevisionCount(k));
      }
      forall i | 0 <= i < |t.allocations| ensures AllocationOk(t, t.allocations[i]) {
        assert AllocationOk(s, s.allocations[i]);
      }
      forall op, d ensures NotDoubleCounted(t.allocations, op, d) { assert NotDoubleCounted(s.allocations, op, d); }
      forall k | 0 <= k < |t.invoices| ensures WithinInvoice(t, k) {
        assert WithinInvoice(s, k);
        if k == inv {
          SumZero(t.allocations, ActiveOn(inv));
          SelectedPositive(t, inv, t.today);
        } else {
          SnocRevision(s.revisions, r, k, s.today);
        }
      }
    }
  }

  lemma EvidenceKeepsInv(s: Store, b: Book)
    requires Inv(s) && Extends(s.book, b)
    ensures Inv(s.(book := b))
  {
    var t := s.(book := b);
    forall i | 0 <= i < |t.allocations| ensures AllocationOk(t, t.allocations[i]) {
      assert AllocationOk(s, s.allocations[i]);
    }
    forall op, d ensures NotDoubleCounted(t.allocations, op, d) { assert NotDoubleCounted(s.allocations, op, d); }
    forall k | 0 <= k < |t.invoices| ensures WithinInvoice(t, k) { assert WithinInvoice(s, k); }
  }

  lemma ClockKeepsInv(s: Store, today: int)
    requires Inv(s) && today >= s.today
    ensures Inv(s.(today := today))
  {
    var t := s.(today := today);
    forall i | 0 <= i < |t.allocations| ensures AllocationOk(t, t.allocations[i]) {
      assert AllocationOk(s, s.allocations[i]);
    }
    forall op, d ensures NotDoubleCounted(t.allocations, op, d) { assert NotDoubleCounted(s.allocations, op, d); }
    forall k | 0 <= k < |t.invoices| ensures WithinInvoice(t, k) {
      assert WithinInvoice(s, k);
      SameRevisions(s.revisions, k, s.today, today);
    }
  }

  lemma InvoiceRowsKeepInv(s: Store, x: CreateInput)
    requires Inv(s)
    ensures Inv(Create(s, x))
  {
    var t := Create(s, x);
    if t != s {
      var inv := |s.invoices|;
      ProofIsBacked(s, x.operation, None);
      forall i | 0 <= i < |t.allocations| ensures AllocationOk(t, t.allocations[i]) && t.allocations[i].invoice != inv {
        assert AllocationOk(s, s.allocations[i]);
      }
      forall o, d ensures NotDoubleCounted(t.allocations, o, d) { assert NotDoubleCounted(s.allocations, o, d); }
      forall k | 0 <= k < |t.invoices| ensures WithinInvoice(t, k) {
        if k < inv {
          assert WithinInvoice(s, k);
        } else {
          SumZero(t.allocations, ActiveOn(inv));
          SelectedPositive(t, inv, t.today);
        }
      }
    }
  }

  lemma TermsKeepInv(s: Store, inv: InvoiceId, version: nat, p: Payload, effective: int, reasoned: bool)
    requires Inv(s)
    ensures Inv(UpdateTerms(s, inv, version, p, effective, reasoned))
  {
    var t := UpdateTerms(s, inv, version, p, effective, reasoned);
    forall i | 0 <= i < |t.allocations| ensures AllocationOk(t, t.allocations[i]) {
      assert AllocationOk(s, s.allocations[i]);
    }
    forall op, d ensures NotDoubleCounted(t.allocations, op, d) { assert NotDoubleCounted(s.allocations, op, d); }
    forall k | 0 <= k < |t.invoices| ensures WithinInvoice(t, k) { assert WithinInvoice(s, k); }
  }

  lemma StepKeepsInv(s: Store, step: Step)
    requires Inv(s)
    ensures Inv(Apply(s, step))
  {
    match step
    case StepCreate(x) => InvoiceRowsKeepInv(s, x);
    case StepTerms(inv, version, p, effective, reasoned) => TermsKeepInv(s, inv, version, p, effective, reasoned);
    case StepAllocate(x) => AllocateKeepsInv(s, x);
    case StepReverse(inv, version, id, reasoned) => ReverseKeepsInv(s, inv, version, id, reasoned);
    case StepAdopt(inv, version, journal, reasoned) => AdoptKeepsInv(s, inv, version, journal, reasoned);
    case StepEvidence(b) => if Extends(s.book, b) { EvidenceKeepsInv(s, b); }
    case StepClock(today) => if today >= s.today { ClockKeepsInv(s, today); }
  }

  lemma {:induction false} RunKeepsInv(today: int, book: Book, steps: seq<Step>)
    ensures Inv(Run(Fresh(today, book), steps))
    decreases |steps|
  {
    if steps != [] {
      RunKeepsInv(today, book, steps[..|steps| - 1]);
      StepKeepsInv(Run(Fresh(today, book), steps[..|steps| - 1]), steps[|steps| - 1]);
    }
  }
}
