/** Which invoices are created and which receipts are allocated, stated over the stored rows'
    own fields. */
module InvoiceAllocations {
  import opened Options
  import opened Sums
  import opened InvoiceEvidence
  import opened Invoices
  import opened InvoiceSafety
  import opened InvoiceTerms

  /** What the unreversed allocations of an operation use of it. */
  function UsedOf(op: OperationId): Allocation -> int {
    (a: Allocation) => if a.source.operation == op && a.reversedOn.None? then a.amount else 0
  }

  /** A sale takes receipts, a purchase payments. */
  predicate Settles(kind: Kind, d: Direction) {
    (kind == Receipt && d == Sale) || (kind == Payment && d == Purchase)
  }

  /** Everything an allocation has to meet, `source` being its accepted evidence today and
      `view` the invoice's view of today. */
  ghost predicate Allocatable(s: Store, x: AllocateInput, source: Source, view: View)
    requires x.invoice < |s.invoices|
  {
    var invoice := s.invoices[x.invoice];
    && invoice.version == x.version && view.reason.None? && view.remaining.Some?
    && Settles(source.kind, invoice.direction) && source.party == view.source.party && source.journal == x.seen
    && invoice.source.date <= source.date && 0 < x.amount && x.amount <= view.remaining.value
    && (forall i ::
          0 <= i < |s.allocations| && s.allocations[i].source.operation == source.operation ==>
          s.allocations[i].reversedOn.None? ==>
          s.allocations[i].source.journal == source.journal && s.allocations[i].invoice != x.invoice)
    && SumBy(s.allocations, UsedOf(source.operation)) + x.amount <= source.amount
  }

  lemma {:induction false} CapacityIsRest(s: Store, source: Source)
    ensures Capacity(s, source).Some? <==>
      forall i ::
        0 <= i < |s.allocations| && s.allocations[i].source.operation == source.operation ==>
        s.allocations[i].reversedOn.None? ==> s.allocations[i].source.journal == source.journal
    ensures Capacity(s, source).Some? ==>
      Capacity(s, source).value == source.amount - SumBy(s.allocations, UsedOf(source.operation))
  {
    SumPointwise(s.allocations, s.allocations, ActiveOf(source.operation), UsedOf(source.operation));
  }

  /** An allocation is taken exactly when its evidence stands today and it meets all of that. */
  lemma {:induction false} AllocatedExactly(s: Store, x: AllocateInput)
    ensures
      var proof := Proof(s.book, x.operation, s.today, s.today, x.journal);
      if x.invoice < |s.invoices| && proof.Some? && Allocatable(s, x, proof.value, Detail(s, x.invoice, s.today))
      then AllocateSource(s, x) == proof else AllocateSource(s, x) == None
  {
    var proof := Proof(s.book, x.operation, s.today, s.today, x.journal);
    if proof.Some? {
      CapacityIsRest(s, proof.value);
    }
  }

  /** The revisions of an invoice that have taken effect, and no later ones. */
  predicate InForce(r: Revision, inv: InvoiceId, today: int) {
    r.invoice == inv && r.effective <= today
  }

  lemma {:induction false} LastInForce(rs: seq<Revision>, inv: InvoiceId, today: int)
    ensures LastRevision(rs, inv, today).None? <==> forall i :: 0 <= i < |rs| ==> !InForce(rs[i], inv, today)
    ensures LastRevision(rs, inv, today).Some? ==>
      var last := LastRevision(rs, inv, today).value;
      && last in rs && InForce(last, inv, today)
      && forall i :: 0 <= i < |rs| && InForce(rs[i], inv, today) ==> rs[i].version <= last.version
    decreases |rs|
  {
    if rs != [] {
      LastInForce(rs[..|rs| - 1], inv, today);
      assert rs == rs[..|rs| - 1] + [rs[|rs| - 1]];
    }
  }

  /** After any run, an allocation takes effect on the latest of its receipt's date, the date of
      every revision of the invoice, and, when a receipt is used again or a replacement is used,
      today: no earlier, and no later than one of these. */
  lemma {:induction false} EffectiveDateIsLatest(today: int, book: Book, steps: seq<Step>, inv: InvoiceId,
                                                 source: Source)
    requires source.date <= Run(Fresh(today, book), steps).today
    ensures
      var s := Run(Fresh(today, book), steps);
      var e := EffectiveDate(s, inv, source);
      var again := source.replacementOf.Some? || exists i ::
        && 0 <= i < |s.allocations| && s.allocations[i].source.operation == source.operation
        && s.allocations[i].reversedOn.Some?;
      && source.date <= e && (again ==> s.today <= e)
      && (forall i :: 0 <= i < |s.revisions| && s.revisions[i].invoice == inv ==> s.revisions[i].effective <= e)
      && (e == source.date || (again && e == s.today)
          || exists i :: 0 <= i < |s.revisions| && s.revisions[i].invoice == inv && e == s.revisions[i].effective)
  {
    var s := Run(Fresh(today, book), steps);
    RunKeepsInv(today, book, steps);
    NewestIsLast(s.revisions, inv, s.today);
    LastInForce(s.revisions, inv, s.today);
    var last := LastRevision(s.revisions, inv, s.today);
    if last.Some? {
      var k :| 0 <= k < |s.revisions| && s.revisions[k] == last.value;
      assert s.revisions[k].invoice == inv;
    }
    forall i | 0 <= i < |s.revisions| && s.revisions[i].invoice == inv
      ensures last.Some? && s.revisions[i].effective <= last.value.effective
    {
      assert InForce(s.revisions[i], inv, s.today);
    }
  }

  predicate OfInvoices(s: Store) {
    forall i :: 0 <= i < |s.terms| ==> s.terms[i].invoice < |s.invoices|
  }

  lemma {:induction false} TermsAreOfInvoices(today: int, book: Book, steps: seq<Step>)
    ensures OfInvoices(Run(Fresh(today, book), steps))
  {
    var s := Run(Fresh(today, book), steps);
    TermsRunInOrder(today, book, steps);
    forall i | 0 <= i < |s.terms| ensures s.terms[i].invoice < |s.invoices| {
      assert Follows(s, s.terms[..i], s.terms[i]);
    }
  }

  /** What a creation asks of its evidence and its dates. */
  predicate Creatable(s: Store, x: CreateInput, proof: Option<Source>) {
    && proof.Some? && (proof.value.kind == SaleService || proof.value.kind == PurchaseService)
    && proof.value.journal == x.seen
    && x.operation in s.book.operations && s.book.operations[x.operation].reference == x.reference
    && (forall i :: 0 <= i < |s.invoices| ==> s.invoices[i].operation != x.operation)
    && (x.payload.due.None? || proof.value.date <= x.payload.due.value)
    && (x.payload.expected.None? || proof.value.date <= x.payload.expected.value)
  }

  lemma {:induction false} FirstTermsFollow(s: Store, t: Store, p: Payload, date: int)
    requires |t.invoices| == |s.invoices| + 1 && t.terms == s.terms && t.invoices[|s.invoices|].source.date == date
    requires OfInvoices(s)
    ensures TermsAccepted(t, |s.invoices|, p, date)
        <==> (p.due.None? || date <= p.due.value) && (p.expected.None? || date <= p.expected.value)
    ensures AppendTerms(t, |s.invoices|, p, date).terms == s.terms + [Terms(|s.invoices|, 1, date, p)]
  {
    SumZero(s.terms, TermsCount(|s.invoices|));
  }

  /** After any run, an invoice is created exactly when its operation is a service with standing
      evidence that the caller has seen, under the operation's reference, once, and with dates
      that do not precede it; it is a sale or a purchase as its operation is. */
  lemma {:induction false} CreatedExactly(today: int, book: Book, steps: seq<Step>, x: CreateInput)
    ensures
      var s := Run(Fresh(today, book), steps);
      var proof := Proof(s.book, x.operation, s.today, s.today, None);
      var t := Create(s, x);
      if Creatable(s, x, proof) then
        var direction := if proof.value.kind == SaleService then Sale else Purchase;
        && t.invoices == s.invoices + [Invoice(x.operation, direction, proof.value, 1)]
        && t.terms == s.terms + [Terms(|s.invoices|, 1, proof.value.date, x.payload)]
        && t.allocations == s.allocations && t.revisions == s.revisions
      else t == s
  {
    var s := Run(Fresh(today, book), steps);
    TermsAreOfInvoices(today, book, steps);
    CreatedFrom(s, x);
  }

  lemma {:induction false} CreatedFrom(s: Store, x: CreateInput)
    requires OfInvoices(s)
    ensures
      var proof := Proof(s.book, x.operation, s.today, s.today, None);
      var t := Create(s, x);
      if Creatable(s, x, proof) then
        var direction := if proof.value.kind == SaleService then Sale else Purchase;
        && t.invoices == s.invoices + [Invoice(x.operation, direction, proof.value, 1)]
        && t.terms == s.terms + [Terms(|s.invoices|, 1, proof.value.date, x.payload)]
        && t.allocations == s.allocations && t.revisions == s.revisions
      else t == s
  {
    var proof := Proof(s.book, x.operation, s.today, s.today, None);
    if proof.Some? {
      var direction := if proof.value.kind.SaleService? then Sale else Purchase;
      var t := s.(invoices := s.invoices + [Invoice(x.operation, direction, proof.value, 1)]);
      FirstTermsFollow(s, t, x.payload, proof.value.date);
    }
  }
}
