/** The invoice service itself: locked transactions that append rows and bump versions. */
module InvoiceService {
  import opened Options
  import opened Sums
  import opened InvoiceEvidence
  import opened Invoices
  import opened InvoiceSafety

  lemma LineAppended(lines: seq<Line>, line: Line)
    ensures AnyInvalid(lines + [line]) <==> AnyInvalid(lines) || (!line.reversed && !line.current)
    ensures SumBy(lines + [line], Counted()) == SumBy(lines, Counted()) + Counted()(line)
  {
    var more := lines + [line];
    assert more[|lines|] == line;
    assert forall j :: 0 <= j < |lines| ==> more[j] == lines[j];
    SumSnoc(lines, line, Counted());
  }

  class InvoiceBook {
    var today: int
    var book: Book
    var invoices: seq<Invoice>
    var allocations: seq<Allocation>
    var revisions: seq<Revision>
    var terms: seq<Terms>

    function Contents(): (s: Store)
      reads this
    {
      Store(today, book, invoices, allocations, revisions, terms)
    }

    constructor (today: int, book: Book)
      ensures Contents() == Fresh(today, book) && Inv(Contents())
    {
      this.today, this.book := today, book;
      invoices, allocations, revisions, terms := [], [], [], [];
    }

    /** `detail`: walk the allocation rows, skipping what is not visible at `d`. */
    method LinesAt(inv: InvoiceId, d: int) returns (lines: seq<Line>, used: int, invalid: bool)
      ensures lines == LinesUpTo(Contents(), inv, d, |allocations|)
      ensures used == SumBy(lines, Counted()) && invalid == AnyInvalid(lines)
    {
      var s := Contents();
      lines, used, invalid := [], 0, false;
      var i := 0;
      while i < |allocations|
        invariant 0 <= i <= |allocations|
        invariant lines == LinesUpTo(s, inv, d, i)
        invariant used == SumBy(lines, Counted())
        invariant invalid == AnyInvalid(lines)
      {
        var a := allocations[i];
        if Visible(a, d) && a.invoice == inv {
          var line := Line(i, a.source, a.amount, ReversedBy(a, d), Current(s, a.source, d));
          if !line.reversed {
            if !line.current {
              invalid := true;
            } else {
              used := used + a.amount;
            }
          }
          LineAppended(lines, line);
          lines := lines + [line];
        }
        i := i + 1;
      }
    }

    method View(inv: InvoiceId, d: int) returns (v: View)
      requires inv < |invoices|
      ensures v == Detail(Contents(), inv, d)
    {
      var source := SelectedSource(Contents(), inv, d);
      var found := TermsFor(terms, inv, d);
      var lines, used, invalid := LinesAt(inv, d);
      var reason := if !Current(Contents(), source, d) then Some(SourceInvalid)
                    else if found.None? then Some(TermsMissing)
                    else if invalid then Some(AllocationInvalid) else None;
      v := Invoices.View(source, found, lines, reason, if reason.None? then Some(source.amount - used) else None);
    }

    /** `_capacity`: what is left of a receipt after every allocation not yet reversed. */
    method CapacityOf(source: Source) returns (left: Option<int>)
      ensures left == Capacity(Contents(), source)
    {
      if !Released(Contents(), source) {
        return None;
      }
      var amount, i := source.amount, 0;
      while i < |allocations|
        invariant 0 <= i <= |allocations|
        invariant amount == source.amount - SumBy(allocations[..i], ActiveOf(source.operation))
      {
        SumPrefix(allocations, i, ActiveOf(source.operation));
        if allocations[i].source.operation == source.operation && allocations[i].reversedOn.None? {
          amount := amount - allocations[i].amount;
        }
        i := i + 1;
      }
      assert allocations[..i] == allocations;
      left := Some(amount);
    }

    method CreateInvoice(x: CreateInput) returns (done: bool)
      requires Inv(Contents())
      modifies this
      ensures Contents() == Create(old(Contents()), x) && Inv(Contents())
      ensures done <==> |invoices| == old(|invoices|) + 1
    {
      InvoiceRowsKeepInv(Contents(), x);
      var proof := Proof(book, x.operation, today, today, None);
      if proof.None? || !(proof.value.kind.SaleService? || proof.value.kind.PurchaseService?) {
        return false;
      }
      if proof.value.journal != x.seen || book.operations[x.operation].reference != x.reference
         || (exists i :: 0 <= i < |invoices| && invoices[i].operation == x.operation)
      {
        return false;
      }
      var saved := invoices;
      var inv := |invoices|;
      var direction := if proof.value.kind.SaleService? then Sale else Purchase;
      invoices := invoices + [Invoice(x.operation, direction, proof.value, 1)];
      done := RecordTerms(inv, x.payload, proof.value.date);
      if !done {
        invoices := saved;
      }
    }

    /** `_append_terms`: never dated before the invoice or before its last terms. */
    method RecordTerms(inv: InvoiceId, p: Payload, effective: int) returns (done: bool)
      requires inv < |invoices|
      modifies this`terms
      ensures done <==> TermsAccepted(old(Contents()), inv, p, effective)
      ensures Contents() == if done then AppendTerms(old(Contents()), inv, p, effective) else old(Contents())
    {
      done := TermsAccepted(Contents(), inv, p, effective);
      if done {
        terms := terms + [Terms(inv, SumBy(terms, TermsCount(inv)) + 1, effective, p)];
      }
    }

    method ChangeTerms(inv: InvoiceId, version: nat, p: Payload, effective: int, reasoned: bool)
      requires Inv(Contents())
      modifies this
      ensures Contents() == UpdateTerms(old(Contents()), inv, version, p, effective, reasoned) && Inv(Contents())
    {
      TermsKeepInv(Contents(), inv, version, p, effective, reasoned);
      if inv >= |invoices| || invoices[inv].version != version || effective > today || !reasoned
         || !Current(Contents(), SelectedSource(Contents(), inv, today), today)
      {
        return;
      }
      var done := RecordTerms(inv, p, effective);
      if done {
        invoices := invoices[inv := invoices[inv].(version := invoices[inv].version + 1)];
      }
    }

    /** The requirements of `allocate`: within the invoice's remaining and the receipt's
        capacity, and one unreversed allocation per receipt and invoice. */
    method AllocatableSource(x: AllocateInput) returns (found: Option<Source>)
      ensures found == AllocateSource(Contents(), x)
    {
      if x.invoice >= |invoices| || invoices[x.invoice].version != x.version {
        return None;
      }
      var status := View(x.invoice, today);
      var proof := Proof(book, x.operation, today, today, x.journal);
      if status.reason.Some? || proof.None? {
        return None;
      }
      var source := proof.value;
      var invoice := invoices[x.invoice];
      if !Matches(invoice.direction, source.kind) || source.party != status.source.party || source.journal != x.seen
         || source.date < invoice.source.date
      {
        return None;
      }
      var capacity := CapacityOf(source);
      if x.amount <= 0 || x.amount > status.remaining.value || capacity.None? || x.amount > capacity.value {
        return None;
      }
      if exists i :: 0 <= i < |allocations| && allocations[i].invoice == x.invoice
           && allocations[i].source.operation == source.operation && allocations[i].reversedOn.None?
      {
        return None;
      }
      found := proof;
    }

    /** Late enough not to rewrite the past: after the last revision, and today when a
        released receipt or a replacement is used. */
    method AllocationDate(inv: InvoiceId, source: Source) returns (effective: int)
      ensures effective == EffectiveDate(Contents(), inv, source)
    {
      effective := source.date;
      var last := LastRevision(revisions, inv, today);
      if last.Some? && last.value.effective > effective {
        effective := last.value.effective;
      }
      if (EverReversed(Contents(), source.operation) || source.replacementOf.Some?) && today > effective {
        effective := today;
      }
    }

    method AllocateReceipt(x: AllocateInput) returns (done: bool)
      requires Inv(Contents())
      modifies this
      ensures done <==> AllocateSource(old(Contents()), x).Some?
      ensures Contents() == Allocate(old(Contents()), x) && Inv(Contents())
    {
      AllocateKeepsInv(Contents(), x);
      var found := AllocatableSource(x);
      if found.None? {
        return false;
      }
      var source, invoice := found.value, invoices[x.invoice];
      var effective := AllocationDate(x.invoice, source);
      allocations := allocations + [
        Allocation(x.invoice, source, x.amount, if effective > source.date then Some(effective) else None, None)
      ];
      invoices := invoices[x.invoice := invoice.(version := invoice.version + 1)];
      done := true;
    }

    method ReverseAllocationRow(inv: InvoiceId, version: nat, id: nat, reasoned: bool) returns (done: bool)
      requires Inv(Contents())
      modifies this
      ensures done <==> CanReverse(old(Contents()), inv, version, id, reasoned)
      ensures Contents() == ReverseAllocation(old(Contents()), inv, version, id, reasoned) && Inv(Contents())
    {
      ReverseKeepsInv(Contents(), inv, version, id, reasoned);
      if inv >= |invoices| || invoices[inv].version != version || id >= |allocations|
         || allocations[id].invoice != inv || allocations[id].reversedOn.Some? || !reasoned
      {
        return false;
      }
      allocations := allocations[id := allocations[id].(reversedOn := Some(today))];
      invoices := invoices[inv := invoices[inv].(version := invoices[inv].version + 1)];
      done := true;
    }

    /** The requirements of `adopt`: an unadopted live replacement, every allocation released. */
    method AdoptableSource(inv: InvoiceId, version: nat, journal: JournalId, reasoned: bool)
      returns (source: Option<Source>)
      ensures source == AdoptSource(Contents(), inv, version, journal, reasoned)
    {
      if inv >= |invoices| || invoices[inv].version != version || !reasoned {
        return None;
      }
      var proof := Proof(book, invoices[inv].operation, today, today, Some(journal));
      if proof.None? || proof.value.replacementOf.None? {
        return None;
      }
      if exists i :: 0 <= i < |allocations| && allocations[i].invoice == inv && allocations[i].reversedOn.None? {
        return None;
      }
      if exists i ::
        0 <= i < |revisions| && revisions[i].invoice == inv && revisions[i].source.journal == proof.value.journal
      {
        return None;
      }
      source := proof;
    }

    method AdoptReplacement(inv: InvoiceId, version: nat, journal: JournalId, reasoned: bool) returns (done: bool)
      requires Inv(Contents())
      modifies this
      ensures done <==> AdoptSource(old(Contents()), inv, version, journal, reasoned).Some?
      ensures Contents() == Adopt(old(Contents()), inv, version, journal, reasoned) && Inv(Contents())
    {
      AdoptKeepsInv(Contents(), inv, version, journal, reasoned);
      var source := AdoptableSource(inv, version, journal, reasoned);
      if source.None? {
        return false;
      }
      revisions := revisions + [Revision(inv, SumBy(revisions, RevisionCount(inv)) + 1, today, source.value)];
      invoices := invoices[inv := invoices[inv].(version := invoices[inv].version + 1)];
      done := true;
    }
  }
}
