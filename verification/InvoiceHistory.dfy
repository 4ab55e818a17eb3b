/** What later steps leave of a past day: as long as nothing is dated back to it, every
    invoice's view of that day is settled. */
module InvoiceHistory {
  import opened Options
  import opened InvoiceEvidence
  import opened Invoices
  import opened InvoiceGuarantees

  // ----- later evidence -----

  /** Evidence that came in after day `d`: what was there stays (posted facts, content
      checks and links among journals), and every new journal is dated after `d`. */
  ghost predicate LaterEvidence(b: Book, c: Book, d: int) {
    && Extends(b, c)
    && (forall j :: j in b.journals ==> (j in b.sound <==> j in c.sound) && LinksBack(b, c, j))
    && (forall j :: j in c.journals && j !in b.journals ==> c.journals[j].date > d)
    && (forall o :: o in c.operations ==> Kept(b, c, o))
  }

  /** An operation keeps its posted original; one posted since was posted by a new journal. */
  predicate Kept(b: Book, c: Book, o: OperationId)
    requires o in c.operations
  {
    var posted := c.operations[o].original;
    if o in b.operations && b.operations[o].original.Some?
    then c.operations[o].kind == b.operations[o].kind && posted == b.operations[o].original
    else posted.Some? ==> posted.value !in b.journals
  }

  /** A journal replaces one that was there when it was posted. */
  predicate LinksBack(b: Book, c: Book, j: JournalId)
    requires j in b.journals
  {
    var parent := b.journals[j].replacementOf;
    parent.Some? && parent.value in c.journals ==> parent.value in b.journals
  }

  lemma SameReversals(b: Book, c: Book, j: JournalId, asOf: int, d: int)
    requires LaterEvidence(b, c, d) && asOf <= d
    ensures Reversed(b, j, asOf) <==> Reversed(c, j, asOf)
  {
    if Reversed(b, j, asOf) {
      var r :| r in b.journals && b.journals[r].reversalOf == Some(j) && b.journals[r].date <= asOf;
      assert r in c.journals && c.journals[r] == b.journals[r];
    }
  }

  /** A walk that starts among the old journals stays among them. */
  lemma {:induction false} SameWalk(b: Book, c: Book, cursor: JournalId, original: JournalId, asOf: int, d: int,
                                    visited: set<JournalId>)
    requires LaterEvidence(b, c, d) && asOf <= d && cursor in b.journals
    ensures cursor in c.journals
    ensures Walk(b, cursor, original, asOf, visited) <==> Walk(c, cursor, original, asOf, visited)
    ensures Walk(b, cursor, original, asOf, visited) ==> original in b.journals
    decreases b.journals.Keys - visited
  {
    assert c.journals[cursor] == b.journals[cursor] && LinksBack(b, c, cursor);
    if cursor != original && cursor !in visited && b.journals[cursor].replacementOf.Some? {
      var parent := b.journals[cursor].replacementOf.value;
      SameReversals(b, c, parent, asOf, d);
      if parent in b.journals {
        SameWalk(b, c, parent, original, asOf, d, visited + {cursor});
      }
    }
  }

  /** Later evidence, read on any later day, proves the same about day `d`. */
  lemma SameProof(b: Book, c: Book, op: OperationId, d: int, before: int, now: int, j: JournalId)
    requires LaterEvidence(b, c, d) && d <= before && d <= now
    ensures Proof(b, op, d, before, Some(j)) == Proof(c, op, d, now, Some(j))
  {
    if j in b.journals && op in c.operations && c.operations[op].original.Some? {
      assert Kept(b, c, op);
      SameReversals(b, c, j, d, d);
      SameWalk(b, c, j, c.operations[op].original.value, d, d, {});
    }
  }

  lemma SameEvidenceProves(b: Book, d: int)
    ensures LaterEvidence(b, b, d)
  {}

  // ----- later steps -----

  /** The step dates nothing back to day `d`. */
  ghost predicate DatedAfter(s: Store, step: Step, d: int) {
    match step
    case StepTerms(_, _, _, effective, _) => effective > d
    case StepAllocate(x) =>
      AllocateSource(s, x).Some? ==> EffectiveDate(s, x.invoice, AllocateSource(s, x).value) > d
    case StepEvidence(b) => Extends(s.book, b) ==> LaterEvidence(s.book, b, d)
    case _ => true
  }

  lemma SameSources(s: Store, t: Store, source: Source, d: int)
    requires d <= s.today && d <= t.today && LaterEvidence(s.book, t.book, d)
    ensures Current(s, source, d) == Current(t, source, d)
  {
    SameProof(s.book, t.book, source.operation, d, s.today, t.today, source.journal);
  }

  lemma {:induction false} SameRowsSameLines(s: Store, t: Store, k: InvoiceId, d: int)
    requires t.allocations == s.allocations
    requires d <= s.today && d <= t.today && LaterEvidence(s.book, t.book, d)
    ensures LinesUpTo(s, k, d, |s.allocations|) == LinesUpTo(t, k, d, |t.allocations|)
  {
    forall i | 0 <= i < |s.allocations| ensures LineOf(s, i, d) == LineOf(t, i, d) {
      SameSources(s, t, s.allocations[i].source, d);
    }
    SameLines(s, t, k, d, |s.allocations|);
  }

  /** With the same rows, later evidence and a later clock show the same view. */
  lemma {:induction false} SameRowsSameView(s: Store, t: Store, k: InvoiceId, d: int)
    requires t == s.(book := t.book, today := t.today) && k < |s.invoices|
    requires d <= s.today && d <= t.today && LaterEvidence(s.book, t.book, d)
    ensures Detail(t, k, d) == Detail(s, k, d)
  {
    SameSources(s, t, SelectedSource(s, k, d), d);
    SameRowsSameLines(s, t, k, d);
  }

  lemma {:induction false} CreateKeepsThePast(s: Store, x: CreateInput, k: InvoiceId, d: int)
    requires k < |s.invoices|
    ensures k < |Create(s, x).invoices| && Detail(Create(s, x), k, d) == Detail(s, k, d)
  {
    var t := Create(s, x);
    SameLines(s, t, k, d, |s.allocations|);
    if t != s {
      assert t.terms[..|s.terms|] == s.terms && t.invoices[k] == s.invoices[k];
      SameView(s, t, k, d);
    }
  }

  lemma {:induction false} StepKeepsThePast(s: Store, step: Step, k: InvoiceId, d: int)
    requires k < |s.invoices| && d < s.today && DatedAfter(s, step, d)
    ensures
      var t := Apply(s, step);
      k < |t.invoices| && d < t.today && Detail(t, k, d) == Detail(s, k, d)
  {
    match step
    case StepCreate(x) => CreateKeepsThePast(s, x, k, d);
    case StepTerms(_, _, _, _, _) => TermsKeepEarlierDays(s, step, k, d);
    case StepAllocate(x) => if AllocateSource(s, x).Some? { AllocationKeepsEarlierDays(s, x, k, d); }
    case StepReverse(inv, version, id, reasoned) => ReversalKeepsThePast(s, inv, version, id, reasoned, k, d);
    case StepAdopt(inv, version, journal, reasoned) => AdoptionKeepsThePast(s, inv, version, journal, reasoned, k, d);
    case StepEvidence(b) => if Extends(s.book, b) { SameRowsSameView(s, Apply(s, step), k, d); }
    case StepClock(today) =>
      SameEvidenceProves(s.book, d);
      SameRowsSameView(s, Apply(s, step), k, d);
  }

  ghost predicate NothingDatedBack(s: Store, steps: seq<Step>, d: int) {
    forall i :: 0 <= i < |steps| ==> DatedAfter(Run(s, steps[..i]), steps[i], d)
  }

  /** Over any later run that dates nothing back to it, a past day is settled: every invoice's
      source, terms, lines, availability and remaining as of that day stay what they were,
      whatever is created, reversed, adopted, posted or allocated since. */
  lemma {:induction false} PastIsSettled(s: Store, steps: seq<Step>, k: InvoiceId, d: int)
    requires k < |s.invoices| && d < s.today && NothingDatedBack(s, steps, d)
    ensures
      var t := Run(s, steps);
      k < |t.invoices| && d < t.today && Detail(t, k, d) == Detail(s, k, d)
    decreases |steps|
  {
    if steps != [] {
      var n := |steps| - 1;
      forall i | 0 <= i < n ensures DatedAfter(Run(s, steps[..n][..i]), steps[..n][i], d) {
        assert steps[..n][..i] == steps[..i];
      }
      PastIsSettled(s, steps[..n], k, d);
      StepKeepsThePast(Run(s, steps[..n]), steps[n], k, d);
    }
  }
}
