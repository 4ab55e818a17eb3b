/** Which source and which terms a dated view shows, stated over the rows' own fields. */
module InvoiceTerms {
  import opened Options
  import opened Sums
  import opened InvoiceEvidence
  import opened Invoices

  /** A terms row of an invoice that has taken effect by a day. */
  predicate Applies(t: Terms, inv: InvoiceId, d: int) {
    t.invoice == inv && t.effective <= d
  }

  /** The shown terms apply, and no applying row is later, or as late with a higher version. */
  lemma {:induction false} ShownTermsAreNewest(ts: seq<Terms>, inv: InvoiceId, d: int)
    ensures TermsFor(ts, inv, d).Some? <==> exists i :: 0 <= i < |ts| && Applies(ts[i], inv, d)
    ensures TermsFor(ts, inv, d).Some? ==>
      var shown := TermsFor(ts, inv, d).value;
      && shown in ts && Applies(shown, inv, d)
      && forall i :: 0 <= i < |ts| && Applies(ts[i], inv, d) ==>
           || ts[i].effective < shown.effective
           || (ts[i].effective == shown.effective && ts[i].version <= shown.version)
    decreases |ts|
  {
    if ts != [] {
      var front := ts[..|ts| - 1];
      ShownTermsAreNewest(front, inv, d);
      assert ts == front + [ts[|ts| - 1]];
      if TermsFor(front, inv, d).Some? {
        var i :| 0 <= i < |front| && Applies(front[i], inv, d);
        assert Applies(ts[i], inv, d);
      }
    }
  }

  predicate Revises(r: Revision, inv: InvoiceId, d: int) {
    r.invoice == inv && r.effective <= d
  }

  /** The shown source is the invoice's own until a revision has taken effect, and then that of
      a revision that applies, none being later, or as late with a higher version. */
  lemma {:induction false} ShownSourceIsNewest(s: Store, inv: InvoiceId, d: int)
    requires inv < |s.invoices|
    ensures
      var shown := Detail(s, inv, d).source;
      || (shown == s.invoices[inv].source
          && forall i :: 0 <= i < |s.revisions| ==> !Revises(s.revisions[i], inv, d))
      || exists k ::
           && 0 <= k < |s.revisions| && Revises(s.revisions[k], inv, d) && s.revisions[k].source == shown
           && forall i :: 0 <= i < |s.revisions| && Revises(s.revisions[i], inv, d) ==>
                || s.revisions[i].effective < s.revisions[k].effective
                || (s.revisions[i].effective == s.revisions[k].effective
                    && s.revisions[i].version <= s.revisions[k].version)
  {
    NewestRevises(s.revisions, inv, d);
    var newest := NewestRevision(s.revisions, inv, d);
    if newest.Some? {
      var k :| 0 <= k < |s.revisions| && s.revisions[k] == newest.value;
      assert Revises(s.revisions[k], inv, d);
    }
  }

  lemma {:induction false} NewestRevises(rs: seq<Revision>, inv: InvoiceId, d: int)
    ensures NewestRevision(rs, inv, d).None? ==> forall i :: 0 <= i < |rs| ==> !Revises(rs[i], inv, d)
    ensures NewestRevision(rs, inv, d).Some? ==>
      var r := NewestRevision(rs, inv, d).value;
      && r in rs && Revises(r, inv, d)
      && forall i :: 0 <= i < |rs| && Revises(rs[i], inv, d) ==>
           || rs[i].effective < r.effective
           || (rs[i].effective == r.effective && rs[i].version <= r.version)
    decreases |rs|
  {
    if rs != [] {
      NewestRevises(rs[..|rs| - 1], inv, d);
      assert rs == rs[..|rs| - 1] + [rs[|rs| - 1]];
    }
  }

  // ----- terms over a run -----

  /** How many of some terms an invoice has, and how many of some revisions. */
  function Recorded(ts: seq<Terms>, inv: InvoiceId): nat {
    if ts == [] then 0 else Recorded(ts[..|ts| - 1], inv) + (if ts[|ts| - 1].invoice == inv then 1 else 0)
  }

  function Revised(rs: seq<Revision>, inv: InvoiceId): nat {
    if rs == [] then 0 else Revised(rs[..|rs| - 1], inv) + (if rs[|rs| - 1].invoice == inv then 1 else 0)
  }

  lemma {:induction false} RecordedCounts(ts: seq<Terms>, inv: InvoiceId)
    ensures SumBy(ts, TermsCount(inv)) == Recorded(ts, inv)
    decreases |ts|
  {
    if ts != [] { RecordedCounts(ts[..|ts| - 1], inv); }
  }

  lemma {:induction false} RevisedCounts(rs: seq<Revision>, inv: InvoiceId)
    ensures SumBy(rs, RevisionCount(inv)) == Revised(rs, inv)
    decreases |rs|
  {
    if rs != [] { RevisedCounts(rs[..|rs| - 1], inv); }
  }

  /** An adoption appends one revision: dated today, numbered one more than the invoice has. */
  lemma AdoptionIsNumbered(s: Store, inv: InvoiceId, version: nat, journal: JournalId, reasoned: bool)
    requires AdoptSource(s, inv, version, journal, reasoned).Some?
    ensures
      var source := AdoptSource(s, inv, version, journal, reasoned).value;
      Adopt(s, inv, version, journal, reasoned).revisions
      == s.revisions + [Revision(inv, Revised(s.revisions, inv) + 1, s.today, source)]
  {
    RevisedCounts(s.revisions, inv);
  }

  /** Dates that follow the invoice, and its earlier terms. */
  predicate Follows(s: Store, ts: seq<Terms>, t: Terms) {
    && t.invoice < |s.invoices| && t.version == Recorded(ts, t.invoice) + 1
    && (forall i :: 0 <= i < |ts| && ts[i].invoice == t.invoice ==> ts[i].effective <= t.effective)
    && var start := s.invoices[t.invoice].source.date;
       && t.effective >= start && (t.payload.due.None? || t.payload.due.value >= start)
       && (t.payload.expected.None? || t.payload.expected.value >= start)
  }

  /** Every row followed the invoice and the rows before it when it was made. */
  ghost predicate InOrder(s: Store) {
    forall i :: 0 <= i < |s.terms| ==> Follows(s, s.terms[..i], s.terms[i])
  }

  lemma {:induction false} SameInvoicesInOrder(s: Store, t: Store)
    requires InOrder(s) && t.terms == s.terms && |s.invoices| <= |t.invoices|
    requires forall i :: 0 <= i < |s.invoices| ==> t.invoices[i].source == s.invoices[i].source
    ensures InOrder(t)
  {
    forall i | 0 <= i < |t.terms| ensures Follows(t, t.terms[..i], t.terms[i]) {
      assert Follows(s, s.terms[..i], s.terms[i]);
    }
  }

  lemma {:induction false} NextInOrder(s: Store, t: Store, row: Terms)
    requires InOrder(s) && t.terms == s.terms + [row] && |s.invoices| <= |t.invoices|
    requires forall i :: 0 <= i < |s.invoices| ==> t.invoices[i].source == s.invoices[i].source
    requires Follows(t, s.terms, row)
    ensures InOrder(t)
  {
    forall i | 0 <= i < |t.terms| ensures Follows(t, t.terms[..i], t.terms[i]) {
      if i < |s.terms| {
        assert t.terms[..i] == s.terms[..i];
        assert Follows(s, s.terms[..i], s.terms[i]);
      } else {
        assert t.terms[..i] == s.terms;
      }
    }
  }

  lemma {:induction false} CreateKeepsOrder(s: Store, x: CreateInput)
    requires InOrder(s)
    ensures InOrder(Create(s, x))
  {
    var t := Create(s, x);
    RecordedCounts(s.terms, |s.invoices|);
    if t != s {
      NextInOrder(s, t, t.terms[|s.terms|]);
    }
  }

  lemma {:induction false} TermsKeepOrder(s: Store, step: Step)
    requires InOrder(s) && step.StepTerms?
    ensures InOrder(Apply(s, step))
  {
    var t := Apply(s, step);
    RecordedCounts(s.terms, step.invoice);
    if t != s {
      NextInOrder(s, t, t.terms[|s.terms|]);
    }
  }

  lemma {:induction false} StepKeepsOrder(s: Store, step: Step)
    requires InOrder(s)
    ensures InOrder(Apply(s, step))
  {
    match step
    case StepCreate(x) => CreateKeepsOrder(s, x);
    case StepTerms(_, _, _, _, _) => TermsKeepOrder(s, step);
    case _ => SameInvoicesInOrder(s, Apply(s, step));
  }

  /** In every run an invoice's terms are numbered 1, 2, 3, dated in that order, and none of
      their dates lies before the invoice. */
  lemma {:induction false} TermsRunInOrder(today: int, book: Book, steps: seq<Step>)
    ensures InOrder(Run(Fresh(today, book), steps))
    decreases |steps|
  {
    if steps != [] {
      TermsRunInOrder(today, book, steps[..|steps| - 1]);
      StepKeepsOrder(Run(Fresh(today, book), steps[..|steps| - 1]), steps[|steps| - 1]);
    }
  }

  lemma {:induction false} VersionsCount(ts: seq<Terms>, i: nat)
    requires i < |ts| && forall j :: 0 <= j < |ts| ==> ts[j].version == Recorded(ts[..j], ts[j].invoice) + 1
    ensures ts[i].version <= Recorded(ts, ts[i].invoice)
    decreases |ts|
  {
    var front, last := ts[..|ts| - 1], ts[|ts| - 1];
    if i < |front| {
      forall j | 0 <= j < |front| ensures front[j].version == Recorded(front[..j], front[j].invoice) + 1 {
        assert front[..j] == ts[..j];
      }
      VersionsCount(front, i);
    }
  }

  /** What the service asks of new terms. */
  predicate Admissible(s: Store, inv: InvoiceId, version: nat, p: Payload, effective: int, reasoned: bool) {
    && inv < |s.invoices| && s.invoices[inv].version == version && reasoned
    && Detail(s, inv, s.today).reason != Some(SourceInvalid)
    && var start := s.invoices[inv].source.date;
       && start <= effective <= s.today
       && (p.due.None? || p.due.value >= start) && (p.expected.None? || p.expected.value >= start)
       && forall i :: 0 <= i < |s.terms| && s.terms[i].invoice == inv ==> s.terms[i].effective <= effective
  }

  /** Over any run: new terms are taken exactly when they are admissible, and from their
      effective date on every view of the invoice shows them. */
  lemma {:induction false} NewTermsAreShown(today: int, book: Book, steps: seq<Step>, inv: InvoiceId, version: nat,
                                            p: Payload, effective: int, reasoned: bool, d: int)
    ensures
      var s := Run(Fresh(today, book), steps);
      var t := Apply(s, StepTerms(inv, version, p, effective, reasoned));
      if !Admissible(s, inv, version, p, effective, reasoned) then t == s
      else
        && |t.terms| == |s.terms| + 1 && t.invoices[inv].version == version + 1
        && (d >= effective ==>
              var shown := Detail(t, inv, d).terms;
              shown.Some? && shown.value.payload == p && shown.value.effective == effective)
  {
    var s := Run(Fresh(today, book), steps);
    if Admissible(s, inv, version, p, effective, reasoned) && d >= effective {
      var t := Apply(s, StepTerms(inv, version, p, effective, reasoned));
      var row := t.terms[|s.terms|];
      TermsRunInOrder(today, book, steps);
      RecordedCounts(s.terms, inv);
      forall j | 0 <= j < |s.terms|
        ensures s.terms[j].version == Recorded(s.terms[..j], s.terms[j].invoice) + 1
      {
        assert Follows(s, s.terms[..j], s.terms[j]);
      }
      forall i | 0 <= i < |s.terms| && s.terms[i].invoice == inv ensures s.terms[i].version < row.version {
        VersionsCount(s.terms, i);
      }
      ShownTermsAreNewest(t.terms, inv, d);
      assert Applies(t.terms[|s.terms|], inv, d);
      NewestRowIsShown(s, t, row, inv, d);
    }
  }

  lemma NewestRowIsShown(s: Store, t: Store, row: Terms, inv: InvoiceId, d: int)
    requires t.terms == s.terms + [row] && row.invoice == inv && row.effective <= d
    requires forall i :: 0 <= i < |s.terms| && s.terms[i].invoice == inv ==>
      s.terms[i].version < row.version && s.terms[i].effective <= row.effective
    ensures TermsFor(t.terms, inv, d) == Some(row)
  {
    ShownTermsAreNewest(t.terms, inv, d);
    assert t.terms[|s.terms|] == row && Applies(t.terms[|s.terms|], inv, d);
    var shown := TermsFor(t.terms, inv, d).value;
    var i :| 0 <= i < |t.terms| && t.terms[i] == shown;
  }
}
