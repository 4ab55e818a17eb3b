/** When a payment is expected, stated over the recorded dates: a customer's habit, the terms of
    an invoice, and what a published forecast makes of them. */
module ForecastProjection {
  import opened Options
  import opened Sums
  import RT = ReceiptTiming
  import opened ForecastPlanning
  import opened ForecastPlans

  // ----- a customer's history -----

  /** A receipt of the last 180 days with a due date and an amount. */
  predicate InHistory(r: Receipt, asOf: int) {
    asOf - 180 <= r.paid <= asOf && r.due.Some? && r.amount > 0
  }

  function AsEvent(r: Receipt): RT.Event
    requires r.due.Some?
  {
    RT.Event(r.journal, "", "", r.due.value, r.paid, r.amount, RT.Financial)
  }

  lemma {:induction false} EligibleAreHistory(rows: seq<Receipt>, asOf: int)
    ensures forall r :: r in rows && InHistory(r, asOf) ==> AsEvent(r) in Eligible(rows, asOf)
    ensures forall e :: e in Eligible(rows, asOf) ==> exists r :: r in rows && InHistory(r, asOf) && e == AsEvent(r)
    decreases |rows|
  {
    if rows != [] {
      var front, last := rows[..|rows| - 1], rows[|rows| - 1];
      EligibleAreHistory(front, asOf);
      assert rows == front + [last];
      forall e | e in Eligible(rows, asOf) ensures exists r :: r in rows && InHistory(r, asOf) && e == AsEvent(r) {
        if e in Eligible(front, asOf) {
          var r :| r in front && InHistory(r, asOf) && e == AsEvent(r);
          assert r in rows;
        } else {
          assert last in rows && InHistory(last, asOf) && e == AsEvent(last);
        }
      }
    }
  }

  /** Two receipts of one journal that tell different dates. */
  ghost predicate Contradicted(rows: seq<Receipt>, asOf: int) {
    exists r, q ::
      && r in rows && q in rows && InHistory(r, asOf) && InHistory(q, asOf)
      && r.journal == q.journal && (r.due != q.due || r.paid != q.paid)
  }

  function Journals(rows: seq<Receipt>, asOf: int): set<string> {
    set r | r in rows && InHistory(r, asOf) :: r.journal
  }

  lemma AmbiguousIsTold(rows: seq<Receipt>, asOf: int)
    requires DatedHistory(rows, asOf).1
    ensures Contradicted(rows, asOf)
  {
    var es := Eligible(rows, asOf);
    EligibleAreHistory(rows, asOf);
    var x :| x in es && !SameDates(es, x.id);
    var e, f :| e in es && f in es && e.id == x.id && f.id == x.id && !(e.due == f.due && e.paid == f.paid);
    var r :| r in rows && InHistory(r, asOf) && e == AsEvent(r);
    var q :| q in rows && InHistory(q, asOf) && f == AsEvent(q);
    assert r.journal == q.journal && (r.due != q.due || r.paid != q.paid);
  }

  lemma AmbiguousIsContradicted(rows: seq<Receipt>, asOf: int)
    ensures DatedHistory(rows, asOf).1 <==> Contradicted(rows, asOf)
  {
    if DatedHistory(rows, asOf).1 {
      AmbiguousIsTold(rows, asOf);
    }
    if Contradicted(rows, asOf) {
      var es := Eligible(rows, asOf);
      EligibleAreHistory(rows, asOf);
      var r, q :| r in rows && q in rows && InHistory(r, asOf) && InHistory(q, asOf)
        && r.journal == q.journal && (r.due != q.due || r.paid != q.paid);
      assert AsEvent(r) in es && AsEvent(q) in es;
      assert !SameDates(es, r.journal);
    }
  }

  function Whole(es: seq<RT.Event>, e: RT.Event): RT.Event {
    e.(amount := SumBy(es, PaidUnder(e.id)))
  }

  lemma MergedOneMore(front: seq<RT.Event>, last: RT.Event, es: seq<RT.Event>)
    requires SameDates(es, last.id)
    ensures Merged(front + [last], es) == Merged(front, es) + [Whole(es, last)]
  {
    assert (front + [last])[..|front|] == front;
  }

  lemma {:induction false} MergedKeepsAll(firsts: seq<RT.Event>, es: seq<RT.Event>)
    requires forall i :: 0 <= i < |firsts| ==> SameDates(es, firsts[i].id)
    ensures |Merged(firsts, es)| == |firsts|
    ensures forall i :: 0 <= i < |firsts| ==> Merged(firsts, es)[i] == Whole(es, firsts[i])
    decreases |firsts|
  {
    if firsts != [] {
      var front, last := firsts[..|firsts| - 1], firsts[|firsts| - 1];
      assert firsts == front + [last];
      MergedKeepsAll(front, es);
      MergedOneMore(front, last, es);
    }
  }

  lemma FirstsTellSameDates(es: seq<RT.Event>)
    requires forall e :: e in es ==> SameDates(es, e.id)
    ensures forall i :: 0 <= i < |RT.Firsts(es)| ==> RT.Firsts(es)[i] in es && SameDates(es, RT.Firsts(es)[i].id)
  {
    RT.FirstsAreFirst(es);
    forall i | 0 <= i < |RT.Firsts(es)| ensures RT.Firsts(es)[i] in es {
      assert RT.Firsts(es)[i] in RT.Firsts(es);
    }
  }

  lemma {:induction false} IdsCounted(firsts: seq<RT.Event>, ids: set<string>)
    requires forall i, j :: 0 <= i < j < |firsts| ==> firsts[i].id != firsts[j].id
    requires forall id :: id in ids <==> exists i :: 0 <= i < |firsts| && firsts[i].id == id
    ensures |firsts| == |ids|
    decreases |firsts|
  {
    if firsts == [] {
      assert ids == {};
    } else {
      var front, last := firsts[..|firsts| - 1], firsts[|firsts| - 1];
      var rest := ids - {last.id};
      forall id ensures id in rest <==> exists i :: 0 <= i < |front| && front[i].id == id {
        if id in rest {
          var i :| 0 <= i < |firsts| && firsts[i].id == id;
          assert front[i].id == id;
        }
        if exists i :: 0 <= i < |front| && front[i].id == id {
          var i :| 0 <= i < |front| && front[i].id == id;
          assert firsts[i].id == id;
        }
      }
      IdsCounted(front, rest);
      assert firsts[|front|].id == last.id;
      assert ids == rest + {last.id};
    }
  }

  ghost predicate Listed(firsts: seq<RT.Event>, id: string) {
    exists i :: 0 <= i < |firsts| && firsts[i].id == id
  }

  lemma {:induction false} JournalIsListed(rows: seq<Receipt>, asOf: int, id: string)
    ensures id in Journals(rows, asOf) <==> Listed(RT.Firsts(Eligible(rows, asOf)), id)
  {
    var es := Eligible(rows, asOf);
    var firsts := RT.Firsts(es);
    EligibleAreHistory(rows, asOf);
    RT.FirstsAreFirst(es);
    if id in Journals(rows, asOf) {
      var r :| r in rows && InHistory(r, asOf) && r.journal == id;
      assert AsEvent(r) in es && RT.Known(firsts, id);
      var f :| f in firsts && f.id == id;
      var i :| 0 <= i < |firsts| && firsts[i] == f;
    }
    if Listed(firsts, id) {
      var i :| 0 <= i < |firsts| && firsts[i].id == id;
      assert firsts[i] in firsts;
      var r :| r in rows && InHistory(r, asOf) && firsts[i] == AsEvent(r);
    }
  }

  /** An uncontradicted history holds one event per journal, whole. */
  lemma {:induction false} OneEventPerJournal(rows: seq<Receipt>, asOf: int)
    requires !Contradicted(rows, asOf)
    ensures |DatedHistory(rows, asOf).0| == |Journals(rows, asOf)|
    ensures RT.Positive(DatedHistory(rows, asOf).0)
  {
    var es := Eligible(rows, asOf);
    var firsts := RT.Firsts(es);
    AmbiguousIsContradicted(rows, asOf);
    EligibleIsPositive(rows, asOf);
    RT.FirstsAreFirst(es);
    FirstsTellSameDates(es);
    MergedKeepsAll(firsts, es);
    MergedIsPositive(firsts, es);
    forall id ensures id in Journals(rows, asOf) <==> exists i :: 0 <= i < |firsts| && firsts[i].id == id {
      JournalIsListed(rows, asOf, id);
    }
    IdsCounted(firsts, Journals(rows, asOf));
  }

  /** The projection of an uncontradicted history, by the median of its events. */
  lemma {:induction false} MedianIsProjected(s: Snapshot, due: int, party: string, m: int)
    requires EnoughHistory(s, party) && RT.MedianDelay(HistoryOf(s, party)) == Some(m)
    ensures Projected(s, Some(due), party)
         == if 1 <= due + m <= 3652059 then Stamp(due + m) else Doubt(DateOutOfRange)
  {
    EnoughHistoryProjects(s, due, party);
  }

  /** Why a receipt is not projected, over the recorded receipts: no due date, contradicting
      dates, or fewer than three journals. */
  lemma ProjectionDoubtsExactly(s: Snapshot, due: Option<int>, party: string)
    ensures
      var rows := if party in s.history then s.history[party] else [];
      && (Projected(s, due, party) == Doubt(DueDateMissing) <==> due.None?)
      && (Projected(s, due, party) == Doubt(HistoryAmbiguous) <==> due.Some? && Contradicted(rows, s.asOf))
      && (Projected(s, due, party) == Doubt(HistoryInsufficient)
          <==> due.Some? && !Contradicted(rows, s.asOf) && |Journals(rows, s.asOf)| < 3)
  {
    var rows := Rows(s, party);
    AmbiguousIsContradicted(rows, s.asOf);
    if !Contradicted(rows, s.asOf) {
      OneEventPerJournal(rows, s.asOf);
    }
  }

  lemma {:induction false} HabitInHistory(rows: seq<Receipt>, asOf: int, k: int)
    requires !Contradicted(rows, asOf)
    requires forall r :: r in rows && InHistory(r, asOf) ==> r.paid == r.due.value + k
    ensures forall e :: e in DatedHistory(rows, asOf).0 ==> e.paid == e.due + k
  {
    var es := Eligible(rows, asOf);
    AmbiguousIsContradicted(rows, asOf);
    EligibleAreHistory(rows, asOf);
    FirstsTellSameDates(es);
    MergedKeepsAll(RT.Firsts(es), es);
    forall e | e in DatedHistory(rows, asOf).0 ensures e.paid == e.due + k {
      var i :| 0 <= i < |DatedHistory(rows, asOf).0| && DatedHistory(rows, asOf).0[i] == e;
      assert RT.Firsts(es)[i] in es;
      var r :| r in rows && InHistory(r, asOf) && RT.Firsts(es)[i] == AsEvent(r);
    }
  }

  /** A customer who paid three receipts or more, each `k` days after its due date, is expected
      to pay the next one `k` days after its due date, if the calendar has that day. */
  lemma {:induction false} HabitIsProjected(s: Snapshot, due: int, party: string, k: int)
    requires party in s.history && !Contradicted(s.history[party], s.asOf)
    requires |Journals(s.history[party], s.asOf)| >= 3
    requires forall r :: r in s.history[party] && InHistory(r, s.asOf) ==> r.paid == r.due.value + k
    ensures Projected(s, Some(due), party)
         == if 1 <= due + k <= 3652059 then Stamp(due + k) else Doubt(DateOutOfRange)
  {
    var history := DatedHistory(s.history[party], s.asOf).0;
    AmbiguousIsContradicted(s.history[party], s.asOf);
    OneEventPerJournal(s.history[party], s.asOf);
    HabitInHistory(s.history[party], s.asOf, k);
    RT.HabitIsMedian(history, k);
    MedianIsProjected(s, due, party, k);
  }

  /** Any uncontradicted history of three journals projects by a delay by which at least half
      the amount had been paid, and before which less than half had. */
  lemma {:induction false} HistoryIsProjected(s: Snapshot, due: int, party: string)
    requires party in s.history && !Contradicted(s.history[party], s.asOf)
    requires |Journals(s.history[party], s.asOf)| >= 3
    ensures
      var events := DatedHistory(s.history[party], s.asOf).0;
      exists m ::
        && 2 * SumBy(events, RT.PaidBy(m)) >= SumBy(events, RT.Amount()) > 2 * SumBy(events, RT.PaidBefore(m))
        && Projected(s, Some(due), party)
           == (if 1 <= due + m <= 3652059 then Stamp(due + m) else Doubt(DateOutOfRange))
  {
    var history := DatedHistory(s.history[party], s.asOf).0;
    AmbiguousIsContradicted(s.history[party], s.asOf);
    OneEventPerJournal(s.history[party], s.asOf);
    RT.MedianInDates(history);
    MedianIsProjected(s, due, party, RT.MedianDelay(history).value);
  }

  // ----- what is asked -----

  /** The plan names an invoice: by its own mark, or by an invoice's reference. */
  predicate NamesInvoice(s: Snapshot, p: Plan) {
    p.invoiceReference || exists j :: 0 <= j < |s.invoices| && s.invoices[j].reference == p.obligation
  }

  /** When an open invoice is expected, by its terms: the expected date, the due date of a
      purchase, the projection of a sale. */
  function ExpectedDate(s: Snapshot, inv: Invoice): Option<int> {
    if inv.terms.expected.Some? then inv.terms.expected
    else if !inv.sale then inv.terms.due
    else
      match Projected(s, inv.terms.due, inv.party)
      case Stamp(date) => Some(date)
      case Doubt(_) => None
  }

  /** An open invoice nobody answered for is asked about when its date has passed by, when a
      payment has no date, or for the doubt of its projection; otherwise it is expected. */
  lemma {:induction false} InvoiceIsAskedAbout(s: Snapshot, answers: map<Key, Answer>, i: nat)
    requires i < |s.invoices| && s.invoices[i].remaining.Some? && s.invoices[i].remaining.value > 0
    requires InvoiceKey(s.invoices[i].id) !in answers && !s.invoices[i].terms.expectedUnknown
    ensures
      var inv := s.invoices[i];
      var k, date := InvoiceKey(inv.id), ExpectedDate(s, inv);
      if date.Some? && date.value > s.asOf then
        Event(k, date.value, inv.sale, inv.remaining.value) in Events(Outcomes(s, answers))
      else if date.Some? then
        Question(k, if inv.sale then ReceiptInPast else PaymentInPast) in QuestionsOf(s, answers)
      else if !inv.sale then Question(k, PaymentDateMissing) in QuestionsOf(s, answers)
      else
        var t := Projected(s, inv.terms.due, inv.party);
        t.Doubt? && Question(k, t.reason) in QuestionsOf(s, answers)
  {
    OutcomeAt(s, answers, i);
    EventsComeFromOutcomes(Outcomes(s, answers));
    QuestionsComeFromOutcomes(Outcomes(s, answers));
  }

  lemma PlanAsks(s: Snapshot, answers: map<Key, Answer>, plan: Plan)
    requires PlanKey(plan.id) !in answers
    ensures
      var o := PlanOutcome(s, answers, plan);
      if NamesInvoice(s, plan) && LinkKey(plan.id) !in answers then o == Ask(Question(LinkKey(plan.id), LinkUnverified))
      else if !NamesInvoice(s, plan) || answers[LinkKey(plan.id)] == Chosen(SeparateObligation) then
        && (plan.due.None? ==> o == Ask(Question(PlanKey(plan.id), PaymentDateMissing)))
        && (plan.due.Some? && plan.due.value <= s.asOf ==> o == Ask(Question(PlanKey(plan.id), PaymentInPast)))
      else true
  {
    assert NamesInvoice(s, plan) <==> MentionsInvoice(s, plan);
  }

  /** A plan that names an invoice is asked about its link first; then, without an answer, about
      a missing or passed date. */
  lemma {:induction false} PlanIsAskedAbout(s: Snapshot, answers: map<Key, Answer>, i: nat)
    requires i < |s.plans| && PlanKey(s.plans[i].id) !in answers
    ensures
      var plan, questions := s.plans[i], QuestionsOf(s, answers);
      if NamesInvoice(s, plan) && LinkKey(plan.id) !in answers then
        Question(LinkKey(plan.id), LinkUnverified) in questions
      else if !NamesInvoice(s, plan) || answers[LinkKey(plan.id)] == Chosen(SeparateObligation) then
        && (plan.due.None? ==> Question(PlanKey(plan.id), PaymentDateMissing) in questions)
        && (plan.due.Some? && plan.due.value <= s.asOf ==> Question(PlanKey(plan.id), PaymentInPast) in questions)
      else true
  {
    PlanAsks(s, answers, s.plans[i]);
    OutcomeAt(s, answers, |s.invoices| + i);
    QuestionsComeFromOutcomes(Outcomes(s, answers));
  }

  // ----- what is published -----

  /** An open invoice nobody was asked about follows its recorded terms: declared unknown, on
      its expected date, a purchase on its due date, a sale on its customer's projection. */
  lemma {:induction false} PublishedFollowsTerms(s: Snapshot, complete: bool, steps: seq<Step>, i: nat)
    requires i < |s.invoices| && s.invoices[i].remaining.Some? && s.invoices[i].remaining.value > 0
    requires |Replay(s, complete, steps).runs| == 1
    requires InvoiceKey(s.invoices[i].id) !in Replay(s, complete, steps).answers
    ensures
      var run, k, inv := Replay(s, complete, steps).runs[0], InvoiceKey(s.invoices[i].id), s.invoices[i];
      var terms := inv.terms;
      if terms.expectedUnknown then
        Unavailable(k, if inv.sale then ReceiptDateUnknown else PaymentDateUnknown) in run.unavailable
      else if terms.expected.Some? then
        terms.expected.value > s.asOf && Event(k, terms.expected.value, inv.sale, inv.remaining.value) in run.events
      else if !inv.sale then
        && terms.due.Some? && terms.due.value > s.asOf
        && Event(k, terms.due.value, false, inv.remaining.value) in run.events
      else
        var t := Projected(s, terms.due, inv.party);
        t.Stamp? && t.date > s.asOf && Event(k, t.date, true, inv.remaining.value) in run.events
  {
    var answers := Replay(s, complete, steps).answers;
    NothingOpen(s, complete, steps, i);
    OutcomeAt(s, answers, i);
    EventsComeFromOutcomes(Outcomes(s, answers));
    UnavailablesComeFromOutcomes(Outcomes(s, answers));
  }

  /** An invoice without a known balance is published as unavailable for that reason. */
  lemma {:induction false} UnknownBalanceIsPublished(s: Snapshot, complete: bool, steps: seq<Step>, i: nat)
    requires i < |s.invoices| && s.invoices[i].remaining.None? && |Replay(s, complete, steps).runs| == 1
    ensures Unavailable(InvoiceKey(s.invoices[i].id), BalanceUnavailable)
         in Replay(s, complete, steps).runs[0].unavailable
  {
    var answers := Replay(s, complete, steps).answers;
    NothingOpen(s, complete, steps, i);
    OutcomeAt(s, answers, i);
    UnavailablesComeFromOutcomes(Outcomes(s, answers));
  }

  /** What a plan comes to once nothing about it is left to ask. */
  lemma PlanComesTo(s: Snapshot, answers: map<Key, Answer>, plan: Plan)
    requires ValidAnswers(s, answers) && !PlanOutcome(s, answers, plan).Ask?
    ensures
      var o, k, link := PlanOutcome(s, answers, plan), PlanKey(plan.id), LinkKey(plan.id);
      if NamesInvoice(s, plan) && (link in answers ==> answers[link] != Chosen(SeparateObligation)) then
        link in answers && (answers[link] == Chosen(UnknownLink) ==> o == Unknowable(Unavailable(k, LinkUnknown)))
      else if k in answers then
        && (answers[k] == UnknownDate ==> o == Unknowable(Unavailable(k, PaymentDateUnknown)))
        && (answers[k].ExpectedOn? ==> o == Expect(Event(k, answers[k].date, false, plan.amount)))
      else
        && plan.due.Some? && plan.due.value > s.asOf
        && o == Expect(Event(k, plan.due.value, false, plan.amount))
  {
    assert NamesInvoice(s, plan) <==> MentionsInvoice(s, plan);
  }

  /** A published plan: left out when an invoice covers it, unavailable when nobody knows, and
      otherwise on the date the person gave or on its own due date. */
  lemma {:induction false} PublishedFollowsPlan(s: Snapshot, complete: bool, steps: seq<Step>, i: nat)
    requires i < |s.plans| && |Replay(s, complete, steps).runs| == 1
    ensures
      var run, answers, plan := Replay(s, complete, steps).runs[0], Replay(s, complete, steps).answers, s.plans[i];
      var k, link := PlanKey(plan.id), LinkKey(plan.id);
      if NamesInvoice(s, plan) && (link in answers ==> answers[link] != Chosen(SeparateObligation)) then
        && link in answers
        && (answers[link] == Chosen(UnknownLink) ==> Unavailable(k, LinkUnknown) in run.unavailable)
      else if k in answers then
        && (answers[k] == UnknownDate ==> Unavailable(k, PaymentDateUnknown) in run.unavailable)
        && (answers[k].ExpectedOn? ==> Event(k, answers[k].date, false, plan.amount) in run.events)
      else
        plan.due.Some? && plan.due.value > s.asOf && Event(k, plan.due.value, false, plan.amount) in run.events
  {
    var answers, at := Replay(s, complete, steps).answers, |s.invoices| + i;
    ReplayKeepsInv(s, complete, steps);
    NothingOpen(s, complete, steps, at);
    OutcomeAt(s, answers, at);
    EventsComeFromOutcomes(Outcomes(s, answers));
    UnavailablesComeFromOutcomes(Outcomes(s, answers));
    PlanComesTo(s, answers, s.plans[i]);
  }
}
