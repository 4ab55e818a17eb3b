/** Native forecast preparation: every invoice and manual plan becomes an event, an
    unavailable item, a question, or nothing. Dates are Python date ordinals. */
module ForecastPlanning {
  import opened Options
  import opened Sums
  import RT = ReceiptTiming

  datatype Key = InvoiceKey(id: string) | PlanKey(id: string) | LinkKey(id: string)
  datatype Terms = Terms(due: Option<int>, expectedUnknown: bool, expected: Option<int>)
  datatype Invoice = Invoice(id: string, remaining: Option<int>, sale: bool, terms: Terms, reference: string,
                             party: string)
  datatype Plan = Plan(id: string, amount: int, obligation: string, invoiceReference: bool, due: Option<int>)

  /** A dated allocation of a posted receipt. */
  datatype Receipt = Receipt(journal: string, due: Option<int>, paid: int, amount: int)
  datatype Snapshot = Snapshot(asOf: int, invoices: seq<Invoice>, plans: seq<Plan>, history: map<string, seq<Receipt>>)

  datatype Choice = CoveredByInvoice | SeparateObligation | UnknownLink
  datatype Answer = UnknownDate | ExpectedOn(date: int) | Chosen(choice: Choice)

  datatype Reason =
    | ReceiptDateUnknown | PaymentDateUnknown | BalanceUnavailable | LinkUnknown
    | DueDateMissing | HistoryAmbiguous | HistoryInsufficient | DateOutOfRange | PaymentDateMissing
    | ReceiptInPast | PaymentInPast | LinkUnverified

  /** A question's identity is the digest of its key and reason. */
  datatype Question = Question(key: Key, reason: Reason)
  datatype Event = Event(key: Key, date: int, receipt: bool, amount: int)
  datatype Unavailable = Unavailable(key: Key, reason: Reason)
  datatype Outcome = Settled | Ask(question: Question) | Unknowable(item: Unavailable) | Expect(event: Event) | Undated

  const LAST_DATE := 3652059

  // ----- receipt history -----

  function Eligible(rows: seq<Receipt>, asOf: int): seq<RT.Event> {
    if rows == [] then []
    else
      var r := rows[|rows| - 1];
      Eligible(rows[..|rows| - 1], asOf) +
      (if asOf - RT.LOOKBACK_DAYS <= r.paid <= asOf && r.due.Some? && r.amount > 0
       then [RT.Event(r.journal, "", "", r.due.value, r.paid, r.amount, RT.Financial)] else [])
  }

  predicate SameDates(rows: seq<RT.Event>, id: string) {
    forall e, f :: e in rows && f in rows && e.id == id && f.id == id ==> e.due == f.due && e.paid == f.paid
  }

  function PaidUnder(id: string): RT.Event -> int {
    (e: RT.Event) => if e.id == id then e.amount else 0
  }

  /** One event per journal with its allocations added up; a journal with several dates is
      dropped and makes the history ambiguous. */
  function Merged(firsts: seq<RT.Event>, rows: seq<RT.Event>): seq<RT.Event> {
    if firsts == [] then []
    else
      var e := firsts[|firsts| - 1];
      Merged(firsts[..|firsts| - 1], rows) +
      (if SameDates(rows, e.id) then [e.(amount := SumBy(rows, PaidUnder(e.id)))] else [])
  }

  function DatedHistory(rows: seq<Receipt>, asOf: int): (seq<RT.Event>, bool) {
    var es := Eligible(rows, asOf);
    (Merged(RT.Firsts(es), es), exists e :: e in es && !SameDates(es, e.id))
  }

  lemma {:induction false} EligibleIsPositive(rows: seq<Receipt>, asOf: int)
    ensures RT.Positive(Eligible(rows, asOf))
    decreases |rows|
  {
    if rows != [] {
      EligibleIsPositive(rows[..|rows| - 1], asOf);
    }
  }

  function IdOf(): RT.Event -> string {
    (e: RT.Event) => e.id
  }

  lemma MergedSnoc(front: seq<RT.Event>, e: RT.Event, rows: seq<RT.Event>)
    requires SameDates(rows, e.id)
    ensures SumBy(Merged(front + [e], rows), RT.Amount())
        == SumBy(Merged(front, rows), RT.Amount()) + SumBy(rows, PaidUnder(e.id))
  {
    assert (front + [e])[..|front|] == front;
    SumSnoc(Merged(front, rows), e.(amount := SumBy(rows, PaidUnder(e.id))), RT.Amount());
  }

  lemma IdsSnoc(front: seq<RT.Event>, e: RT.Event)
    ensures RT.Ids(front + [e]) == RT.Ids(front) + [e.id]
  {}

  lemma {:induction false} MergedSum(firsts: seq<RT.Event>, rows: seq<RT.Event>)
    requires forall k :: 0 <= k < |firsts| ==> SameDates(rows, firsts[k].id)
    ensures SumBy(Merged(firsts, rows), RT.Amount()) == SumBy(RT.Ids(firsts), KeySum(rows, IdOf(), RT.Amount()))
    decreases |firsts|
  {
    if firsts != [] {
      var front, e := firsts[..|firsts| - 1], firsts[|firsts| - 1];
      MergedSum(front, rows);
      assert firsts == front + [e];
      IdsSnoc(front, e);
      SumSnoc(RT.Ids(front), e.id, KeySum(rows, IdOf(), RT.Amount()));
      MergedSnoc(front, e, rows);
      PaidUnderIsKeyed(rows, e.id);
    }
  }

  lemma PaidUnderIsKeyed(rows: seq<RT.Event>, id: string)
    ensures SumBy(rows, PaidUnder(id)) == KeySum(rows, IdOf(), RT.Amount())(id)
  {
    SumPointwise(rows, rows, PaidUnder(id), OfKey(IdOf(), RT.Amount(), id));
  }

  /** Merging a receipt's allocations into one event keeps the money: an unambiguous history
      weighs exactly what was received in the window. */
  lemma {:induction false} HistoryKeepsTheMoney(rows: seq<Receipt>, asOf: int)
    requires !DatedHistory(rows, asOf).1
    ensures SumBy(DatedHistory(rows, asOf).0, RT.Amount()) == SumBy(Eligible(rows, asOf), RT.Amount())
  {
    var es := Eligible(rows, asOf);
    var firsts := RT.Firsts(es);
    RT.FirstsAreFirst(es);
    forall k | 0 <= k < |firsts| ensures SameDates(es, firsts[k].id) {
      assert firsts[k] in firsts;
    }
    MergedSum(firsts, es);
    IdsCover(es);
    SumByKeys(es, RT.Ids(firsts), IdOf(), RT.Amount());
  }

  lemma IdsCover(es: seq<RT.Event>)
    ensures Distinct(RT.Ids(RT.Firsts(es)))
    ensures forall i :: 0 <= i < |es| ==> IdOf()(es[i]) in RT.Ids(RT.Firsts(es))
  {
    var firsts := RT.Firsts(es);
    RT.FirstsAreFirst(es);
    forall i | 0 <= i < |es| ensures IdOf()(es[i]) in RT.Ids(firsts) {
      assert RT.Known(firsts, es[i].id);
      var k :| 0 <= k < |firsts| && firsts[k].id == es[i].id;
      assert RT.Ids(firsts)[k] == es[i].id;
    }
  }

  lemma {:induction false} MergedIsPositive(firsts: seq<RT.Event>, rows: seq<RT.Event>)
    requires RT.Positive(rows) && forall e :: e in firsts ==> e in rows
    ensures RT.Positive(Merged(firsts, rows))
    decreases |firsts|
  {
    if firsts != [] {
      MergedIsPositive(firsts[..|firsts| - 1], rows);
      var e := firsts[|firsts| - 1];
      assert e in firsts;
      var at :| 0 <= at < |rows| && rows[at] == e;
      PaidAtLeast(rows, e.id, at);
    }
  }

  lemma {:induction false} PaidAtLeast(rows: seq<RT.Event>, id: string, at: nat)
    requires RT.Positive(rows) && at < |rows| && rows[at].id == id
    ensures SumBy(rows, PaidUnder(id)) > 0
    decreases |rows|
  {
    var front := rows[..|rows| - 1];
    SumNonNegative(front, PaidUnder(id));
    assert rows[|rows| - 1].amount > 0;
    if at < |rows| - 1 {
      PaidAtLeast(front, id, at);
    }
  }

  // ----- one item -----

  function Rows(s: Snapshot, party: string): seq<Receipt> {
    if party in s.history then s.history[party] else []
  }

  datatype Timing = Stamp(date: int) | Doubt(reason: Reason)

  /** The projection of a receipt from its customer's history. */
  function Projected(s: Snapshot, due: Option<int>, party: string): Timing {
    var (history, ambiguous) := DatedHistory(Rows(s, party), s.asOf);
    if due.None? then Doubt(DueDateMissing)
    else if ambiguous then Doubt(HistoryAmbiguous)
    else if |history| < RT.MINIMUM_EVENTS then Doubt(HistoryInsufficient)
    else
      var lag := RT.MedianDelay(history);
      if lag.Some? && 1 <= due.value + lag.value <= LAST_DATE then Stamp(due.value + lag.value)
      else Doubt(DateOutOfRange)
  }

  function HistoryOf(s: Snapshot, party: string): seq<RT.Event> {
    DatedHistory(Rows(s, party), s.asOf).0
  }

  /** Three receipts or more, none of them contradicted. */
  predicate EnoughHistory(s: Snapshot, party: string) {
    !DatedHistory(Rows(s, party), s.asOf).1 && |HistoryOf(s, party)| >= RT.MINIMUM_EVENTS
  }

  /** With a due date and three unambiguous receipts the projection is the due date moved by
      their weighted median delay, and only the calendar's range can stop it. */
  lemma EnoughHistoryProjects(s: Snapshot, due: int, party: string)
    requires EnoughHistory(s, party)
    ensures
      exists lag ::
        && RT.MedianDelay(HistoryOf(s, party)) == Some(lag) && RT.IsMedian(HistoryOf(s, party), lag)
        && Projected(s, Some(due), party)
           == (if 1 <= due + lag <= LAST_DATE then Stamp(due + lag) else Doubt(DateOutOfRange))
  {
    var es := Eligible(Rows(s, party), s.asOf);
    EligibleIsPositive(Rows(s, party), s.asOf);
    RT.FirstsAreFirst(es);
    MergedIsPositive(RT.Firsts(es), es);
    RT.MedianIsMedian(DatedHistory(Rows(s, party), s.asOf).0);
  }

  function Dated(s: Snapshot, key: Key, receipt: bool, amount: int, t: Timing): Outcome {
    match t
    case Doubt(reason) => Ask(Question(key, reason))
    case Stamp(date) =>
      if date <= s.asOf then Ask(Question(key, if receipt then ReceiptInPast else PaymentInPast))
      else Expect(Event(key, date, receipt, amount))
  }

  /** `expected`: the human answer, then the recorded terms, then the projection. */
  function Timed(s: Snapshot, answers: map<Key, Answer>, key: Key, receipt: bool, amount: int, terms: Terms,
                 party: string): Outcome
  {
    var unknown := Unknowable(Unavailable(key, if receipt then ReceiptDateUnknown else PaymentDateUnknown));
    if key in answers then
      match answers[key]
      case UnknownDate => unknown
      case ExpectedOn(date) => Dated(s, key, receipt, amount, Stamp(date))
      case Chosen(_) => Undated
    else if terms.expectedUnknown then unknown
    else if terms.expected.Some? then Dated(s, key, receipt, amount, Stamp(terms.expected.value))
    else if receipt then Dated(s, key, receipt, amount, Projected(s, terms.due, party))
    else if terms.due.Some? then Dated(s, key, receipt, amount, Stamp(terms.due.value))
    else Ask(Question(key, PaymentDateMissing))
  }

  function InvoiceOutcome(s: Snapshot, answers: map<Key, Answer>, i: Invoice): Outcome {
    if i.remaining.None? then Unknowable(Unavailable(InvoiceKey(i.id), BalanceUnavailable))
    else if i.remaining.value <= 0 then Settled
    else Timed(s, answers, InvoiceKey(i.id), i.sale, i.remaining.value, i.terms, i.party)
  }

  predicate MentionsInvoice(s: Snapshot, p: Plan) {
    p.invoiceReference || exists i :: i in s.invoices && i.reference == p.obligation
  }

  function PlanOutcome(s: Snapshot, answers: map<Key, Answer>, p: Plan): Outcome {
    var timed := Timed(s, answers, PlanKey(p.id), false, p.amount, Terms(p.due, false, None), "");
    if !MentionsInvoice(s, p) then timed
    else if LinkKey(p.id) !in answers || !answers[LinkKey(p.id)].Chosen? then
      Ask(Question(LinkKey(p.id), LinkUnverified))
    else
      match answers[LinkKey(p.id)].choice
      case CoveredByInvoice => Settled
      case UnknownLink => Unknowable(Unavailable(PlanKey(p.id), LinkUnknown))
      case SeparateObligation => timed
  }

  function Outcomes(s: Snapshot, answers: map<Key, Answer>): seq<Outcome> {
    seq(|s.invoices|, i requires 0 <= i < |s.invoices| => InvoiceOutcome(s, answers, s.invoices[i]))
    + seq(|s.plans|, i requires 0 <= i < |s.plans| => PlanOutcome(s, answers, s.plans[i]))
  }

  // ----- the lists -----

  function Questions(os: seq<Outcome>): seq<Question> {
    if os == [] then []
    else
      var o := os[|os| - 1];
      Questions(os[..|os| - 1]) + (if o.Ask? then [o.question] else [])
  }

  function Events(os: seq<Outcome>): seq<Event> {
    if os == [] then []
    else
      var o := os[|os| - 1];
      Events(os[..|os| - 1]) + (if o.Expect? then [o.event] else [])
  }

  function Unavailables(os: seq<Outcome>): seq<Unavailable> {
    if os == [] then []
    else
      var o := os[|os| - 1];
      Unavailables(os[..|os| - 1]) + (if o.Unknowable? then [o.item] else [])
  }

  datatype Prepared = Prepared(questions: seq<Question>, events: seq<Event>, unavailable: seq<Unavailable>)

  function Lists(os: seq<Outcome>): Prepared {
    Prepared(Questions(os), Events(os), Unavailables(os))
  }

  function Appended(p: Prepared, o: Outcome): Prepared {
    match o
    case Ask(q) => p.(questions := p.questions + [q])
    case Expect(e) => p.(events := p.events + [e])
    case Unknowable(u) => p.(unavailable := p.unavailable + [u])
    case _ => p
  }

  lemma ListsPrefix(os: seq<Outcome>, i: nat)
    requires i < |os|
    ensures Lists(os[..i + 1]) == Appended(Lists(os[..i]), os[i])
    ensures Undated in os[..i + 1] <==> Undated in os[..i] || os[i].Undated?
  {
    assert os[..i + 1] == os[..i] + [os[i]];
    assert os[..i + 1][..i] == os[..i];
  }

  lemma NothingListed(os: seq<Outcome>)
    requires os == []
    ensures Lists(os) == Prepared([], [], []) && Undated !in os
  {}

  /** The outcomes of the invoices come first, then those of the plans. */
  ghost predicate Lined(s: Snapshot, answers: map<Key, Answer>, os: seq<Outcome>) {
    && |os| == |s.invoices| + |s.plans|
    && (forall i :: 0 <= i < |s.invoices| ==> os[i] == InvoiceOutcome(s, answers, s.invoices[i]))
    && (forall j :: 0 <= j < |s.plans| ==> os[|s.invoices| + j] == PlanOutcome(s, answers, s.plans[j]))
  }

  lemma OutcomesLined(s: Snapshot, answers: map<Key, Answer>)
    ensures Lined(s, answers, Outcomes(s, answers))
  {}

  method PrepareInvoices(s: Snapshot, answers: map<Key, Answer>, ghost os: seq<Outcome>) returns (p: Option<Prepared>)
    requires Lined(s, answers, os)
    ensures p.Some? <==> Undated !in os[..|s.invoices|]
    ensures p.Some? ==> p.value == Lists(os[..|s.invoices|])
  {
    var acc := Prepared([], [], []);
    var i := 0;
    NothingListed(os[..i]);
    while i < |s.invoices|
      invariant 0 <= i <= |s.invoices|
      invariant acc == Lists(os[..i]) && Undated !in os[..i]
    {
      ListsPrefix(os, i);
      var o := InvoiceOutcome(s, answers, s.invoices[i]);
      if o.Undated? {
        assert os[..|s.invoices|][i].Undated?;
        return None;
      }
      acc := Appended(acc, o);
      i := i + 1;
    }
    p := Some(acc);
  }

  method PreparePlans(s: Snapshot, answers: map<Key, Answer>, start: Prepared, ghost os: seq<Outcome>)
    returns (p: Option<Prepared>)
    requires Lined(s, answers, os) && start == Lists(os[..|s.invoices|]) && Undated !in os[..|s.invoices|]
    ensures p.Some? <==> Undated !in os
    ensures p.Some? ==> p.value == Lists(os)
  {
    var acc, n, j := start, |s.invoices|, 0;
    while j < |s.plans|
      invariant 0 <= j <= |s.plans|
      invariant acc == Lists(os[..n + j]) && Undated !in os[..n + j]
    {
      ListsPrefix(os, n + j);
      var o := PlanOutcome(s, answers, s.plans[j]);
      if o.Undated? {
        assert os[n + j].Undated?;
        return None;
      }
      acc := Appended(acc, o);
      j := j + 1;
    }
    assert os[..n + j] == os;
    p := Some(acc);
  }

  /** `prepare`: two passes that append to three lists; None when an item stays undated. */
  method Prepare(s: Snapshot, answers: map<Key, Answer>) returns (p: Option<Prepared>)
    ensures p.Some? <==> Undated !in Outcomes(s, answers)
    ensures p.Some? ==> p.value == Lists(Outcomes(s, answers))
  {
    ghost var os := Outcomes(s, answers);
    OutcomesLined(s, answers);
    var first := PrepareInvoices(s, answers, os);
    if first.None? {
      return None;
    }
    p := PreparePlans(s, answers, first.value, os);
  }
}
