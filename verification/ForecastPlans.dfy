/** The clarification loop of a native forecast: questions are answered one at a time against
    a pinned snapshot until none is left, and the forecast is published once. */
module ForecastPlans {
  import opened Options
  import opened Sums
  import opened ForecastPlanning

  datatype State = WaitingInput | Completed | CompletedLimited
  datatype Run = Run(answers: map<Key, Answer>, events: seq<Event>, unavailable: seq<Unavailable>, limited: bool)

  /** `runs` are the forecast runs published for this plan. */
  datatype Progress = Progress(answers: map<Key, Answer>, version: nat, state: State, runs: seq<Run>)

  function QuestionsOf(s: Snapshot, answers: map<Key, Answer>): seq<Question> {
    Questions(Outcomes(s, answers))
  }

  function RunOf(s: Snapshot, complete: bool, answers: map<Key, Answer>): Run {
    var p := Lists(Outcomes(s, answers));
    Run(answers, p.events, p.unavailable, p.unavailable != [] || !complete)
  }

  /** `_finish`: nothing while a question is open; otherwise publish. */
  function Finish(s: Snapshot, complete: bool, p: Progress): Progress {
    if QuestionsOf(s, p.answers) != [] then p
    else
      var run := RunOf(s, complete, p.answers);
      p.(state := if run.limited then CompletedLimited else Completed, runs := p.runs + [run])
  }

  function Created(s: Snapshot, complete: bool): Progress {
    Finish(s, complete, Progress(map[], 1, WaitingInput, []))
  }

  /** An answer of the question's kind; dates must lie after the snapshot. */
  predicate Fits(s: Snapshot, key: Key, a: Answer) {
    if key.LinkKey? then a.Chosen? else !a.Chosen? && (a.ExpectedOn? ==> a.date > s.asOf)
  }

  predicate Accepted(s: Snapshot, p: Progress, version: nat, q: Question, a: Answer, sourceSame: bool) {
    && p.version == version && p.state.WaitingInput? && sourceSame
    && q in QuestionsOf(s, p.answers) && Fits(s, q.key, a)
  }

  function Answered(s: Snapshot, complete: bool, p: Progress, q: Question, a: Answer): Progress {
    Finish(s, complete, p.(answers := p.answers[q.key := a], version := p.version + 1))
  }

  datatype Step = Step(version: nat, question: Question, answer: Answer, sourceSame: bool)

  function Apply(s: Snapshot, complete: bool, p: Progress, x: Step): Progress {
    if Accepted(s, p, x.version, x.question, x.answer, x.sourceSame) then Answered(s, complete, p, x.question, x.answer)
    else p
  }

  function Replay(s: Snapshot, complete: bool, steps: seq<Step>): Progress {
    if steps == [] then Created(s, complete)
    else Apply(s, complete, Replay(s, complete, steps[..|steps| - 1]), steps[|steps| - 1])
  }

  // ----- which keys can be asked -----

  function Askable(s: Snapshot): set<Key> {
    (set i | i in s.invoices :: InvoiceKey(i.id)) + (set p | p in s.plans :: PlanKey(p.id))
    + (set p | p in s.plans :: LinkKey(p.id))
  }

  lemma {:induction false} InvoiceKeysBound(rows: seq<Invoice>)
    ensures |set i | i in rows :: InvoiceKey(i.id)| <= |rows|
    decreases |rows|
  {
    if rows != [] {
      var front, last := rows[..|rows| - 1], rows[|rows| - 1];
      InvoiceKeysBound(front);
      assert (set i | i in rows :: InvoiceKey(i.id))
          == (set i | i in front :: InvoiceKey(i.id)) + {InvoiceKey(last.id)};
    }
  }

  lemma {:induction false} PlanKeysBound(rows: seq<Plan>)
    ensures |set p | p in rows :: PlanKey(p.id)| <= |rows|
    decreases |rows|
  {
    if rows != [] {
      var front, last := rows[..|rows| - 1], rows[|rows| - 1];
      PlanKeysBound(front);
      assert (set p | p in rows :: PlanKey(p.id)) == (set p | p in front :: PlanKey(p.id)) + {PlanKey(last.id)};
    }
  }

  lemma {:induction false} LinkKeysBound(rows: seq<Plan>)
    ensures |set p | p in rows :: LinkKey(p.id)| <= |rows|
    decreases |rows|
  {
    if rows != [] {
      var front, last := rows[..|rows| - 1], rows[|rows| - 1];
      LinkKeysBound(front);
      assert (set p | p in rows :: LinkKey(p.id)) == (set p | p in front :: LinkKey(p.id)) + {LinkKey(last.id)};
    }
  }

  lemma AskableBound(s: Snapshot)
    ensures |Askable(s)| <= |s.invoices| + 2 * |s.plans|
  {
    InvoiceKeysBound(s.invoices);
    PlanKeysBound(s.plans);
    LinkKeysBound(s.plans);
  }

  lemma SubsetSize<T>(a: set<T>, b: set<T>)
    requires a <= b
    ensures |a| <= |b|
  {
    assert b == a + (b - a);
  }

  // ----- an answered key is never asked again -----

  predicate ValidAnswers(s: Snapshot, answers: map<Key, Answer>) {
    answers.Keys <= Askable(s) && forall k :: k in answers ==> Fits(s, k, answers[k])
  }

  lemma {:induction false} QuestionsComeFromOutcomes(os: seq<Outcome>)
    ensures forall q :: q in Questions(os) <==> Ask(q) in os
    ensures Questions(os) == [] <==> forall o :: o in os ==> !o.Ask?
    decreases |os|
  {
    if os != [] {
      var front, o := os[..|os| - 1], os[|os| - 1];
      QuestionsComeFromOutcomes(front);
      assert os == front + [o];
    }
  }

  lemma InvoiceAsksUnanswered(s: Snapshot, answers: map<Key, Answer>, i: Invoice)
    requires ValidAnswers(s, answers) && InvoiceOutcome(s, answers, i).Ask?
    ensures InvoiceOutcome(s, answers, i).question.key == InvoiceKey(i.id) && InvoiceKey(i.id) !in answers
  {}

  lemma PlanAsksUnanswered(s: Snapshot, answers: map<Key, Answer>, p: Plan)
    requires ValidAnswers(s, answers) && PlanOutcome(s, answers, p).Ask?
    ensures
      var k := PlanOutcome(s, answers, p).question.key;
      (k == PlanKey(p.id) || k == LinkKey(p.id)) && k !in answers
  {}

  lemma OutcomeAt(s: Snapshot, answers: map<Key, Answer>, j: nat)
    requires j < |s.invoices| + |s.plans|
    ensures |Outcomes(s, answers)| == |s.invoices| + |s.plans| && Outcomes(s, answers)[j] in Outcomes(s, answers)
    ensures j < |s.invoices| ==> Outcomes(s, answers)[j] == InvoiceOutcome(s, answers, s.invoices[j])
    ensures j >= |s.invoices| ==> Outcomes(s, answers)[j] == PlanOutcome(s, answers, s.plans[j - |s.invoices|])
  {}

  lemma AskableKeys(s: Snapshot)
    ensures forall i :: 0 <= i < |s.invoices| ==> InvoiceKey(s.invoices[i].id) in Askable(s)
    ensures forall i ::
      0 <= i < |s.plans| ==> PlanKey(s.plans[i].id) in Askable(s) && LinkKey(s.plans[i].id) in Askable(s)
  {}

  lemma AsksUnanswered(s: Snapshot, answers: map<Key, Answer>, i: nat, o: Outcome)
    requires ValidAnswers(s, answers) && i < |s.invoices| + |s.plans| && o == Outcomes(s, answers)[i] && o.Ask?
    ensures o.question.key in Askable(s) && o.question.key !in answers
  {
    OutcomeAt(s, answers, i);
    AskableKeys(s);
    if i < |s.invoices| {
      InvoiceAsksUnanswered(s, answers, s.invoices[i]);
    } else {
      PlanAsksUnanswered(s, answers, s.plans[i - |s.invoices|]);
    }
  }

  lemma QuestionHasOutcome(os: seq<Outcome>, q: Question) returns (i: nat)
    requires q in Questions(os)
    ensures i < |os| && os[i] == Ask(q)
  {
    QuestionsComeFromOutcomes(os);
    i :| 0 <= i < |os| && os[i] == Ask(q);
  }

  /** Every question asked is about an askable key that has no answer yet. */
  lemma AnsweredKeysAreSettled(s: Snapshot, answers: map<Key, Answer>, q: Question)
    requires ValidAnswers(s, answers) && q in QuestionsOf(s, answers)
    ensures q.key in Askable(s) && q.key !in answers
  {
    var i := QuestionHasOutcome(Outcomes(s, answers), q);
    AsksUnanswered(s, answers, i, Ask(q));
  }

  lemma NoUndated(s: Snapshot, answers: map<Key, Answer>)
    requires ValidAnswers(s, answers)
    ensures Undated !in Outcomes(s, answers)
  {}

  // ----- every reachable plan -----

  /** Each answer added a key; the plan is published once, exactly when no question is left. */
  ghost predicate Inv(s: Snapshot, complete: bool, p: Progress) {
    && ValidAnswers(s, p.answers)
    && p.version == 1 + |p.answers|
    && (p.state.WaitingInput? <==> QuestionsOf(s, p.answers) != [])
    && p.runs == (if p.state.WaitingInput? then [] else [RunOf(s, complete, p.answers)])
  }

  lemma FinishKeepsInv(s: Snapshot, complete: bool, p: Progress)
    requires ValidAnswers(s, p.answers) && p.version == 1 + |p.answers| && p.state.WaitingInput? && p.runs == []
    ensures Inv(s, complete, Finish(s, complete, p))
  {}

  lemma AnswerAdds(s: Snapshot, answers: map<Key, Answer>, k: Key, a: Answer)
    requires ValidAnswers(s, answers) && k in Askable(s) && k !in answers && Fits(s, k, a)
    ensures ValidAnswers(s, answers[k := a]) && |answers[k := a]| == |answers| + 1
  {
    var more := answers[k := a];
    assert more.Keys == answers.Keys + {k};
    assert |more.Keys| == |answers.Keys| + 1;
  }

  lemma StepKeepsInv(s: Snapshot, complete: bool, p: Progress, x: Step)
    requires Inv(s, complete, p)
    ensures Inv(s, complete, Apply(s, complete, p, x))
  {
    if Accepted(s, p, x.version, x.question, x.answer, x.sourceSame) {
      AnsweredKeysAreSettled(s, p.answers, x.question);
      AnswerAdds(s, p.answers, x.question.key, x.answer);
      FinishKeepsInv(s, complete, p.(answers := p.answers[x.question.key := x.answer], version := p.version + 1));
    }
  }

  lemma {:induction false} ReplayKeepsInv(s: Snapshot, complete: bool, steps: seq<Step>)
    ensures Inv(s, complete, Replay(s, complete, steps))
    decreases |steps|
  {
    if steps == [] {
    } else {
      ReplayKeepsInv(s, complete, steps[..|steps| - 1]);
      StepKeepsInv(s, complete, Replay(s, complete, steps[..|steps| - 1]), steps[|steps| - 1]);
    }
  }

  /** However often the plan is answered, it takes at most one answer per invoice and two per
      plan; it is published at most once and only when nothing is left to ask. */
  lemma AnswersAreBounded(s: Snapshot, complete: bool, steps: seq<Step>)
    ensures
      var p := Replay(s, complete, steps);
      && p.version - 1 == |p.answers| <= |s.invoices| + 2 * |s.plans|
      && |p.runs| <= 1
      && (|p.runs| == 1 <==> QuestionsOf(s, p.answers) == [])
      && (|p.runs| == 1 <==> !p.state.WaitingInput?)
  {
    var p := Replay(s, complete, steps);
    ReplayKeepsInv(s, complete, steps);
    SubsetSize(p.answers.Keys, Askable(s));
    AskableBound(s);
  }

  /** A published plan accepts nothing more: its answers, state and run are final. */
  lemma {:induction false} PublishedIsFinal(s: Snapshot, complete: bool, before: seq<Step>, after: seq<Step>)
    requires !Replay(s, complete, before).state.WaitingInput?
    ensures Replay(s, complete, before + after) == Replay(s, complete, before)
    decreases |after|
  {
    if after == [] {
      assert before + after == before;
    } else {
      var n := |after| - 1;
      assert (before + after)[..|before| + n] == before + after[..n];
      PublishedIsFinal(s, complete, before, after[..n]);
    }
  }

  // ----- the loop converges -----

  function Left(s: Snapshot, p: Progress): set<Key> {
    Askable(s) - p.answers.Keys
  }

  lemma OneMoreAnswer(s: Snapshot, complete: bool, p: Progress, a: Answer) returns (q: Question, next: Progress)
    requires Inv(s, complete, p) && p.state.WaitingInput?
    requires Fits(s, QuestionsOf(s, p.answers)[0].key, a)
    ensures q == QuestionsOf(s, p.answers)[0] && next == Apply(s, complete, p, Step(p.version, q, a, true))
    ensures Inv(s, complete, next) && next.answers == p.answers[q.key := a] && next.version == p.version + 1
    ensures q.key !in p.answers && Left(s, next) == Left(s, p) - {q.key} && q.key in Left(s, p)
  {
    q := QuestionsOf(s, p.answers)[0];
    AnsweredKeysAreSettled(s, p.answers, q);
    next := Apply(s, complete, p, Step(p.version, q, a, true));
    StepKeepsInv(s, complete, p, Step(p.version, q, a, true));
  }

  /** The person's reply to each question, whatever it is, fits that question. */
  ghost predicate Replies(s: Snapshot, reply: Question -> Answer) {
    forall q: Question :: Fits(s, q.key, reply(q))
  }

  /** From `p` to `final`, exactly the questions in `asked` were answered, each once and as
      replied, and nothing answered before was touched. */
  ghost predicate Answers(s: Snapshot, p: Progress, reply: Question -> Answer, final: Progress, asked: seq<Question>) {
    && |asked| <= |Left(s, p)| && final.version == p.version + |asked|
    && (forall k :: k in p.answers ==> k in final.answers && final.answers[k] == p.answers[k])
    && (forall q :: q in asked ==> q.key in final.answers && final.answers[q.key] == reply(q) && q.key !in p.answers)
  }

  lemma AnswersFirst(s: Snapshot, p: Progress, q: Question, next: Progress, reply: Question -> Answer,
                     final: Progress, rest: seq<Question>)
    requires q.key in Left(s, p) && next.version == p.version + 1 && next.answers == p.answers[q.key := reply(q)]
    requires Answers(s, next, reply, final, rest)
    ensures Answers(s, p, reply, final, [q] + rest)
  {
    assert Left(s, next) == Left(s, p) - {q.key};
    assert q.key in next.answers && q.key !in p.answers;
    assert forall k :: k in p.answers ==> k in next.answers && next.answers[k] == p.answers[k];
  }

  /** Whatever is replied, answering the first open question over and over ends in one
      publication, after no more answers than there are unanswered keys. */
  lemma {:induction false} ConversationEnds(s: Snapshot, complete: bool, p: Progress, reply: Question -> Answer)
    returns (final: Progress, asked: seq<Question>)
    requires Inv(s, complete, p) && Replies(s, reply)
    ensures Inv(s, complete, final) && |final.runs| == 1 && !final.state.WaitingInput?
    ensures Answers(s, p, reply, final, asked)
    decreases Left(s, p)
  {
    if !p.state.WaitingInput? {
      final, asked := p, [];
    } else {
      var q, next := OneMoreAnswer(s, complete, p, reply(QuestionsOf(s, p.answers)[0]));
      var rest: seq<Question>;
      final, rest := ConversationEnds(s, complete, next, reply);
      asked := [q] + rest;
      AnswersFirst(s, p, q, next, reply, final, rest);
    }
  }

  // ----- what is published -----

  predicate DistinctIds(s: Snapshot) {
    && (forall i, j :: 0 <= i < j < |s.invoices| ==> s.invoices[i].id != s.invoices[j].id)
    && (forall i, j :: 0 <= i < j < |s.plans| ==> s.plans[i].id != s.plans[j].id)
  }

  function EventOf(k: Key): Event -> int {
    (e: Event) => if e.key == k then 1 else 0
  }

  function ItemOf(k: Key): Unavailable -> int {
    (u: Unavailable) => if u.key == k then 1 else 0
  }

  function OutcomeOf(k: Key): Outcome -> int {
    (o: Outcome) => if (o.Expect? && o.event.key == k) || (o.Unknowable? && o.item.key == k) then 1 else 0
  }

  lemma {:induction false} ListsCount(os: seq<Outcome>, k: Key)
    ensures SumBy(Events(os), EventOf(k)) + SumBy(Unavailables(os), ItemOf(k)) == SumBy(os, OutcomeOf(k))
    decreases |os|
  {
    if os != [] {
      var front, o := os[..|os| - 1], os[|os| - 1];
      ListsCount(front, k);
      if o.Expect? { SumSnoc(Events(front), o.event, EventOf(k)); } else { assert Events(os) == Events(front); }
      if o.Unknowable? {
        SumSnoc(Unavailables(front), o.item, ItemOf(k));
      } else {
        assert Unavailables(os) == Unavailables(front);
      }
    }
  }

  lemma {:induction false} EventsComeFromOutcomes(os: seq<Outcome>)
    ensures forall e :: e in Events(os) <==> Expect(e) in os
    decreases |os|
  {
    if os != [] {
      var front, o := os[..|os| - 1], os[|os| - 1];
      EventsComeFromOutcomes(front);
      assert os == front + [o];
    }
  }

  /** An item only ever speaks under its own key. */
  lemma InvoiceSpeaksForItself(s: Snapshot, answers: map<Key, Answer>, i: Invoice)
    ensures
      var o := InvoiceOutcome(s, answers, i);
      && (o.Expect? ==> o.event.key == InvoiceKey(i.id) && o.event.date > s.asOf && o.event.receipt == i.sale)
      && (o.Expect? ==> i.remaining == Some(o.event.amount) && o.event.amount > 0)
      && (o.Unknowable? ==> o.item.key == InvoiceKey(i.id))
      && (o.Settled? <==> i.remaining.Some? && i.remaining.value <= 0)
  {}

  lemma PlanSpeaksForItself(s: Snapshot, answers: map<Key, Answer>, p: Plan)
    ensures
      var o := PlanOutcome(s, answers, p);
      && (o.Expect? ==> o.event.key == PlanKey(p.id) && o.event.date > s.asOf && o.event.amount == p.amount)
      && (o.Unknowable? ==> o.item.key == PlanKey(p.id))
      && (o.Settled? <==>
          MentionsInvoice(s, p) && LinkKey(p.id) in answers && answers[LinkKey(p.id)] == Chosen(CoveredByInvoice))
      && (!o.Ask? && MentionsInvoice(s, p) ==> LinkKey(p.id) in answers)
  {}

  lemma NothingOpen(s: Snapshot, complete: bool, steps: seq<Step>, j: nat)
    requires |Replay(s, complete, steps).runs| == 1 && j < |s.invoices| + |s.plans|
    ensures
      var p := Replay(s, complete, steps);
      && p.runs[0] == RunOf(s, complete, p.answers)
      && !Outcomes(s, p.answers)[j].Ask? && !Outcomes(s, p.answers)[j].Undated?
  {
    var p := Replay(s, complete, steps);
    ReplayKeepsInv(s, complete, steps);
    QuestionsComeFromOutcomes(Outcomes(s, p.answers));
    NoUndated(s, p.answers);
    OutcomeAt(s, p.answers, j);
  }

  lemma InvoiceCountedOnce(s: Snapshot, answers: map<Key, Answer>, i: nat)
    requires DistinctIds(s) && i < |s.invoices|
    ensures SumBy(Outcomes(s, answers), OutcomeOf(InvoiceKey(s.invoices[i].id)))
         == OutcomeOf(InvoiceKey(s.invoices[i].id))(Outcomes(s, answers)[i])
  {
    var os, k := Outcomes(s, answers), InvoiceKey(s.invoices[i].id);
    forall j | 0 <= j < |os| && j != i ensures OutcomeOf(k)(os[j]) == 0 {
      OutcomeAt(s, answers, j);
      if j < |s.invoices| {
        InvoiceSpeaksForItself(s, answers, s.invoices[j]);
        assert s.invoices[j].id != s.invoices[i].id;
      } else {
        PlanSpeaksForItself(s, answers, s.plans[j - |s.invoices|]);
      }
    }
    SumOnly(os, i, OutcomeOf(k));
  }

  lemma PlanCountedOnce(s: Snapshot, answers: map<Key, Answer>, i: nat)
    requires DistinctIds(s) && i < |s.plans|
    ensures SumBy(Outcomes(s, answers), OutcomeOf(PlanKey(s.plans[i].id)))
         == OutcomeOf(PlanKey(s.plans[i].id))(Outcomes(s, answers)[|s.invoices| + i])
  {
    var os, k, n := Outcomes(s, answers), PlanKey(s.plans[i].id), |s.invoices|;
    forall j | 0 <= j < |os| && j != n + i ensures OutcomeOf(k)(os[j]) == 0 {
      OutcomeAt(s, answers, j);
      if j < n {
        InvoiceSpeaksForItself(s, answers, s.invoices[j]);
      } else {
        PlanSpeaksForItself(s, answers, s.plans[j - n]);
        assert s.plans[j - n].id != s.plans[i].id;
      }
    }
    SumOnly(os, n + i, OutcomeOf(k));
  }

  /** In a published forecast every invoice with a positive or unknown remaining appears
      exactly once, as an event or as unavailable; a paid one not at all. */
  lemma PublishedCoversEachInvoiceOnce(s: Snapshot, complete: bool, steps: seq<Step>, i: nat)
    requires DistinctIds(s) && i < |s.invoices| && |Replay(s, complete, steps).runs| == 1
    ensures
      var run := Replay(s, complete, steps).runs[0];
      var k := InvoiceKey(s.invoices[i].id);
      SumBy(run.events, EventOf(k)) + SumBy(run.unavailable, ItemOf(k))
        == if s.invoices[i].remaining.Some? && s.invoices[i].remaining.value <= 0 then 0 else 1
  {
    var answers := Replay(s, complete, steps).answers;
    NothingOpen(s, complete, steps, i);
    ListsCount(Outcomes(s, answers), InvoiceKey(s.invoices[i].id));
    InvoiceCountedOnce(s, answers, i);
    OutcomeAt(s, answers, i);
    InvoiceSpeaksForItself(s, answers, s.invoices[i]);
  }

  /** Likewise every plan, unless the person said an invoice already covers it. */
  lemma {:induction false} PublishedCoversEachPlanOnce(s: Snapshot, complete: bool, steps: seq<Step>, i: nat)
    requires DistinctIds(s) && i < |s.plans| && |Replay(s, complete, steps).runs| == 1
    ensures
      var p := Replay(s, complete, steps);
      var k, link := PlanKey(s.plans[i].id), LinkKey(s.plans[i].id);
      && (MentionsInvoice(s, s.plans[i]) ==> link in p.answers)
      && SumBy(p.runs[0].events, EventOf(k)) + SumBy(p.runs[0].unavailable, ItemOf(k))
           == if MentionsInvoice(s, s.plans[i]) && p.answers[link] == Chosen(CoveredByInvoice) then 0 else 1
  {
    var answers := Replay(s, complete, steps).answers;
    var at := |s.invoices| + i;
    NothingOpen(s, complete, steps, at);
    ListsCount(Outcomes(s, answers), PlanKey(s.plans[i].id));
    PlanCountedOnce(s, answers, i);
    OutcomeAt(s, answers, at);
    PlanSpeaksForItself(s, answers, s.plans[i]);
  }

  lemma {:induction false} UnavailablesComeFromOutcomes(os: seq<Outcome>)
    ensures forall u :: u in Unavailables(os) <==> Unknowable(u) in os
    decreases |os|
  {
    if os != [] {
      var front, o := os[..|os| - 1], os[|os| - 1];
      UnavailablesComeFromOutcomes(front);
      assert os == front + [o];
    }
  }

  /** What a person answered about an open invoice is what is published: the date as given,
      or the invoice as unavailable when the person did not know. */
  lemma {:induction false} PublishedHonoursAnswers(s: Snapshot, complete: bool, steps: seq<Step>, i: nat)
    requires i < |s.invoices| && s.invoices[i].remaining.Some? && s.invoices[i].remaining.value > 0
    requires |Replay(s, complete, steps).runs| == 1
        && InvoiceKey(s.invoices[i].id) in Replay(s, complete, steps).answers
    ensures
      var p, k, inv := Replay(s, complete, steps), InvoiceKey(s.invoices[i].id), s.invoices[i];
      match p.answers[k]
      case ExpectedOn(date) => Event(k, date, inv.sale, inv.remaining.value) in p.runs[0].events
      case UnknownDate =>
        Unavailable(k, if inv.sale then ReceiptDateUnknown else PaymentDateUnknown) in p.runs[0].unavailable
      case Chosen(_) => false
  {
    var answers := Replay(s, complete, steps).answers;
    ReplayKeepsInv(s, complete, steps);
    NothingOpen(s, complete, steps, i);
    OutcomeAt(s, answers, i);
    EventsComeFromOutcomes(Outcomes(s, answers));
    UnavailablesComeFromOutcomes(Outcomes(s, answers));
  }

  /** Nothing is projected into the past, and an invoice's event carries its whole remaining. */
  lemma PublishedEventsLieAhead(s: Snapshot, complete: bool, steps: seq<Step>, e: Event)
    requires |Replay(s, complete, steps).runs| == 1 && e in Replay(s, complete, steps).runs[0].events
    ensures e.date > s.asOf && !e.key.LinkKey?
    ensures e.key.InvoiceKey? ==>
      exists i ::
        && i in s.invoices && InvoiceKey(i.id) == e.key
        && i.remaining == Some(e.amount) && e.amount > 0 && i.sale == e.receipt
  {
    var answers := Replay(s, complete, steps).answers;
    ReplayKeepsInv(s, complete, steps);
    var os := Outcomes(s, answers);
    EventsComeFromOutcomes(os);
    var at :| 0 <= at < |os| && os[at] == Expect(e);
    OutcomeAt(s, answers, at);
    if at < |s.invoices| {
      InvoiceSpeaksForItself(s, answers, s.invoices[at]);
      assert s.invoices[at] in s.invoices;
    } else {
      PlanSpeaksForItself(s, answers, s.plans[at - |s.invoices|]);
    }
  }

  // ----- the stored plan -----

  class ForecastPlan {
    const snapshot: Snapshot
    const complete: bool
    var answers: map<Key, Answer>
    var version: nat
    var state: State
    var runs: seq<Run>

    function Contents(): (p: Progress)
      reads this
    {
      Progress(answers, version, state, runs)
    }

    constructor (s: Snapshot, complete: bool)
      ensures snapshot == s && this.complete == complete
      ensures Contents() == Created(s, complete) && Inv(s, complete, Contents())
    {
      snapshot, this.complete := s, complete;
      answers, version, state, runs := map[], 1, WaitingInput, [];
      new;
      NoUndated(snapshot, answers);
      FinishPlan();
    }

    method FinishPlan()
      requires ValidAnswers(snapshot, answers)
      modifies this`state, this`runs
      ensures Contents() == Finish(snapshot, complete, old(Contents()))
    {
      NoUndated(snapshot, answers);
      var p := Prepare(snapshot, answers);
      if p.value.questions != [] {
        return;
      }
      var limited := p.value.unavailable != [] || !complete;
      runs := runs + [Run(answers, p.value.events, p.value.unavailable, limited)];
      state := if limited then CompletedLimited else Completed;
    }

    /** `answer`: false when the version, state, source, question or answer kind is wrong. */
    method Answer(version: nat, q: Question, a: Answer, sourceSame: bool) returns (done: bool)
      requires Inv(snapshot, complete, Contents())
      modifies this
      ensures done <==> Accepted(snapshot, old(Contents()), version, q, a, sourceSame)
      ensures Contents() == Apply(snapshot, complete, old(Contents()), Step(version, q, a, sourceSame))
      ensures Inv(snapshot, complete, Contents())
    {
      StepKeepsInv(snapshot, complete, Contents(), Step(version, q, a, sourceSame));
      NoUndated(snapshot, answers);
      if this.version != version || !state.WaitingInput? || !sourceSame {
        return false;
      }
      var p := Prepare(snapshot, answers);
      if q !in p.value.questions || !Fits(snapshot, q.key, a) {
        return false;
      }
      AnsweredKeysAreSettled(snapshot, answers, q);
      AnswerAdds(snapshot, answers, q.key, a);
      answers := answers[q.key := a];
      this.version := this.version + 1;
      FinishPlan();
      done := true;
    }
  }
}
