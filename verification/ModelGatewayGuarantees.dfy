/** What the reservation protocol promises over whole runs. */
module ModelGatewayGuarantees {
  import opened Options
  import opened Sums
  import opened ModelTariff
  import opened ModelGateway
  import opened ModelGatewaySafety

  // ----- which request a step touches -----

  lemma OpenedTouchesOneRequest(s: Store, c: Call)
    ensures
      var t := Opened(s, c);
      && c.key in t.requests && t.requests == s.requests[c.key := t.requests[c.key]]
      && (t.requests[c.key].code.TariffBoundExceeded? ==> c.key in s.requests && t.requests == s.requests)
      && (c.key in s.requests && !s.requests[c.key].state.Dispatched? ==> t == s)
  {}

  lemma DispatchTouchesOneRequest(cfg: Config, s: Store, c: Call)
    requires c.key in s.requests
    ensures
      var (t, reply) := Dispatch(cfg, s, c);
      && c.key in t.requests && t.requests == s.requests[c.key := t.requests[c.key]]
      && (reply.Raised? || !t.requests[c.key].code.TariffBoundExceeded?)
  {}

  lemma BeginTouchesOneRequest(cfg: Config, s: Store, c: Call)
    ensures
      var t := Begin(cfg, s, c).0;
      && s.requests.Keys <= t.requests.Keys <= s.requests.Keys + {c.key}
      && (forall k :: k in s.requests && k != c.key ==> t.requests[k] == s.requests[k])
    ensures c.key in s.requests && AnsweredFromRecord(s.requests[c.key].state) && !s.requests[c.key].state.Dispatched?
      ==> Begin(cfg, s, c).0 == s
    ensures
      var t := Begin(cfg, s, c).0;
      c.key in t.requests && t.requests[c.key].code.TariffBoundExceeded?
      ==> c.key in s.requests && s.requests[c.key].code.TariffBoundExceeded?
  {
    OpenedTouchesOneRequest(s, c);
    DispatchTouchesOneRequest(cfg, Opened(s, c), c);
  }

  lemma RespondTouchesOneRequest(cfg: Config, s: Store, id: nat, a: Answer, guarded: bool, now: int)
    requires Linked(s, id)
    ensures
      var t := Respond(cfg, s, id, a, guarded, now);
      var hold := s.reservations[id];
      && t.requests.Keys == s.requests.Keys
      && (forall k :: k in s.requests && k != hold.request ==> t.requests[k] == s.requests[k])
      && (t.requests[hold.request] == s.requests[hold.request] || (
            && s.requests[hold.request].attempts == hold.attempt
            && (hold.state.Held? || hold.state.Unknown?)
            && t.requests[hold.request] == Concluded(cfg, s.requests[hold.request], hold, a, guarded, now)))
  {}

  lemma ReconcileTouchesOneRequest(s: Store, x: Finding)
    ensures
      var t := Reconcile(s, x);
      && t.requests.Keys == s.requests.Keys && t.inFlight == s.inFlight
      && (forall k :: k in s.requests && !s.requests[k].code.ModelUsageUnknown? ==> t.requests[k] == s.requests[k])
      && (forall k :: k in s.requests && t.requests[k].code.TariffBoundExceeded?
            ==> s.requests[k].code.TariffBoundExceeded?)
  {}

  // ----- company usage adds up to the installation budget -----

  datatype Consumption = Consumption(used: int, reserved: int, unknown: int)

  function CompanyOf(): Reservation -> Company {
    (r: Reservation) => r.request.company
  }

  function CompanyUsage(s: Store, c: Company, p: Period): Consumption {
    Consumption(SumBy(s.reservations, OfKey(CompanyOf(), SettledIn(p), c)),
                SumBy(s.reservations, OfKey(CompanyOf(), OpenIn(p), c)),
                SumBy(s.reservations, OfKey(CompanyOf(), UnknownIn(p), c)))
  }

  function UsedBy(s: Store, p: Period): Company -> int {
    (c: Company) => CompanyUsage(s, c, p).used
  }

  function ReservedBy(s: Store, p: Period): Company -> int {
    (c: Company) => CompanyUsage(s, c, p).reserved
  }

  /** Whatever the run, each month's consumption reports of all companies add up to the
      installation budget of that month. */
  lemma CompanyUsagesAddUp(cfg: Config, steps: seq<Step>, companies: seq<Company>, p: Period)
    requires Distinct(companies)
    requires forall r :: r in Run(cfg, EMPTY, steps).reservations ==> r.request.company in companies
    requires p in Run(cfg, EMPTY, steps).budgets
    ensures
      var s := Run(cfg, EMPTY, steps);
      && SumBy(companies, UsedBy(s, p)) == s.budgets[p].used
      && SumBy(companies, ReservedBy(s, p)) == s.budgets[p].reserved
  {
    var s := Run(cfg, EMPTY, steps);
    RunKeepsInv(cfg, steps);
    SumByKeys(s.reservations, companies, CompanyOf(), SettledIn(p));
    SumByKeys(s.reservations, companies, CompanyOf(), OpenIn(p));
    SumPointwise(companies, companies, UsedBy(s, p), KeySum(s.reservations, CompanyOf(), SettledIn(p)));
    SumPointwise(companies, companies, ReservedBy(s, p), KeySum(s.reservations, CompanyOf(), OpenIn(p)));
  }

  // ----- the cap -----

  ghost predicate WithinCap(s: Store) {
    forall p :: p in s.budgets ==> s.budgets[p].used + s.budgets[p].reserved <= s.budgets[p].cap
  }

  /** The headroom a reconciled cost needs, and the code never looks at. */
  predicate FitsHeadroom(s: Store, x: Finding)
    requires Linked(s, x.id)
  {
    var hold := s.reservations[x.id];
    var b := s.budgets[hold.period];
    x.cost - hold.amount <= b.cap - b.used - b.reserved
  }

  /** An administrator's figure keeps the month within its cap exactly when what it adds
      to the hold fits the headroom; nothing else in the protocol can break the cap. */
  lemma ReconcileKeepsCapExactly(s: Store, x: Finding)
    requires WithinCap(s) && Reconcilable(s, x)
    ensures WithinCap(Reconcile(s, x)) <==> FitsHeadroom(s, x)
  {
    var t, hold := Reconcile(s, x), s.reservations[x.id];
    var before, after := s.budgets[hold.period], t.budgets[hold.period];
    assert after.used + after.reserved == before.used + before.reserved - hold.amount + x.cost;
  }

  ghost predicate StepFits(s: Store, step: Step) {
    step.StepReconcile? && Reconcilable(s, step.x) ==> FitsHeadroom(s, step.x)
  }

  lemma CappedBeginKeepsCap(cfg: Config, s: Store, c: Call)
    requires WithinCap(s) && !cfg.unlimited
    ensures WithinCap(Begin(cfg, s, c).0)
  {
    var t := Opened(s, c);
    assert t.budgets == s.budgets && c.key in t.requests;
    assert WithinCap(Dispatch(cfg, t, c).0);
  }

  lemma AnswerKeepsCap(cfg: Config, s: Store, id: nat, a: Answer, guarded: bool, now: int)
    requires RowsOk(cfg, s) && Linked(s, id) && WithinCap(s)
    ensures WithinCap(Respond(cfg, s, id, a, guarded, now))
  {
    assert RowOk(cfg, s, id);
    var hold := s.reservations[id];
    if KnownCost(a, hold.tariff).Some? {
      CostWithinWorstCase(a.envelope.usage, hold.tariff);
    }
    NonNegativeHold(hold.tariff);
  }

  lemma CappedStepKeepsCapExactly(cfg: Config, s: Store, step: Step)
    requires Inv(cfg, s) && WithinCap(s) && !cfg.unlimited
    ensures WithinCap(Apply(cfg, s, step)) <==> StepFits(s, step)
  {
    match step
    case StepBegin(c) => CappedBeginKeepsCap(cfg, s, c);
    case StepRespond(id, a, guarded, now) =>
      if id in s.inFlight && Linked(s, id) {
        AnswerKeepsCap(cfg, s, id, a, guarded, now);
      }
    case StepReconcile(x) =>
      if Reconcilable(s, x) {
        ReconcileKeepsCapExactly(s, x);
      }
    case StepSetCap(p, cap, perSession, expected) =>
  }

  lemma NonNegativeHold(t: Tariff)
    requires ValidTariff(t)
    ensures 0 <= WorstCase(t) < COST_LIMIT
  {
    FiftyDigitsSuffice(BadUsage, t);
  }

  /** The store a run has reached before its `i`-th step. */
  function Before(cfg: Config, steps: seq<Step>, i: nat): Store
    requires i <= |steps|
  {
    Run(cfg, EMPTY, steps[..i])
  }

  lemma OneStepOn(cfg: Config, steps: seq<Step>, i: nat)
    requires i < |steps|
    ensures Inv(cfg, Before(cfg, steps, i))
    ensures Before(cfg, steps, i + 1) == Apply(cfg, Before(cfg, steps, i), steps[i])
  {
    RunKeepsInv(cfg, steps[..i]);
    assert steps[..i + 1][..i] == steps[..i];
  }

  ghost predicate EveryFindingFits(cfg: Config, steps: seq<Step>) {
    forall i :: 0 <= i < |steps| ==> StepFits(Before(cfg, steps, i), steps[i])
  }

  lemma {:induction false} FittingRunStaysWithinCap(cfg: Config, steps: seq<Step>, n: nat)
    requires n <= |steps| && !cfg.unlimited && EveryFindingFits(cfg, steps)
    ensures WithinCap(Before(cfg, steps, n))
  {
    if n > 0 {
      FittingRunStaysWithinCap(cfg, steps, n - 1);
      OneStepOn(cfg, steps, n - 1);
      CappedStepKeepsCapExactly(cfg, Before(cfg, steps, n - 1), steps[n - 1]);
    }
  }

  /** Capped mode, however invocations, answers, expiries and cap changes interleave: no month
      ever committed more than its cap during a run, if and only if every reconciled cost of
      the run fitted the headroom there was when it was entered. */
  lemma CappedRunStaysWithinCapExactly(cfg: Config, steps: seq<Step>)
    requires !cfg.unlimited
    ensures (forall n :: 0 <= n <= |steps| ==> WithinCap(Before(cfg, steps, n))) <==> EveryFindingFits(cfg, steps)
  {
    if EveryFindingFits(cfg, steps) {
      forall n | 0 <= n <= |steps| ensures WithinCap(Before(cfg, steps, n)) {
        FittingRunStaysWithinCap(cfg, steps, n);
      }
    }
    if forall n :: 0 <= n <= |steps| ==> WithinCap(Before(cfg, steps, n)) {
      forall i | 0 <= i < |steps| ensures StepFits(Before(cfg, steps, i), steps[i]) {
        OneStepOn(cfg, steps, i);
        assert WithinCap(Before(cfg, steps, i)) && WithinCap(Before(cfg, steps, i + 1));
        CappedStepKeepsCapExactly(cfg, Before(cfg, steps, i), steps[i]);
      }
    }
  }

  /** A simple way to meet the condition: no figure above its own hold. */
  ghost predicate NoFindingAboveItsHold(cfg: Config, steps: seq<Step>) {
    forall i :: 0 <= i < |steps| && steps[i].StepReconcile? && Reconcilable(Before(cfg, steps, i), steps[i].x)
      ==> steps[i].x.cost <= Before(cfg, steps, i).reservations[steps[i].x.id].amount
  }

  lemma {:induction false} CappedRunStaysWithinCap(cfg: Config, steps: seq<Step>, n: nat)
    requires n <= |steps| && !cfg.unlimited && NoFindingAboveItsHold(cfg, steps)
    ensures WithinCap(Before(cfg, steps, n))
  {
    if n > 0 {
      CappedRunStaysWithinCap(cfg, steps, n - 1);
      OneStepOn(cfg, steps, n - 1);
      CappedStepKeepsCapExactly(cfg, Before(cfg, steps, n - 1), steps[n - 1]);
    }
  }

  /** A hold is only taken when the company's month and the session's month stay within
      their own caps with it included. */
  lemma HoldFitsEveryCap(cfg: Config, s: Store, c: Call)
    requires Inv(cfg, s) && !cfg.unlimited && Begin(cfg, s, c).1.Sent?
    ensures FitsEveryCap(Begin(cfg, s, c).0, c)
  {
    var o := Opened(s, c);
    SentMeansHeld(cfg, o, c);
    HoldCommitsMaximum(cfg, o, c);
  }

  ghost predicate FitsEveryCap(t: Store, c: Call) {
    && c.policy.Some? && c.policy.value.currency == "USD" && c.period in t.budgets
    && SumBy(t.reservations, CompanyCommitted(c.key.company, c.period)) <= c.policy.value.cap
    && t.budgets[c.period].used + t.budgets[c.period].reserved <= t.budgets[c.period].cap
    && (c.fingerprint.session.Some? && t.budgets[c.period].perSession.Some? ==>
          SumBy(t.reservations, SessionCommitted(t.requests, c.key.company, c.period, c.fingerprint.session))
            <= t.budgets[c.period].perSession.value)
  }

  lemma SentMeansHeld(cfg: Config, o: Store, c: Call)
    requires c.key in o.requests && !cfg.unlimited && Dispatch(cfg, o, c).1.Sent?
    ensures c.policy.Some? && c.tariff.Some? && ValidTariff(c.tariff.value) && c.period in o.budgets
    ensures Dispatch(cfg, o, c).0 == Hold(cfg, o, c) && !Insufficient(cfg, o, c, WorstCase(c.tariff.value))
  {}

  lemma HoldCommitsMaximum(cfg: Config, o: Store, c: Call)
    requires c.key in o.requests && c.tariff.Some? && c.period in o.budgets && ValidTariff(c.tariff.value)
    requires o.requests[c.key].fingerprint == c.fingerprint
    ensures
      var t, maximum := Hold(cfg, o, c), WorstCase(c.tariff.value);
      && SumBy(t.reservations, CompanyCommitted(c.key.company, c.period))
         == SumBy(o.reservations, CompanyCommitted(c.key.company, c.period)) + maximum
      && SumBy(t.reservations, SessionCommitted(t.requests, c.key.company, c.period, c.fingerprint.session))
         == maximum
            + SumBy(o.reservations, SessionCommitted(o.requests, c.key.company, c.period, c.fingerprint.session))
  {
    var t := Hold(cfg, o, c);
    var row := t.reservations[|o.reservations|];
    SumSnoc(o.reservations, row, CompanyCommitted(c.key.company, c.period));
    var before := SessionCommitted(o.requests, c.key.company, c.period, c.fingerprint.session);
    var after := SessionCommitted(t.requests, c.key.company, c.period, c.fingerprint.session);
    SumSnoc(o.reservations, row, after);
    SumPointwise(o.reservations, o.reservations, before, after);
  }

  ghost predicate NoOverrun(s: Store) {
    forall k :: k in s.requests ==> !s.requests[k].code.TariffBoundExceeded?
  }

  lemma AnswerRecordsNoOverrun(cfg: Config, s: Store, id: nat, a: Answer, guarded: bool, now: int)
    requires RowsOk(cfg, s) && Linked(s, id) && NoOverrun(s)
    ensures NoOverrun(Respond(cfg, s, id, a, guarded, now))
  {
    assert RowOk(cfg, s, id);
    RespondTouchesOneRequest(cfg, s, id, a, guarded, now);
    if KnownCost(a, s.reservations[id].tariff).Some? {
      CostWithinWorstCase(a.envelope.usage, s.reservations[id].tariff);
    }
  }

  lemma StepRecordsNoOverrun(cfg: Config, s: Store, step: Step)
    requires Inv(cfg, s) && NoOverrun(s)
    ensures NoOverrun(Apply(cfg, s, step))
  {
    match step
    case StepBegin(c) => BeginTouchesOneRequest(cfg, s, c);
    case StepRespond(id, a, guarded, now) =>
      if id in s.inFlight && Linked(s, id) {
        AnswerRecordsNoOverrun(cfg, s, id, a, guarded, now);
      }
    case StepReconcile(x) => ReconcileTouchesOneRequest(s, x);
    case StepSetCap(_, _, _, _) =>
  }

  /** The settled cost never exceeds the hold, so no reachable request is failed for it. */
  lemma {:induction false} OverrunIsUnreachable(cfg: Config, steps: seq<Step>)
    ensures NoOverrun(Run(cfg, EMPTY, steps))
    decreases |steps|
  {
    if steps != [] {
      var n := |steps| - 1;
      OverrunIsUnreachable(cfg, steps[..n]);
      RunKeepsInv(cfg, steps[..n]);
      StepRecordsNoOverrun(cfg, Run(cfg, EMPTY, steps[..n]), steps[n]);
    }
  }

  lemma {:induction false} SumWithin(rs: seq<Reservation>, f: Reservation -> int, limit: int)
    requires forall i :: 0 <= i < |rs| ==> 0 <= f(rs[i]) <= limit
    ensures 0 <= SumBy(rs, f) <= |rs| * limit
    decreases |rs|
  {
    if rs != [] {
      SumWithin(rs[..|rs| - 1], f, limit);
      assert |rs| * limit == (|rs| - 1) * limit + limit;
    }
  }

  /** The stored totals stay exact at 50 digits for up to 10^13 reservations. */
  lemma StoredTotalsFitFiftyDigits(cfg: Config, steps: seq<Step>, p: Period)
    requires p in Run(cfg, EMPTY, steps).budgets && |Run(cfg, EMPTY, steps).reservations| <= 10_000_000_000_000
    ensures
      var b := Run(cfg, EMPTY, steps).budgets[p];
      0 <= b.used < FIFTY_DIGITS && 0 <= b.reserved < FIFTY_DIGITS
  {
    var s := Run(cfg, EMPTY, steps);
    RunKeepsInv(cfg, steps);
    forall i | 0 <= i < |s.reservations|
      ensures 0 <= OpenIn(p)(s.reservations[i]) <= COST_LIMIT && 0 <= SettledIn(p)(s.reservations[i]) <= COST_LIMIT
    {
      assert RowOk(cfg, s, i);
      NonNegativeHold(s.reservations[i].tariff);
    }
    SumWithin(s.reservations, OpenIn(p), COST_LIMIT);
    SumWithin(s.reservations, SettledIn(p), COST_LIMIT);
    MulMono(|s.reservations|, COST_LIMIT, 10_000_000_000_000, COST_LIMIT);
  }

  // ----- requests and their reservations -----

  /** Dispatched means: the current attempt's reservation is held, and no other is. */
  lemma {:induction false} DispatchedExactlyWhileCurrentHoldStands(cfg: Config, steps: seq<Step>, k: RequestKey)
    requires k in Run(cfg, EMPTY, steps).requests
    ensures
      var s := Run(cfg, EMPTY, steps);
      s.requests[k].state.Dispatched? <==> HeldBy(s, k)
    ensures
      var s := Run(cfg, EMPTY, steps);
      forall i, j :: 0 <= i < |s.reservations| && 0 <= j < |s.reservations|
        && s.reservations[i].request == k && s.reservations[i].state.Held?
        && s.reservations[j].request == k && s.reservations[j].state.Held?
        ==> i == j && s.reservations[i].attempt == s.requests[k].attempts
    ensures
      var s := Run(cfg, EMPTY, steps);
      SumBy(s.reservations, SendOf(k)) == s.requests[k].attempts <= cfg.maxAttempts
  {
    var s := Run(cfg, EMPTY, steps);
    RunKeepsInv(cfg, steps);
    assert RequestOk(cfg, s, k);
    forall i, j | 0 <= i < |s.reservations| && 0 <= j < |s.reservations|
        && s.reservations[i].request == k && s.reservations[i].state.Held?
        && s.reservations[j].request == k && s.reservations[j].state.Held?
      ensures i == j && s.reservations[i].attempt == s.requests[k].attempts && s.requests[k].state.Dispatched?
    {
      assert RowOk(cfg, s, i) && RowOk(cfg, s, j);
    }
  }

  /** A completed, rejected or invalidated request never changes again in any way. */
  lemma TerminalStepIsFinal(cfg: Config, s: Store, step: Step, k: RequestKey)
    requires Inv(cfg, s) && k in s.requests && Terminal(s.requests[k].state)
    ensures k in Apply(cfg, s, step).requests && Apply(cfg, s, step).requests[k] == s.requests[k]
  {
    assert RequestOk(cfg, s, k);
    match step
    case StepBegin(c) => BeginTouchesOneRequest(cfg, s, c);
    case StepRespond(id, a, guarded, now) =>
      if id in s.inFlight && Linked(s, id) {
        assert RowOk(cfg, s, id);
        RespondTouchesOneRequest(cfg, s, id, a, guarded, now);
      }
    case StepReconcile(x) => ReconcileTouchesOneRequest(s, x);
    case StepSetCap(_, _, _, _) =>
  }

  lemma {:induction false} TerminalIsFinal(cfg: Config, s: Store, steps: seq<Step>, k: RequestKey)
    requires Inv(cfg, s) && k in s.requests && Terminal(s.requests[k].state)
    ensures Inv(cfg, Run(cfg, s, steps))
    ensures k in Run(cfg, s, steps).requests && Run(cfg, s, steps).requests[k] == s.requests[k]
    decreases |steps|
  {
    if steps != [] {
      var n := |steps| - 1;
      TerminalIsFinal(cfg, s, steps[..n], k);
      StepKeepsInv(cfg, Run(cfg, s, steps[..n]), steps[n]);
      TerminalStepIsFinal(cfg, Run(cfg, s, steps[..n]), steps[n], k);
    }
  }

  /** How a reservation row may differ later: it keeps its terms, never returns to held, and
      once resolved is never touched again. */
  predicate LaterRow(before: Reservation, after: Reservation) {
    && after == before.(state := after.state, actual := after.actual)
    && (after.state.Held? ==> before.state.Held?)
    && (before.state.Settled? || before.state.Released? ==> after == before)
  }

  lemma {:induction false} ReservationsResolveOnce(cfg: Config, s: Store, steps: seq<Step>)
    requires Inv(cfg, s)
    ensures
      var t := Run(cfg, s, steps);
      && Inv(cfg, t) && |s.reservations| <= |t.reservations|
      && forall i :: 0 <= i < |s.reservations| ==> LaterRow(s.reservations[i], t.reservations[i])
    decreases |steps|
  {
    if steps != [] {
      var n := |steps| - 1;
      ReservationsResolveOnce(cfg, s, steps[..n]);
      StepKeepsInv(cfg, Run(cfg, s, steps[..n]), steps[n]);
      StepKeepsRows(cfg, Run(cfg, s, steps[..n]), steps[n]);
    }
  }

  lemma DispatchAppendsRows(cfg: Config, s: Store, c: Call)
    requires c.key in s.requests
    ensures
      var t := Dispatch(cfg, s, c).0;
      && s.reservations <= t.reservations
      && forall i :: |s.reservations| <= i < |t.reservations| ==> t.reservations[i].state.Held?
    ensures forall i :: i in Dispatch(cfg, s, c).0.inFlight && i < |s.reservations| ==> i in s.inFlight
  {}

  lemma StepKeepsRows(cfg: Config, s: Store, step: Step)
    ensures
      var t := Apply(cfg, s, step);
      && |s.reservations| <= |t.reservations|
      && forall i :: 0 <= i < |s.reservations| ==> LaterRow(s.reservations[i], t.reservations[i])
    ensures
      var t := Apply(cfg, s, step);
      && (forall i :: |s.reservations| <= i < |t.reservations| ==> t.reservations[i].state.Held?)
      && (forall i :: i in t.inFlight && i < |s.reservations| ==> i in s.inFlight)
  {
    match step
    case StepBegin(c) => DispatchAppendsRows(cfg, Opened(s, c), c);
    case StepRespond(_, _, _, _) =>
    case StepReconcile(_) =>
    case StepSetCap(_, _, _, _) =>
  }

  /** An answer to an attempt that has been superseded settles money and nothing else. */
  lemma LateAnswerSettlesCostOnly(cfg: Config, s: Store, id: nat, a: Answer, guarded: bool, now: int)
    requires Inv(cfg, s) && id in s.inFlight && Linked(s, id)
    requires s.reservations[id].attempt < s.requests[s.reservations[id].request].attempts
    ensures
      var t := Respond(cfg, s, id, a, guarded, now);
      var hold := s.reservations[id];
      && t.requests == s.requests
      && !hold.state.Held?
      && (forall i :: 0 <= i < |s.reservations| && i != id ==> t.reservations[i] == s.reservations[i])
      && (forall p :: p in s.budgets && p != hold.period ==> p in t.budgets && t.budgets[p] == s.budgets[p])
      && (hold.state.Settled? || hold.state.Released? ==> t.reservations == s.reservations && t.budgets == s.budgets)
  {
    assert RowOk(cfg, s, id);
  }

  // ----- failed is not final -----

  ghost predicate AwaitsAnswer(s: Store, k: RequestKey)
    requires k in s.requests
  {
    exists i :: i in s.inFlight && i < |s.reservations| && s.reservations[i].request == k
      && s.reservations[i].attempt == s.requests[k].attempts && s.reservations[i].state.Unknown?
  }

  /** A failed request is final, over every later run, exactly when no answer to its last
      attempt can still arrive: an expired attempt may exhaust the retries and then be answered
      after all. */
  lemma {:induction false} FailedIsFinalExactly(cfg: Config, s: Store, k: RequestKey)
    requires Inv(cfg, s) && k in s.requests && s.requests[k].state.Failed?
    ensures !AwaitsAnswer(s, k) <==>
      forall steps :: k in Run(cfg, s, steps).requests && Run(cfg, s, steps).requests[k] == s.requests[k]
  {
    if AwaitsAnswer(s, k) {
      var step := AnswerThatCompletes(cfg, s, k);
      var steps := [] + [step];
      RunOneMore(cfg, s, [], step);
      assert Run(cfg, s, steps).requests[k].state.Completed?;
    } else {
      forall steps ensures k in Run(cfg, s, steps).requests && Run(cfg, s, steps).requests[k] == s.requests[k] {
        UnansweredStaysFailed(cfg, s, k, steps);
      }
    }
  }

  lemma RunOneMore(cfg: Config, s: Store, steps: seq<Step>, step: Step)
    ensures Run(cfg, s, steps + [step]) == Apply(cfg, Run(cfg, s, steps), step)
  {
    assert (steps + [step])[..|steps|] == steps;
  }

  lemma AnswerThatCompletes(cfg: Config, s: Store, k: RequestKey) returns (step: Step)
    requires Inv(cfg, s) && k in s.requests && s.requests[k].state.Failed? && AwaitsAnswer(s, k)
    ensures k in Apply(cfg, s, step).requests && Apply(cfg, s, step).requests[k].state.Completed?
  {
    var i :| i in s.inFlight && i < |s.reservations| && s.reservations[i].request == k
      && s.reservations[i].attempt == s.requests[k].attempts && s.reservations[i].state.Unknown?;
    assert RowOk(cfg, s, i);
    var usage := WorstCaseIsReached(s.reservations[i].tariff);
    step := StepRespond(i, Body(true, Envelope(true, true, true, usage, Some("proposal"))), true, 0);
  }

  /** Nothing that is on its way concerns the request. */
  ghost predicate Idle(s: Store, k: RequestKey)
    requires k in s.requests
  {
    !s.requests[k].state.Dispatched? && !s.requests[k].code.ModelUsageUnknown? && !AwaitsAnswer(s, k)
  }

  /** An idle request is only ever changed by a call of its own. */
  lemma StepKeepsIdleRequest(cfg: Config, s: Store, k: RequestKey, step: Step)
    requires Inv(cfg, s) && k in s.requests && Idle(s, k)
    requires step.StepBegin? && step.call.key == k ==> Begin(cfg, s, step.call).0 == s
    ensures k in Apply(cfg, s, step).requests && Apply(cfg, s, step).requests[k] == s.requests[k]
  {
    match step
    case StepBegin(c) => BeginTouchesOneRequest(cfg, s, c);
    case StepRespond(id, a, guarded, now) =>
      if id in s.inFlight && Linked(s, id) {
        assert RowOk(cfg, s, id);
        RespondTouchesOneRequest(cfg, s, id, a, guarded, now);
      }
    case StepReconcile(x) => ReconcileTouchesOneRequest(s, x);
    case StepSetCap(_, _, _, _) =>
  }

  /** No step brings back an answer that was not awaited: old rows only resolve, new rows are
      held, and only a dispatched request has a held row. */
  lemma StepBringsNoAnswer(cfg: Config, s: Store, k: RequestKey, step: Step)
    requires Inv(cfg, s) && k in s.requests && Idle(s, k)
    requires k in Apply(cfg, s, step).requests && Apply(cfg, s, step).requests[k] == s.requests[k]
    ensures Idle(Apply(cfg, s, step), k)
  {
    var t := Apply(cfg, s, step);
    StepKeepsRows(cfg, s, step);
    forall i |
      i in t.inFlight && i < |t.reservations| && t.reservations[i].request == k && t.reservations[i].state.Unknown?
      ensures t.reservations[i].attempt != t.requests[k].attempts
    {
      assert i < |s.reservations| && LaterRow(s.reservations[i], t.reservations[i]);
      assert RowOk(cfg, s, i);
    }
  }

  lemma {:induction false} UnansweredStaysFailed(cfg: Config, s: Store, k: RequestKey, steps: seq<Step>)
    requires Inv(cfg, s) && k in s.requests && s.requests[k].state.Failed? && !AwaitsAnswer(s, k)
    ensures
      var t := Run(cfg, s, steps);
      Inv(cfg, t) && k in t.requests && t.requests[k] == s.requests[k] && Idle(t, k)
    decreases |steps|
  {
    if steps == [] {
      assert RequestOk(cfg, s, k);
    } else {
      var n := |steps| - 1;
      var t := Run(cfg, s, steps[..n]);
      UnansweredStaysFailed(cfg, s, k, steps[..n]);
      StepKeepsInv(cfg, t, steps[n]);
      if steps[n].StepBegin? { BeginTouchesOneRequest(cfg, t, steps[n].call); }
      StepKeepsIdleRequest(cfg, t, k, steps[n]);
      StepBringsNoAnswer(cfg, t, k, steps[n]);
    }
  }

  // ----- backoff -----

  /** The request may not be called again before `limit`. */
  ghost predicate Resting(s: Store, k: RequestKey, limit: int) {
    k in s.requests && Idle(s, k) && s.requests[k].state.WaitingDependency? && s.requests[k].nextAttempt == Some(limit)
  }

  predicate CalledOnlyBefore(k: RequestKey, limit: int, steps: seq<Step>) {
    forall i :: 0 <= i < |steps| && steps[i].StepBegin? && steps[i].call.key == k ==> steps[i].call.now < limit
  }

  lemma TooEarlyChangesNothing(cfg: Config, s: Store, c: Call, limit: int)
    requires Resting(s, c.key, limit) && c.now < limit
    ensures Begin(cfg, s, c).0 == s && !Begin(cfg, s, c).1.Sent?
  {
    assert Opened(s, c) == s;
  }

  lemma {:induction false} RestsUntil(cfg: Config, s: Store, k: RequestKey, limit: int, steps: seq<Step>)
    requires Inv(cfg, s) && Resting(s, k, limit) && CalledOnlyBefore(k, limit, steps)
    ensures
      var t := Run(cfg, s, steps);
      Inv(cfg, t) && Resting(t, k, limit) && t.requests[k] == s.requests[k]
    decreases |steps|
  {
    if steps != [] {
      var n := |steps| - 1;
      var t := Run(cfg, s, steps[..n]);
      RestsUntil(cfg, s, k, limit, steps[..n]);
      StepKeepsInv(cfg, t, steps[n]);
      if steps[n].StepBegin? && steps[n].call.key == k { TooEarlyChangesNothing(cfg, t, steps[n].call, limit); }
      StepKeepsIdleRequest(cfg, t, k, steps[n]);
      StepBringsNoAnswer(cfg, t, k, steps[n]);
    }
  }

  lemma RetryRests(cfg: Config, s: Store, id: nat, a: Answer, now: int)
    requires Inv(cfg, s) && Linked(s, id) && (a.RateLimited? || a.NoAnswer?)
    requires s.reservations[id].state.Held? || s.reservations[id].state.Unknown?
    requires s.requests[s.reservations[id].request].attempts == s.reservations[id].attempt < cfg.maxAttempts
    ensures
      var k := s.reservations[id].request;
      var t := Respond(cfg, s, id, a, true, now);
      && Resting(t, k, now + Pow2(s.requests[k].attempts))
      && t.requests[k].attempts == s.requests[k].attempts
      && t.requests[k].fingerprint == s.requests[k].fingerprint
  {
    var hold, t := s.reservations[id], Respond(cfg, s, id, a, true, now);
    var k := hold.request;
    assert KnownCost(a, hold.tariff).None?;
    assert t.requests[k] == Concluded(cfg, s.requests[k], hold, a, true, now);
    forall i | i in t.inFlight && i < |t.reservations| && t.reservations[i].request == k
      ensures t.reservations[i].attempt != hold.attempt
    {
      assert s.reservations[i].attempt == t.reservations[i].attempt && s.reservations[i].request == k;
    }
  }

  lemma CallAfterRest(cfg: Config, s: Store, c: Call, limit: int)
    requires Resting(s, c.key, limit) && c.guarded && c.fingerprint == s.requests[c.key].fingerprint
    ensures c.now < limit ==> Begin(cfg, s, c) == (s, Returned)
    ensures c.now >= limit ==> Begin(cfg, s, c).1 == Dispatch(cfg, s, c).1
  {
    assert Opened(s, c) == s;
  }

  lemma SendsAreAttempts(cfg: Config, s: Store, k: RequestKey)
    requires Inv(cfg, s) && k in s.requests
    ensures SumBy(s.reservations, SendOf(k)) == s.requests[k].attempts
  {
    assert RequestOk(cfg, s, k);
  }

  /** An answer after which the request is tried again. */
  predicate AsksForRetry(cfg: Config, s: Store, id: nat, a: Answer) {
    && Linked(s, id) && id in s.inFlight && (a.RateLimited? || a.NoAnswer?)
    && (s.reservations[id].state.Held? || s.reservations[id].state.Unknown?)
    && s.requests[s.reservations[id].request].attempts == s.reservations[id].attempt < cfg.maxAttempts
  }

  /** The store after that answer and a later run. */
  function Later(cfg: Config, s: Store, id: nat, a: Answer, now: int, steps: seq<Step>): Store
    requires Linked(s, id)
  {
    Run(cfg, Respond(cfg, s, id, a, true, now), steps)
  }

  lemma {:induction false} RetryRestsThroughout(cfg: Config, s: Store, id: nat, a: Answer, now: int, steps: seq<Step>)
    requires Inv(cfg, s) && AsksForRetry(cfg, s, id, a)
    requires
      var k := s.reservations[id].request;
      CalledOnlyBefore(k, now + Pow2(s.requests[k].attempts), steps)
    ensures
      var k, u := s.reservations[id].request, Later(cfg, s, id, a, now, steps);
      && Inv(cfg, u) && Resting(u, k, now + Pow2(s.requests[k].attempts))
      && u.requests[k].attempts == s.requests[k].attempts
      && u.requests[k].fingerprint == s.requests[k].fingerprint
      && u.requests[k] == Respond(cfg, s, id, a, true, now).requests[k]
  {
    var k, t := s.reservations[id].request, Respond(cfg, s, id, a, true, now);
    StepKeepsInv(cfg, s, StepRespond(id, a, true, now));
    RetryRests(cfg, s, id, a, now);
    RestsUntil(cfg, t, k, now + Pow2(s.requests[k].attempts), steps);
  }

  /** After a rate limit or a lost answer the request is left exactly as it is, and nothing more
      is sent for it, throughout any run whose calls for it come within 2^attempts seconds; a
      call from then on is not turned away for its timing. */
  lemma {:induction false} RetryWaitsItsBackoff(cfg: Config, s: Store, id: nat, a: Answer, now: int, steps: seq<Step>,
                                                c: Call)
    requires Inv(cfg, s) && AsksForRetry(cfg, s, id, a)
    requires
      var k := s.reservations[id].request;
      && CalledOnlyBefore(k, now + Pow2(s.requests[k].attempts), steps)
      && c.key == k && c.guarded && c.fingerprint == s.requests[k].fingerprint
    ensures
      var k, u := s.reservations[id].request, Later(cfg, s, id, a, now, steps);
      var limit := now + Pow2(s.requests[k].attempts);
      && k in u.requests && u.requests[k] == Respond(cfg, s, id, a, true, now).requests[k]
      && u.requests[k].nextAttempt == Some(limit)
      && SumBy(u.reservations, SendOf(k)) == s.requests[k].attempts
      && (c.now < limit ==> Begin(cfg, u, c) == (u, Returned))
      && (c.now >= limit ==> Begin(cfg, u, c).1 == Dispatch(cfg, u, c).1)
  {
    var k, u := s.reservations[id].request, Later(cfg, s, id, a, now, steps);
    RetryRestsThroughout(cfg, s, id, a, now, steps);
    SendsAreAttempts(cfg, u, k);
    CallAfterRest(cfg, u, c, now + Pow2(s.requests[k].attempts));
  }
}
