/** When a request is sent, stated over the call's and the stored request's own fields. */
module ModelGatewayDispatch {
  import opened Options
  import opened Sums
  import opened ModelTariff
  import opened ModelGateway
  import opened ModelGatewaySafety

  predicate Price(p: int) {
    0 <= p < 1_000_000_000_000_000_000_000_000_000_000
  }

  /** A usable tariff: the one model, in USD, within the token bounds, every price below 10^12. */
  predicate Usable(t: Tariff) {
    && t.model == "gpt-5.6-luna" && t.currency == "USD"
    && 8192 <= t.maxInput && t.maxInput <= 200_000 && 1 <= t.maxOutput && t.maxOutput <= 4096
    && Price(t.input) && Price(t.cached) && Price(t.write) && Price(t.output)
  }

  /** The call may go out for its request as stored: new, or waiting with its delay passed, or
      dispatched long enough ago, and not yet tried too often. */
  predicate Due(cfg: Config, s: Store, c: Call) {
    c.key in s.requests ==>
      var r := s.requests[c.key];
      && r.fingerprint == c.fingerprint && r.attempts < cfg.maxAttempts
      && (r.nextAttempt.None? || r.nextAttempt.value <= c.now)
      && (r.state == Pending || r.state == WaitingDependency
          || (r.state == Dispatched && r.deadline.Some? && r.deadline.value < c.now))
  }

  /** Requests of the company that became unavailable and were created within the window; a
      dispatch found overdue by this very call counts. */
  function Failures(cfg: Config, s: Store, c: Call): set<RequestKey> {
    set k | k in s.requests && k.company == c.key.company && s.requests[k].created > c.now - cfg.circuitSeconds
            && (s.requests[k].code == ModelUnavailable || (k == c.key && s.requests[k].state == Dispatched))
  }

  function CommittedBy(r: Reservation): int {
    if r.state == Settled then r.actual else if r.state == Released then 0 else r.amount
  }

  function OfCompany(c: Call): Reservation -> int {
    (r: Reservation) => if r.request.company == c.key.company && r.period == c.period then CommittedBy(r) else 0
  }

  function OfSession(s: Store, c: Call): Reservation -> int {
    (r: Reservation) =>
      if r.request.company == c.key.company && r.period == c.period && r.request in s.requests
         && s.requests[r.request].fingerprint.session == c.fingerprint.session
      then CommittedBy(r) else 0
  }

  /** In capped mode the dearest outcome must fit the company's, the month's and the session's
      caps, in USD, on top of what they already committed. */
  predicate Affordable(cfg: Config, s: Store, c: Call, dearest: int) {
    cfg.unlimited || (
      && c.policy.Some? && c.policy.value.currency == "USD" && c.period in s.budgets
      && SumBy(s.reservations, OfCompany(c)) + dearest <= c.policy.value.cap
      && s.budgets[c.period].used + s.budgets[c.period].reserved + dearest <= s.budgets[c.period].cap
      && (c.fingerprint.session.Some? && s.budgets[c.period].perSession.Some? ==>
            SumBy(s.reservations, OfSession(s, c)) + dearest <= s.budgets[c.period].perSession.value))
  }

  /** Every input token at the dearest input price and every output token used. */
  function Dearest(t: Tariff): int {
    var top := if t.input >= t.cached && t.input >= t.write then t.input
               else if t.cached >= t.write then t.cached else t.write;
    t.maxInput * top + t.maxOutput * t.output
  }

  lemma {:induction false} SameCommitted(cfg: Config, s: Store, c: Call)
    requires c.key !in s.requests || s.requests[c.key].fingerprint == c.fingerprint
    requires RowsOk(cfg, s)
    ensures
      var t := Opened(s, c);
      && SumBy(t.reservations, CompanyCommitted(c.key.company, c.period)) == SumBy(s.reservations, OfCompany(c))
      && SumBy(t.reservations, SessionCommitted(t.requests, c.key.company, c.period, c.fingerprint.session))
         == SumBy(s.reservations, OfSession(s, c))
  {
    var t := Opened(s, c);
    forall i | 0 <= i < |s.reservations| ensures s.reservations[i].request in s.requests {
      assert RowOk(cfg, s, i);
    }
    SumPointwise(t.reservations, s.reservations, CompanyCommitted(c.key.company, c.period), OfCompany(c));
    SumPointwise(t.reservations, s.reservations,
                 SessionCommitted(t.requests, c.key.company, c.period, c.fingerprint.session), OfSession(s, c));
  }

  lemma {:induction false} SameFailures(cfg: Config, s: Store, c: Call)
    requires c.guarded && Due(cfg, s, c)
    ensures
      var t := Opened(s, c);
      RecentFailures(t, c.key.company, c.now - cfg.circuitSeconds) == Failures(cfg, s, c)
  {}

  lemma DispatchSends(cfg: Config, t: Store, c: Call)
    requires c.key in t.requests
    ensures Dispatch(cfg, t, c).1.Sent? <==>
      && cfg.enabled && t.requests[c.key].attempts < cfg.maxAttempts
      && |RecentFailures(t, c.key.company, c.now - cfg.circuitSeconds)| < cfg.circuitFailures
      && (cfg.unlimited || (c.policy.Some? && c.period in t.budgets)) && c.fits
      && c.tariff.Some? && ValidTariff(c.tariff.value)
      && !Insufficient(cfg, WithBudget(cfg, t, c.period), c, WorstCase(c.tariff.value))
  {}

  lemma BeginDispatches(cfg: Config, s: Store, c: Call)
    ensures Begin(cfg, s, c).1.Sent? <==>
      && c.guarded && (c.key in s.requests ==> s.requests[c.key].fingerprint == c.fingerprint)
      && !AnsweredFromRecord(Opened(s, c).requests[c.key].state)
      && (Opened(s, c).requests[c.key].nextAttempt.None? || Opened(s, c).requests[c.key].nextAttempt.value <= c.now)
      && Dispatch(cfg, Opened(s, c), c).1.Sent?
  {}

  lemma DueIsOpen(cfg: Config, s: Store, c: Call)
    requires 0 < cfg.maxAttempts
    ensures
      var r := Opened(s, c).requests[c.key];
      Due(cfg, s, c) <==>
        && (c.key in s.requests ==> s.requests[c.key].fingerprint == c.fingerprint)
        && !AnsweredFromRecord(r.state) && (r.nextAttempt.None? || r.nextAttempt.value <= c.now)
        && r.attempts < cfg.maxAttempts
  {}

  lemma {:induction false} AffordableIsSufficient(cfg: Config, s: Store, c: Call)
    requires RowsOk(cfg, s) && c.tariff.Some? && (cfg.unlimited || (c.policy.Some? && c.period in s.budgets))
    requires c.key in s.requests ==> s.requests[c.key].fingerprint == c.fingerprint
    ensures
      var t := WithBudget(cfg, Opened(s, c), c.period);
      !Insufficient(cfg, t, c, WorstCase(c.tariff.value)) <==> Affordable(cfg, s, c, Dearest(c.tariff.value))
  {
    SameCommitted(cfg, s, c);
  }

  /** A call is sent exactly when it is guarded and due, the gateway is enabled, fewer requests
      failed lately than open the circuit, the month has a budget, the input fits, the tariff is
      usable and its dearest outcome is affordable. */
  lemma {:induction false} SentExactly(cfg: Config, s: Store, c: Call)
    requires Inv(cfg, s)
    ensures Begin(cfg, s, c).1.Sent? <==>
      && c.guarded && Due(cfg, s, c) && cfg.enabled && 0 < cfg.maxAttempts
      && |Failures(cfg, s, c)| < cfg.circuitFailures
      && (cfg.unlimited || c.period in s.budgets) && c.fits
      && c.tariff.Some? && Usable(c.tariff.value) && Affordable(cfg, s, c, Dearest(c.tariff.value))
  {
    BeginDispatches(cfg, s, c);
    DispatchSends(cfg, Opened(s, c), c);
    assert Opened(s, c).budgets == s.budgets;
    if 0 < cfg.maxAttempts {
      DueIsOpen(cfg, s, c);
    }
    if c.guarded && Due(cfg, s, c) && 0 < cfg.maxAttempts {
      SameFailures(cfg, s, c);
      if c.tariff.Some? && (cfg.unlimited || (c.policy.Some? && c.period in s.budgets)) {
        AffordableIsSufficient(cfg, s, c);
      }
    }
  }

  /** What is sent: one more attempt, dispatched with a deadline, and one new held row of the
      dearest outcome, added to the month's reserved amount. */
  lemma {:induction false} SentBooks(cfg: Config, s: Store, c: Call)
    requires Begin(cfg, s, c).1.Sent?
    ensures
      var t, n := Begin(cfg, s, c).0, |s.reservations|;
      var tries := if c.key in s.requests then s.requests[c.key].attempts else 0;
      && Begin(cfg, s, c).1 == Sent(n) && |t.reservations| == n + 1 && t.inFlight == s.inFlight + {n}
      && c.tariff.Some?
      && t.reservations[n] == Reservation(c.key, c.period, tries + 1, c.tariff.value, Dearest(c.tariff.value), 0, Held)
      && c.key in t.requests && t.requests[c.key].state == Dispatched && t.requests[c.key].attempts == tries + 1
      && t.requests[c.key].deadline == Some(c.now + cfg.timeoutSeconds + 30) && t.requests[c.key].nextAttempt == None
      && c.period in t.budgets
      && t.budgets[c.period].reserved
         == (if c.period in s.budgets then s.budgets[c.period].reserved else 0) + Dearest(c.tariff.value)
  {
    DispatchParksOrHolds(cfg, Opened(s, c), c);
    assert Dearest(c.tariff.value) == WorstCase(c.tariff.value);
  }
}
