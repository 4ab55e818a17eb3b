/** What an answered call books and where a proposal comes from, stated over the answer's own
    fields and the tokens it reports. */
module ModelGatewaySettlement {
  import opened Options
  import opened Sums
  import opened ModelTariff
  import opened ModelGateway
  import opened ModelGatewaySafety
  import opened ModelGatewayGuarantees

  /** The call of an open reservation has not returned yet. */
  predicate Open(s: Store, id: nat) {
    id in s.inFlight && Linked(s, id) && (s.reservations[id].state.Held? || s.reservations[id].state.Unknown?)
  }

  /** The tokens fit the tariff and the lifetime details agree with them. */
  predicate Billable(tokens: seq<Token>, l: Lifetime, t: Tariff) {
    && InputTokens(tokens) <= t.maxInput && SumBy(tokens, CountOf(ModelTariff.Answered)) <= t.maxOutput
    && (IntoCache in tokens ==> t.write > 0)
    && (l == NoLifetime || l == Lifetime(Int(0), Int(SumBy(tokens, CountOf(IntoCache)))))
  }

  function Priced(tokens: seq<Token>, l: Lifetime, complete: bool, proposal: Option<string>): Answer {
    Body(complete, Envelope(true, true, true, Report(tokens, l), proposal))
  }

  /** The store after the answer, but for the request. */
  predicate Books(s: Store, t: Store, id: nat, row: Reservation, used: int, reserved: int)
    requires Linked(s, id)
  {
    var b := s.budgets[s.reservations[id].period];
    && t.reservations == s.reservations[id := row] && t.inFlight == s.inFlight - {id}
    && t.budgets == s.budgets[row.period := b.(used := used, reserved := reserved, version := b.version + 1)]
  }

  lemma AnswerBooks(cfg: Config, s: Store, id: nat, a: Answer, guarded: bool, now: int)
    requires Open(s, id)
    ensures
      var hold, b := s.reservations[id], s.budgets[s.reservations[id].period];
      var row := Resolved(hold, a);
      Books(s, Apply(cfg, s, StepRespond(id, a, guarded, now)), id, row,
            if row.state.Settled? then b.used + row.actual else b.used,
            if row.state.Unknown? then b.reserved else b.reserved - hold.amount)
  {}

  /** A priced answer settles its reservation: the row records the price of the tokens used, the
      month's `used` grows by it, and the whole hold leaves `reserved`. */
  lemma PricedAnswerBooksItsTokens(cfg: Config, s: Store, id: nat, tokens: seq<Token>, l: Lifetime, complete: bool,
                                   proposal: Option<string>, guarded: bool, now: int)
    requires Inv(cfg, s) && Open(s, id) && Billable(tokens, l, s.reservations[id].tariff)
    ensures
      var hold, b := s.reservations[id], s.budgets[s.reservations[id].period];
      var cost := SumBy(tokens, PriceIn(hold.tariff));
      Books(s, Apply(cfg, s, StepRespond(id, Priced(tokens, l, complete, proposal), guarded, now)), id,
            hold.(state := Settled, actual := cost), b.used + cost, b.reserved - hold.amount)
  {
    var hold := s.reservations[id];
    assert RowOk(cfg, s, id);
    EveryTokenPaysItsPrice(tokens, l, hold.tariff);
    CountIsPositive(tokens, IntoCache);
    AnswerBooks(cfg, s, id, Priced(tokens, l, complete, proposal), guarded, now);
  }

  /** Nothing is known about the cost: no answer, an unreadable one, one of another model, tier
      or tool use, or one whose usage does not fit the tariff. */
  predicate Doubtful(a: Answer, tokens: seq<Token>, l: Lifetime, t: Tariff) {
    || a == NoAnswer || a == Malformed
    || (a.Body? && !(a.envelope.modelMatches && a.envelope.defaultTier && a.envelope.noTools))
    || (a.Body? && a.envelope.usage == Report(tokens, l) && !Billable(tokens, l, t))
    || (a.Body? && a.envelope.usage == BadUsage)
  }

  /** Such an answer parks the row as unknown: the month keeps the hold and is charged nothing. */
  lemma DoubtfulAnswerKeepsTheHold(cfg: Config, s: Store, id: nat, a: Answer, tokens: seq<Token>, l: Lifetime,
                                   guarded: bool, now: int)
    requires Inv(cfg, s) && Open(s, id) && Doubtful(a, tokens, l, s.reservations[id].tariff)
    ensures
      var hold, b := s.reservations[id], s.budgets[s.reservations[id].period];
      Books(s, Apply(cfg, s, StepRespond(id, a, guarded, now)), id, hold.(state := Unknown), b.used, b.reserved)
  {
    var hold := s.reservations[id];
    assert RowOk(cfg, s, id);
    EveryTokenPaysItsPrice(tokens, l, hold.tariff);
    CountIsPositive(tokens, IntoCache);
    AnswerBooks(cfg, s, id, a, guarded, now);
  }

  /** A rate limit or a refusal gives the whole hold back. */
  lemma RefusalReleasesTheHold(cfg: Config, s: Store, id: nat, a: Answer, guarded: bool, now: int)
    requires Inv(cfg, s) && Open(s, id) && (a == RateLimited || a == Refused)
    ensures
      var hold, b := s.reservations[id], s.budgets[s.reservations[id].period];
      Books(s, Apply(cfg, s, StepRespond(id, a, guarded, now)), id, hold.(state := Released, actual := 0),
            b.used, b.reserved - hold.amount)
  {
    AnswerBooks(cfg, s, id, a, guarded, now);
  }

  lemma CurrentAnswerConcludes(cfg: Config, s: Store, id: nat, a: Answer, guarded: bool, now: int)
    requires Inv(cfg, s) && Open(s, id)
    requires s.requests[s.reservations[id].request].attempts == s.reservations[id].attempt
    ensures
      var hold := s.reservations[id];
      && Apply(cfg, s, StepRespond(id, a, guarded, now)).requests
         == s.requests[hold.request := Concluded(cfg, s.requests[hold.request], hold, a, guarded, now)]
      && (KnownCost(a, hold.tariff).Some? ==> KnownCost(a, hold.tariff).value <= hold.amount)
  {
    assert RowOk(cfg, s, id);
    if KnownCost(a, s.reservations[id].tariff).Some? {
      CostWithinWorstCase(a.envelope.usage, s.reservations[id].tariff);
    }
  }

  /** What the answer to the current attempt makes of its request, for each kind of answer. */
  lemma CurrentAnswerDecides(cfg: Config, s: Store, id: nat, a: Answer, guarded: bool, now: int)
    requires Inv(cfg, s) && Open(s, id)
    requires s.requests[s.reservations[id].request].attempts == s.reservations[id].attempt
    ensures
      var k := s.reservations[id].request;
      var was, r := s.requests[k], Apply(cfg, s, StepRespond(id, a, guarded, now)).requests[k];
      && r.attempts == was.attempts && r.fingerprint == was.fingerprint && r.created == was.created
      && (!guarded ==> r.state.Invalidated? && r.proposal.None?)
      && (guarded && (a == RateLimited || a == NoAnswer) ==>
            if was.attempts < cfg.maxAttempts
            then r.state.WaitingDependency? && r.nextAttempt == Some(now + Pow2(was.attempts)) else r.state.Failed?)
      && (guarded && (a == Refused || a == Malformed || (a.Body? && !a.complete)) ==> r.state.Failed?)
  {
    CurrentAnswerConcludes(cfg, s, id, a, guarded, now);
  }

  /** The reason recorded with it. */
  lemma CurrentAnswerIsRecorded(cfg: Config, s: Store, id: nat, a: Answer, guarded: bool, now: int)
    requires Inv(cfg, s) && Open(s, id)
    requires s.requests[s.reservations[id].request].attempts == s.reservations[id].attempt
    ensures
      var r := Apply(cfg, s, StepRespond(id, a, guarded, now)).requests[s.reservations[id].request];
      && (!guarded ==> r.code == GuardRefused)
      && (guarded && a == RateLimited ==> r.code == ModelRateLimited)
      && (guarded && a == Refused ==> r.code == ModelRequestRejected)
      && (guarded && a == NoAnswer ==> r.code == ModelUnavailable)
      && (guarded && a == Malformed ==> r.code == ModelResponseInvalid)
      && (guarded && a.Body? && !a.complete ==> r.code == ModelResponseIncomplete)
  {
    CurrentAnswerConcludes(cfg, s, id, a, guarded, now);
  }

  /** A complete priced answer ends its request: with its proposal, or rejected without one. */
  lemma PricedAnswerEndsTheRequest(cfg: Config, s: Store, id: nat, tokens: seq<Token>, l: Lifetime,
                                   proposal: Option<string>, now: int)
    requires Inv(cfg, s) && Open(s, id) && Billable(tokens, l, s.reservations[id].tariff)
    requires s.requests[s.reservations[id].request].attempts == s.reservations[id].attempt
    ensures
      var k := s.reservations[id].request;
      var r := Apply(cfg, s, StepRespond(id, Priced(tokens, l, true, proposal), true, now)).requests[k];
      && r.proposal == proposal
      && (if proposal.Some? then r.state == Completed && r.code == NoCode
          else r.state == Rejected && r.code == ProposalInvalid)
  {
    var hold := s.reservations[id];
    assert RowOk(cfg, s, id);
    EveryTokenPaysItsPrice(tokens, l, hold.tariff);
    CountIsPositive(tokens, IntoCache);
    CostWithinWorstCase(Report(tokens, l), hold.tariff);
  }

  /** A complete answer of unknown cost leaves its request to be reconciled. */
  lemma UnpricedAnswerWaits(cfg: Config, s: Store, id: nat, a: Answer, tokens: seq<Token>, l: Lifetime, now: int)
    requires Inv(cfg, s) && Open(s, id) && a.Body? && a.complete
    requires Doubtful(a, tokens, l, s.reservations[id].tariff)
    requires s.requests[s.reservations[id].request].attempts == s.reservations[id].attempt
    ensures
      var r := Apply(cfg, s, StepRespond(id, a, true, now)).requests[s.reservations[id].request];
      r.state == WaitingReconciliation && r.code == ModelUsageUnknown && r.nextAttempt == None
  {
    var hold := s.reservations[id];
    assert RowOk(cfg, s, id);
    EveryTokenPaysItsPrice(tokens, l, hold.tariff);
    CountIsPositive(tokens, IntoCache);
    assert KnownCost(a, hold.tariff).None?;
  }

  // ----- administration -----

  predicate Below(amount: int) {
    0 <= amount < 1_000_000_000_000_000_000_000_000_000_000_000_000
  }

  /** A cap is set exactly when it and the session's are amounts below 10^12 USD and, for a month
      that has one, the version is the current one and the cap covers what is committed. Nothing
      but the caps and the version changes. */
  lemma CapIsSetExactly(s: Store, p: Period, cap: int, perSession: Option<int>, expected: Option<nat>)
    ensures
      var t := SetCap(s, p, cap, perSession, expected);
      if && Below(cap) && (perSession.Some? ==> Below(perSession.value))
         && (p in s.budgets ==>
               expected == Some(s.budgets[p].version) && s.budgets[p].used + s.budgets[p].reserved <= cap)
      then
        t == s.(budgets := s.budgets[p :=
          if p in s.budgets
          then s.budgets[p].(cap := cap, perSession := perSession, version := s.budgets[p].version + 1)
          else Budget(cap, perSession, 0, 0, 1)])
      else t == s
  {}

  /** A cost is reconciled exactly when an active administrator gives an amount below 10^12 USD
      and a reference for an unknown row of that company; the row settles at it, the month uses
      it in place of the hold, and a request waiting for a cost may be tried again. */
  lemma ReconciledExactly(cfg: Config, s: Store, x: Finding)
    requires Inv(cfg, s)
    ensures
      var t := Reconcile(s, x);
      if && x.referenced && x.byAdmin && Below(x.cost) && x.id < |s.reservations|
         && s.reservations[x.id].request.company == x.company && s.reservations[x.id].state == Unknown
      then
        var hold := s.reservations[x.id];
        && hold.period in s.budgets && hold.request in s.requests
        && var b, r := s.budgets[hold.period], s.requests[hold.request];
        && t.reservations == s.reservations[x.id := hold.(state := Settled, actual := x.cost)]
        && t.budgets == s.budgets[hold.period :=
             b.(used := b.used + x.cost, reserved := b.reserved - hold.amount, version := b.version + 1)]
        && t.requests == s.requests[hold.request :=
             if r.code == ModelUsageUnknown
             then r.(state := WaitingDependency, code := ModelRetryReady, nextAttempt := None) else r]
        && t.inFlight == s.inFlight
      else t == s
  {
    if x.id < |s.reservations| {
      assert RowOk(cfg, s, x.id);
    }
  }

  // ----- where a proposal comes from -----

  /** The step answers a call of the request, whole, in budget and with this proposal. */
  predicate Delivers(s: Store, step: Step, k: RequestKey, proposal: string) {
    && step.StepRespond? && step.guarded && step.id in s.inFlight && Linked(s, step.id)
    && s.reservations[step.id].request == k && k in s.requests
    && s.reservations[step.id].attempt == s.requests[k].attempts
    && step.answer.Body? && step.answer.complete
    && var e := step.answer.envelope;
       && e.modelMatches && e.defaultTier && e.noTools && e.proposal == Some(proposal)
       && CostForUsage(e.usage, s.reservations[step.id].tariff).Cost?
  }

  lemma StepDelivers(cfg: Config, s: Store, step: Step, k: RequestKey)
    requires k in Apply(cfg, s, step).requests && Apply(cfg, s, step).requests[k].proposal.Some?
    requires k in s.requests ==> s.requests[k].proposal != Apply(cfg, s, step).requests[k].proposal
    ensures Delivers(s, step, k, Apply(cfg, s, step).requests[k].proposal.value)
  {
    match step
    case StepBegin(c) =>
      BeginTouchesOneRequest(cfg, s, c);
      if k == c.key { BeginKeepsProposal(cfg, s, c); }
    case StepRespond(id, a, guarded, now) =>
      if id in s.inFlight && Linked(s, id) {
        RespondTouchesOneRequest(cfg, s, id, a, guarded, now);
      }
    case StepReconcile(x) =>
    case StepSetCap(_, _, _, _) =>
  }

  lemma BeginKeepsProposal(cfg: Config, s: Store, c: Call)
    requires c.key in Begin(cfg, s, c).0.requests
    ensures Begin(cfg, s, c).0.requests[c.key].proposal
         == if c.key in s.requests then s.requests[c.key].proposal else None
  {
    var o := Opened(s, c);
    DispatchParksOrHolds(cfg, o, c);
  }

  /** Over any run, a proposal on a request is what a step of that run delivered: a guarded,
      complete, priced answer to one of the request's own calls. */
  lemma {:induction false} ProposalWasDelivered(cfg: Config, steps: seq<Step>, k: RequestKey) returns (i: nat)
    requires k in Run(cfg, EMPTY, steps).requests && Run(cfg, EMPTY, steps).requests[k].proposal.Some?
    ensures i < |steps|
    ensures Delivers(Before(cfg, steps, i), steps[i], k, Run(cfg, EMPTY, steps).requests[k].proposal.value)
    decreases |steps|
  {
    var n := |steps| - 1;
    var s := Run(cfg, EMPTY, steps[..n]);
    if k in s.requests && s.requests[k].proposal == Run(cfg, EMPTY, steps).requests[k].proposal {
      i := ProposalWasDelivered(cfg, steps[..n], k);
      assert steps[..n][..i] == steps[..i];
    } else {
      i := n;
      StepDelivers(cfg, s, steps[n], k);
    }
  }
}
