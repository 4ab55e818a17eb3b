/** The gateway's two transactions and its administration, carried out row by row. Each
    method reaches exactly the store its specification function names. */
module ModelGatewayService {
  import opened Options
  import opened Sums
  import opened ModelTariff
  import opened ModelGateway
  import opened ModelGatewaySafety
  import opened ModelGatewayGuarantees

  class GatewayService {
    const config: Config
    var budgets: map<Period, Budget>
    var requests: map<RequestKey, Request>
    var reservations: seq<Reservation>
    var inFlight: set<nat>

    function Contents(): (s: Store)
      reads this
    {
      Store(budgets, requests, reservations, inFlight)
    }

    constructor (config: Config)
      ensures this.config == config && Contents() == EMPTY && Inv(config, Contents())
    {
      this.config := config;
      budgets, requests, reservations, inFlight := map[], map[], [], {};
    }

    /** The reserving half of `invoke`; a failed requirement restores the transaction's start. */
    method Reserve(c: Call) returns (reply: Reply)
      requires Inv(config, Contents())
      modifies this
      ensures Contents() == Begin(config, old(Contents()), c).0
      ensures reply == Begin(config, old(Contents()), c).1
      ensures Inv(config, Contents())
    {
      BeginKeepsInv(config, Contents(), c);
      if !c.guarded || (c.key in requests && requests[c.key].fingerprint != c.fingerprint) {
        return Raised;
      }
      var savedBudgets, savedRequests, savedReservations := budgets, requests, reservations;
      if c.key in requests {
        if Overdue(requests[c.key], c.now) {
          ExpireDispatch(c.key);
        }
      } else {
        requests := requests[c.key := NewRequest(c)];
      }
      if AnsweredFromRecord(requests[c.key].state)
         || (requests[c.key].nextAttempt.Some? && requests[c.key].nextAttempt.value > c.now)
      {
        return Returned;
      }
      reply := TryDispatch(c);
      if reply.Raised? {
        budgets, requests, reservations := savedBudgets, savedRequests, savedReservations;
      }
    }

    /** The hold of an overdue dispatch becomes a cost nobody knows. */
    method ExpireDispatch(k: RequestKey)
      requires k in requests
      modifies this`reservations, this`requests
      ensures reservations == Interrupted(old(reservations), k)
      ensures requests == old(requests)[k := old(requests[k]).(state := WaitingDependency, code := ModelUnavailable)]
    {
      var i := 0;
      while i < |reservations|
        invariant 0 <= i <= |reservations| == |old(reservations)|
        invariant requests == old(requests)
        invariant forall j :: 0 <= j < i ==> reservations[j] == Interrupted(old(reservations), k)[j]
        invariant forall j :: i <= j < |reservations| ==> reservations[j] == old(reservations)[j]
      {
        if reservations[i].request == k && reservations[i].state.Held? {
          reservations := reservations[i := reservations[i].(state := Unknown)];
        }
        i := i + 1;
      }
      requests := requests[k := requests[k].(state := WaitingDependency, code := ModelUnavailable)];
    }

    /** The committed cost of a company's month, and of one session in it. */
    method CommittedTotals(c: Company, p: Period, session: Option<string>) returns (company: int, inSession: int)
      ensures company == SumBy(reservations, CompanyCommitted(c, p))
      ensures inSession == SumBy(reservations, SessionCommitted(requests, c, p, session))
    {
      company, inSession := 0, 0;
      var i := 0;
      while i < |reservations|
        invariant 0 <= i <= |reservations|
        invariant company == SumBy(reservations[..i], CompanyCommitted(c, p))
        invariant inSession == SumBy(reservations[..i], SessionCommitted(requests, c, p, session))
      {
        var row := reservations[i];
        SumPrefix(reservations, i, CompanyCommitted(c, p));
        SumPrefix(reservations, i, SessionCommitted(requests, c, p, session));
        if row.request.company == c && row.period == p {
          company := company + Committed(row);
          if row.request in requests && requests[row.request].fingerprint.session == session {
            inSession := inSession + Committed(row);
          }
        }
        i := i + 1;
      }
      assert reservations[..i] == reservations;
    }

    method TryDispatch(c: Call) returns (reply: Reply)
      requires c.key in requests
      modifies this
      ensures !reply.Raised? ==> Contents() == Dispatch(config, old(Contents()), c).0
      ensures reply == Dispatch(config, old(Contents()), c).1
      ensures inFlight == Dispatch(config, old(Contents()), c).0.inFlight
    {
      var r := requests[c.key];
      if !config.enabled {
        requests := requests[c.key := r.(state := WaitingDependency, code := ModelUnconfigured)];
        return Returned;
      }
      if r.attempts >= config.maxAttempts {
        requests := requests[c.key := r.(state := Failed, code := ModelRetryExhausted)];
        return Returned;
      }
      if |RecentFailures(Contents(), c.key.company, c.now - config.circuitSeconds)| >= config.circuitFailures {
        requests := requests[c.key := r.(state := WaitingDependency, code := ModelCircuitOpen,
                                         nextAttempt := Some(c.now + config.circuitSeconds))];
        return Returned;
      }
      if config.unlimited && c.period !in budgets {
        budgets := budgets[c.period := Budget(0, None, 0, 0, 1)];
      }
      if (!config.unlimited && c.policy.None?) || c.period !in budgets || c.tariff.None? {
        requests := requests[c.key := r.(state := WaitingDependency, code := ModelBudgetNotConfigured)];
        return Returned;
      }
      if !ValidTariff(c.tariff.value) || !c.fits {
        return Raised;
      }
      reply := Commit(c, r);
    }

    /** Check the three caps and take the hold. */
    method Commit(c: Call, r: Request) returns (reply: Reply)
      requires c.key in requests && requests[c.key] == r && c.period in budgets && c.tariff.Some?
      requires !config.unlimited ==> c.policy.Some?
      modifies this
      ensures Insufficient(config, old(Contents()), c, WorstCase(c.tariff.value)) ==>
        && reply == Returned
        && Contents() == Park(old(Contents()), c.key, WaitingDependency, BudgetExhausted, r.nextAttempt)
      ensures !Insufficient(config, old(Contents()), c, WorstCase(c.tariff.value)) ==>
        reply == Sent(old(|reservations|)) && Contents() == Hold(config, old(Contents()), c)
    {
      var maximum := WorstCase(c.tariff.value);
      var company, inSession := CommittedTotals(c.key.company, c.period, c.fingerprint.session);
      var b := budgets[c.period];
      if !config.unlimited && (c.policy.value.currency != "USD" || company + maximum > c.policy.value.cap
           || b.used + b.reserved + maximum > b.cap
           || (c.fingerprint.session.Some? && b.perSession.Some? && inSession + maximum > b.perSession.value))
      {
        requests := requests[c.key := r.(state := WaitingDependency, code := BudgetExhausted)];
        return Returned;
      }
      budgets := budgets[c.period := b.(reserved := b.reserved + maximum, version := b.version + 1)];
      requests := requests[c.key := r.(attempts := r.attempts + 1, state := Dispatched, code := NoCode,
                                       nextAttempt := None, deadline := Some(c.now + config.timeoutSeconds + 30))];
      reply := Sent(|reservations|);
      inFlight := inFlight + {|reservations|};
      reservations := reservations + [Reservation(c.key, c.period, r.attempts + 1, c.tariff.value, maximum, 0, Held)];
    }

    /** The settling half of `invoke`, run when the provider call `id` returns. */
    method Settle(id: nat, a: Answer, guarded: bool, now: int)
      requires Inv(config, Contents()) && id in inFlight
      modifies this
      ensures Linked(old(Contents()), id)
      ensures Contents() == Respond(config, old(Contents()), id, a, guarded, now)
      ensures Inv(config, Contents())
    {
      assert RowOk(config, Contents(), id);
      RespondKeepsInv(config, Contents(), id, a, guarded, now);
      inFlight := inFlight - {id};
      var hold := reservations[id];
      if hold.state.Settled? || hold.state.Released? {
        return;
      }
      ResolveHold(id, a);
      if requests[hold.request].attempts == hold.attempt {
        ConcludeRequest(hold, a, guarded, now);
      }
    }

    /** Settle, release or park the reservation, and its month's budget with it. */
    method ResolveHold(id: nat, a: Answer)
      requires id < |reservations| && reservations[id].period in budgets
      requires reservations[id].state.Held? || reservations[id].state.Unknown?
      modifies this`reservations, this`budgets
      ensures
        var hold := old(reservations)[id];
        && reservations == old(reservations)[id := Resolved(hold, a)]
        && budgets == old(budgets)[hold.period := Charged(old(budgets)[hold.period], hold, Resolved(hold, a))]
    {
      var hold := reservations[id];
      var b := budgets[hold.period];
      var cost := KnownCost(a, hold.tariff);
      if cost.Some? {
        reservations := reservations[id := hold.(state := Settled, actual := cost.value)];
        b := b.(reserved := b.reserved - hold.amount, used := b.used + cost.value);
      } else if a.RateLimited? || a.Refused? {
        reservations := reservations[id := hold.(state := Released, actual := 0)];
        b := b.(reserved := b.reserved - hold.amount);
      } else {
        reservations := reservations[id := hold.(state := Unknown)];
      }
      budgets := budgets[hold.period := b.(version := b.version + 1)];
    }

    /** The request's own outcome, for the answer to its current attempt. */
    method ConcludeRequest(hold: Reservation, a: Answer, guarded: bool, now: int)
      requires hold.request in requests
      modifies this`requests
      ensures
        var r := old(requests)[hold.request];
        requests == old(requests)[hold.request := Concluded(config, r, hold, a, guarded, now)]
    {
      var r := requests[hold.request];
      var cost := KnownCost(a, hold.tariff);
      r := r.(version := r.version + 1);
      if !guarded {
        r := r.(state := Invalidated, code := GuardRefused, proposal := None);
      } else if cost.Some? && cost.value > hold.amount {
        r := r.(state := Failed, code := TariffBoundExceeded);
      } else if AnswerCode(a) != NoCode {
        if (a.RateLimited? || a.NoAnswer?) && r.attempts < config.maxAttempts {
          r := r.(state := WaitingDependency, code := AnswerCode(a), nextAttempt := Some(now + Pow2(r.attempts)));
        } else {
          r := r.(state := Failed, code := AnswerCode(a));
        }
      } else if cost.None? {
        r := r.(state := WaitingReconciliation, code := ModelUsageUnknown, nextAttempt := None);
      } else if a.envelope.proposal.Some? {
        r := r.(proposal := a.envelope.proposal, state := Completed, code := NoCode);
      } else {
        r := r.(state := Rejected, code := ProposalInvalid, proposal := None);
      }
      requests := requests[hold.request := r];
    }

    /** `reconcile_unknown_cost_in`: false when nothing awaits this figure. */
    method ReconcileUnknown(x: Finding) returns (done: bool)
      requires Inv(config, Contents())
      modifies this
      ensures done <==> Reconcilable(old(Contents()), x)
      ensures Contents() == Reconcile(old(Contents()), x)
      ensures Inv(config, Contents())
    {
      ReconcileKeepsInv(config, Contents(), x);
      if !(0 <= x.cost < COST_LIMIT) || !x.referenced || !x.byAdmin {
        return false;
      }
      if x.id >= |reservations| || reservations[x.id].request.company != x.company
          || !reservations[x.id].state.Unknown?
      {
        return false;
      }
      assert RowOk(config, Contents(), x.id);
      var hold := reservations[x.id];
      var b, r := budgets[hold.period], requests[hold.request];
      budgets := budgets[hold.period := b.(reserved := b.reserved - hold.amount, used := b.used + x.cost,
                                           version := b.version + 1)];
      reservations := reservations[x.id := hold.(state := Settled, actual := x.cost)];
      if r.code.ModelUsageUnknown? {
        r := r.(state := WaitingDependency, code := ModelRetryReady, nextAttempt := None);
      }
      requests := requests[hold.request := r];
      done := true;
    }

    /** `configure_installation_budget`: never below what is already committed. */
    method ConfigureBudget(p: Period, cap: int, perSession: Option<int>, expected: Option<nat>) returns (done: bool)
      requires Inv(config, Contents())
      modifies this`budgets
      ensures Contents() == SetCap(old(Contents()), p, cap, perSession, expected)
      ensures done ==> p in budgets && budgets[p].cap == cap && budgets[p].used + budgets[p].reserved <= cap
      ensures !done ==> budgets == old(budgets)
      ensures Inv(config, Contents())
    {
      SetCapKeepsInv(config, Contents(), p, cap, perSession, expected);
      if !CapAmount(cap) || (perSession.Some? && !CapAmount(perSession.value)) {
        return false;
      }
      if p in budgets {
        var b := budgets[p];
        if expected != Some(b.version) || cap < b.used + b.reserved {
          return false;
        }
        budgets := budgets[p := b.(cap := cap, perSession := perSession, version := b.version + 1)];
      } else {
        budgets := budgets[p := Budget(cap, perSession, 0, 0, 1)];
      }
      done := true;
    }

    /** `company_usage`: one pass over the company's reservations of the month. */
    method Usage(c: Company, p: Period) returns (u: Consumption)
      ensures u == CompanyUsage(Contents(), c, p)
    {
      var used, reserved, unknown := 0, 0, 0;
      var i := 0;
      while i < |reservations|
        invariant 0 <= i <= |reservations|
        invariant used == SumBy(reservations[..i], OfKey(CompanyOf(), SettledIn(p), c))
        invariant reserved == SumBy(reservations[..i], OfKey(CompanyOf(), OpenIn(p), c))
        invariant unknown == SumBy(reservations[..i], OfKey(CompanyOf(), UnknownIn(p), c))
      {
        SumPrefix(reservations, i, OfKey(CompanyOf(), SettledIn(p), c));
        SumPrefix(reservations, i, OfKey(CompanyOf(), OpenIn(p), c));
        SumPrefix(reservations, i, OfKey(CompanyOf(), UnknownIn(p), c));
        var row := reservations[i];
        if row.request.company == c && row.period == p {
          if row.state.Settled? {
            used := used + row.actual;
          } else if row.state.Held? || row.state.Unknown? {
            reserved := reserved + row.amount;
            if row.state.Unknown? {
              unknown := unknown + row.amount;
            }
          }
        }
        i := i + 1;
      }
      assert reservations[..i] == reservations;
      u := Consumption(used, reserved, unknown);
    }
  }
}
