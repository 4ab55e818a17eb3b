/** What every interleaving of reserve, expire, answer, reconcile and cap changes keeps. */
module ModelGatewaySafety {
  import opened Options
  import opened Sums
  import opened ModelTariff
  import opened ModelGateway

  // ----- the invariant -----

  /** The budget columns are the sums of the reservation rows. */
  ghost predicate Balanced(s: Store) {
    forall p :: p in s.budgets ==>
      && s.budgets[p].reserved == SumBy(s.reservations, OpenIn(p))
      && s.budgets[p].used == SumBy(s.reservations, SettledIn(p))
  }

  ghost predicate RowOk(cfg: Config, s: Store, i: nat)
    requires i < |s.reservations|
  {
    var r := s.reservations[i];
    && Linked(s, i)
    && 1 <= r.attempt <= s.requests[r.request].attempts
    && ValidTariff(r.tariff) && r.amount == WorstCase(r.tariff)
    && (r.state.Settled? ==> 0 <= r.actual < COST_LIMIT)
    && (r.state.Held? ==> s.requests[r.request].state.Dispatched? && r.attempt == s.requests[r.request].attempts)
    && (i in s.inFlight && Terminal(s.requests[r.request].state) ==> r.attempt < s.requests[r.request].attempts)
  }

  ghost predicate RowsOk(cfg: Config, s: Store) {
    && (forall i :: 0 <= i < |s.reservations| ==> RowOk(cfg, s, i))
    && (forall i :: i in s.inFlight ==> i < |s.reservations|)
  }

  ghost predicate AttemptsGrow(s: Store) {
    forall i, j :: 0 <= i < j < |s.reservations| && s.reservations[i].request == s.reservations[j].request ==>
      s.reservations[i].attempt < s.reservations[j].attempt
  }

  ghost predicate HeldBy(s: Store, k: RequestKey) {
    exists i :: 0 <= i < |s.reservations| && s.reservations[i].request == k && s.reservations[i].state.Held?
  }

  ghost predicate RequestOk(cfg: Config, s: Store, k: RequestKey)
    requires k in s.requests
  {
    var r := s.requests[k];
    && r.attempts <= cfg.maxAttempts
    && r.attempts == SumBy(s.reservations, SendOf(k))
    && (r.state.Dispatched? ==> HeldBy(s, k))
    && (r.state.WaitingReconciliation? <==> r.code.ModelUsageUnknown?)
    && (r.state.Completed? <==> r.proposal.Some?)
  }

  ghost predicate RequestsOk(cfg: Config, s: Store) {
    forall k :: k in s.requests ==> RequestOk(cfg, s, k)
  }

  ghost predicate Inv(cfg: Config, s: Store) {
    Balanced(s) && RowsOk(cfg, s) && AttemptsGrow(s) && RequestsOk(cfg, s)
  }

  // ----- one reservation changes: the sums follow -----

  lemma RowReplaced(s: Store, id: nat, after: Reservation, b: Budget)
    requires Balanced(s) && Linked(s, id)
    requires after.period == s.reservations[id].period && after.request == s.reservations[id].request
    requires b.reserved == s.budgets[after.period].reserved - OpenIn(after.period)(s.reservations[id])
        + OpenIn(after.period)(after)
    requires b.used == s.budgets[after.period].used - SettledIn(after.period)(s.reservations[id])
        + SettledIn(after.period)(after)
    ensures Balanced(s.(reservations := s.reservations[id := after], budgets := s.budgets[after.period := b]))
  {
    forall p
      ensures SumBy(s.reservations[id := after], OpenIn(p))
           == SumBy(s.reservations, OpenIn(p)) - OpenIn(p)(s.reservations[id]) + OpenIn(p)(after)
      ensures SumBy(s.reservations[id := after], SettledIn(p))
           == SumBy(s.reservations, SettledIn(p)) - SettledIn(p)(s.reservations[id]) + SettledIn(p)(after)
    {
      SumUpdate(s.reservations, id, after, OpenIn(p));
      SumUpdate(s.reservations, id, after, SettledIn(p));
    }
  }

  lemma InterruptedKeepsSums(rs: seq<Reservation>, k: RequestKey)
    ensures forall p :: SumBy(Interrupted(rs, k), OpenIn(p)) == SumBy(rs, OpenIn(p))
    ensures forall p :: SumBy(Interrupted(rs, k), SettledIn(p)) == SumBy(rs, SettledIn(p))
    ensures forall q :: SumBy(Interrupted(rs, k), SendOf(q)) == SumBy(rs, SendOf(q))
  {
    var after := Interrupted(rs, k);
    forall p
      ensures SumBy(after, OpenIn(p)) == SumBy(rs, OpenIn(p)) && SumBy(after, SettledIn(p)) == SumBy(rs, SettledIn(p))
    {
      SumPointwise(after, rs, OpenIn(p), OpenIn(p));
      SumPointwise(after, rs, SettledIn(p), SettledIn(p));
    }
    forall q ensures SumBy(after, SendOf(q)) == SumBy(rs, SendOf(q)) {
      SumPointwise(after, rs, SendOf(q), SendOf(q));
    }
  }

  // ----- every step keeps the invariant -----

  lemma NewRequestKeepsInv(cfg: Config, s: Store, c: Call)
    requires Inv(cfg, s) && c.key !in s.requests
    ensures Inv(cfg, Opened(s, c))
  {
    var t := Opened(s, c);
    forall i | 0 <= i < |s.reservations| ensures s.reservations[i].request != c.key && RowOk(cfg, t, i) {
      assert RowOk(cfg, s, i);
    }
    SumZero(s.reservations, SendOf(c.key));
    forall k | k in t.requests ensures RequestOk(cfg, t, k) {
      if k != c.key {
        assert RequestOk(cfg, s, k);
        if HeldBy(s, k) { assert HeldBy(t, k); }
      }
    }
  }

  lemma ExpiryKeepsInv(cfg: Config, s: Store, c: Call)
    requires Inv(cfg, s) && c.key in s.requests && Overdue(s.requests[c.key], c.now)
    ensures Inv(cfg, Opened(s, c))
  {
    var t := Opened(s, c);
    InterruptedKeepsSums(s.reservations, c.key);
    forall i | 0 <= i < |t.reservations| ensures RowOk(cfg, t, i) {
      assert RowOk(cfg, s, i);
    }
    forall k | k in t.requests ensures RequestOk(cfg, t, k) {
      assert RequestOk(cfg, s, k);
      if k != c.key && t.requests[k].state.Dispatched? {
        var i :| 0 <= i < |s.reservations| && s.reservations[i].request == k && s.reservations[i].state.Held?;
        assert t.reservations[i] == s.reservations[i];
      }
    }
  }

  lemma OpenedKeepsInv(cfg: Config, s: Store, c: Call)
    requires Inv(cfg, s)
    ensures Inv(cfg, Opened(s, c)) && c.key in Opened(s, c).requests
  {
    if c.key !in s.requests {
      NewRequestKeepsInv(cfg, s, c);
    } else if Overdue(s.requests[c.key], c.now) {
      ExpiryKeepsInv(cfg, s, c);
    }
  }

  lemma ParkKeepsInv(cfg: Config, s: Store, k: RequestKey, state: RequestState, code: Code, next: Option<int>)
    requires Inv(cfg, s) && k in s.requests && !AnsweredFromRecord(s.requests[k].state)
    requires state.WaitingDependency? || state.Failed?
    requires !code.ModelUsageUnknown?
    ensures Inv(cfg, Park(s, k, state, code, next))
  {
    var t := Park(s, k, state, code, next);
    forall q | q in t.requests ensures RequestOk(cfg, t, q) {
      assert RequestOk(cfg, s, q);
      if t.requests[q].state.Dispatched? {
        assert HeldBy(s, q);
      }
    }
    forall i | 0 <= i < |t.reservations| ensures RowOk(cfg, t, i) {
      assert RowOk(cfg, s, i);
    }
  }

  lemma {:induction false} SumOfForeignPeriod(cfg: Config, s: Store, p: Period)
    requires RowsOk(cfg, s) && p !in s.budgets
    ensures SumBy(s.reservations, OpenIn(p)) == 0 && SumBy(s.reservations, SettledIn(p)) == 0
  {
    forall i | 0 <= i < |s.reservations| ensures s.reservations[i].period != p {
      assert RowOk(cfg, s, i);
    }
    SumZero(s.reservations, OpenIn(p));
    SumZero(s.reservations, SettledIn(p));
  }

  lemma NewBudgetKeepsInv(cfg: Config, s: Store, p: Period, cap: int, perSession: Option<int>)
    requires Inv(cfg, s) && p !in s.budgets
    ensures Inv(cfg, s.(budgets := s.budgets[p := Budget(cap, perSession, 0, 0, 1)]))
  {
    var t := s.(budgets := s.budgets[p := Budget(cap, perSession, 0, 0, 1)]);
    SumOfForeignPeriod(cfg, s, p);
    forall i | 0 <= i < |t.reservations| ensures RowOk(cfg, t, i) {
      assert RowOk(cfg, s, i);
    }
    forall q | q in t.requests ensures RequestOk(cfg, t, q) {
      assert RequestOk(cfg, s, q);
      if HeldBy(s, q) {
        assert HeldBy(t, q);
      }
    }
  }

  lemma HoldKeepsBalance(cfg: Config, s: Store, c: Call)
    requires Balanced(s) && c.period in s.budgets && c.key in s.requests && c.tariff.Some?
    ensures Balanced(Hold(cfg, s, c))
  {
    var t := Hold(cfg, s, c);
    var row := t.reservations[|s.reservations|];
    forall p
      ensures SumBy(t.reservations, OpenIn(p)) == SumBy(s.reservations, OpenIn(p)) + OpenIn(p)(row)
      ensures SumBy(t.reservations, SettledIn(p)) == SumBy(s.reservations, SettledIn(p))
    {
      SumSnoc(s.reservations, row, OpenIn(p));
      SumSnoc(s.reservations, row, SettledIn(p));
    }
  }

  lemma HoldKeepsRequest(cfg: Config, s: Store, c: Call, k: RequestKey)
    requires c.period in s.budgets && c.key in s.requests && c.tariff.Some?
    requires s.requests[c.key].attempts < cfg.maxAttempts && !AnsweredFromRecord(s.requests[c.key].state)
    requires k in s.requests && RequestOk(cfg, s, k)
    ensures RequestOk(cfg, Hold(cfg, s, c), k)
  {
    var t, n := Hold(cfg, s, c), |s.reservations|;
    SumSnoc(s.reservations, t.reservations[n], SendOf(k));
    if k == c.key {
      assert t.reservations[n].request == k && t.reservations[n].state.Held?;
    } else if t.requests[k].state.Dispatched? {
      var i :| 0 <= i < n && s.reservations[i].request == k && s.reservations[i].state.Held?;
      assert t.reservations[i] == s.reservations[i];
    }
  }

  lemma HoldKeepsInv(cfg: Config, s: Store, c: Call)
    requires Inv(cfg, s) && c.period in s.budgets && c.key in s.requests && c.tariff.Some?
    requires !AnsweredFromRecord(s.requests[c.key].state)
    requires s.requests[c.key].attempts < cfg.maxAttempts && ValidTariff(c.tariff.value)
    ensures Inv(cfg, Hold(cfg, s, c))
  {
    var t, n := Hold(cfg, s, c), |s.reservations|;
    HoldKeepsBalance(cfg, s, c);
    forall k | k in t.requests ensures RequestOk(cfg, t, k) {
      HoldKeepsRequest(cfg, s, c, k);
    }
    forall i | 0 <= i < |t.reservations| ensures RowOk(cfg, t, i) {
      if i < n {
        assert RowOk(cfg, s, i);
        assert t.reservations[i] == s.reservations[i];
      }
    }
    forall i, j | 0 <= i < j < |t.reservations| && t.reservations[i].request == t.reservations[j].request
      ensures t.reservations[i].attempt < t.reservations[j].attempt
    {
      assert RowOk(cfg, s, i);
    }
  }

  lemma WithBudgetKeepsInv(cfg: Config, s: Store, p: Period)
    requires Inv(cfg, s)
    ensures Inv(cfg, WithBudget(cfg, s, p))
  {
    if cfg.unlimited && p !in s.budgets {
      NewBudgetKeepsInv(cfg, s, p, 0, None);
    }
  }

  /** A dispatch that does not raise either parks the request or takes a hold. */
  lemma DispatchParksOrHolds(cfg: Config, s: Store, c: Call)
    requires c.key in s.requests
    ensures
      var t := WithBudget(cfg, s, c.period);
      var (u, reply) := Dispatch(cfg, s, c);
      match reply
      case Raised => u == s
      case Sent(_) =>
        && c.period in t.budgets && c.tariff.Some? && ValidTariff(c.tariff.value) && u == Hold(cfg, t, c)
        && s.requests[c.key].attempts < cfg.maxAttempts
      case Returned =>
        && c.key in u.requests
        && var p := u.requests[c.key];
           && (u == Park(s, c.key, p.state, p.code, p.nextAttempt)
               || u == Park(t, c.key, p.state, p.code, p.nextAttempt))
           && (p.state.WaitingDependency? || p.state.Failed?) && !p.code.ModelUsageUnknown?
  {}

  lemma DispatchKeepsInv(cfg: Config, s: Store, c: Call)
    requires Inv(cfg, s) && c.key in s.requests && !AnsweredFromRecord(s.requests[c.key].state)
    ensures Inv(cfg, Dispatch(cfg, s, c).0)
  {
    var t := WithBudget(cfg, s, c.period);
    var (u, reply) := Dispatch(cfg, s, c);
    WithBudgetKeepsInv(cfg, s, c.period);
    DispatchParksOrHolds(cfg, s, c);
    if reply.Sent? {
      HoldKeepsInv(cfg, t, c);
    } else if reply.Returned? {
      var p := u.requests[c.key];
      ParkKeepsInv(cfg, s, c.key, p.state, p.code, p.nextAttempt);
      ParkKeepsInv(cfg, t, c.key, p.state, p.code, p.nextAttempt);
    }
  }

  lemma BeginKeepsInv(cfg: Config, s: Store, c: Call)
    requires Inv(cfg, s)
    ensures Inv(cfg, Begin(cfg, s, c).0)
  {
    OpenedKeepsInv(cfg, s, c);
    if !AnsweredFromRecord(Opened(s, c).requests[c.key].state) {
      DispatchKeepsInv(cfg, Opened(s, c), c);
    }
  }

  /** Settling, releasing or parking one reservation, and the current request with it. */
  ghost predicate Resolves(s: Store, id: nat, after: Reservation, b: Budget, r: Request, inFlight: set<nat>)
    requires Linked(s, id)
  {
    var before, q := s.reservations[id], s.requests[s.reservations[id].request];
    && inFlight <= s.inFlight
    && (before.state.Held? || before.state.Unknown?) && !after.state.Held?
    && after == before.(state := after.state, actual := after.actual)
    && (after.state.Settled? ==> 0 <= after.actual < COST_LIMIT)
    && b.reserved == s.budgets[after.period].reserved - OpenIn(after.period)(before) + OpenIn(after.period)(after)
    && b.used == s.budgets[after.period].used - SettledIn(after.period)(before) + SettledIn(after.period)(after)
    && r.attempts == q.attempts
    && (after.attempt == q.attempts ==> !r.state.Dispatched?)
    && (after.attempt != q.attempts ==> (r.state.Dispatched? <==> q.state.Dispatched?))
    && (Terminal(r.state) && !Terminal(q.state) ==> id !in inFlight && after.attempt == q.attempts)
    && (r.state.WaitingReconciliation? <==> r.code.ModelUsageUnknown?)
    && (r.state.Completed? <==> r.proposal.Some?)
  }

  function Resolution(s: Store, id: nat, after: Reservation, b: Budget, r: Request, inFlight: set<nat>): Store
    requires id < |s.reservations|
  {
    Store(s.budgets[after.period := b], s.requests[after.request := r], s.reservations[id := after], inFlight)
  }

  lemma ResolutionKeepsRow(cfg: Config, s: Store, id: nat, after: Reservation, b: Budget, r: Request,
                           inFlight: set<nat>, i: nat)
    requires RowsOk(cfg, s) && AttemptsGrow(s) && Linked(s, id) && Resolves(s, id, after, b, r, inFlight)
    requires i < |s.reservations|
    ensures RowOk(cfg, Resolution(s, id, after, b, r, inFlight), i)
  {
    assert RowOk(cfg, s, id) && RowOk(cfg, s, i);
    if i != id && s.reservations[i].request == s.reservations[id].request {
      assert s.reservations[i].attempt != s.reservations[id].attempt;
    }
  }

  lemma ResolutionKeepsRequest(cfg: Config, s: Store, id: nat, after: Reservation, b: Budget, r: Request,
                               inFlight: set<nat>, k: RequestKey)
    requires RowsOk(cfg, s) && Linked(s, id) && Resolves(s, id, after, b, r, inFlight)
    requires k in s.requests && RequestOk(cfg, s, k)
    ensures RequestOk(cfg, Resolution(s, id, after, b, r, inFlight), k)
  {
    var t := Resolution(s, id, after, b, r, inFlight);
    SumUpdate(s.reservations, id, after, SendOf(k));
    if t.requests[k].state.Dispatched? {
      assert RowOk(cfg, s, id);
      assert s.requests[k].state.Dispatched?;
      var i :| 0 <= i < |s.reservations| && s.reservations[i].request == k && s.reservations[i].state.Held?;
      assert RowOk(cfg, s, i);
      assert i != id;
      assert t.reservations[i] == s.reservations[i];
    }
  }

  lemma ResolveKeepsInv(cfg: Config, s: Store, id: nat, after: Reservation, b: Budget, r: Request, inFlight: set<nat>)
    requires Inv(cfg, s) && Linked(s, id) && Resolves(s, id, after, b, r, inFlight)
    ensures Inv(cfg, Resolution(s, id, after, b, r, inFlight))
  {
    var t := Resolution(s, id, after, b, r, inFlight);
    RowReplaced(s, id, after, b);
    forall i | 0 <= i < |t.reservations| ensures RowOk(cfg, t, i) {
      ResolutionKeepsRow(cfg, s, id, after, b, r, inFlight, i);
    }
    forall k | k in t.requests ensures RequestOk(cfg, t, k) {
      assert k in s.requests;
      ResolutionKeepsRequest(cfg, s, id, after, b, r, inFlight, k);
    }
  }

  lemma ReturnKeepsInv(cfg: Config, s: Store, id: nat)
    requires Inv(cfg, s) && id < |s.reservations|
        && (s.reservations[id].state.Settled? || s.reservations[id].state.Released?)
    ensures Inv(cfg, s.(inFlight := s.inFlight - {id}))
  {
    var t := s.(inFlight := s.inFlight - {id});
    forall i | 0 <= i < |t.reservations| ensures RowOk(cfg, t, i) {
      assert RowOk(cfg, s, i);
    }
    forall k | k in t.requests ensures RequestOk(cfg, t, k) {
      assert RequestOk(cfg, s, k);
      if HeldBy(s, k) { assert HeldBy(t, k); }
    }
  }

  lemma AnswerResolves(cfg: Config, s: Store, id: nat, a: Answer, r: Request, guarded: bool, now: int)
    requires RowsOk(cfg, s) && Linked(s, id) && (s.reservations[id].state.Held? || s.reservations[id].state.Unknown?)
    requires
      var hold := s.reservations[id];
      var q := s.requests[hold.request];
      && RequestOk(cfg, s, hold.request)
      && r == (if q.attempts != hold.attempt then q else Concluded(cfg, q, hold, a, guarded, now))
      && (q.attempts == hold.attempt ==> !Terminal(q.state))
    ensures
      var hold := s.reservations[id];
      Resolves(s, id, Resolved(hold, a), Charged(s.budgets[hold.period], hold, Resolved(hold, a)), r, s.inFlight - {id})
  {
    var hold := s.reservations[id];
    assert RowOk(cfg, s, id);
    if KnownCost(a, hold.tariff).Some? {
      CostWithinWorstCase(a.envelope.usage, hold.tariff);
      FiftyDigitsSuffice(a.envelope.usage, hold.tariff);
    }
  }

  lemma RespondKeepsInv(cfg: Config, s: Store, id: nat, a: Answer, guarded: bool, now: int)
    requires Inv(cfg, s) && id in s.inFlight && Linked(s, id)
    ensures Inv(cfg, Respond(cfg, s, id, a, guarded, now))
  {
    var hold := s.reservations[id];
    assert RowOk(cfg, s, id);
    if hold.state.Settled? || hold.state.Released? {
      ReturnKeepsInv(cfg, s, id);
    } else {
      var r := s.requests[hold.request];
      var r' := if r.attempts != hold.attempt then r else Concluded(cfg, r, hold, a, guarded, now);
      AnswerResolves(cfg, s, id, a, r', guarded, now);
      ResolveKeepsInv(cfg, s, id, Resolved(hold, a), Charged(s.budgets[hold.period], hold, Resolved(hold, a)), r',
                      s.inFlight - {id});
      assert s.requests[hold.request := r] == s.requests;
    }
  }

  lemma ReconcileResolves(cfg: Config, s: Store, x: Finding)
    requires Inv(cfg, s) && Reconcilable(s, x)
    ensures
      var hold := s.reservations[x.id];
      var b := s.budgets[hold.period];
      Resolves(s, x.id, hold.(state := Settled, actual := x.cost),
               b.(reserved := b.reserved - hold.amount, used := b.used + x.cost, version := b.version + 1),
               Reopened(s.requests[hold.request]), s.inFlight)
  {
    var k := s.reservations[x.id].request;
    assert RequestOk(cfg, s, k) && RowOk(cfg, s, x.id);
    if s.requests[k].state.Dispatched? {
      var i :| 0 <= i < |s.reservations| && s.reservations[i].request == k && s.reservations[i].state.Held?;
      assert RowOk(cfg, s, i);
      assert s.reservations[x.id].attempt != s.requests[k].attempts;
    }
  }

  lemma ReconcileKeepsInv(cfg: Config, s: Store, x: Finding)
    requires Inv(cfg, s)
    ensures Inv(cfg, Reconcile(s, x))
  {
    if Reconcilable(s, x) {
      var hold := s.reservations[x.id];
      var b, r := s.budgets[hold.period], Reopened(s.requests[hold.request]);
      var after := hold.(state := Settled, actual := x.cost);
      var charged := b.(reserved := b.reserved - hold.amount, used := b.used + x.cost, version := b.version + 1);
      ReconcileResolves(cfg, s, x);
      ResolveKeepsInv(cfg, s, x.id, after, charged, r, s.inFlight);
      assert Reconcile(s, x) == Resolution(s, x.id, after, charged, r, s.inFlight);
    }
  }

  lemma SetCapKeepsInv(cfg: Config, s: Store, p: Period, cap: int, perSession: Option<int>, expected: Option<nat>)
    requires Inv(cfg, s)
    ensures Inv(cfg, SetCap(s, p, cap, perSession, expected))
  {
    var t := SetCap(s, p, cap, perSession, expected);
    if t != s {
      if p !in s.budgets {
        NewBudgetKeepsInv(cfg, s, p, cap, perSession);
      } else {
        forall i | 0 <= i < |t.reservations| ensures RowOk(cfg, t, i) {
          assert RowOk(cfg, s, i);
        }
        forall q | q in t.requests ensures RequestOk(cfg, t, q) {
          assert RequestOk(cfg, s, q);
          if HeldBy(s, q) { assert HeldBy(t, q); }
        }
      }
    }
  }

  lemma StepKeepsInv(cfg: Config, s: Store, step: Step)
    requires Inv(cfg, s)
    ensures Inv(cfg, Apply(cfg, s, step))
  {
    match step
    case StepBegin(c) => BeginKeepsInv(cfg, s, c);
    case StepRespond(id, a, guarded, now) =>
      if id in s.inFlight && Linked(s, id) { RespondKeepsInv(cfg, s, id, a, guarded, now); }
    case StepReconcile(x) => ReconcileKeepsInv(cfg, s, x);
    case StepSetCap(p, cap, perSession, expected) => SetCapKeepsInv(cfg, s, p, cap, perSession, expected);
  }

  /** Every reachable store keeps its books: reserved is what is held or unknown, used is
      what was settled, sends never exceed the configured attempts. */
  lemma {:induction false} RunKeepsInv(cfg: Config, steps: seq<Step>)
    ensures Inv(cfg, Run(cfg, EMPTY, steps))
    decreases |steps|
  {
    if steps != [] {
      RunKeepsInv(cfg, steps[..|steps| - 1]);
      StepKeepsInv(cfg, Run(cfg, EMPTY, steps[..|steps| - 1]), steps[|steps| - 1]);
    }
  }
}
