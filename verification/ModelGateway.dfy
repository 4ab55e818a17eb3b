/** The budget reservation protocol: one transaction reserves, the provider call runs
    unlocked, a second transaction settles. Attempts expire, answers arrive late, and an
    administrator reconciles unknown costs, in any interleaving.

    Every transaction is a function from store to store; `GatewayService` carries them out
    field by field. */
module ModelGateway {
  import opened Options
  import opened Sums
  import opened ModelTariff

  type Company = string
  type Period = string
  datatype Budget = Budget(cap: int, perSession: Option<int>, used: int, reserved: int, version: nat)

  datatype RequestState =
    Pending | WaitingDependency | Dispatched | WaitingReconciliation | Completed | Rejected | Invalidated | Failed

  datatype Code =
    NoCode | ModelUnavailable | ModelRateLimited | ModelRequestRejected | ModelResponseInvalid
    | ModelResponseIncomplete | ModelUsageUnknown | ModelRetryReady | ModelUnconfigured | ModelRetryExhausted
    | ModelCircuitOpen | ModelBudgetNotConfigured | BudgetExhausted | TariffBoundExceeded | GuardRefused
    | ProposalInvalid

  /** One per (company, request key). */
  datatype RequestKey = RequestKey(company: Company, key: string)
  /** What a request was asked with: its session, and everything else it digests. */
  datatype Fingerprint = Fingerprint(session: Option<string>, input: int)
  datatype Request = Request(fingerprint: Fingerprint, created: int, state: RequestState, code: Code,
                             attempts: nat, nextAttempt: Option<int>, deadline: Option<int>,
                             proposal: Option<string>, version: nat)

  datatype ReservationState = Held | Unknown | Settled | Released
  datatype Reservation = Reservation(request: RequestKey, period: Period, attempt: nat, tariff: Tariff,
                                     amount: int, actual: int, state: ReservationState)

  /** `inFlight` holds the reservations whose provider call has not returned: the suspended
      invocations between the two transactions. */
  datatype Store = Store(budgets: map<Period, Budget>, requests: map<RequestKey, Request>,
                         reservations: seq<Reservation>, inFlight: set<nat>)

  datatype Config = Config(enabled: bool, unlimited: bool, maxAttempts: nat, timeoutSeconds: int,
                           circuitFailures: nat, circuitSeconds: int)

  datatype Policy = Policy(cap: int, currency: string)

  /** One invocation: the caller's identity, the guard's verdict, and the policy and tariff
      rows in force. `fits` is the input size bound. */
  datatype Call = Call(key: RequestKey, fingerprint: Fingerprint, guarded: bool, now: int,
                       period: Period, policy: Option<Policy>, tariff: Option<Tariff>, fits: bool)

  datatype Reply = Raised | Returned | Sent(reservation: nat)

  datatype Envelope = Envelope(modelMatches: bool, defaultTier: bool, noTools: bool, usage: Usage,
                               proposal: Option<string>)
  datatype Answer = RateLimited | Refused | NoAnswer | Malformed | Body(complete: bool, envelope: Envelope)

  const EMPTY := Store(map[], map[], [], {})

  // ----- weights -----

  function OpenIn(p: Period): Reservation -> int {
    (r: Reservation) => if r.period == p && (r.state.Held? || r.state.Unknown?) then r.amount else 0
  }

  function SettledIn(p: Period): Reservation -> int {
    (r: Reservation) => if r.period == p && r.state.Settled? then r.actual else 0
  }

  function UnknownIn(p: Period): Reservation -> int {
    (r: Reservation) => if r.period == p && r.state.Unknown? then r.amount else 0
  }

  function Committed(r: Reservation): int {
    match r.state
    case Settled => r.actual
    case Released => 0
    case _ => r.amount
  }

  function CompanyCommitted(c: Company, p: Period): Reservation -> int {
    (r: Reservation) => if r.request.company == c && r.period == p then Committed(r) else 0
  }

  function SessionCommitted(requests: map<RequestKey, Request>, c: Company, p: Period, session: Option<string>):
    Reservation -> int
  {
    (r: Reservation) =>
      if r.request.company == c && r.period == p && r.request in requests
         && requests[r.request].fingerprint.session == session
      then Committed(r) else 0
  }

  function SendOf(k: RequestKey): Reservation -> int {
    (r: Reservation) => if r.request == k then 1 else 0
  }

  // ----- first transaction: reserve -----

  predicate Terminal(state: RequestState) {
    state.Completed? || state.Rejected? || state.Invalidated?
  }

  predicate AnsweredFromRecord(state: RequestState) {
    Terminal(state) || state.Failed? || state.Dispatched? || state.WaitingReconciliation?
  }

  function Interrupted(rs: seq<Reservation>, k: RequestKey): seq<Reservation> {
    seq(|rs|, i requires 0 <= i < |rs| =>
      if rs[i].request == k && rs[i].state.Held? then rs[i].(state := Unknown) else rs[i])
  }

  predicate Overdue(r: Request, now: int) {
    r.state.Dispatched? && r.deadline.Some? && r.deadline.value < now
  }

  function NewRequest(c: Call): Request {
    Request(c.fingerprint, c.now, Pending, NoCode, 0, None, None, None, 1)
  }

  /** Find or create the request; an overdue dispatch loses its hold's certainty. */
  function Opened(s: Store, c: Call): Store {
    if c.key !in s.requests then
      s.(requests := s.requests[c.key := NewRequest(c)])
    else if Overdue(s.requests[c.key], c.now) then
      s.(requests := s.requests[c.key := s.requests[c.key].(state := WaitingDependency, code := ModelUnavailable)],
         reservations := Interrupted(s.reservations, c.key))
    else s
  }

  function Park(s: Store, k: RequestKey, state: RequestState, code: Code, next: Option<int>): Store
    requires k in s.requests
  {
    s.(requests := s.requests[k := s.requests[k].(state := state, code := code, nextAttempt := next)])
  }

  function RecentFailures(s: Store, c: Company, since: int): set<RequestKey> {
    set k | k in s.requests && k.company == c && s.requests[k].code.ModelUnavailable? && s.requests[k].created > since
  }

  /** Uncapped accounting opens a missing month with a dormant zero cap. */
  function WithBudget(cfg: Config, s: Store, p: Period): Store {
    if cfg.unlimited && p !in s.budgets then s.(budgets := s.budgets[p := Budget(0, None, 0, 0, 1)]) else s
  }

  predicate Insufficient(cfg: Config, s: Store, c: Call, maximum: int)
    requires c.period in s.budgets && c.key in s.requests
    requires !cfg.unlimited ==> c.policy.Some?
  {
    var b := s.budgets[c.period];
    !cfg.unlimited && (
      || c.policy.value.currency != "USD"
      || SumBy(s.reservations, CompanyCommitted(c.key.company, c.period)) + maximum > c.policy.value.cap
      || b.used + b.reserved + maximum > b.cap
      || (c.fingerprint.session.Some? && b.perSession.Some? &&
          SumBy(s.reservations, SessionCommitted(s.requests, c.key.company, c.period, c.fingerprint.session)) + maximum
            > b.perSession.value))
  }

  function Hold(cfg: Config, s: Store, c: Call): Store
    requires c.period in s.budgets && c.key in s.requests && c.tariff.Some?
  {
    var b, r, maximum := s.budgets[c.period], s.requests[c.key], WorstCase(c.tariff.value);
    Store(
      s.budgets[c.period := b.(reserved := b.reserved + maximum, version := b.version + 1)],
      s.requests[c.key := r.(attempts := r.attempts + 1, state := Dispatched, code := NoCode, nextAttempt := None,
                             deadline := Some(c.now + cfg.timeoutSeconds + 30))],
      s.reservations + [Reservation(c.key, c.period, r.attempts + 1, c.tariff.value, maximum, 0, Held)],
      s.inFlight + {|s.reservations|})
  }

  function Dispatch(cfg: Config, s: Store, c: Call): (Store, Reply)
    requires c.key in s.requests
  {
    var r := s.requests[c.key];
    if !cfg.enabled then (Park(s, c.key, WaitingDependency, ModelUnconfigured, r.nextAttempt), Returned)
    else if r.attempts >= cfg.maxAttempts then (Park(s, c.key, Failed, ModelRetryExhausted, r.nextAttempt), Returned)
    else if |RecentFailures(s, c.key.company, c.now - cfg.circuitSeconds)| >= cfg.circuitFailures then
      (Park(s, c.key, WaitingDependency, ModelCircuitOpen, Some(c.now + cfg.circuitSeconds)), Returned)
    else
      var t := WithBudget(cfg, s, c.period);
      if (!cfg.unlimited && c.policy.None?) || c.period !in t.budgets || c.tariff.None? then
        (Park(t, c.key, WaitingDependency, ModelBudgetNotConfigured, r.nextAttempt), Returned)
      else if !ValidTariff(c.tariff.value) || !c.fits then (s, Raised)
      else if Insufficient(cfg, t, c, WorstCase(c.tariff.value)) then
        (Park(t, c.key, WaitingDependency, BudgetExhausted, r.nextAttempt), Returned)
      else (Hold(cfg, t, c), Sent(|s.reservations|))
  }

  /** A requirement that fails rolls the whole transaction back. */
  function Begin(cfg: Config, s: Store, c: Call): (Store, Reply) {
    if !c.guarded || (c.key in s.requests && s.requests[c.key].fingerprint != c.fingerprint) then (s, Raised)
    else
      var t := Opened(s, c);
      var r := t.requests[c.key];
      if AnsweredFromRecord(r.state) || (r.nextAttempt.Some? && r.nextAttempt.value > c.now) then (t, Returned)
      else
        var (u, reply) := Dispatch(cfg, t, c);
        (if reply.Raised? then s else u, reply)
  }

  // ----- second transaction: settle -----

  function AnswerCode(a: Answer): Code {
    match a
    case RateLimited => ModelRateLimited
    case Refused => ModelRequestRejected
    case NoAnswer => ModelUnavailable
    case Malformed => ModelResponseInvalid
    case Body(complete, _) => if complete then NoCode else ModelResponseIncomplete
  }

  function KnownCost(a: Answer, t: Tariff): Option<int> {
    if a.Body? && a.envelope.modelMatches && a.envelope.defaultTier && a.envelope.noTools
       && CostForUsage(a.envelope.usage, t).Cost?
    then Some(CostForUsage(a.envelope.usage, t).amount) else None
  }

  function Resolved(r: Reservation, a: Answer): Reservation {
    var cost := KnownCost(a, r.tariff);
    if cost.Some? then r.(state := Settled, actual := cost.value)
    else if a.RateLimited? || a.Refused? then r.(state := Released, actual := 0)
    else r.(state := Unknown)
  }

  function Charged(b: Budget, before: Reservation, after: Reservation): Budget {
    b.(reserved := if after.state.Unknown? then b.reserved else b.reserved - before.amount,
       used := if after.state.Settled? then b.used + after.actual else b.used,
       version := b.version + 1)
  }

  function Pow2(n: nat): int {
    if n == 0 then 1 else 2 * Pow2(n - 1)
  }

  /** What the answer to the current attempt makes of its request. */
  function Concluded(cfg: Config, r: Request, hold: Reservation, a: Answer, guarded: bool, now: int): Request {
    var cost := KnownCost(a, hold.tariff);
    var t := r.(version := r.version + 1);
    if !guarded then t.(state := Invalidated, code := GuardRefused, proposal := None)
    else if cost.Some? && cost.value > hold.amount then t.(state := Failed, code := TariffBoundExceeded)
    else if AnswerCode(a) != NoCode then
      if (a.RateLimited? || a.NoAnswer?) && r.attempts < cfg.maxAttempts
      then t.(state := WaitingDependency, code := AnswerCode(a), nextAttempt := Some(now + Pow2(r.attempts)))
      else t.(state := Failed, code := AnswerCode(a))
    else if cost.None? then t.(state := WaitingReconciliation, code := ModelUsageUnknown, nextAttempt := None)
    else if a.envelope.proposal.Some? then t.(state := Completed, code := NoCode, proposal := a.envelope.proposal)
    else t.(state := Rejected, code := ProposalInvalid, proposal := None)
  }

  predicate Linked(s: Store, id: nat) {
    id < |s.reservations| && s.reservations[id].period in s.budgets && s.reservations[id].request in s.requests
  }

  function Respond(cfg: Config, s: Store, id: nat, a: Answer, guarded: bool, now: int): Store
    requires Linked(s, id)
  {
    var hold := s.reservations[id];
    var t := s.(inFlight := s.inFlight - {id});
    if hold.state.Settled? || hold.state.Released? then t
    else
      var r := s.requests[hold.request];
      t.(reservations := s.reservations[id := Resolved(hold, a)],
         budgets := s.budgets[hold.period := Charged(s.budgets[hold.period], hold, Resolved(hold, a))],
         requests := if r.attempts != hold.attempt then s.requests
                     else s.requests[hold.request := Concluded(cfg, r, hold, a, guarded, now)])
  }

  // ----- administration -----

  /** An administrator's figure for an unknown cost: `referenced` when it names a non-blank
      evidence reference of at most 200 characters, `byAdmin` when an active installation
      administrator sends it. */
  datatype Finding = Finding(company: Company, id: nat, cost: int, referenced: bool, byAdmin: bool)

  predicate Reconcilable(s: Store, x: Finding) {
    && x.referenced && x.byAdmin && 0 <= x.cost < COST_LIMIT
    && Linked(s, x.id) && s.reservations[x.id].request.company == x.company && s.reservations[x.id].state.Unknown?
  }

  /** Only the code of the request is tested, not whether the row was its current attempt. */
  function Reopened(r: Request): Request {
    if r.code.ModelUsageUnknown? then r.(state := WaitingDependency, code := ModelRetryReady, nextAttempt := None)
    else r
  }

  function Reconcile(s: Store, x: Finding): Store {
    if !Reconcilable(s, x) then s
    else
      var hold := s.reservations[x.id];
      var b, r := s.budgets[hold.period], s.requests[hold.request];
      s.(reservations := s.reservations[x.id := hold.(state := Settled, actual := x.cost)],
         budgets := s.budgets[hold.period := b.(reserved := b.reserved - hold.amount, used := b.used + x.cost,
                                                version := b.version + 1)],
         requests := s.requests[hold.request := Reopened(r)])
  }

  predicate CapAmount(cap: int) {
    0 <= cap < COST_LIMIT
  }

  predicate CapRefused(s: Store, p: Period, cap: int, expected: Option<nat>) {
    p in s.budgets && (expected != Some(s.budgets[p].version) || cap < s.budgets[p].used + s.budgets[p].reserved)
  }

  function SetCap(s: Store, p: Period, cap: int, perSession: Option<int>, expected: Option<nat>): Store {
    if !CapAmount(cap) || (perSession.Some? && !CapAmount(perSession.value)) || CapRefused(s, p, cap, expected) then s
    else if p in s.budgets then
      s.(budgets := s.budgets[p := s.budgets[p].(cap := cap, perSession := perSession,
                                                 version := s.budgets[p].version + 1)])
    else s.(budgets := s.budgets[p := Budget(cap, perSession, 0, 0, 1)])
  }

  // ----- runs -----

  datatype Step =
    | StepBegin(call: Call)
    | StepRespond(id: nat, answer: Answer, guarded: bool, now: int)
    | StepReconcile(x: Finding)
    | StepSetCap(period: Period, cap: int, perSession: Option<int>, expected: Option<nat>)

  /** A provider answers a call once, so `StepRespond` acts only on a call in flight. */
  function Apply(cfg: Config, s: Store, step: Step): Store {
    match step
    case StepBegin(c) => Begin(cfg, s, c).0
    case StepRespond(id, a, guarded, now) =>
      if id in s.inFlight && Linked(s, id) then Respond(cfg, s, id, a, guarded, now) else s
    case StepReconcile(x) => Reconcile(s, x)
    case StepSetCap(p, cap, perSession, expected) => SetCap(s, p, cap, perSession, expected)
  }

  function Run(cfg: Config, s: Store, steps: seq<Step>): Store {
    if steps == [] then s else Apply(cfg, Run(cfg, s, steps[..|steps| - 1]), steps[|steps| - 1])
  }
}
