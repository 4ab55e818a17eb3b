/** Concrete runs of the gateway that reach what its guarantees leave open. */
module ModelGatewayRuns {
  import opened Options
  import opened ModelTariff
  import opened ModelGateway
  import opened ModelGatewayGuarantees
  import opened ModelGatewayReopening

  const CHEAP := Tariff(MODEL, "USD", 2, 0, 0, 0, 30000, 2048)
  const HOLD := 60000
  const QUESTION := RequestKey("c", "q")
  const MONTH := "2026-11"
  const PRINT := Fingerprint(None, 0)
  const NO_USAGE := Usage(Int(0), Int(0), Details(Int(0), Int(0), NoLifetime))

  function Asked(now: int): Step {
    StepBegin(Call(QUESTION, PRINT, true, now, MONTH, Some(Policy(HOLD, "USD")), Some(CHEAP), true))
  }

  function Answered(id: nat, usage: Usage, now: int): Step {
    StepRespond(id, Body(true, Envelope(true, true, true, usage, Some("x"))), true, now)
  }

  function Lost(id: nat, now: int): Step {
    StepRespond(id, NoAnswer, true, now)
  }

  function Found(id: nat, cost: int): Step {
    StepReconcile(Finding("c", id, cost, true, true))
  }

  function Row(attempt: nat, actual: int, state: ReservationState): Reservation {
    Reservation(QUESTION, MONTH, attempt, CHEAP, HOLD, actual, state)
  }

  function One(b: Budget, r: Request, rows: seq<Reservation>, inFlight: set<nat>): Store {
    Store(map[MONTH := b], map[QUESTION := r], rows, inFlight)
  }

  // ----- the first send, in either mode -----

  function Sent(cap: int, version: nat): Store {
    One(Budget(cap, None, 0, HOLD, version), Request(PRINT, 0, Dispatched, NoCode, 1, None, Some(60), None, 1),
        [Row(1, 0, Held)], {0})
  }

  lemma NothingAsked(s: Store)
    requires s.requests == map[]
    ensures RecentFailures(Opened(s, Asked(0).call), "c", -60) == {}
  {}

  lemma FirstSend(cfg: Config, s: Store)
    requires s == EMPTY && cfg.unlimited && cfg.enabled && cfg.maxAttempts >= 1
    requires cfg.timeoutSeconds == 30 && cfg.circuitFailures >= 1 && cfg.circuitSeconds == 60
    ensures Apply(cfg, s, Asked(0)) == Sent(0, 2)
  {
    NothingAsked(s);
    var start := Opened(s, Asked(0).call);
    assert WithBudget(cfg, start, MONTH).budgets == map[MONTH := Budget(0, None, 0, 0, 1)];
    assert Apply(cfg, s, Asked(0)).reservations == Sent(0, 2).reservations;
  }

  // ----- a failed request that completes -----

  const ONE_TRY := Config(true, true, 1, 30, 3, 60)

  lemma ThenExhausted(s: Store)
    requires s == Sent(0, 2)
    ensures
      var t := Apply(ONE_TRY, s, Asked(100));
      && QUESTION in t.requests && t.requests[QUESTION].state.Failed? && t.requests[QUESTION].attempts == 1
      && t.inFlight == {0} && t.budgets == s.budgets && t.reservations == [Row(1, 0, Unknown)]
  {
    var start := Opened(s, Asked(100).call);
    assert start.requests[QUESTION].state.WaitingDependency?;
    assert start.reservations == [Row(1, 0, Unknown)];
  }

  lemma ThenAnswered(t: Store)
    requires QUESTION in t.requests && t.requests[QUESTION].state.Failed? && t.requests[QUESTION].attempts == 1
    requires t.inFlight == {0} && MONTH in t.budgets && t.reservations == [Row(1, 0, Unknown)]
    ensures
      var u := Apply(ONE_TRY, t, Answered(0, NO_USAGE, 200));
      QUESTION in u.requests && u.requests[QUESTION].state.Completed?
  {
    assert KnownCost(Answered(0, NO_USAGE, 200).answer, CHEAP) == Some(0);
  }

  /** Sent, expired and out of attempts, then answered and completed. */
  lemma {:induction false} FailedRequestCompletesLate() returns (steps: seq<Step>, late: Step)
    ensures steps == [] + [Asked(0)] + [Asked(100)] && late == Answered(0, NO_USAGE, 200)
    ensures
      var failed, done := Run(ONE_TRY, EMPTY, steps), Run(ONE_TRY, EMPTY, steps + [late]);
      && QUESTION in failed.requests && failed.requests[QUESTION].state.Failed?
      && QUESTION in done.requests && done.requests[QUESTION].state.Completed?
  {
    steps, late := [] + [Asked(0)] + [Asked(100)], Answered(0, NO_USAGE, 200);
    FirstSend(ONE_TRY, Run(ONE_TRY, EMPTY, []));
    RunOneMore(ONE_TRY, EMPTY, [], Asked(0));
    RunOneMore(ONE_TRY, EMPTY, [] + [Asked(0)], Asked(100));
    RunOneMore(ONE_TRY, EMPTY, steps, late);
    ThenExhausted(Run(ONE_TRY, EMPTY, [] + [Asked(0)]));
    ThenAnswered(Run(ONE_TRY, EMPTY, steps));
  }

  // ----- a month above its cap -----

  const CAPPED := Config(true, false, 3, 30, 3, 60)
  const CAP := StepSetCap(MONTH, HOLD, None, None)
  const GARBLED := StepRespond(0, Malformed, true, 1)

  lemma ThenSent(s: Store)
    requires s == Store(map[MONTH := Budget(HOLD, None, 0, 0, 1)], map[], [], {})
    ensures Apply(CAPPED, s, Asked(0)) == Sent(HOLD, 2)
  {
    NothingAsked(s);
    var start := Opened(s, Asked(0).call);
    assert start.reservations == [];
    assert !Insufficient(CAPPED, start, Asked(0).call, HOLD);
    assert Apply(CAPPED, s, Asked(0)).reservations == Sent(HOLD, 2).reservations;
  }

  lemma ThenGarbled(s: Store)
    requires s == Sent(HOLD, 2)
    ensures
      var t := Apply(CAPPED, s, GARBLED);
      && t.reservations == [Row(1, 0, Unknown)] && QUESTION in t.requests
      && t.budgets == map[MONTH := Budget(HOLD, None, 0, HOLD, 3)]
  {
    assert Linked(s, 0) && KnownCost(Malformed, CHEAP).None?;
  }

  lemma ThenFound(s: Store, cost: int)
    requires s.reservations == [Row(1, 0, Unknown)] && QUESTION in s.requests && 0 <= cost < COST_LIMIT
    requires s.budgets == map[MONTH := Budget(HOLD, None, 0, HOLD, 3)]
    ensures Apply(CAPPED, s, Found(0, cost)).budgets == map[MONTH := Budget(HOLD, None, cost, 0, 4)]
  {
    assert Linked(s, 0) && Reconcilable(s, Found(0, cost).x);
  }

  /** A cap of one hold, one send, a garbled answer, and an invoice one unit above the hold:
      the month has used more than its cap. */
  lemma ReconciledMonthExceedsItsCap()
    ensures
      var s := Run(CAPPED, EMPTY, [] + [CAP] + [Asked(0)] + [GARBLED] + [Found(0, HOLD + 1)]);
      MONTH in s.budgets && s.budgets[MONTH].cap == HOLD && s.budgets[MONTH].used == HOLD + 1
  {
    RunOneMore(CAPPED, EMPTY, [], CAP);
    RunOneMore(CAPPED, EMPTY, [] + [CAP], Asked(0));
    RunOneMore(CAPPED, EMPTY, [] + [CAP] + [Asked(0)], GARBLED);
    RunOneMore(CAPPED, EMPTY, [] + [CAP] + [Asked(0)] + [GARBLED], Found(0, HOLD + 1));
    ThenSent(Run(CAPPED, EMPTY, [] + [CAP]));
    ThenGarbled(Run(CAPPED, EMPTY, [] + [CAP] + [Asked(0)]));
    ThenFound(Run(CAPPED, EMPTY, [] + [CAP] + [Asked(0)] + [GARBLED]), HOLD + 1);
  }

  // ----- sent again while a cost is unknown -----

  const THREE_TRIES := Config(true, true, 3, 30, 3, 60)

  function LostOnce(): Store {
    One(Budget(0, None, 0, HOLD, 3),
        Request(PRINT, 0, WaitingDependency, ModelUnavailable, 1, Some(3), Some(60), None, 2),
        [Row(1, 0, Unknown)], {})
  }

  function SentTwice(): Store {
    One(Budget(0, None, 0, 2 * HOLD, 4), Request(PRINT, 0, Dispatched, NoCode, 2, None, Some(70), None, 2),
        [Row(1, 0, Unknown), Row(2, 0, Held)], {1})
  }

  function Unbilled(): Store {
    One(Budget(0, None, 0, 2 * HOLD, 5),
        Request(PRINT, 0, WaitingReconciliation, ModelUsageUnknown, 2, None, Some(70), None, 3),
        [Row(1, 0, Unknown), Row(2, 0, Unknown)], {})
  }

  function FirstFound(): Store {
    One(Budget(0, None, 0, HOLD, 6), Request(PRINT, 0, WaitingDependency, ModelRetryReady, 2, None, Some(70), None, 3),
        [Row(1, 0, Settled), Row(2, 0, Unknown)], {})
  }

  lemma ThenLost(s: Store)
    requires s == Sent(0, 2)
    ensures Apply(THREE_TRIES, s, Lost(0, 1)) == LostOnce()
  {
    assert Linked(s, 0) && Pow2(1) == 2;
    assert s.reservations[0 := Row(1, 0, Unknown)] == [Row(1, 0, Unknown)];
  }

  lemma ThenSentAgain(s: Store)
    requires s == LostOnce()
    ensures Apply(THREE_TRIES, s, Asked(10)) == SentTwice()
  {
    assert Opened(s, Asked(10).call) == s;
    assert RecentFailures(s, "c", -50) == {QUESTION};
    assert Apply(THREE_TRIES, s, Asked(10)).reservations == SentTwice().reservations;
  }

  lemma ThenUnbilled(s: Store)
    requires s == SentTwice()
    ensures Apply(THREE_TRIES, s, Answered(1, BadUsage, 11)) == Unbilled()
  {
    assert Linked(s, 1) && s.reservations[1] == Row(2, 0, Held);
    assert Apply(THREE_TRIES, s, Answered(1, BadUsage, 11)).reservations == Unbilled().reservations;
  }

  lemma ThenFirstFound(s: Store)
    requires s == Unbilled()
    ensures Apply(THREE_TRIES, s, Found(0, 0)) == FirstFound()
  {
    assert Linked(s, 0) && Reconcilable(s, Found(0, 0).x);
    assert Apply(THREE_TRIES, s, Found(0, 0)).reservations == FirstFound().reservations;
  }

  lemma ThenSentThrice(s: Store)
    requires s == FirstFound()
    ensures
      var t := Apply(THREE_TRIES, s, Asked(20));
      && QUESTION in t.requests && t.requests[QUESTION].state.Dispatched? && t.requests[QUESTION].attempts == 3
      && t.reservations == [Row(1, 0, Settled), Row(2, 0, Unknown), Row(3, 0, Held)]
  {
    assert Opened(s, Asked(20).call) == s;
    assert RecentFailures(s, "c", -40) == {};
  }

  /** A lost first attempt, a second whose cost is unknown; settling the first lets the request
      be sent a third time while nobody knows what the second cost. */
  lemma SentAgainWhileCostUnknown()
    ensures
      var steps := [] + [Asked(0)] + [Lost(0, 1)] + [Asked(10)] + [Answered(1, BadUsage, 11)];
      var s := Run(THREE_TRIES, EMPTY, steps);
      var t := Run(THREE_TRIES, EMPTY, steps + [Found(0, 0)] + [Asked(20)]);
      && QUESTION in s.requests && s.requests[QUESTION].state.WaitingReconciliation? && CurrentUnknown(s, QUESTION)
      && QUESTION in t.requests && t.requests[QUESTION].state.Dispatched? && t.requests[QUESTION].attempts == 3
      && t.reservations == [Row(1, 0, Settled), Row(2, 0, Unknown), Row(3, 0, Held)]
  {
    var cfg := THREE_TRIES;
    var two := [] + [Asked(0)] + [Lost(0, 1)];
    var steps := two + [Asked(10)] + [Answered(1, BadUsage, 11)];
    RunOneMore(cfg, EMPTY, [], Asked(0));
    RunOneMore(cfg, EMPTY, [] + [Asked(0)], Lost(0, 1));
    RunOneMore(cfg, EMPTY, two, Asked(10));
    RunOneMore(cfg, EMPTY, two + [Asked(10)], Answered(1, BadUsage, 11));
    RunOneMore(cfg, EMPTY, steps, Found(0, 0));
    RunOneMore(cfg, EMPTY, steps + [Found(0, 0)], Asked(20));
    FirstSend(cfg, Run(cfg, EMPTY, []));
    ThenLost(Run(cfg, EMPTY, [] + [Asked(0)]));
    ThenSentAgain(Run(cfg, EMPTY, two));
    ThenUnbilled(Run(cfg, EMPTY, two + [Asked(10)]));
    assert Run(cfg, EMPTY, steps).reservations[1] == Row(2, 0, Unknown);
    ThenFirstFound(Run(cfg, EMPTY, steps));
    ThenSentThrice(Run(cfg, EMPTY, steps + [Found(0, 0)]));
  }
}
