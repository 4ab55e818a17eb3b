/** Reconciliation and the request it reopens: the code looks at the request's reason, not at
    which attempt the reconciled cost belongs to. */
module ModelGatewayReopening {
  import opened Options
  import opened Sums
  import opened ModelTariff
  import opened ModelGateway
  import opened ModelGatewaySafety
  import opened ModelGatewayGuarantees

  /** The cost of the request's current attempt is not known. */
  ghost predicate CurrentUnknown(s: Store, k: RequestKey)
    requires k in s.requests
  {
    exists i :: 0 <= i < |s.reservations| && s.reservations[i].request == k
      && s.reservations[i].attempt == s.requests[k].attempts && s.reservations[i].state.Unknown?
  }

  ghost predicate WaitsForCost(s: Store) {
    forall k :: k in s.requests && s.requests[k].state.WaitingReconciliation? ==> CurrentUnknown(s, k)
  }

  lemma BeginKeepsUnknownRows(cfg: Config, s: Store, c: Call)
    ensures
      var t := Begin(cfg, s, c).0;
      && |s.reservations| <= |t.reservations|
      && forall i ::
        0 <= i < |s.reservations| && s.reservations[i].state.Unknown? ==> t.reservations[i] == s.reservations[i]
  {
    DispatchAppendsRows(cfg, Opened(s, c), c);
  }

  /** Reserving never leaves a request waiting for a cost that was not waiting before. */
  lemma BeginWaitsForNoMore(cfg: Config, s: Store, c: Call, k: RequestKey)
    requires k in Begin(cfg, s, c).0.requests && Begin(cfg, s, c).0.requests[k].state.WaitingReconciliation?
    ensures k in s.requests && s.requests[k] == Begin(cfg, s, c).0.requests[k]
  {
    BeginTouchesOneRequest(cfg, s, c);
    if k == c.key {
      OpenedTouchesOneRequest(s, c);
      DispatchParksOrHolds(cfg, Opened(s, c), c);
    }
  }

  lemma BeginKeepsWaiting(cfg: Config, s: Store, c: Call)
    requires WaitsForCost(s)
    ensures WaitsForCost(Begin(cfg, s, c).0)
  {
    var t := Begin(cfg, s, c).0;
    BeginKeepsUnknownRows(cfg, s, c);
    forall k | k in t.requests && t.requests[k].state.WaitingReconciliation? ensures CurrentUnknown(t, k) {
      BeginWaitsForNoMore(cfg, s, c, k);
      var i :| 0 <= i < |s.reservations| && s.reservations[i].request == k
        && s.reservations[i].attempt == s.requests[k].attempts && s.reservations[i].state.Unknown?;
      assert t.reservations[i] == s.reservations[i];
    }
  }

  lemma RespondKeepsWaiting(cfg: Config, s: Store, id: nat, a: Answer, guarded: bool, now: int)
    requires WaitsForCost(s) && Linked(s, id)
    ensures WaitsForCost(Respond(cfg, s, id, a, guarded, now))
  {
    var t, hold := Respond(cfg, s, id, a, guarded, now), s.reservations[id];
    forall k | k in t.requests && t.requests[k].state.WaitingReconciliation? ensures CurrentUnknown(t, k) {
      if t.requests[k] == s.requests[k] {
        var i :| 0 <= i < |s.reservations| && s.reservations[i].request == k
          && s.reservations[i].attempt == s.requests[k].attempts && s.reservations[i].state.Unknown?;
        assert i != id ==> t.reservations[i] == s.reservations[i];
      }
      if k == hold.request && t.requests[k] == Concluded(cfg, s.requests[k], hold, a, guarded, now)
         && s.requests[k].attempts == hold.attempt && (hold.state.Held? || hold.state.Unknown?)
      {
        assert t.reservations[id] == Resolved(hold, a);
      } else {
        RespondTouchesOneRequest(cfg, s, id, a, guarded, now);
      }
    }
  }

  lemma ReconcileKeepsWaiting(cfg: Config, s: Store, x: Finding)
    requires Inv(cfg, s) && WaitsForCost(s)
    ensures WaitsForCost(Reconcile(s, x))
  {
    var t := Reconcile(s, x);
    forall k | k in t.requests && t.requests[k].state.WaitingReconciliation? ensures CurrentUnknown(t, k) {
      assert RequestOk(cfg, s, k);
      var i :| 0 <= i < |s.reservations| && s.reservations[i].request == k
        && s.reservations[i].attempt == s.requests[k].attempts && s.reservations[i].state.Unknown?;
      assert t.reservations[i] == s.reservations[i];
    }
  }

  /** A request waits for reconciliation only while its current attempt's cost is unknown. */
  lemma {:induction false} WaitingMeansUnknown(cfg: Config, steps: seq<Step>)
    ensures WaitsForCost(Run(cfg, EMPTY, steps))
    decreases |steps|
  {
    if steps != [] {
      var s, step := Run(cfg, EMPTY, steps[..|steps| - 1]), steps[|steps| - 1];
      WaitingMeansUnknown(cfg, steps[..|steps| - 1]);
      RunKeepsInv(cfg, steps[..|steps| - 1]);
      match step
      case StepBegin(c) => BeginKeepsWaiting(cfg, s, c);
      case StepRespond(id, a, guarded, now) =>
        if id in s.inFlight && Linked(s, id) { RespondKeepsWaiting(cfg, s, id, a, guarded, now); }
      case StepReconcile(x) => ReconcileKeepsWaiting(cfg, s, x);
      case StepSetCap(p, cap, perSession, expected) => SetCapKeepsWaiting(s, p, cap, perSession, expected);
    }
  }

  lemma SetCapKeepsWaiting(s: Store, p: Period, cap: int, perSession: Option<int>, expected: Option<nat>)
    requires WaitsForCost(s)
    ensures WaitsForCost(SetCap(s, p, cap, perSession, expected))
  {
    var t := SetCap(s, p, cap, perSession, expected);
    forall k | k in t.requests && t.requests[k].state.WaitingReconciliation? ensures CurrentUnknown(t, k) {
      assert CurrentUnknown(s, k);
    }
  }

  /** Any reconciled row reopens a request that waits for reconciliation, with no delay. The
      cost it waited for is still unknown exactly when the row was not its current attempt. */
  lemma ReopensWithUnknownCostExactly(cfg: Config, steps: seq<Step>, x: Finding)
    requires Reconcilable(Run(cfg, EMPTY, steps), x)
    requires
      var s := Run(cfg, EMPTY, steps);
      s.requests[s.reservations[x.id].request].state.WaitingReconciliation?
    ensures
      var s := Run(cfg, EMPTY, steps);
      var hold, t := s.reservations[x.id], Reconcile(s, x);
      && !AnsweredFromRecord(t.requests[hold.request].state) && t.requests[hold.request].nextAttempt.None?
      && (CurrentUnknown(t, hold.request) <==> hold.attempt != s.requests[hold.request].attempts)
  {
    var s := Run(cfg, EMPTY, steps);
    var hold, t := s.reservations[x.id], Reconcile(s, x);
    var k := hold.request;
    RunKeepsInv(cfg, steps);
    WaitingMeansUnknown(cfg, steps);
    assert RequestOk(cfg, s, k);
    var i :| 0 <= i < |s.reservations| && s.reservations[i].request == k
      && s.reservations[i].attempt == s.requests[k].attempts && s.reservations[i].state.Unknown?;
    if hold.attempt != s.requests[k].attempts {
      assert t.reservations[i] == s.reservations[i];
    }
    forall j | 0 <= j < |t.reservations| && t.reservations[j].request == k
               && t.reservations[j].attempt == t.requests[k].attempts
      ensures j == i
    {
      assert s.reservations[j].attempt == s.reservations[i].attempt;
    }
  }
}
