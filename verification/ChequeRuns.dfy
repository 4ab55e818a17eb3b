/** A concrete run that charges one cheque to two bank movements. */
module ChequeRuns {
  import opened Options
  import opened Sums
  import opened Cheques

  function Hundred(date: int): Movement {
    Movement("acc", None, 100, date, false, true)
  }

  const HUNDREDS := map["x" := Hundred(1), "y" := Hundred(3)]
  const NEW := NewCheque(ReceivedCheque, "acc", "p", 100, 0, 5, true, true)

  function Doing(action: Action, date: int, version: nat, bank: Option<string>): Step {
    StepAct(Request(0, action, date, version, true, true, bank, None), 9)
  }

  function Held(state: State, version: nat): Cheque {
    Cheque(ReceivedCheque, "acc", "p", 100, 0, state, version, None)
  }

  const REGISTERED := Event(0, None, Received, 0)
  const CLEARED := Event(0, Some(Received), Cleared, 1)
  const RETURNED := Event(0, Some(Cleared), Returned, 2)

  lemma RunSnoc(steps: seq<Step>, step: Step)
    ensures Run(steps + [step]) == Apply(Run(steps), step)
  {
    assert (steps + [step])[..|steps|] == steps;
  }

  function Book(c: Cheque, events: seq<Event>, clearances: seq<Clearance>): Store {
    Store([c], events, clearances, HUNDREDS)
  }

  lemma {:induction false} Registered(s: Store)
    requires s == EMPTY.(bank := HUNDREDS)
    ensures Apply(s, StepCreate(NEW, 9)) == Book(Held(Received, 1), [REGISTERED], [])
  {
    assert Creatable(NEW, 9);
  }

  lemma {:induction false} Last(events: seq<Event>, e: Event)
    requires events != [] && events[|events| - 1] == e && e.cheque == 0
    ensures LastEvent(events, 0) == Some(e)
  {}

  lemma {:induction false} ClearedOnce(s: Store)
    requires s == Book(Held(Received, 1), [REGISTERED], [])
    ensures Apply(s, Doing(Clear, 1, 1, Some("x")))
         == Book(Held(Cleared, 2), [REGISTERED] + [CLEARED], [Clearance(0, "x", 100)])
  {
    Last(s.events, REGISTERED);
    SumZero(s.clearances, Charged("x"));
    assert Clears(s, s.cheques[0], Doing(Clear, 1, 1, Some("x")).r, 9);
    assert [Held(Received, 1)][0 := Held(Cleared, 2)] == [Held(Cleared, 2)];
  }

  lemma {:induction false} ThenReturned(s: Store)
    requires s == Book(Held(Cleared, 2), [REGISTERED] + [CLEARED], [Clearance(0, "x", 100)])
    ensures Apply(s, Doing(Return, 2, 2, None))
         == Book(Held(Returned, 3), [REGISTERED] + [CLEARED] + [RETURNED], [Clearance(0, "x", 100)])
  {
    Last(s.events, CLEARED);
    assert [Held(Cleared, 2)][0 := Held(Returned, 3)] == [Held(Returned, 3)];
  }

  lemma {:induction false} ThenClearedAgain(s: Store)
    requires s == Book(Held(Returned, 3), [REGISTERED] + [CLEARED] + [RETURNED], [Clearance(0, "x", 100)])
    ensures
      var t := Apply(s, Doing(Clear, 3, 3, Some("y")));
      t.cheques == [Held(Cleared, 4)] && t.clearances == [Clearance(0, "x", 100)] + [Clearance(0, "y", 100)]
  {
    Last(s.events, RETURNED);
    SumZero(s.clearances, Charged("y"));
    assert Clears(s, s.cheques[0], Doing(Clear, 3, 3, Some("y")).r, 9);
    assert [Held(Returned, 3)][0 := Held(Cleared, 4)] == [Held(Cleared, 4)];
  }

  lemma {:induction false} TwoHundredCharged(rows: seq<Clearance>, x: Clearance, y: Clearance)
    requires rows == [x] + [y] && x == Clearance(0, "x", 100) && y == Clearance(0, "y", 100)
    ensures SumBy(rows, ChargedTo(0)) == 200
  {
    SumSnoc([], x, ChargedTo(0));
    assert [] + [x] == [x];
    SumSnoc([x], y, ChargedTo(0));
  }

  // ----- the run -----

  function UntilCleared(): seq<Step> {
    [] + [StepImport(HUNDREDS)] + [StepCreate(NEW, 9)] + [Doing(Clear, 1, 1, Some("x"))]
  }

  lemma {:induction false} ReachesCleared()
    ensures Run(UntilCleared()) == Book(Held(Cleared, 2), [REGISTERED] + [CLEARED], [Clearance(0, "x", 100)])
  {
    var imported := [] + [StepImport(HUNDREDS)];
    RunSnoc([], StepImport(HUNDREDS));
    RunSnoc(imported, StepCreate(NEW, 9));
    RunSnoc(imported + [StepCreate(NEW, 9)], Doing(Clear, 1, 1, Some("x")));
    Registered(Run(imported));
    ClearedOnce(Run(imported + [StepCreate(NEW, 9)]));
  }

  lemma {:induction false} ThenChargedAgain(s: Store)
    requires s == Book(Held(Cleared, 2), [REGISTERED] + [CLEARED], [Clearance(0, "x", 100)])
    ensures
      var t := Apply(Apply(s, Doing(Return, 2, 2, None)), Doing(Clear, 3, 3, Some("y")));
      t.cheques == [Held(Cleared, 4)] && SumBy(t.clearances, ChargedTo(0)) == 200
  {
    ThenReturned(s);
    ThenClearedAgain(Apply(s, Doing(Return, 2, 2, None)));
    var x, y := Clearance(0, "x", 100), Clearance(0, "y", 100);
    TwoHundredCharged([x] + [y], x, y);
  }

  /** Two movements of 100, one received cheque of 100: cleared on the first, returned, cleared
      on the second. Both movements are used up, 200 for a cheque of 100. */
  lemma {:induction false} ChequeIsChargedTwice()
    ensures
      var t := Run(UntilCleared() + [Doing(Return, 2, 2, None)] + [Doing(Clear, 3, 3, Some("y"))]);
      t.cheques == [Held(Cleared, 4)] && t.cheques[0].amount == 100 && SumBy(t.clearances, ChargedTo(0)) == 200
  {
    RunSnoc(UntilCleared(), Doing(Return, 2, 2, None));
    RunSnoc(UntilCleared() + [Doing(Return, 2, 2, None)], Doing(Clear, 3, 3, Some("y")));
    ReachesCleared();
    ThenChargedAgain(Run(UntilCleared()));
  }
}
