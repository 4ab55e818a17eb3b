/** Which cheque actions are performed, stated over the cheque's log and the bank row's fields. */
module ChequeMoves {
  import opened Options
  import opened Sums
  import opened Cheques

  /** Where a cheque may go from a state. A received cheque moves on until it is cleared or
      endorsed; what was cleared, deposited or endorsed may come back; a returned cheque may be
      tried again or cancelled. */
  function Moves(d: Direction, s: State): set<Action> {
    match s
    case Received => {Deposit, Endorse, Clear, Return, Cancel}
    case Issued => {Clear, Return, Cancel}
    case Deposited => {Clear, Return}
    case Endorsed => {Return}
    case Cleared => {Return}
    case Returned => if d == ReceivedCheque then {Deposit, Endorse, Clear, Cancel} else {Clear, Cancel}
    case Cancelled => {}
  }

  function TakenFrom(bank: string): Clearance -> int {
    (c: Clearance) => if c.bank == bank then c.amount else 0
  }

  /** An active bank movement of that day, of the cheque's party and direction, drawn on its own
      account when issued, with room for the amount and not yet used for this cheque. */
  ghost predicate Proves(s: Store, c: Cheque, r: Request, today: int) {
    && r.bank.Some? && r.bank.value in s.bank
    && var m := s.bank[r.bank.value];
       && m.active && !m.anchor && m.date == r.date && c.issued <= m.date && m.date <= today
       && (m.party == None || m.party == Some(c.party))
       && (c.direction == ReceivedCheque ==> m.amount > 0)
       && (c.direction == IssuedCheque ==> m.amount < 0 && m.account == c.account)
       && SumBy(s.clearances, TakenFrom(r.bank.value)) + c.amount <= (if m.amount < 0 then -m.amount else m.amount)
       && forall i :: 0 <= i < |s.clearances| && s.clearances[i].cheque == r.cheque ==>
            s.clearances[i].bank != r.bank.value
  }

  /** The state an action leads to. */
  predicate LeadsTo(a: Action, s: State) {
    || (a == Deposit && s == Deposited) || (a == Endorse && s == Endorsed) || (a == Clear && s == Cleared)
    || (a == Return && s == Returned) || (a == Cancel && s == Cancelled)
  }

  /** What an action on a cheque has to meet, `log` being the cheque's events so far. */
  ghost predicate Performable(s: Store, r: Request, log: seq<Event>, today: int) {
    && r.cheque < |s.cheques| && r.reason && r.open && log != [] && r.version == |log|
    && log[|log| - 1].date <= r.date && r.date <= today
    && r.action in Moves(s.cheques[r.cheque].direction, log[|log| - 1].state)
    && (r.action == Endorse ==> r.endorsedTo.Some?)
    && (r.action == Clear ==> Proves(s, s.cheques[r.cheque], r, today))
  }

  lemma {:induction false} StateIsLogged(steps: seq<Step>, i: nat)
    requires i < |Run(steps).cheques|
    ensures
      var s := Run(steps);
      var c, log := s.cheques[i], LogOf(s.events, i);
      && log != [] && c.state == log[|log| - 1].state && c.version == |log| && c.issued <= log[|log| - 1].date
      && (c.direction == IssuedCheque ==> c.state != Received && c.state != Deposited && c.state != Endorsed)
      && LastEvent(s.events, i) == Some(log[|log| - 1])
  {
    var s := Run(steps);
    var log := LogOf(s.events, i);
    ChequeIsItsLog(steps, i);
    OnlyReceivedMoveOn(s.cheques[i].direction, log, |log| - 1);
    LastEventEndsLog(s.events, i);
  }

  /** After any run, an action is performed exactly when it is performable; it then adds one
      event, from the last state to the one it leads to, and a clearing charges its movement. */
  lemma {:induction false} PerformedExactly(steps: seq<Step>, r: Request, today: int)
    ensures
      var s, t := Run(steps), Act(Run(steps), r, today);
      var log := LogOf(s.events, r.cheque);
      if !Performable(s, r, log, today) then t == s
      else
        && t.cheques[r.cheque].version == s.cheques[r.cheque].version + 1
        && LeadsTo(r.action, t.cheques[r.cheque].state)
        && t.events == s.events + [Event(r.cheque, Some(log[|log| - 1].state), t.cheques[r.cheque].state, r.date)]
        && t.clearances == (if r.action == Clear
                            then s.clearances + [Clearance(r.cheque, r.bank.value, s.cheques[r.cheque].amount)]
                            else s.clearances)
        && t.cheques[r.cheque].endorsedTo == (if r.action == Endorse then r.endorsedTo
                                              else s.cheques[r.cheque].endorsedTo)
  {
    var s := Run(steps);
    if r.cheque < |s.cheques| {
      StateIsLogged(steps, r.cheque);
      if r.bank.Some? {
        SumPointwise(s.clearances, s.clearances, Charged(r.bank.value), TakenFrom(r.bank.value));
      }
      MovesAreAllowed(s.cheques[r.cheque].direction, s.cheques[r.cheque].state, r.action);
      assert Proves(s, s.cheques[r.cheque], r, today) <==> Clears(s, s.cheques[r.cheque], r, today);
    }
  }

  lemma MovesAreAllowed(d: Direction, s: State, a: Action)
    ensures Allowed(d, s, a) <==> a in Moves(d, s)
  {}

  /** A cheque is registered exactly when its dates, its period, its identity and its amount
      allow it, in the first state of its direction and with one event. */
  lemma RegisteredExactly(s: Store, x: NewCheque, today: int)
    ensures
      var t := Create(s, x, today);
      if x.open && x.unique && x.issued <= today && x.issued <= x.due && 0 < x.amount then
        var first := if x.direction == ReceivedCheque then Received else Issued;
        && t.cheques == s.cheques + [Cheque(x.direction, x.account, x.party, x.amount, x.issued, first, 1, None)]
        && t.events == s.events + [Event(|s.cheques|, None, first, x.issued)]
        && t.clearances == s.clearances
      else t == s
  {}
}
