/** The cheque lifecycle: an append-only event log per cheque, and bank movements whose
    amount is shared by the cheques cleared against them. */
module Cheques {
  import opened Options
  import opened Sums

  datatype Direction = ReceivedCheque | IssuedCheque
  datatype State = Received | Issued | Deposited | Endorsed | Cleared | Returned | Cancelled
  datatype Action = Deposit | Endorse | Clear | Return | Cancel

  datatype Cheque = Cheque(direction: Direction, account: string, party: string, amount: int, issued: int,
                           state: State, version: nat, endorsedTo: Option<string>)

  /** `previous` is None for the registration. */
  datatype Event = Event(cheque: nat, previous: Option<State>, state: State, date: int)
  datatype Clearance = Clearance(cheque: nat, bank: string, amount: int)
  datatype Movement = Movement(account: string, party: Option<string>, amount: int, date: int, anchor: bool,
                               active: bool)

  datatype Store = Store(cheques: seq<Cheque>, events: seq<Event>, clearances: seq<Clearance>,
                         bank: map<string, Movement>)

  /** `open` is the accounting period's verdict on the date; `unique` is the store's own
      constraint that number and account are new. */
  datatype NewCheque = NewCheque(direction: Direction, account: string, party: string, amount: int, issued: int,
                                 due: int, open: bool, unique: bool)
  datatype Request = Request(cheque: nat, action: Action, date: int, version: nat, open: bool, reason: bool,
                             bank: Option<string>, endorsedTo: Option<string>)

  function Initial(d: Direction): State {
    if d.ReceivedCheque? then Received else Issued
  }

  function Target(a: Action): State {
    match a
    case Deposit => Deposited
    case Endorse => Endorsed
    case Clear => Cleared
    case Return => Returned
    case Cancel => Cancelled
  }

  /** The transition table of `act`. */
  predicate Allowed(d: Direction, s: State, a: Action) {
    match s
    case Received => true
    case Issued => a.Clear? || a.Return? || a.Cancel?
    case Deposited => a.Clear? || a.Return?
    case Endorsed => a.Return?
    case Cleared => a.Return?
    case Returned => a.Clear? || a.Cancel? || (d.ReceivedCheque? && (a.Deposit? || a.Endorse?))
    case Cancelled => false
  }

  function Charged(bank: string): Clearance -> int {
    (c: Clearance) => if c.bank == bank then c.amount else 0
  }

  function AbsoluteValue(v: int): int {
    if v >= 0 then v else -v
  }

  function LastEvent(events: seq<Event>, cheque: nat): Option<Event> {
    if events == [] then None
    else if events[|events| - 1].cheque == cheque then Some(events[|events| - 1])
    else LastEvent(events[..|events| - 1], cheque)
  }

  predicate Creatable(x: NewCheque, today: int) {
    x.open && x.unique && x.issued <= today && x.due >= x.issued && x.amount > 0
  }

  function Create(s: Store, x: NewCheque, today: int): Store {
    if !Creatable(x, today) then s
    else
      var state := Initial(x.direction);
      s.(cheques := s.cheques + [Cheque(x.direction, x.account, x.party, x.amount, x.issued, state, 1, None)],
         events := s.events + [Event(|s.cheques|, None, state, x.issued)])
  }

  /** `_validate_clearance`, and the constraint of one clearance per cheque and movement. */
  predicate Clears(s: Store, c: Cheque, r: Request, today: int) {
    && r.bank.Some? && r.bank.value in s.bank
    && var m := s.bank[r.bank.value];
       && m.active && !m.anchor && m.date == r.date && m.date >= c.issued && m.date <= today
       && (m.party.None? || m.party.value == c.party)
       && (if c.direction.ReceivedCheque? then m.amount > 0 else m.amount < 0)
       && (c.direction.IssuedCheque? ==> m.account == c.account)
       && SumBy(s.clearances, Charged(r.bank.value)) + c.amount <= AbsoluteValue(m.amount)
       && !(exists i ::
              0 <= i < |s.clearances| && s.clearances[i].cheque == r.cheque && s.clearances[i].bank == r.bank.value)
  }

  predicate Acts(s: Store, r: Request, today: int) {
    && r.cheque < |s.cheques| && r.reason && r.open
    && var c := s.cheques[r.cheque];
       var last := LastEvent(s.events, r.cheque);
       && c.version == r.version && r.date <= today && r.date >= c.issued
       && (last.Some? ==> r.date >= last.value.date)
       && Allowed(c.direction, c.state, r.action)
       && (r.action.Endorse? ==> c.direction.ReceivedCheque? && r.endorsedTo.Some?)
       && (r.action.Clear? ==> Clears(s, c, r, today))
  }

  function Act(s: Store, r: Request, today: int): Store {
    if !Acts(s, r, today) then s
    else
      var c := s.cheques[r.cheque];
      var next := Target(r.action);
      s.(cheques := s.cheques[r.cheque := c.(state := next, version := c.version + 1,
                                             endorsedTo := if r.action.Endorse? then r.endorsedTo else c.endorsedTo)],
         events := s.events + [Event(r.cheque, Some(c.state), next, r.date)],
         clearances := if r.action.Clear? then s.clearances + [Clearance(r.cheque, r.bank.value, c.amount)]
                       else s.clearances)
  }

  /** Importing bank rows adds movements and changes which are active; a movement's facts stay. */
  predicate SameFacts(a: Movement, b: Movement) {
    a == b.(active := a.active)
  }

  predicate Imports(s: Store, bank: map<string, Movement>) {
    forall k :: k in s.bank ==> k in bank && SameFacts(s.bank[k], bank[k])
  }

  datatype Step =
    | StepCreate(x: NewCheque, today: int)
    | StepAct(r: Request, today: int)
    | StepImport(bank: map<string, Movement>)

  function Apply(s: Store, step: Step): Store {
    match step
    case StepCreate(x, today) => Create(s, x, today)
    case StepAct(r, today) => Act(s, r, today)
    case StepImport(bank) => if Imports(s, bank) then s.(bank := bank) else s
  }

  const EMPTY := Store([], [], [], map[])

  function Run(steps: seq<Step>): Store {
    if steps == [] then EMPTY else Apply(Run(steps[..|steps| - 1]), steps[|steps| - 1])
  }

  // ----- the log of one cheque -----

  function LogOf(events: seq<Event>, cheque: nat): seq<Event> {
    if events == [] then []
    else
      var e := events[|events| - 1];
      LogOf(events[..|events| - 1], cheque) + (if e.cheque == cheque then [e] else [])
  }

  /** A registration followed by allowed moves, each from where the last one ended, none
      earlier than the last. */
  predicate Replays(d: Direction, log: seq<Event>) {
    && log != []
    && log[0].previous == None && log[0].state == Initial(d)
    && forall i :: 1 <= i < |log| ==> Continues(d, log[i - 1], log[i])
  }

  predicate Continues(d: Direction, last: Event, e: Event) {
    && e.previous == Some(last.state) && e.date >= last.date
    && exists a :: Allowed(d, last.state, a) && e.state == Target(a) && (a.Endorse? ==> d.ReceivedCheque?)
  }

  lemma LogSnoc(events: seq<Event>, e: Event, cheque: nat)
    ensures LogOf(events + [e], cheque) == LogOf(events, cheque) + (if e.cheque == cheque then [e] else [])
  {
    assert (events + [e])[..|events|] == events;
  }

  lemma {:induction false} LastEventEndsLog(events: seq<Event>, cheque: nat)
    ensures LastEvent(events, cheque).Some? <==> LogOf(events, cheque) != []
    ensures LastEvent(events, cheque).Some?
        ==> LastEvent(events, cheque).value == LogOf(events, cheque)[|LogOf(events, cheque)| - 1]
    decreases |events|
  {
    if events != [] {
      LastEventEndsLog(events[..|events| - 1], cheque);
    }
  }

  // ----- the invariant -----

  /** A cheque's row is what its log ends in. */
  ghost predicate IsReplayOf(c: Cheque, log: seq<Event>) {
    && Replays(c.direction, log) && c.state == log[|log| - 1].state && c.version == |log|
    && log[0].date == c.issued && c.amount > 0
  }

  ghost predicate ChequeOk(s: Store, i: nat)
    requires i < |s.cheques|
  {
    IsReplayOf(s.cheques[i], LogOf(s.events, i))
  }

  function ClearsOf(i: nat): Event -> int {
    (e: Event) => if e.cheque == i && e.state.Cleared? then 1 else 0
  }

  function ClearancesOf(i: nat): Clearance -> int {
    (c: Clearance) => if c.cheque == i then 1 else 0
  }

  ghost predicate BankOk(s: Store) {
    && (forall b :: b in s.bank ==> SumBy(s.clearances, Charged(b)) <= AbsoluteValue(s.bank[b].amount))
    && (forall i :: 0 <= i < |s.clearances| ==> s.clearances[i].bank in s.bank)
  }

  ghost predicate ClearancesOk(s: Store) {
    && (forall i :: SumBy(s.clearances, ClearancesOf(i)) == SumBy(s.events, ClearsOf(i)))
    && (forall i :: 0 <= i < |s.clearances| ==>
          s.clearances[i].cheque < |s.cheques| && s.clearances[i].amount == s.cheques[s.clearances[i].cheque].amount)
    && (forall i :: 0 <= i < |s.events| ==> s.events[i].cheque < |s.cheques|)
  }

  ghost predicate Inv(s: Store) {
    && (forall i :: 0 <= i < |s.cheques| ==> ChequeOk(s, i))
    && BankOk(s) && ClearancesOk(s)
  }

  lemma {:induction false} NoEventsYet(events: seq<Event>, i: nat)
    requires forall j :: 0 <= j < |events| ==> events[j].cheque != i
    ensures LogOf(events, i) == []
    decreases |events|
  {
    if events != [] {
      NoEventsYet(events[..|events| - 1], i);
    }
  }

  lemma EventCounts(events: seq<Event>, e: Event)
    ensures forall i :: SumBy(events + [e], ClearsOf(i)) == SumBy(events, ClearsOf(i)) + ClearsOf(i)(e)
  {
    forall i ensures SumBy(events + [e], ClearsOf(i)) == SumBy(events, ClearsOf(i)) + ClearsOf(i)(e) {
      SumSnoc(events, e, ClearsOf(i));
    }
  }

  lemma ClearanceSums(rows: seq<Clearance>, c: Clearance)
    ensures forall b :: SumBy(rows + [c], Charged(b)) == SumBy(rows, Charged(b)) + Charged(b)(c)
    ensures forall i :: SumBy(rows + [c], ClearancesOf(i)) == SumBy(rows, ClearancesOf(i)) + ClearancesOf(i)(c)
  {
    forall b ensures SumBy(rows + [c], Charged(b)) == SumBy(rows, Charged(b)) + Charged(b)(c) {
      SumSnoc(rows, c, Charged(b));
    }
    forall i ensures SumBy(rows + [c], ClearancesOf(i)) == SumBy(rows, ClearancesOf(i)) + ClearancesOf(i)(c) {
      SumSnoc(rows, c, ClearancesOf(i));
    }
  }

  lemma CreateKeepsInv(s: Store, x: NewCheque, today: int)
    requires Inv(s)
    ensures Inv(Create(s, x, today))
  {
    if Creatable(x, today) {
      var t := Create(s, x, today);
      var n := |s.cheques|;
      var e := t.events[|s.events|];
      EventCounts(s.events, e);
      forall i | 0 <= i < |t.cheques| ensures ChequeOk(t, i) {
        LogSnoc(s.events, e, i);
        if i < n {
          assert ChequeOk(s, i);
          assert LogOf(t.events, i) == LogOf(s.events, i);
        } else {
          NoEventsYet(s.events, n);
          assert LogOf(t.events, n) == [e];
        }
      }
    }
  }

  lemma ActKeepsLogs(s: Store, r: Request, today: int, i: nat)
    requires Inv(s) && Acts(s, r, today) && i < |s.cheques|
    ensures ChequeOk(Act(s, r, today), i)
  {
    var t := Act(s, r, today);
    var e := t.events[|s.events|];
    LogSnoc(s.events, e, i);
    assert ChequeOk(s, i);
    if i == r.cheque {
      var log := LogOf(s.events, i);
      LastEventEndsLog(s.events, i);
      assert Allowed(s.cheques[i].direction, log[|log| - 1].state, r.action) && e.state == Target(r.action);
      assert Continues(s.cheques[i].direction, log[|log| - 1], e);
      var after := LogOf(t.events, i);
      assert after == log + [e];
      forall j | 1 <= j < |after| ensures Continues(s.cheques[i].direction, after[j - 1], after[j]) {
        if j < |log| {
          assert Continues(s.cheques[i].direction, log[j - 1], log[j]);
        }
      }
    } else {
      assert LogOf(t.events, i) == LogOf(s.events, i);
    }
  }

  lemma ActKeepsBank(s: Store, r: Request, today: int)
    requires Inv(s) && Acts(s, r, today)
    ensures BankOk(Act(s, r, today))
  {
    var t := Act(s, r, today);
    if r.action.Clear? {
      ClearanceSums(s.clearances, t.clearances[|s.clearances|]);
    }
  }

  lemma ActKeepsClearances(s: Store, r: Request, today: int)
    requires Inv(s) && Acts(s, r, today)
    ensures ClearancesOk(Act(s, r, today))
  {
    var t := Act(s, r, today);
    EventCounts(s.events, t.events[|s.events|]);
    if r.action.Clear? {
      ClearanceSums(s.clearances, t.clearances[|s.clearances|]);
    }
  }

  lemma ActKeepsInv(s: Store, r: Request, today: int)
    requires Inv(s) && Acts(s, r, today)
    ensures Inv(Act(s, r, today))
  {
    var t := Act(s, r, today);
    forall i | 0 <= i < |t.cheques| ensures ChequeOk(t, i) {
      ActKeepsLogs(s, r, today, i);
    }
    ActKeepsBank(s, r, today);
    ActKeepsClearances(s, r, today);
  }

  lemma ImportKeepsInv(s: Store, bank: map<string, Movement>)
    requires Inv(s) && Imports(s, bank)
    ensures Inv(s.(bank := bank))
  {
    var t := s.(bank := bank);
    forall i | 0 <= i < |t.cheques| ensures ChequeOk(t, i) { assert ChequeOk(s, i); }
    forall b | b in bank ensures SumBy(t.clearances, Charged(b)) <= AbsoluteValue(bank[b].amount) {
      if b in s.bank {
        assert SameFacts(s.bank[b], bank[b]);
      } else {
        SumZero(s.clearances, Charged(b));
      }
    }
  }

  lemma {:induction false} RunKeepsInv(steps: seq<Step>)
    ensures Inv(Run(steps))
    decreases |steps|
  {
    if steps != [] {
      var s := Run(steps[..|steps| - 1]);
      RunKeepsInv(steps[..|steps| - 1]);
      match steps[|steps| - 1]
      case StepCreate(x, today) => CreateKeepsInv(s, x, today);
      case StepAct(r, today) => if Acts(s, r, today) { ActKeepsInv(s, r, today); }
      case StepImport(bank) => if Imports(s, bank) { ImportKeepsInv(s, bank); }
    }
  }

  // ----- promises -----

  /** The cheques cleared against one bank movement never exceed it. */
  lemma BankMovementIsNeverOvercharged(steps: seq<Step>, b: string)
    requires b in Run(steps).bank
    ensures SumBy(Run(steps).clearances, Charged(b)) <= AbsoluteValue(Run(steps).bank[b].amount)
  {
    RunKeepsInv(steps);
  }

  /** A cheque's row is the replay of its log: registered, then allowed moves in date order,
      each starting in the state the previous one reached. */
  lemma ChequeIsItsLog(steps: seq<Step>, i: nat)
    requires i < |Run(steps).cheques|
    ensures
      var s := Run(steps);
      var log := LogOf(s.events, i);
      && Replays(s.cheques[i].direction, log)
      && s.cheques[i].state == log[|log| - 1].state && s.cheques[i].version == |log|
      && log[0].date == s.cheques[i].issued
  {
    RunKeepsInv(steps);
    assert ChequeOk(Run(steps), i);
  }

  /** Only received cheques are ever deposited or endorsed, in any position of the log. */
  lemma {:induction false} OnlyReceivedMoveOn(d: Direction, log: seq<Event>, i: nat)
    requires Replays(d, log) && i < |log|
    ensures d.IssuedCheque? ==> !log[i].state.Deposited? && !log[i].state.Endorsed? && !log[i].state.Received?
    ensures d.ReceivedCheque? ==> !log[i].state.Issued?
    ensures forall j :: 0 <= j <= i ==> log[j].date <= log[i].date
  {
    if i > 0 {
      OnlyReceivedMoveOn(d, log, i - 1);
      assert Continues(d, log[i - 1], log[i]);
    }
  }

  /** A cancelled cheque never changes again, whatever happens next. */
  lemma {:induction false} CancelledIsFinal(before: seq<Step>, after: seq<Step>, i: nat)
    requires i < |Run(before).cheques| && Run(before).cheques[i].state.Cancelled?
    ensures i < |Run(before + after).cheques| && Run(before + after).cheques[i] == Run(before).cheques[i]
    decreases |after|
  {
    if after == [] {
      assert before + after == before;
    } else {
      var n := |after| - 1;
      assert (before + after)[..|before| + n] == before + after[..n];
      CancelledIsFinal(before, after[..n], i);
    }
  }

  function ChargedTo(i: nat): Clearance -> int {
    (c: Clearance) => if c.cheque == i then c.amount else 0
  }

  lemma {:induction false} ChargedPerClearance(rows: seq<Clearance>, i: nat, amount: int)
    requires forall k :: 0 <= k < |rows| && rows[k].cheque == i ==> rows[k].amount == amount
    ensures SumBy(rows, ChargedTo(i)) == amount * SumBy(rows, ClearancesOf(i))
    decreases |rows|
  {
    if rows != [] {
      var front, c := rows[..|rows| - 1], rows[|rows| - 1];
      ChargedPerClearance(front, i, amount);
      Distribute(amount, SumBy(front, ClearancesOf(i)), ClearancesOf(i)(c));
    }
  }

  /** A return does not give the bank amount back: what bank movements were charged for a
      cheque is its amount once for every time it was cleared. */
  lemma {:induction false} EveryClearingIsCharged(s: Store, i: nat)
    requires Inv(s) && i < |s.cheques|
    ensures SumBy(s.clearances, ChargedTo(i)) == s.cheques[i].amount * SumBy(s.events, ClearsOf(i))
  {
    ChargedPerClearance(s.clearances, i, s.cheques[i].amount);
  }

  predicate EverCleared(events: seq<Event>, i: nat) {
    exists j :: 0 <= j < |LogOf(events, i)| && LogOf(events, i)[j].state.Cleared?
  }

  lemma {:induction false} ClearsAreLogged(events: seq<Event>, i: nat)
    ensures SumBy(events, ClearsOf(i)) >= 0
    ensures EverCleared(events, i) <==> SumBy(events, ClearsOf(i)) > 0
    decreases |events|
  {
    if events != [] {
      var front, e := events[..|events| - 1], events[|events| - 1];
      ClearsAreLogged(front, i);
      var before, after := LogOf(front, i), LogOf(events, i);
      if e.cheque == i {
        assert after == before + [e] && after[|before|] == e;
        assert forall j :: 0 <= j < |before| ==> after[j] == before[j];
      } else {
        assert after == before;
      }
    }
  }

  /** An accepted clearing keeps the total charged for its cheque within the cheque's amount if
      and only if the cheque's log holds no earlier clearing. */
  lemma {:induction false} ClearingChargesOnceExactly(steps: seq<Step>, r: Request, today: int)
    requires Acts(Run(steps), r, today) && r.action.Clear?
    ensures
      var s, t := Run(steps), Act(Run(steps), r, today);
      SumBy(t.clearances, ChargedTo(r.cheque)) <= s.cheques[r.cheque].amount <==> !EverCleared(s.events, r.cheque)
  {
    var s, t := Run(steps), Act(Run(steps), r, today);
    var i := r.cheque;
    RunKeepsInv(steps);
    ActKeepsInv(s, r, today);
    assert ChequeOk(s, i);
    ClearsAreLogged(s.events, i);
    SumSnoc(s.events, t.events[|s.events|], ClearsOf(i));
    EveryClearingIsCharged(t, i);
    AtMostOnce(s.cheques[i].amount, SumBy(s.events, ClearsOf(i)));
  }

  lemma AtMostOnce(amount: int, n: int)
    requires amount > 0 && n >= 0
    ensures amount * (n + 1) <= amount <==> n == 0
  {
    if n >= 1 {
      assert amount * (n + 1) >= amount * 2;
    }
  }

  // ----- the service -----

  class ChequeBook {
    var cheques: seq<Cheque>
    var events: seq<Event>
    var clearances: seq<Clearance>
    var bank: map<string, Movement>

    function Contents(): (s: Store)
      reads this
    {
      Store(cheques, events, clearances, bank)
    }

    constructor ()
      ensures Contents() == EMPTY && Inv(Contents())
    {
      cheques, events, clearances, bank := [], [], [], map[];
    }

    method Register(x: NewCheque, today: int) returns (done: bool)
      requires Inv(Contents())
      modifies this`cheques, this`events
      ensures done <==> Creatable(x, today)
      ensures Contents() == Create(old(Contents()), x, today) && Inv(Contents())
    {
      CreateKeepsInv(Contents(), x, today);
      if !x.open || !x.unique || x.issued > today || x.due < x.issued || x.amount <= 0 {
        return false;
      }
      var state := if x.direction.ReceivedCheque? then Received else Issued;
      events := events + [Event(|cheques|, None, state, x.issued)];
      cheques := cheques + [Cheque(x.direction, x.account, x.party, x.amount, x.issued, state, 1, None)];
      done := true;
    }

    /** What earlier clearances left of a movement. */
    method UsedOf(b: string) returns (used: int)
      ensures used == SumBy(clearances, Charged(b))
    {
      used := 0;
      var i := 0;
      while i < |clearances|
        invariant 0 <= i <= |clearances| && used == SumBy(clearances[..i], Charged(b))
      {
        SumPrefix(clearances, i, Charged(b));
        if clearances[i].bank == b {
          used := used + clearances[i].amount;
        }
        i := i + 1;
      }
      assert clearances[..i] == clearances;
    }

    method ValidateClearance(c: Cheque, r: Request, today: int) returns (ok: bool)
      ensures ok <==> Clears(Contents(), c, r, today)
    {
      if r.bank.None? || r.bank.value !in bank {
        return false;
      }
      var m := bank[r.bank.value];
      if !m.active || m.anchor || m.date != r.date || m.date < c.issued || m.date > today
         || (m.party.Some? && m.party.value != c.party)
      {
        return false;
      }
      if (c.direction.ReceivedCheque? && m.amount <= 0)
          || (c.direction.IssuedCheque? && (m.amount >= 0 || m.account != c.account))
      {
        return false;
      }
      var used := UsedOf(r.bank.value);
      if used + c.amount > AbsoluteValue(m.amount) {
        return false;
      }
      ok := !(exists i ::
        0 <= i < |clearances| && clearances[i].cheque == r.cheque && clearances[i].bank == r.bank.value);
    }

    /** `act`. */
    method Perform(r: Request, today: int) returns (done: bool)
      requires Inv(Contents())
      modifies this`cheques, this`events, this`clearances
      ensures done <==> Acts(old(Contents()), r, today)
      ensures Contents() == Act(old(Contents()), r, today) && Inv(Contents())
    {
      if Acts(Contents(), r, today) {
        ActKeepsInv(Contents(), r, today);
      }
      if !r.reason || r.cheque >= |cheques| || !r.open {
        return false;
      }
      var c := cheques[r.cheque];
      var last := LastEvent(events, r.cheque);
      if c.version != r.version || r.date > today || r.date < c.issued || (last.Some? && r.date < last.value.date) {
        return false;
      }
      if !Allowed(c.direction, c.state, r.action)
          || (r.action.Endorse? && (c.direction.IssuedCheque? || r.endorsedTo.None?))
      {
        return false;
      }
      if r.action.Clear? {
        var ok := ValidateClearance(c, r, today);
        if !ok {
          return false;
        }
        clearances := clearances + [Clearance(r.cheque, r.bank.value, c.amount)];
      }
      events := events + [Event(r.cheque, Some(c.state), Target(r.action), r.date)];
      c := c.(state := Target(r.action), version := c.version + 1);
      if r.action.Endorse? {
        c := c.(endorsedTo := r.endorsedTo);
      }
      cheques := cheques[r.cheque := c];
      done := true;
    }
  }
}
