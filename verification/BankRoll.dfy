/** Anchored bank balances, the daily roll of a period, and internal transfers. */
module BankRoll {
  import opened Options
  import opened Sums

  datatype Cutoff = StartOfDay | EndOfDay | OtherCutoff
  datatype Kind = Anchor | Transfer | Movement

  datatype Row = Row(id: string, account: string, date: int, kind: Kind, amount: int, balance: Option<int>,
                     cutoff: Option<Cutoff>, reference: Option<string>)
  datatype Coverage = Coverage(accounts: seq<string>, complete: bool, openingCutoffs: map<string, Cutoff>,
                               confirmed: set<string>)

  // ----- one account -----

  function OfAccount(rows: seq<Row>, account: string): seq<Row> {
    if rows == [] then []
    else
      var r := rows[|rows| - 1];
      OfAccount(rows[..|rows| - 1], account) + (if r.account == account then [r] else [])
  }

  predicate Anchors(r: Row, asOf: int) {
    r.kind.Anchor? && r.balance.Some? && r.date <= asOf
  }

  /** The newest anchor, and whether its day has no other. */
  function NewestAnchor(rows: seq<Row>, asOf: int): (r: (Option<Row>, bool))
    ensures r.0.Some? ==> Anchors(r.0.value, asOf) && r.0.value in rows
  {
    if rows == [] then (None, true)
    else
      var r := rows[|rows| - 1];
      var (best, alone) := NewestAnchor(rows[..|rows| - 1], asOf);
      if !Anchors(r, asOf) || (best.Some? && r.date < best.value.date) then (best, alone)
      else if best.Some? && r.date == best.value.date then (best, false)
      else (Some(r), true)
  }

  function CutoffOf(anchor: Row, cov: Coverage): Cutoff {
    if anchor.cutoff.Some? then anchor.cutoff.value
    else if anchor.account in cov.openingCutoffs then cov.openingCutoffs[anchor.account] else OtherCutoff
  }

  function After(day: int, cutoff: Cutoff, asOf: int): Row -> int {
    (r: Row) =>
      if !r.kind.Anchor? && (r.date > day || (cutoff.StartOfDay? && r.date == day)) && r.date <= asOf then r.amount
      else 0
  }

  /** `_account_balance` on one account's rows. */
  function AccountBalance(rows: seq<Row>, asOf: int, cov: Coverage): Option<int> {
    var (anchor, alone) := NewestAnchor(rows, asOf);
    if anchor.None? || !alone || CutoffOf(anchor.value, cov).OtherCutoff? then None
    else Some(anchor.value.balance.value + SumBy(rows, After(anchor.value.date, CutoffOf(anchor.value, cov), asOf)))
  }

  method NewestOf(rows: seq<Row>, asOf: int) returns (newest: Option<Row>, alone: bool)
    ensures (newest, alone) == NewestAnchor(rows, asOf)
  {
    newest, alone := None, true;
    var i := 0;
    while i < |rows|
      invariant 0 <= i <= |rows| && (newest, alone) == NewestAnchor(rows[..i], asOf)
    {
      assert rows[..i + 1][..i] == rows[..i];
      var r := rows[i];
      if Anchors(r, asOf) && (newest.None? || r.date >= newest.value.date) {
        if newest.Some? && r.date == newest.value.date {
          alone := false;
        } else {
          newest, alone := Some(r), true;
        }
      }
      i := i + 1;
    }
    assert rows[..i] == rows;
  }

  method SumAfter(rows: seq<Row>, day: int, cutoff: Cutoff, asOf: int) returns (total: int)
    ensures total == SumBy(rows, After(day, cutoff, asOf))
  {
    total := 0;
    var i := 0;
    while i < |rows|
      invariant 0 <= i <= |rows| && total == SumBy(rows[..i], After(day, cutoff, asOf))
    {
      SumPrefix(rows, i, After(day, cutoff, asOf));
      total := total + After(day, cutoff, asOf)(rows[i]);
      i := i + 1;
    }
    assert rows[..i] == rows;
  }

  method BalanceOfAccount(rows: seq<Row>, asOf: int, cov: Coverage) returns (b: Option<int>)
    ensures b == AccountBalance(rows, asOf, cov)
  {
    var newest, alone := NewestOf(rows, asOf);
    if newest.None? || !alone || CutoffOf(newest.value, cov).OtherCutoff? {
      return None;
    }
    var after := SumAfter(rows, newest.value.date, CutoffOf(newest.value, cov), asOf);
    b := Some(newest.value.balance.value + after);
  }

  // ----- movements of the period -----

  predicate Moves(r: Row, start: int, end: int) {
    !r.kind.Anchor? && start <= r.date <= end
  }

  function Movements(bank: seq<Row>, start: int, end: int): seq<Row> {
    if bank == [] then []
    else
      var r := bank[|bank| - 1];
      Movements(bank[..|bank| - 1], start, end) + (if Moves(r, start, end) then [r] else [])
  }

  function Value(): Row -> int {
    (r: Row) => r.amount
  }

  function Inflow(): Row -> int {
    (r: Row) => if r.amount >= 0 then r.amount else 0
  }

  function Outflow(): Row -> int {
    (r: Row) => if r.amount < 0 then -r.amount else 0
  }

  function AccountOf(): Row -> string {
    (r: Row) => r.account
  }

  function DateOf(): Row -> int {
    (r: Row) => r.date
  }

  // ----- internal transfers -----

  predicate Proposed(r: Row, confirmed: set<string>) {
    r.reference.Some? && (r.kind.Transfer? || r.reference.value in confirmed)
  }

  function GroupOf(movements: seq<Row>, confirmed: set<string>, reference: string): seq<Row> {
    if movements == [] then []
    else
      var r := movements[|movements| - 1];
      GroupOf(movements[..|movements| - 1], confirmed, reference)
      + (if Proposed(r, confirmed) && r.reference.value == reference then [r] else [])
  }

  /** Exactly two legs, on two accounts, opposite and not zero. */
  predicate Paired(group: seq<Row>) {
    && |group| == 2 && group[0].account != group[1].account
    && group[0].amount + group[1].amount == 0 && group[0].amount != 0
  }

  /** `_internal_ids`. */
  function InternalIds(movements: seq<Row>, confirmed: set<string>): set<string> {
    set r, leg | r in movements && Proposed(r, confirmed) && Paired(GroupOf(movements, confirmed, r.reference.value))
                 && leg in GroupOf(movements, confirmed, r.reference.value) :: leg.id
  }

  predicate DistinctIds(movements: seq<Row>) {
    forall i, j :: 0 <= i < j < |movements| ==> movements[i].id != movements[j].id
  }

  function InternalValue(ids: set<string>): Row -> int {
    (r: Row) => if r.id in ids then r.amount else 0
  }

  function InternalIn(ids: set<string>): Row -> int {
    (r: Row) => if r.id in ids && r.amount >= 0 then r.amount else 0
  }

  function InternalOut(ids: set<string>): Row -> int {
    (r: Row) => if r.id in ids && r.amount < 0 then -r.amount else 0
  }

  /** The group a row would be paired in; None collects the rest. */
  function ReferenceOf(confirmed: set<string>): Row -> Option<string> {
    (r: Row) => if Proposed(r, confirmed) then r.reference else None
  }

  lemma {:induction false} GroupMembers(movements: seq<Row>, confirmed: set<string>, reference: string)
    ensures forall r :: r in GroupOf(movements, confirmed, reference)
              <==> r in movements && Proposed(r, confirmed) && r.reference.value == reference
    ensures SumBy(GroupOf(movements, confirmed, reference), Value())
         == SumBy(movements, OfKey(ReferenceOf(confirmed), Value(), Some(reference)))
    decreases |movements|
  {
    if movements != [] {
      var front, r := movements[..|movements| - 1], movements[|movements| - 1];
      GroupMembers(front, confirmed, reference);
      assert movements == front + [r];
      if Proposed(r, confirmed) && r.reference.value == reference {
        SumSnoc(GroupOf(front, confirmed, reference), r, Value());
      } else {
        assert GroupOf(movements, confirmed, reference) == GroupOf(front, confirmed, reference);
      }
    }
  }

  /** With unique ids, a row is internal exactly when its own group is a pair. */
  lemma InternalMeansPaired(movements: seq<Row>, confirmed: set<string>, r: Row)
    requires DistinctIds(movements) && r in movements
    ensures r.id in InternalIds(movements, confirmed)
        <==> Proposed(r, confirmed) && Paired(GroupOf(movements, confirmed, r.reference.value))
  {
    if r.id in InternalIds(movements, confirmed) {
      var q, leg :| q in movements && Proposed(q, confirmed) && Paired(GroupOf(movements, confirmed, q.reference.value))
        && leg in GroupOf(movements, confirmed, q.reference.value) && leg.id == r.id;
      GroupMembers(movements, confirmed, q.reference.value);
      var i :| 0 <= i < |movements| && movements[i] == leg;
      var j :| 0 <= j < |movements| && movements[j] == r;
      assert i == j;
    }
    if Proposed(r, confirmed) {
      GroupMembers(movements, confirmed, r.reference.value);
    }
  }

  lemma PairNetsToZero(group: seq<Row>)
    requires Paired(group)
    ensures SumBy(group, Value()) == 0
  {
    var first, second := group[0], group[1];
    assert group == ([] + [first]) + [second];
    SumSnoc([] + [first], second, Value());
    SumSnoc([], first, Value());
  }

  /** Within one reference, a pair's rows all count as internal and any other group's none. */
  lemma {:induction false} InternalInGroup(movements: seq<Row>, confirmed: set<string>, k: Option<string>, r: Row)
    requires DistinctIds(movements) && r in movements
    ensures OfKey(ReferenceOf(confirmed), InternalValue(InternalIds(movements, confirmed)), k)(r)
         == if k.Some? && Paired(GroupOf(movements, confirmed, k.value))
            then OfKey(ReferenceOf(confirmed), Value(), k)(r) else 0
  {
    InternalMeansPaired(movements, confirmed, r);
  }

  lemma {:induction false} InternalGroupNetsToZero(movements: seq<Row>, confirmed: set<string>, k: Option<string>)
    requires DistinctIds(movements)
    ensures SumBy(movements, OfKey(ReferenceOf(confirmed), InternalValue(InternalIds(movements, confirmed)), k)) == 0
  {
    var weight := OfKey(ReferenceOf(confirmed), InternalValue(InternalIds(movements, confirmed)), k);
    var paired := k.Some? && Paired(GroupOf(movements, confirmed, k.value));
    var value := OfKey(ReferenceOf(confirmed), Value(), k);
    forall i | 0 <= i < |movements| ensures weight(movements[i]) == if paired then value(movements[i]) else 0 {
      InternalInGroup(movements, confirmed, k, movements[i]);
    }
    if paired {
      SumPointwise(movements, movements, weight, value);
      GroupMembers(movements, confirmed, k.value);
      PairNetsToZero(GroupOf(movements, confirmed, k.value));
    } else {
      SumZero(movements, weight);
    }
  }

  /** Accepted internal legs cancel: what left internally arrived internally. */
  lemma InternalLegsCancel(movements: seq<Row>, confirmed: set<string>)
    requires DistinctIds(movements)
    ensures
      var ids := InternalIds(movements, confirmed);
      SumBy(movements, InternalIn(ids)) == SumBy(movements, InternalOut(ids))
  {
    var ids := InternalIds(movements, confirmed);
    var keys := KeysOf(movements, ReferenceOf(confirmed));
    KeysListed(movements, ReferenceOf(confirmed));
    SumByKeys(movements, keys, ReferenceOf(confirmed), InternalValue(ids));
    forall i | 0 <= i < |keys| ensures KeySum(movements, ReferenceOf(confirmed), InternalValue(ids))(keys[i]) == 0 {
      InternalGroupNetsToZero(movements, confirmed, keys[i]);
    }
    SumZero(keys, KeySum(movements, ReferenceOf(confirmed), InternalValue(ids)));
    SumLinear(movements, InternalIn(ids), InternalOut(ids), InternalValue(ids), 1, -1);
  }

  // ----- the roll -----

  datatype Totals = Totals(externalIn: int, externalOut: int, internalIn: int, internalOut: int, net: int,
                           totalIn: int, totalOut: int)
  datatype Day = Day(date: int, inflow: int, outflow: int, net: int, balance: Option<int>)
  /** `balances` per account; `cash` when every account is known, `subset` when only some are. */
  datatype Roll = Roll(balances: seq<Option<int>>, cash: Option<int>, subset: Option<int>, totals: Totals,
                       daily: seq<Day>)

  function AccountNames(bank: seq<Row>): seq<string> {
    seq(|bank|, i requires 0 <= i < |bank| => bank[i].account)
  }

  function Accounts(bank: seq<Row>, cov: Coverage): seq<string> {
    Dedupe(AccountNames(bank) + cov.accounts)
  }

  /** `bank_balances`: each account's own balance. */
  function Balances(bank: seq<Row>, cov: Coverage, names: seq<string>, d: int): seq<Option<int>> {
    if names == [] then []
    else
      Balances(bank, cov, names[..|names| - 1], d) + [AccountBalance(OfAccount(bank, names[|names| - 1]), d, cov)]
  }

  function OrZero(): Option<int> -> int {
    (v: Option<int>) => if v.Some? then v.value else 0
  }

  /** The sum of a list, None when anything in it is unknown. */
  function Total(list: seq<Option<int>>): Option<int> {
    if list == [] then Some(0)
    else
      var rest, v := Total(list[..|list| - 1]), list[|list| - 1];
      if rest.None? || v.None? then None else Some(rest.value + v.value)
  }

  lemma TotalSnoc(list: seq<Option<int>>, v: Option<int>)
    ensures Total(list + [v]) == if Total(list).None? || v.None? then None else Some(Total(list).value + v.value)
  {
    assert (list + [v])[..|list|] == list;
  }

  lemma {:induction false} TotalIsKnownSum(list: seq<Option<int>>)
    ensures Total(list) == if None in list then None else Some(SumBy(list, OrZero()))
    decreases |list|
  {
    if list != [] {
      var front := list[..|list| - 1];
      TotalIsKnownSum(front);
      assert list == front + [list[|list| - 1]];
    }
  }

  function TotalBalance(bank: seq<Row>, cov: Coverage, names: seq<string>, d: int): Option<int> {
    Total(Balances(bank, cov, names, d))
  }

  predicate Complete(bank: seq<Row>, cov: Coverage, end: int) {
    cov.complete && Accounts(bank, cov) != [] && TotalBalance(bank, cov, Accounts(bank, cov), end).Some?
  }

  function BalanceOfDay(bank: seq<Row>, cov: Coverage, end: int, d: int): Option<int> {
    if Complete(bank, cov, end) then TotalBalance(bank, cov, Accounts(bank, cov), d) else None
  }

  function DayOf(bank: seq<Row>, cov: Coverage, start: int, end: int, d: int): Day {
    var ms := Movements(bank, start, end);
    var inflow, outflow := SumBy(ms, OfKey(DateOf(), Inflow(), d)), SumBy(ms, OfKey(DateOf(), Outflow(), d));
    Day(d, inflow, outflow, inflow - outflow, BalanceOfDay(bank, cov, end, d))
  }

  function Daily(bank: seq<Row>, cov: Coverage, start: int, end: int, last: int): seq<Day>
    decreases last - start + 1
  {
    if last < start then [] else Daily(bank, cov, start, end, last - 1) + [DayOf(bank, cov, start, end, last)]
  }

  function TotalsOf(ms: seq<Row>, ids: set<string>): Totals {
    var internalIn, internalOut := SumBy(ms, InternalIn(ids)), SumBy(ms, InternalOut(ids));
    var externalIn, externalOut := SumBy(ms, Inflow()) - internalIn, SumBy(ms, Outflow()) - internalOut;
    Totals(externalIn, externalOut, internalIn, internalOut, SumBy(ms, Value()), SumBy(ms, Inflow()),
           SumBy(ms, Outflow()))
  }

  /** The pass over the period's movements. */
  method PeriodTotals(ms: seq<Row>, ids: set<string>) returns (t: Totals)
    ensures t == TotalsOf(ms, ids)
  {
    t := Totals(0, 0, 0, 0, 0, 0, 0);
    var i := 0;
    while i < |ms|
      invariant 0 <= i <= |ms|
      invariant t.internalIn == SumBy(ms[..i], InternalIn(ids)) && t.internalOut == SumBy(ms[..i], InternalOut(ids))
      invariant t.externalIn == SumBy(ms[..i], Inflow()) - t.internalIn
      invariant t.externalOut == SumBy(ms[..i], Outflow()) - t.internalOut
      invariant t.net == SumBy(ms[..i], Value())
    {
      var r := ms[i];
      SumPrefix(ms, i, InternalIn(ids));
      SumPrefix(ms, i, InternalOut(ids));
      SumPrefix(ms, i, Inflow());
      SumPrefix(ms, i, Outflow());
      SumPrefix(ms, i, Value());
      if r.id in ids {
        if r.amount >= 0 {
          t := t.(internalIn := t.internalIn + r.amount);
        } else {
          t := t.(internalOut := t.internalOut - r.amount);
        }
      } else if r.amount >= 0 {
        t := t.(externalIn := t.externalIn + r.amount);
      } else {
        t := t.(externalOut := t.externalOut - r.amount);
      }
      t := t.(net := t.net + r.amount);
      i := i + 1;
    }
    assert ms[..i] == ms;
    t := t.(totalIn := t.externalIn + t.internalIn, totalOut := t.externalOut + t.internalOut);
  }

  method BalancesOf(bank: seq<Row>, cov: Coverage, names: seq<string>, d: int) returns (balances: seq<Option<int>>)
    ensures balances == Balances(bank, cov, names, d)
  {
    balances := [];
    var i := 0;
    while i < |names|
      invariant 0 <= i <= |names| && balances == Balances(bank, cov, names[..i], d)
    {
      assert names[..i + 1][..i] == names[..i];
      var b := BalanceOfAccount(OfAccount(bank, names[i]), d, cov);
      balances := balances + [b];
      i := i + 1;
    }
    assert names[..i] == names;
  }

  /** What the known balances sum to, and whether any is missing. */
  method Subset(balances: seq<Option<int>>) returns (subset: int, missing: bool)
    ensures subset == SumBy(balances, OrZero()) && (missing <==> None in balances)
    ensures Total(balances) == if missing then None else Some(subset)
  {
    subset, missing := 0, false;
    var i := 0;
    while i < |balances|
      invariant 0 <= i <= |balances| && subset == SumBy(balances[..i], OrZero())
      invariant missing <==> None in balances[..i]
    {
      SumPrefix(balances, i, OrZero());
      if balances[i].Some? {
        subset := subset + balances[i].value;
      } else {
        missing := true;
      }
      i := i + 1;
    }
    assert balances[..i] == balances;
    TotalIsKnownSum(balances);
  }

  /** The movements of one day. */
  method FlowsOn(ms: seq<Row>, d: int) returns (inflow: int, outflow: int)
    ensures inflow == SumBy(ms, OfKey(DateOf(), Inflow(), d)) && outflow == SumBy(ms, OfKey(DateOf(), Outflow(), d))
  {
    inflow, outflow := 0, 0;
    var i := 0;
    while i < |ms|
      invariant 0 <= i <= |ms| && inflow == SumBy(ms[..i], OfKey(DateOf(), Inflow(), d))
      invariant outflow == SumBy(ms[..i], OfKey(DateOf(), Outflow(), d))
    {
      SumPrefix(ms, i, OfKey(DateOf(), Inflow(), d));
      SumPrefix(ms, i, OfKey(DateOf(), Outflow(), d));
      if ms[i].date == d {
        if ms[i].amount >= 0 {
          inflow := inflow + ms[i].amount;
        } else {
          outflow := outflow - ms[i].amount;
        }
      }
      i := i + 1;
    }
    assert ms[..i] == ms;
  }

  /** One day of the walk; `complete` was decided at the end of the period. */
  method OneDay(bank: seq<Row>, cov: Coverage, start: int, end: int, d: int, complete: bool) returns (day: Day)
    requires complete <==> Complete(bank, cov, end)
    ensures day == DayOf(bank, cov, start, end, d)
  {
    var balances := BalancesOf(bank, cov, Accounts(bank, cov), d);
    var subset, missing := Subset(balances);
    var inflow, outflow := FlowsOn(Movements(bank, start, end), d);
    var balance := if complete && !missing then Some(subset) else None;
    DayIs(bank, cov, start, end, d, inflow, outflow);
    BalanceIs(bank, cov, end, d, if missing then None else Some(subset));
    day := Day(d, inflow, outflow, inflow - outflow, balance);
  }

  lemma DayIs(bank: seq<Row>, cov: Coverage, start: int, end: int, d: int, inflow: int, outflow: int)
    requires inflow == SumBy(Movements(bank, start, end), OfKey(DateOf(), Inflow(), d))
    requires outflow == SumBy(Movements(bank, start, end), OfKey(DateOf(), Outflow(), d))
    ensures DayOf(bank, cov, start, end, d)
         == Day(d, inflow, outflow, inflow - outflow, BalanceOfDay(bank, cov, end, d))
  {}

  lemma BalanceIs(bank: seq<Row>, cov: Coverage, end: int, d: int, total: Option<int>)
    requires total == Total(Balances(bank, cov, Accounts(bank, cov), d))
    ensures BalanceOfDay(bank, cov, end, d) == if Complete(bank, cov, end) then total else None
  {}

  /** The walk over the days. */
  method DailyRoll(bank: seq<Row>, cov: Coverage, start: int, end: int, complete: bool) returns (daily: seq<Day>)
    requires complete <==> Complete(bank, cov, end)
    ensures daily == Daily(bank, cov, start, end, end)
  {
    daily := [];
    var point := start;
    if end < start {
      return;
    }
    while point <= end
      invariant daily == Daily(bank, cov, start, end, point - 1)
      invariant start <= point <= end + 1
      decreases end - point
    {
      var day := OneDay(bank, cov, start, end, point, complete);
      daily := daily + [day];
      point := point + 1;
    }
  }

  lemma {:induction false} BalancesAreListed(bank: seq<Row>, cov: Coverage, names: seq<string>, d: int)
    ensures |Balances(bank, cov, names, d)| == |names|
    decreases |names|
  {
    if names != [] {
      BalancesAreListed(bank, cov, names[..|names| - 1], d);
    }
  }

  /** What the known accounts sum to, when not all of them make up the cash. */
  function AnchoredSubset(balances: seq<Option<int>>, complete: bool): Option<int> {
    if !complete && exists i :: 0 <= i < |balances| && balances[i].Some? then Some(SumBy(balances, OrZero())) else None
  }

  /** Cash from the accounts' own balances at the end: all of them known, or no cash. */
  method CashOf(bank: seq<Row>, cov: Coverage, end: int)
    returns (balances: seq<Option<int>>, cash: Option<int>, subset: Option<int>)
    ensures balances == Balances(bank, cov, Accounts(bank, cov), end)
    ensures cash == if cov.complete && balances != [] && None !in balances
                    then Some(SumBy(balances, OrZero())) else None
    ensures subset == AnchoredSubset(balances, cash.Some?)
    ensures cash.Some? <==> Complete(bank, cov, end)
    ensures cash == BalanceOfDay(bank, cov, end, end)
  {
    balances := BalancesOf(bank, cov, Accounts(bank, cov), end);
    var sum, missing := Subset(balances);
    BalancesAreListed(bank, cov, Accounts(bank, cov), end);
    var complete := cov.complete && balances != [] && !missing;
    var someKnown := exists i :: 0 <= i < |balances| && balances[i].Some?;
    cash := if complete then Some(sum) else None;
    subset := if !complete && someKnown then Some(sum) else None;
  }

  lemma LastDayEnds(bank: seq<Row>, cov: Coverage, start: int, end: int)
    requires start <= end
    ensures
      var daily := Daily(bank, cov, start, end, end);
      daily != [] && daily[|daily| - 1] == DayOf(bank, cov, start, end, end)
  {}

  /** `_bank`: cash and the anchored subset come from the accounts' own balances at the end, the
      daily balances from a second walk; on the last day the two agree. */
  method Bank(bank: seq<Row>, start: int, end: int, cov: Coverage) returns (roll: Roll)
    ensures roll.balances == Balances(bank, cov, Accounts(bank, cov), end)
    ensures roll.cash == if cov.complete && roll.balances != [] && None !in roll.balances
                         then Some(SumBy(roll.balances, OrZero())) else None
    ensures roll.subset == AnchoredSubset(roll.balances, roll.cash.Some?)
    ensures roll.totals == TotalsOf(Movements(bank, start, end),
                                    InternalIds(Movements(bank, start, end), cov.confirmed))
    ensures roll.daily == Daily(bank, cov, start, end, end)
    ensures start <= end ==> roll.daily != [] && roll.daily[|roll.daily| - 1].balance == roll.cash
  {
    var balances, cash, subset := CashOf(bank, cov, end);
    var ms := Movements(bank, start, end);
    var totals := PeriodTotals(ms, InternalIds(ms, cov.confirmed));
    var daily := DailyRoll(bank, cov, start, end, cash.Some?);
    if start <= end {
      LastDayEnds(bank, cov, start, end);
    }
    roll := Roll(balances, cash, subset, totals, daily);
  }

  // ----- consistency of the roll -----

  function DayIn(): Day -> int {
    (d: Day) => d.inflow
  }

  function DayOut(): Day -> int {
    (d: Day) => d.outflow
  }

  function DayNet(): Day -> int {
    (d: Day) => d.net
  }

  function DaysTo(start: int, last: int): seq<int>
    decreases last - start + 1
  {
    if last < start then [] else DaysTo(start, last - 1) + [last]
  }

  lemma {:induction false} DaysAreDistinct(start: int, last: int)
    ensures |DaysTo(start, last)| == (if last < start then 0 else last - start + 1)
    ensures forall i :: 0 <= i < |DaysTo(start, last)| ==> DaysTo(start, last)[i] == start + i
    ensures Distinct(DaysTo(start, last))
    decreases last - start + 1
  {
    if last >= start {
      DaysAreDistinct(start, last - 1);
    }
  }

  lemma {:induction false} DailySums(bank: seq<Row>, cov: Coverage, start: int, end: int, last: int)
    ensures
      var ms, days, daily := Movements(bank, start, end), DaysTo(start, last), Daily(bank, cov, start, end, last);
      && SumBy(daily, DayIn()) == SumBy(days, KeySum(ms, DateOf(), Inflow()))
      && SumBy(daily, DayOut()) == SumBy(days, KeySum(ms, DateOf(), Outflow()))
      && SumBy(daily, DayNet()) == SumBy(daily, DayIn()) - SumBy(daily, DayOut())
    decreases last - start + 1
  {
    if last >= start {
      var ms := Movements(bank, start, end);
      DailySums(bank, cov, start, end, last - 1);
      var daily, day := Daily(bank, cov, start, end, last - 1), DayOf(bank, cov, start, end, last);
      SumSnoc(daily, day, DayIn());
      SumSnoc(daily, day, DayOut());
      SumSnoc(daily, day, DayNet());
      SumSnoc(DaysTo(start, last - 1), last, KeySum(ms, DateOf(), Inflow()));
      SumSnoc(DaysTo(start, last - 1), last, KeySum(ms, DateOf(), Outflow()));
    }
  }

  lemma {:induction false} MovementsMove(bank: seq<Row>, start: int, end: int)
    ensures forall r :: r in Movements(bank, start, end) <==> r in bank && Moves(r, start, end)
    decreases |bank|
  {
    if bank != [] {
      MovementsMove(bank[..|bank| - 1], start, end);
      assert bank == bank[..|bank| - 1] + [bank[|bank| - 1]];
    }
  }

  lemma DayIsListed(start: int, last: int, d: int)
    requires start <= d <= last
    ensures d in DaysTo(start, last)
  {
    DaysAreDistinct(start, last);
    assert DaysTo(start, last)[d - start] == d;
  }

  lemma DaysCoverMovements(bank: seq<Row>, start: int, end: int, f: Row -> int)
    ensures SumBy(DaysTo(start, end), KeySum(Movements(bank, start, end), DateOf(), f))
        == SumBy(Movements(bank, start, end), f)
  {
    var ms := Movements(bank, start, end);
    DaysAreDistinct(start, end);
    MovementsMove(bank, start, end);
    forall i | 0 <= i < |ms| ensures DateOf()(ms[i]) in DaysTo(start, end) {
      assert ms[i] in ms;
      DayIsListed(start, end, ms[i].date);
    }
    SumByKeys(ms, DaysTo(start, end), DateOf(), f);
  }

  /** The days add up to the period, and internal transfers wash out of it. */
  lemma DaysAddUpToTotals(bank: seq<Row>, cov: Coverage, start: int, end: int)
    ensures
      var ms := Movements(bank, start, end);
      var t := TotalsOf(ms, InternalIds(ms, cov.confirmed));
      var daily := Daily(bank, cov, start, end, end);
      && SumBy(daily, DayIn()) == t.totalIn && SumBy(daily, DayOut()) == t.totalOut && SumBy(daily, DayNet()) == t.net
      && t.net == t.totalIn - t.totalOut
      && (DistinctIds(ms) ==> t.internalIn == t.internalOut && t.net == t.externalIn - t.externalOut)
  {
    var ms := Movements(bank, start, end);
    DailySums(bank, cov, start, end, end);
    DaysCoverMovements(bank, start, end, Inflow());
    DaysCoverMovements(bank, start, end, Outflow());
    SumLinear(ms, Inflow(), Outflow(), Value(), 1, -1);
    if DistinctIds(ms) {
      InternalLegsCancel(ms, cov.confirmed);
    }
  }

  // ----- day after day -----

  predicate NoAnchorOn(bank: seq<Row>, d: int) {
    forall r :: r in bank ==> !(r.kind.Anchor? && r.balance.Some? && r.date == d)
  }

  function MovedOn(d: int): Row -> int {
    (r: Row) => if !r.kind.Anchor? && r.date == d then r.amount else 0
  }

  lemma {:induction false} SameAnchor(rows: seq<Row>, d: int)
    requires NoAnchorOn(rows, d)
    ensures NewestAnchor(rows, d) == NewestAnchor(rows, d - 1)
    ensures NewestAnchor(rows, d - 1).0.Some? ==> NewestAnchor(rows, d - 1).0.value.date <= d - 1
    decreases |rows|
  {
    if rows != [] {
      assert rows[|rows| - 1] in rows;
      SameAnchor(rows[..|rows| - 1], d);
    }
  }

  /** On its own day an end-of-day anchor is the balance, and a start-of-day anchor is the
      balance before that day's movements. */
  lemma AnchorStatesItsBoundary(rows: seq<Row>, d: int, cov: Coverage)
    requires NewestAnchor(rows, d).0.Some? && NewestAnchor(rows, d).1 && NewestAnchor(rows, d).0.value.date == d
    ensures
      var anchor := NewestAnchor(rows, d).0.value;
      && (CutoffOf(anchor, cov).EndOfDay? ==> AccountBalance(rows, d, cov) == anchor.balance)
      && (CutoffOf(anchor, cov).StartOfDay? ==>
            AccountBalance(rows, d, cov) == Some(anchor.balance.value + SumBy(rows, MovedOn(d))))
  {
    var anchor := NewestAnchor(rows, d).0.value;
    SumPointwise(rows, rows, After(d, StartOfDay, d), MovedOn(d));
    SumZero(rows, After(d, EndOfDay, d));
  }

  lemma AccountRolls(rows: seq<Row>, d: int, cov: Coverage)
    requires NoAnchorOn(rows, d)
    ensures AccountBalance(rows, d, cov).Some? <==> AccountBalance(rows, d - 1, cov).Some?
    ensures AccountBalance(rows, d, cov).Some? ==>
      AccountBalance(rows, d, cov).value == AccountBalance(rows, d - 1, cov).value + SumBy(rows, MovedOn(d))
  {
    SameAnchor(rows, d);
    var (anchor, alone) := NewestAnchor(rows, d - 1);
    if anchor.Some? {
      var day, cutoff := anchor.value.date, CutoffOf(anchor.value, cov);
      SumLinear(rows, After(day, cutoff, d - 1), MovedOn(d), After(day, cutoff, d), 1, 1);
    }
  }

  lemma {:induction false} AccountRows(bank: seq<Row>, a: string, f: Row -> int)
    ensures forall r :: r in OfAccount(bank, a) ==> r in bank
    ensures SumBy(OfAccount(bank, a), f) == SumBy(bank, OfKey(AccountOf(), f, a))
    decreases |bank|
  {
    if bank != [] {
      var front, r := bank[..|bank| - 1], bank[|bank| - 1];
      AccountRows(front, a, f);
      if r.account == a {
        SumSnoc(OfAccount(front, a), r, f);
      } else {
        assert OfAccount(bank, a) == OfAccount(front, a);
      }
    }
  }

  lemma {:induction false} MovedIsNet(bank: seq<Row>, start: int, end: int, d: int)
    requires start <= d <= end
    ensures SumBy(bank, MovedOn(d)) == SumBy(Movements(bank, start, end), OfKey(DateOf(), Inflow(), d))
                                     - SumBy(Movements(bank, start, end), OfKey(DateOf(), Outflow(), d))
    decreases |bank|
  {
    if bank != [] {
      var front, r := bank[..|bank| - 1], bank[|bank| - 1];
      MovedIsNet(front, start, end, d);
      if Moves(r, start, end) {
        SumSnoc(Movements(front, start, end), r, OfKey(DateOf(), Inflow(), d));
        SumSnoc(Movements(front, start, end), r, OfKey(DateOf(), Outflow(), d));
      } else {
        assert Movements(bank, start, end) == Movements(front, start, end);
      }
    }
  }

  lemma {:induction false} TotalRolls(bank: seq<Row>, cov: Coverage, names: seq<string>, d: int)
    requires NoAnchorOn(bank, d)
    ensures TotalBalance(bank, cov, names, d).Some? <==> TotalBalance(bank, cov, names, d - 1).Some?
    ensures TotalBalance(bank, cov, names, d).Some? ==>
      TotalBalance(bank, cov, names, d).value
        == TotalBalance(bank, cov, names, d - 1).value + SumBy(names, KeySum(bank, AccountOf(), MovedOn(d)))
    decreases |names|
  {
    if names != [] {
      var front, a := names[..|names| - 1], names[|names| - 1];
      TotalRolls(bank, cov, front, d);
      AccountRows(bank, a, MovedOn(d));
      AccountRolls(OfAccount(bank, a), d, cov);
      TotalSnoc(Balances(bank, cov, front, d), AccountBalance(OfAccount(bank, a), d, cov));
      TotalSnoc(Balances(bank, cov, front, d - 1), AccountBalance(OfAccount(bank, a), d - 1, cov));
    }
  }

  lemma AccountsCover(bank: seq<Row>, cov: Coverage, f: Row -> int)
    ensures SumBy(Accounts(bank, cov), KeySum(bank, AccountOf(), f)) == SumBy(bank, f)
  {
    forall i | 0 <= i < |bank| ensures AccountOf()(bank[i]) in Accounts(bank, cov) {
      assert AccountNames(bank)[i] == bank[i].account;
      assert bank[i].account in AccountNames(bank) + cov.accounts;
    }
    SumByKeys(bank, Accounts(bank, cov), AccountOf(), f);
  }

  /** Without an anchor that day, a day's balance is known exactly when the previous day's is,
      and then it is the previous balance plus the day's net. */
  lemma BalanceRollsForward(bank: seq<Row>, cov: Coverage, start: int, end: int, d: int)
    requires start <= d <= end && NoAnchorOn(bank, d)
    ensures BalanceOfDay(bank, cov, end, d).Some? <==> BalanceOfDay(bank, cov, end, d - 1).Some?
    ensures BalanceOfDay(bank, cov, end, d).Some? ==>
      BalanceOfDay(bank, cov, end, d).value
      == BalanceOfDay(bank, cov, end, d - 1).value + DayOf(bank, cov, start, end, d).net
  {
    TotalRolls(bank, cov, Accounts(bank, cov), d);
    AccountsCover(bank, cov, MovedOn(d));
    MovedIsNet(bank, start, end, d);
  }

  // ----- across an anchor -----

  /** What the carried balance has to be for that day's anchor to say nothing new. */
  function Carried(rows: seq<Row>, d: int, cov: Coverage, anchor: Row): Option<int> {
    var before := AccountBalance(rows, d - 1, cov);
    if before.None? then None
    else if CutoffOf(anchor, cov).EndOfDay? then Some(before.value + SumBy(rows, MovedOn(d)))
    else before
  }

  /** What a day's anchor moves an account by, beyond the day's movements. */
  function Correction(rows: seq<Row>, d: int, cov: Coverage): int {
    var anchor := NewestAnchor(rows, d).0;
    if anchor.None? || anchor.value.date != d || AccountBalance(rows, d - 1, cov).None? then 0
    else anchor.value.balance.value - Carried(rows, d, cov, anchor.value).value
  }

  lemma {:induction false} NewestIsLatest(rows: seq<Row>, d: int)
    ensures forall r :: r in rows && Anchors(r, d) ==>
      NewestAnchor(rows, d).0.Some? && r.date <= NewestAnchor(rows, d).0.value.date
    decreases |rows|
  {
    if rows != [] {
      NewestIsLatest(rows[..|rows| - 1], d);
      assert rows == rows[..|rows| - 1] + [rows[|rows| - 1]];
    }
  }

  /** An account whose balance is known on two days in a row moves by its movements and by what
      the second day's anchor corrects. */
  lemma {:induction false} AccountMoves(rows: seq<Row>, d: int, cov: Coverage)
    requires AccountBalance(rows, d, cov).Some? && AccountBalance(rows, d - 1, cov).Some?
    ensures AccountBalance(rows, d, cov).value
         == AccountBalance(rows, d - 1, cov).value + SumBy(rows, MovedOn(d)) + Correction(rows, d, cov)
  {
    NewestIsLatest(rows, d);
    if NewestAnchor(rows, d).0.value.date == d {
      AnchorStatesItsBoundary(rows, d, cov);
    } else {
      assert NoAnchorOn(rows, d);
      AccountRolls(rows, d, cov);
    }
  }

  /** Across a day with one anchor, the account is carried forward as on any other day if and
      only if the anchor states the balance carried up to its boundary. */
  lemma {:induction false} AnchorContinuesExactly(rows: seq<Row>, d: int, cov: Coverage)
    requires NewestAnchor(rows, d).0.Some? && NewestAnchor(rows, d).1 && NewestAnchor(rows, d).0.value.date == d
    requires !CutoffOf(NewestAnchor(rows, d).0.value, cov).OtherCutoff? && AccountBalance(rows, d - 1, cov).Some?
    ensures
      var anchor := NewestAnchor(rows, d).0.value;
      AccountBalance(rows, d, cov) == Some(AccountBalance(rows, d - 1, cov).value + SumBy(rows, MovedOn(d)))
      <==> anchor.balance == Carried(rows, d, cov, anchor)
  {
    AccountMoves(rows, d, cov);
  }

  function CorrectionOf(bank: seq<Row>, cov: Coverage, d: int): string -> int {
    (a: string) => Correction(OfAccount(bank, a), d, cov)
  }

  lemma {:induction false} TotalMoves(bank: seq<Row>, cov: Coverage, names: seq<string>, d: int)
    requires TotalBalance(bank, cov, names, d).Some? && TotalBalance(bank, cov, names, d - 1).Some?
    ensures TotalBalance(bank, cov, names, d).value
         == TotalBalance(bank, cov, names, d - 1).value + SumBy(names, KeySum(bank, AccountOf(), MovedOn(d)))
          + SumBy(names, CorrectionOf(bank, cov, d))
    decreases |names|
  {
    if names != [] {
      var front, a := names[..|names| - 1], names[|names| - 1];
      TotalSnoc(Balances(bank, cov, front, d), AccountBalance(OfAccount(bank, a), d, cov));
      TotalSnoc(Balances(bank, cov, front, d - 1), AccountBalance(OfAccount(bank, a), d - 1, cov));
      TotalMoves(bank, cov, front, d);
      AccountRows(bank, a, MovedOn(d));
      AccountMoves(OfAccount(bank, a), d, cov);
    }
  }

  /** Between any two days in a row with known balances, anchors or not: the balance moves by
      the day's net and by what the accounts' anchors correct, and by nothing else. */
  lemma {:induction false} BalanceMovesByNetAndCorrections(bank: seq<Row>, cov: Coverage, start: int, end: int, d: int)
    requires start <= d <= end
    requires BalanceOfDay(bank, cov, end, d).Some? && BalanceOfDay(bank, cov, end, d - 1).Some?
    ensures BalanceOfDay(bank, cov, end, d).value
         == BalanceOfDay(bank, cov, end, d - 1).value + DayOf(bank, cov, start, end, d).net
          + SumBy(Accounts(bank, cov), CorrectionOf(bank, cov, d))
  {
    TotalMoves(bank, cov, Accounts(bank, cov), d);
    AccountsCover(bank, cov, MovedOn(d));
    MovedIsNet(bank, start, end, d);
  }

  // ----- over a stretch -----

  function BalanceAt(bank: seq<Row>, cov: Coverage, end: int): int -> Option<int> {
    (d: int) => BalanceOfDay(bank, cov, end, d)
  }

  function NetOn(bank: seq<Row>, cov: Coverage, start: int, end: int): int -> int {
    (d: int) => DayOf(bank, cov, start, end, d).net
  }

  /** The net of the days after `first`, up to `last`. */
  function NetAfter(net: int -> int, first: int, last: int): int
    decreases last - first
  {
    if last <= first then 0 else NetAfter(net, first, last - 1) + net(last)
  }

  ghost predicate NoAnchorBetween(bank: seq<Row>, first: int, last: int) {
    forall d :: first < d <= last ==> NoAnchorOn(bank, d)
  }

  /** A known balance moves by the next day's net. */
  predicate Rolls(balance: int -> Option<int>, net: int -> int, d: int) {
    balance(d - 1).Some? ==> balance(d) == Some(balance(d - 1).value + net(d))
  }

  /** Balances that move by each day's net move by the stretch's net. */
  lemma {:induction false} RollsOver(balance: int -> Option<int>, net: int -> int, first: int, last: int)
    requires first <= last && forall d :: first < d <= last ==> Rolls(balance, net, d)
    ensures Carries(balance, net, first, last)
    decreases last - first
  {
    if first < last {
      RollsOver(balance, net, first, last - 1);
      assert Rolls(balance, net, last);
    }
  }

  lemma AppliedAt(bank: seq<Row>, cov: Coverage, start: int, end: int, d: int)
    ensures BalanceAt(bank, cov, end)(d) == BalanceOfDay(bank, cov, end, d)
    ensures NetOn(bank, cov, start, end)(d) == DayOf(bank, cov, start, end, d).net
  {}

  lemma RollsAsValues(balance: int -> Option<int>, net: int -> int, d: int, was: Option<int>, now: Option<int>, n: int)
    requires balance(d - 1) == was && balance(d) == now && net(d) == n
    requires (was.Some? <==> now.Some?) && (now.Some? ==> now.value == was.value + n)
    ensures Rolls(balance, net, d)
  {}

  lemma DayRolls(bank: seq<Row>, cov: Coverage, start: int, end: int, d: int)
    requires start <= d <= end && NoAnchorOn(bank, d)
    ensures Rolls(BalanceAt(bank, cov, end), NetOn(bank, cov, start, end), d)
  {
    BalanceRollsForward(bank, cov, start, end, d);
    AppliedAt(bank, cov, start, end, d - 1);
    AppliedAt(bank, cov, start, end, d);
    RollsAsValues(BalanceAt(bank, cov, end), NetOn(bank, cov, start, end), d, BalanceOfDay(bank, cov, end, d - 1),
                  BalanceOfDay(bank, cov, end, d), DayOf(bank, cov, start, end, d).net);
  }

  lemma {:induction false} EveryDayRolls(bank: seq<Row>, cov: Coverage, start: int, end: int, first: int, last: int)
    requires start <= first <= last <= end && NoAnchorBetween(bank, first, last)
    ensures forall d :: first < d <= last ==> Rolls(BalanceAt(bank, cov, end), NetOn(bank, cov, start, end), d)
  {
    forall d | first < d <= last ensures Rolls(BalanceAt(bank, cov, end), NetOn(bank, cov, start, end), d) {
      assert NoAnchorOn(bank, d);
      DayRolls(bank, cov, start, end, d);
    }
  }

  /** The closing balance is the opening one plus the stretch's net. */
  predicate Carries(balance: int -> Option<int>, net: int -> int, first: int, last: int) {
    balance(first).Some? ==> balance(last) == Some(balance(first).value + NetAfter(net, first, last))
  }

  /** Over any stretch of the period without anchors, the balance is carried forward. */
  lemma {:induction false} BalanceRollsOver(bank: seq<Row>, cov: Coverage, start: int, end: int, first: int, last: int)
    requires start <= first <= last <= end && NoAnchorBetween(bank, first, last)
    ensures Carries(BalanceAt(bank, cov, end), NetOn(bank, cov, start, end), first, last)
  {
    EveryDayRolls(bank, cov, start, end, first, last);
    RollsOver(BalanceAt(bank, cov, end), NetOn(bank, cov, start, end), first, last);
  }
}
