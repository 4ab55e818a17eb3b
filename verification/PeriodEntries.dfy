/** Closing and opening drafts of the native book, and the rule every draft must meet.
    Money is in 10^-6 IRR; a stored field holds less than 10^32 IRR. */
module PeriodEntries {
  import opened Options
  import opened Sums

  datatype Unit = Irr | Toman

  datatype Pair = Pair(account: string, party: string)
  datatype Line = Line(pair: Pair, debit: int, credit: int)
  datatype Balance = Balance(pair: Pair, value: int)

  const MONEY_LIMIT := 100_000_000_000_000_000_000_000_000_000_000_000_000  // 10^32 IRR

  predicate Storable(v: int) {
    -MONEY_LIMIT < v < MONEY_LIMIT
  }

  // ----- the acceptance rule -----

  function Factor(unit: Unit): int {
    if unit.Toman? then 10 else 1
  }

  predicate OneSided(l: Line, unit: Unit) {
    && l.debit >= 0 && l.credit >= 0 && (l.debit > 0 <==> l.credit == 0)
    && Storable(l.debit * Factor(unit)) && Storable(l.credit * Factor(unit))
  }

  function Debit(): Line -> int {
    (l: Line) => l.debit
  }

  function Credit(): Line -> int {
    (l: Line) => l.credit
  }

  function Net(): Line -> int {
    (l: Line) => l.debit - l.credit
  }

  function PairOf(): Line -> Pair {
    (l: Line) => l.pair
  }

  /** Two to two hundred one-sided lines with equal totals. */
  predicate Acceptable(lines: seq<Line>, unit: Unit) {
    && 2 <= |lines| <= 200
    && (forall l :: l in lines ==> OneSided(l, unit))
    && SumBy(lines, Debit()) == SumBy(lines, Credit())
  }

  function LineInIrr(l: Line, unit: Unit): Line {
    l.(debit := l.debit * Factor(unit), credit := l.credit * Factor(unit))
  }

  function InIrr(lines: seq<Line>, unit: Unit): seq<Line> {
    seq(|lines|, i requires 0 <= i < |lines| => LineInIrr(lines[i], unit))
  }

  lemma InIrrPrefix(lines: seq<Line>, i: nat, unit: Unit)
    requires i < |lines|
    ensures InIrr(lines[..i + 1], unit) == InIrr(lines[..i], unit) + [LineInIrr(lines[i], unit)]
    ensures Factor(unit) * SumBy(lines[..i + 1], Debit())
        == Factor(unit) * SumBy(lines[..i], Debit()) + LineInIrr(lines[i], unit).debit
    ensures Factor(unit) * SumBy(lines[..i + 1], Credit())
        == Factor(unit) * SumBy(lines[..i], Credit()) + LineInIrr(lines[i], unit).credit
  {
    SumPrefix(lines, i, Debit());
    SumPrefix(lines, i, Credit());
  }

  /** `validate_lines`: the canonical lines, or None. */
  method ValidateLines(lines: seq<Line>, unit: Unit) returns (canonical: Option<seq<Line>>)
    ensures canonical.Some? <==> Acceptable(lines, unit)
    ensures canonical.Some? ==> canonical.value == InIrr(lines, unit) && Acceptable(canonical.value, Irr)
  {
    if !(2 <= |lines| <= 200) {
      return None;
    }
    var result: seq<Line> := [];
    var debits, credits, i := 0, 0, 0;
    while i < |lines|
      invariant 0 <= i <= |lines| && result == InIrr(lines[..i], unit)
      invariant debits == Factor(unit) * SumBy(lines[..i], Debit())
          && credits == Factor(unit) * SumBy(lines[..i], Credit())
      invariant debits == SumBy(result, Debit()) && credits == SumBy(result, Credit())
      invariant forall j :: 0 <= j < i ==> OneSided(lines[j], unit)
    {
      var l := lines[i];
      if !OneSided(l, unit) {
        assert l in lines;
        return None;
      }
      InIrrPrefix(lines, i, unit);
      var c := LineInIrr(l, unit);
      SumSnoc(result, c, Debit());
      SumSnoc(result, c, Credit());
      debits, credits := debits + c.debit, credits + c.credit;
      result := result + [c];
      i := i + 1;
    }
    assert lines[..i] == lines;
    if debits != credits {
      return None;
    }
    canonical := Some(result);
  }

  /** Over the lines' own figures: each debits or credits, not both and not neither, less than
      10^32 rials; a toman is ten of them. */
  predicate MovesOneWay(l: Line, rials: int) {
    || (l.debit == 0 && 0 < l.credit && l.credit * rials < MONEY_LIMIT)
    || (l.credit == 0 && 0 < l.debit && l.debit * rials < MONEY_LIMIT)
  }

  /** Lines are accepted exactly when there are two to two hundred of them, each moves one way,
      and debits and credits cancel; they are then stored in rials. */
  lemma {:induction false} AcceptableExactly(lines: seq<Line>, unit: Unit)
    ensures
      var rials := if unit == Toman then 10 else 1;
      && (Acceptable(lines, unit) <==>
            && 2 <= |lines| <= 200 && SumBy(lines, Net()) == 0
            && forall i :: 0 <= i < |lines| ==> MovesOneWay(lines[i], rials))
      && |InIrr(lines, unit)| == |lines|
      && forall i :: 0 <= i < |lines| ==>
           InIrr(lines, unit)[i] == Line(lines[i].pair, lines[i].debit * rials, lines[i].credit * rials)
  {
    var rials := if unit == Toman then 10 else 1;
    NetSplits(lines);
    forall l: Line ensures OneSided(l, unit) <==> MovesOneWay(l, rials) {}
    if Acceptable(lines, unit) {
      forall i | 0 <= i < |lines| ensures MovesOneWay(lines[i], rials) { assert lines[i] in lines; }
    }
  }

  // ----- trial balance -----

  function PairBalance(lines: seq<Line>): Pair -> int {
    KeySum(lines, PairOf(), Net())
  }

  function TrialBalance(lines: seq<Line>): seq<Balance> {
    var pairs := KeysOf(lines, PairOf());
    seq(|pairs|, i requires 0 <= i < |pairs| => Balance(pairs[i], PairBalance(lines)(pairs[i])))
  }

  /** `trial_balance` (and `_journal_balances`) over the lines of a period's journals. */
  method Trial(lines: seq<Line>) returns (rows: seq<Balance>)
    ensures rows == TrialBalance(lines)
  {
    var pairs, totals := GroupTotals(lines, PairOf(), Net());
    rows := [];
    var i := 0;
    while i < |pairs|
      invariant 0 <= i <= |pairs| && rows == TrialBalance(lines)[..i]
    {
      var row := Balance(pairs[i], totals[pairs[i]]);
      assert pairs[i] in pairs && totals[pairs[i]] == PairBalance(lines)(pairs[i]);
      assert KeysOf(lines, PairOf())[i] == pairs[i];
      assert TrialBalance(lines)[i] == row;
      assert TrialBalance(lines)[..i + 1] == TrialBalance(lines)[..i] + [row];
      rows := rows + [row];
      i := i + 1;
    }
  }

  // ----- drafts -----

  function Pos(v: int): int {
    if v > 0 then v else 0
  }

  /** The line that moves a balance by `v`: a debit when positive, a credit when negative. */
  function Moving(pair: Pair, v: int): Line {
    Line(pair, Pos(v), Pos(-v))
  }

  predicate Chosen(b: Balance, accounts: set<string>) {
    b.pair.account in accounts && b.value != 0
  }

  function Selected(accounts: set<string>): Balance -> int {
    (b: Balance) => if b.pair.account in accounts then b.value else 0
  }

  /** One line per chosen balance: `sign` 1 carries it over, -1 zeroes it. */
  function Moves(rows: seq<Balance>, accounts: set<string>, sign: int): seq<Line> {
    if rows == [] then []
    else
      var b := rows[|rows| - 1];
      Moves(rows[..|rows| - 1], accounts, sign) + (if Chosen(b, accounts) then [Moving(b.pair, sign * b.value)] else [])
  }

  datatype Refusal = AmountLimit | Empty | LineLimit
  datatype Draft = Refused(why: Refusal) | Drafted(lines: seq<Line>)

  predicate AllStorable(rows: seq<Balance>, accounts: set<string>) {
    forall b :: b in rows && Chosen(b, accounts) ==> Storable(b.value)
  }

  function Checked(lines: seq<Line>): Draft {
    if lines == [] then Refused(Empty) else if |lines| > 200 then Refused(LineLimit) else Drafted(lines)
  }

  function ClosingLines(rows: seq<Balance>, accounts: set<string>, result: string): seq<Line> {
    var net := SumBy(rows, Selected(accounts));
    Moves(rows, accounts, -1) + (if net != 0 then [Moving(Pair(result, ""), net)] else [])
  }

  function Closing(rows: seq<Balance>, accounts: set<string>, result: string): Draft {
    if !AllStorable(rows, accounts) || !Storable(SumBy(rows, Selected(accounts))) then Refused(AmountLimit)
    else Checked(ClosingLines(rows, accounts, result))
  }

  function Opening(rows: seq<Balance>, accounts: set<string>): Draft {
    if !AllStorable(rows, accounts) then Refused(AmountLimit) else Checked(Moves(rows, accounts, 1))
  }

  lemma MovesNext(rows: seq<Balance>, i: nat, accounts: set<string>, sign: int)
    requires i < |rows|
    ensures Moves(rows[..i + 1], accounts, sign)
         == Moves(rows[..i], accounts, sign)
          + (if Chosen(rows[i], accounts) then [Moving(rows[i].pair, sign * rows[i].value)] else [])
  {
    assert rows[..i + 1][..i] == rows[..i];
  }

  /** `create_closing`: reverse every selected balance, then take their net to the result. */
  method CreateClosing(rows: seq<Balance>, accounts: set<string>, result: string) returns (d: Draft)
    ensures d == Closing(rows, accounts, result)
  {
    var lines: seq<Line> := [];
    var net, i := 0, 0;
    while i < |rows|
      invariant 0 <= i <= |rows| && lines == Moves(rows[..i], accounts, -1)
      invariant net == SumBy(rows[..i], Selected(accounts))
      invariant forall j :: 0 <= j < i && Chosen(rows[j], accounts) ==> Storable(rows[j].value)
    {
      var b := rows[i];
      SumPrefix(rows, i, Selected(accounts));
      MovesNext(rows, i, accounts, -1);
      if b.pair.account in accounts && b.value != 0 {
        if !Storable(b.value) {
          assert b in rows;
          return Refused(AmountLimit);
        }
        net := net + b.value;
        lines := lines + [Line(b.pair, if b.value < 0 then -b.value else 0, if b.value > 0 then b.value else 0)];
      }
      i := i + 1;
    }
    assert rows[..i] == rows;
    if net != 0 {
      if !Storable(net) {
        return Refused(AmountLimit);
      }
      lines := lines + [Line(Pair(result, ""), if net > 0 then net else 0, if net < 0 then -net else 0)];
    }
    d := Checked(lines);
  }

  /** `create_opening`: carry every selected balance over. */
  method CreateOpening(rows: seq<Balance>, accounts: set<string>) returns (d: Draft)
    ensures d == Opening(rows, accounts)
  {
    var lines: seq<Line> := [];
    var i := 0;
    while i < |rows|
      invariant 0 <= i <= |rows| && lines == Moves(rows[..i], accounts, 1)
      invariant forall j :: 0 <= j < i && Chosen(rows[j], accounts) ==> Storable(rows[j].value)
    {
      var b := rows[i];
      MovesNext(rows, i, accounts, 1);
      if b.pair.account in accounts && b.value != 0 {
        if !Storable(b.value) {
          assert b in rows;
          return Refused(AmountLimit);
        }
        lines := lines + [Line(b.pair, if b.value > 0 then b.value else 0, if b.value < 0 then -b.value else 0)];
      }
      i := i + 1;
    }
    assert rows[..i] == rows;
    d := Checked(lines);
  }

  // ----- what the drafts do -----

  function At(rows: seq<Balance>, pair: Pair): int
  {
    if rows == [] then 0
    else
      var b := rows[|rows| - 1];
      At(rows[..|rows| - 1], pair) + (if b.pair == pair then b.value else 0)
  }

  /** The lines move exactly the chosen balances, pair by pair, and in total. */
  lemma {:induction false} MovesMove(rows: seq<Balance>, accounts: set<string>, sign: int, pair: Pair)
    requires sign == 1 || sign == -1
    requires AllStorable(rows, accounts)
    ensures PairBalance(Moves(rows, accounts, sign))(pair)
         == if pair.account in accounts then sign * At(rows, pair) else 0
    ensures SumBy(Moves(rows, accounts, sign), Net()) == sign * SumBy(rows, Selected(accounts))
    ensures forall l :: l in Moves(rows, accounts, sign) ==> OneSided(l, Irr)
    decreases |rows|
  {
    if rows != [] {
      var front, b := rows[..|rows| - 1], rows[|rows| - 1];
      assert AllStorable(front, accounts) && (Chosen(b, accounts) ==> Storable(b.value)) by { assert b in rows; }
      MovesMove(front, accounts, sign, pair);
      if Chosen(b, accounts) {
        var l := Moving(b.pair, sign * b.value);
        SumSnoc(Moves(front, accounts, sign), l, OfKey(PairOf(), Net(), pair));
        SumSnoc(Moves(front, accounts, sign), l, Net());
      } else {
        assert Moves(rows, accounts, sign) == Moves(front, accounts, sign);
      }
    }
  }

  lemma NetSplits(lines: seq<Line>)
    ensures SumBy(lines, Net()) == SumBy(lines, Debit()) - SumBy(lines, Credit())
  {
    SumLinear(lines, Debit(), Credit(), Net(), 1, -1);
  }

  /** One chosen balance has a non-zero net, so its closing has a second line. */
  lemma {:induction false} LoneMoveHasNet(rows: seq<Balance>, accounts: set<string>, sign: int)
    ensures |Moves(rows, accounts, sign)| == 0 ==> SumBy(rows, Selected(accounts)) == 0
    ensures |Moves(rows, accounts, sign)| == 1 ==> SumBy(rows, Selected(accounts)) != 0
    decreases |rows|
  {
    if rows != [] {
      LoneMoveHasNet(rows[..|rows| - 1], accounts, sign);
    }
  }

  /** Every draft the closing builds passes the acceptance rule. */
  lemma ClosingDraftIsAcceptable(rows: seq<Balance>, accounts: set<string>, result: string)
    requires Closing(rows, accounts, result).Drafted?
    ensures Acceptable(Closing(rows, accounts, result).lines, Irr)
  {
    var moves, lines := Moves(rows, accounts, -1), ClosingLines(rows, accounts, result);
    var net := SumBy(rows, Selected(accounts));
    MovesMove(rows, accounts, -1, Pair(result, ""));
    LoneMoveHasNet(rows, accounts, -1);
    if net != 0 {
      SumSnoc(moves, Moving(Pair(result, ""), net), Net());
    } else {
      assert lines == moves;
    }
    NetSplits(lines);
  }

  lemma {:induction false} AtTrialBalance(lines: seq<Line>, pair: Pair)
    ensures At(TrialBalance(lines), pair) == PairBalance(lines)(pair)
  {
    var rows, pairs := TrialBalance(lines), KeysOf(lines, PairOf());
    KeysListed(lines, PairOf());
    forall i, j | 0 <= i < j < |rows| ensures rows[i].pair != rows[j].pair {
      assert pairs[i] != pairs[j];
    }
    if pair in pairs {
      var at :| 0 <= at < |pairs| && pairs[at] == pair;
      assert rows[at].pair == pair;
      AtIndex(rows, at);
    } else {
      AbsentKeySum(lines, PairOf(), Net(), pair);
      forall i | 0 <= i < |rows| ensures rows[i].pair != pair { assert pairs[i] in pairs; }
      AtAbsent(rows, pair);
    }
  }

  lemma {:induction false} AtAbsent(rows: seq<Balance>, pair: Pair)
    requires forall i :: 0 <= i < |rows| ==> rows[i].pair != pair
    ensures At(rows, pair) == 0
    decreases |rows|
  {
    if rows != [] {
      AtAbsent(rows[..|rows| - 1], pair);
    }
  }

  lemma {:induction false} AtIndex(rows: seq<Balance>, at: nat)
    requires at < |rows| && forall i, j :: 0 <= i < j < |rows| ==> rows[i].pair != rows[j].pair
    ensures At(rows, rows[at].pair) == rows[at].value
    decreases |rows|
  {
    if at == |rows| - 1 {
      AtAbsent(rows[..at], rows[at].pair);
    } else {
      AtIndex(rows[..|rows| - 1], at);
    }
  }

  /** Posting the closing zeroes every selected pair, moves exactly their net to the result
      account, and leaves every other balance of the period as it was. */
  lemma PostedClosingZeroesSelection(lines: seq<Line>, accounts: set<string>, result: string, pair: Pair)
    requires result !in accounts && Closing(TrialBalance(lines), accounts, result).Drafted?
    ensures
      var after := lines + Closing(TrialBalance(lines), accounts, result).lines;
      PairBalance(after)(pair) ==
        if pair.account in accounts then 0
        else if pair == Pair(result, "") then PairBalance(lines)(pair) + SumBy(TrialBalance(lines), Selected(accounts))
        else PairBalance(lines)(pair)
  {
    var rows := TrialBalance(lines);
    var moves, net := Moves(rows, accounts, -1), SumBy(TrialBalance(lines), Selected(accounts));
    var weight := OfKey(PairOf(), Net(), pair);
    MovesMove(rows, accounts, -1, pair);
    AtTrialBalance(lines, pair);
    SumConcat(lines, ClosingLines(rows, accounts, result), weight);
    if net != 0 {
      SumSnoc(moves, Moving(Pair(result, ""), net), weight);
    } else {
      assert ClosingLines(rows, accounts, result) == moves;
    }
  }

  /** Carried-over balances reproduce the source pair by pair; the draft is accepted exactly
      when the balances it selects cancel. */
  lemma OpeningReproducesSelection(lines: seq<Line>, accounts: set<string>, pair: Pair)
    requires Opening(TrialBalance(lines), accounts).Drafted?
    ensures
      var opening := Opening(TrialBalance(lines), accounts).lines;
      && PairBalance(opening)(pair) == (if pair.account in accounts then PairBalance(lines)(pair) else 0)
      && (Acceptable(opening, Irr) <==> SumBy(TrialBalance(lines), Selected(accounts)) == 0)
  {
    var rows := TrialBalance(lines);
    MovesMove(rows, accounts, 1, pair);
    AtTrialBalance(lines, pair);
    LoneMoveHasNet(rows, accounts, 1);
    NetSplits(Moves(rows, accounts, 1));
  }

  // ----- when a draft is made -----

  function NonZeroIn(accounts: set<string>): Balance -> int {
    (b: Balance) => if b.pair.account in accounts && b.value != 0 then 1 else 0
  }

  lemma {:induction false} MovesCount(rows: seq<Balance>, accounts: set<string>, sign: int)
    ensures |Moves(rows, accounts, sign)| == SumBy(rows, NonZeroIn(accounts))
    decreases |rows|
  {
    if rows != [] {
      MovesCount(rows[..|rows| - 1], accounts, sign);
    }
  }

  /** Every selected balance can be stored. */
  predicate Fits(rows: seq<Balance>, accounts: set<string>) {
    forall b :: b in rows && b.pair.account in accounts ==> -MONEY_LIMIT < b.value < MONEY_LIMIT
  }

  /** A closing is refused exactly when an amount or the net cannot be stored, nothing is to be
      closed, or it would take more than 200 lines: one per non-zero selected balance, and one
      more when their net is not zero. */
  lemma {:induction false} ClosingIsRefusedExactly(rows: seq<Balance>, accounts: set<string>, result: string)
    ensures
      var net := SumBy(rows, Selected(accounts));
      var lines := SumBy(rows, NonZeroIn(accounts)) + (if net != 0 then 1 else 0);
      var d := Closing(rows, accounts, result);
      if !Fits(rows, accounts) || !(-MONEY_LIMIT < net < MONEY_LIMIT) then d == Refused(AmountLimit)
      else if lines == 0 then d == Refused(Empty)
      else if lines > 200 then d == Refused(LineLimit)
      else d.Drafted? && |d.lines| == lines
  {
    MovesCount(rows, accounts, -1);
    assert AllStorable(rows, accounts) <==> Fits(rows, accounts);
  }

  /** An opening likewise, one line per non-zero selected balance. */
  lemma {:induction false} OpeningIsRefusedExactly(rows: seq<Balance>, accounts: set<string>)
    ensures
      var lines, d := SumBy(rows, NonZeroIn(accounts)), Opening(rows, accounts);
      if !Fits(rows, accounts) then d == Refused(AmountLimit)
      else if lines == 0 then d == Refused(Empty)
      else if lines > 200 then d == Refused(LineLimit)
      else d.Drafted? && |d.lines| == lines
  {
    MovesCount(rows, accounts, 1);
    assert AllStorable(rows, accounts) <==> Fits(rows, accounts);
  }

  // ----- complete opening scope -----

  /** `missing_account_ids` of the opening evidence. */
  function Missing(rows: seq<Balance>, accounts: set<string>): set<string> {
    (set b | b in rows && b.value != 0 :: b.pair.account) - accounts
  }

  /** An account is missing exactly when it has a non-zero balance and was not selected. */
  lemma MissingExactly(rows: seq<Balance>, accounts: set<string>, account: string)
    ensures account in Missing(rows, accounts) <==>
      account !in accounts && exists i :: 0 <= i < |rows| && rows[i].pair.account == account && rows[i].value != 0
  {
    if account in Missing(rows, accounts) {
      var b :| b in rows && b.value != 0 && b.pair.account == account;
      var i :| 0 <= i < |rows| && rows[i] == b;
    }
    if exists i :: 0 <= i < |rows| && rows[i].pair.account == account && rows[i].value != 0 {
      var i :| 0 <= i < |rows| && rows[i].pair.account == account && rows[i].value != 0;
      assert rows[i] in rows;
    }
  }

  function Value(): Balance -> int {
    (b: Balance) => b.value
  }

  lemma TrialTotal(lines: seq<Line>)
    ensures SumBy(TrialBalance(lines), Value()) == SumBy(lines, Net())
  {
    var pairs := KeysOf(lines, PairOf());
    KeysListed(lines, PairOf());
    SumPointwise(TrialBalance(lines), pairs, Value(), PairBalance(lines));
    SumByKeys(lines, pairs, PairOf(), Net());
  }

  /** From balanced journals, an opening that leaves no non-zero account out balances by itself
      and reproduces every balance of the source period, whichever accounts it names. */
  lemma CompleteOpeningBalances(lines: seq<Line>, accounts: set<string>, pair: Pair)
    requires SumBy(lines, Debit()) == SumBy(lines, Credit())
    requires Missing(TrialBalance(lines), accounts) == {}
    requires Opening(TrialBalance(lines), accounts).Drafted?
    ensures
      var opening := Opening(TrialBalance(lines), accounts).lines;
      Acceptable(opening, Irr) && PairBalance(opening)(pair) == PairBalance(lines)(pair)
  {
    var rows := TrialBalance(lines);
    forall i | 0 <= i < |rows| ensures Selected(accounts)(rows[i]) == Value()(rows[i]) {
      if rows[i].value != 0 && rows[i].pair.account !in accounts {
        assert rows[i] in rows;
        assert rows[i].pair.account in Missing(rows, accounts);
      }
    }
    SumPointwise(rows, rows, Selected(accounts), Value());
    TrialTotal(lines);
    NetSplits(lines);
    OpeningReproducesSelection(lines, accounts, pair);
    AtTrialBalance(lines, pair);
    if pair.account !in accounts {
      AtOutside(rows, accounts, pair);
    }
  }

  lemma {:induction false} AtOutside(rows: seq<Balance>, accounts: set<string>, pair: Pair)
    requires Missing(rows, accounts) == {} && pair.account !in accounts
    ensures At(rows, pair) == 0
    decreases |rows|
  {
    if rows != [] {
      var front, b := rows[..|rows| - 1], rows[|rows| - 1];
      assert b in rows;
      assert b.value != 0 && b.pair.account !in accounts ==> b.pair.account in Missing(rows, accounts);
      assert Missing(front, accounts) <= Missing(rows, accounts);
      AtOutside(front, accounts, pair);
    }
  }

  // ----- is a closing or opening already active? -----

  type JournalId = string

  /** The journal `n` replacements after `j`. */
  function Replacement(next: map<JournalId, JournalId>, j: JournalId, n: nat): Option<JournalId> {
    if n == 0 then Some(j)
    else
      var p := Replacement(next, j, n - 1);
      if p.None? || p.value !in next then None else Some(next[p.value])
  }

  /** Some journal of the correction chain that starts at `first` stands. */
  ghost predicate ChainStands(next: map<JournalId, JournalId>, reversed: set<JournalId>, first: JournalId) {
    exists n: nat :: Replacement(next, first, n).Some? && Replacement(next, first, n).value !in reversed
  }

  /** One posted draft's correction chain. */
  method ChainActive(next: map<JournalId, JournalId>, reversed: set<JournalId>, first: JournalId)
    returns (active: bool)
    ensures active <==> ChainStands(next, reversed, first)
  {
    var cursor := Some(first);
    var seen: set<JournalId> := {};
    ghost var n: nat := 0;
    while cursor.Some? && cursor.value !in seen
      invariant cursor == Replacement(next, first, n)
      invariant cursor.Some? ==> cursor.value == first || cursor.value in next.Values
      invariant seen <= {first} + next.Values && seen <= reversed
      invariant first in seen || cursor == Some(first)
      invariant forall j :: j in seen && j in next ==> next[j] in seen || cursor == Some(next[j])
      invariant forall j :: j in seen && cursor.None? ==> j !in next || next[j] in seen
      decreases ({first} + next.Values) - seen
    {
      var j := cursor.value;
      seen := seen + {j};
      if j !in reversed {
        return true;
      }
      cursor := if j in next then Some(next[j]) else None;
      n := n + 1;
    }
    forall m: nat ensures Replacement(next, first, m).Some? ==> Replacement(next, first, m).value in seen {
      StaysSeen(next, first, seen, m);
    }
    active := false;
  }

  lemma {:induction false} StaysSeen(next: map<JournalId, JournalId>, first: JournalId, seen: set<JournalId>, m: nat)
    requires first in seen && forall j :: j in seen && j in next ==> next[j] in seen
    ensures Replacement(next, first, m).Some? ==> Replacement(next, first, m).value in seen
  {
    if m > 0 {
      StaysSeen(next, first, seen, m - 1);
    }
  }

  /** `_active_posted`: the journals posted from the drafts of one kind and period (None when a
      draft was not posted), each followed along its corrections. */
  method ActivePosted(next: map<JournalId, JournalId>, reversed: set<JournalId>, drafts: seq<Option<JournalId>>)
    returns (active: bool)
    ensures active <==>
      exists i :: 0 <= i < |drafts| && drafts[i].Some? && ChainStands(next, reversed, drafts[i].value)
  {
    var i := 0;
    while i < |drafts|
      invariant 0 <= i <= |drafts|
      invariant forall j :: 0 <= j < i && drafts[j].Some? ==> !ChainStands(next, reversed, drafts[j].value)
    {
      if drafts[i].Some? {
        var stands := ChainActive(next, reversed, drafts[i].value);
        if stands {
          return true;
        }
      }
      i := i + 1;
    }
    active := false;
  }
}
