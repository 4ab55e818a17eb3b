/** What an anchored balance is, stated over the rows' and the coverage's own fields. */
module BankAnchors {
  import opened Options
  import opened Sums
  import opened BankRoll

  /** A stated balance on or before a day. */
  predicate States(r: Row, asOf: int) {
    r.kind.Anchor? && r.balance.Some? && r.date <= asOf
  }

  /** Row `at` states a balance, and every other stated one is from an earlier day. */
  ghost predicate OnlyNewest(rows: seq<Row>, at: nat, asOf: int) {
    && at < |rows| && States(rows[at], asOf)
    && forall j :: 0 <= j < |rows| && j != at && States(rows[j], asOf) ==> rows[j].date < rows[at].date
  }

  /** The movements from one day to another, both included. */
  function MovedBetween(first: int, last: int): Row -> int {
    (r: Row) => if !r.kind.Anchor? && first <= r.date <= last then r.amount else 0
  }

  /** The newest anchor is alone when one row is the only newest, and only then. */
  lemma {:induction false} NewestIsOnly(rows: seq<Row>, at: nat, asOf: int)
    requires OnlyNewest(rows, at, asOf)
    ensures NewestAnchor(rows, asOf) == (Some(rows[at]), true)
    decreases |rows|
  {
    var front, last := rows[..|rows| - 1], rows[|rows| - 1];
    NewestIsLatest(front, asOf);
    if at < |front| {
      NewestIsOnly(front, at, asOf);
    } else {
      var best := NewestAnchor(front, asOf).0;
      if best.Some? {
        var j :| 0 <= j < |front| && front[j] == best.value;
        assert rows[j] == best.value;
      }
    }
  }

  lemma {:induction false} LoneNewestIsOnly(rows: seq<Row>, asOf: int) returns (at: nat)
    requires NewestAnchor(rows, asOf).0.Some? && NewestAnchor(rows, asOf).1
    ensures OnlyNewest(rows, at, asOf)
    decreases |rows|
  {
    var front, last := rows[..|rows| - 1], rows[|rows| - 1];
    NewestIsLatest(front, asOf);
    if NewestAnchor(front, asOf) == NewestAnchor(rows, asOf) && !States(last, asOf) {
      at := LoneNewestIsOnly(front, asOf);
    } else if States(last, asOf) && NewestAnchor(rows, asOf).0 == Some(last)
              && (NewestAnchor(front, asOf).0.None? || NewestAnchor(front, asOf).0.value.date < last.date)
    {
      at := |front|;
      forall j | 0 <= j < |rows| && j != at && States(rows[j], asOf) ensures rows[j].date < last.date {
        assert front[j] in front && Anchors(front[j], asOf);
      }
    } else {
      at := LoneNewestIsOnly(front, asOf);
    }
  }

  /** With one newest anchor: an end-of-day anchor is its balance and the movements of later
      days, a start-of-day anchor includes its own day's. The row's own boundary decides; without
      one, the account's opening boundary does; without either there is no balance. */
  lemma {:induction false} BalanceFollowsItsAnchor(rows: seq<Row>, asOf: int, cov: Coverage, at: nat)
    requires OnlyNewest(rows, at, asOf)
    ensures
      var a := rows[at];
      var later := Some(a.balance.value + SumBy(rows, MovedBetween(a.date + 1, asOf)));
      var sameDay := Some(a.balance.value + SumBy(rows, MovedBetween(a.date, asOf)));
      && (a.cutoff == Some(EndOfDay) ==> AccountBalance(rows, asOf, cov) == later)
      && (a.cutoff == Some(StartOfDay) ==> AccountBalance(rows, asOf, cov) == sameDay)
      && (a.cutoff == Some(OtherCutoff) ==> AccountBalance(rows, asOf, cov) == None)
      && (a.cutoff.None? && a.account in cov.openingCutoffs ==>
            AccountBalance(rows, asOf, cov)
            == match cov.openingCutoffs[a.account]
               case EndOfDay => later
               case StartOfDay => sameDay
               case OtherCutoff => None)
      && (a.cutoff.None? && a.account !in cov.openingCutoffs ==> AccountBalance(rows, asOf, cov) == None)
  {
    var a := rows[at];
    NewestIsOnly(rows, at, asOf);
    SumPointwise(rows, rows, After(a.date, EndOfDay, asOf), MovedBetween(a.date + 1, asOf));
    SumPointwise(rows, rows, After(a.date, StartOfDay, asOf), MovedBetween(a.date, asOf));
  }

  /** A day has a balance only when one row is the only newest anchor by then. */
  lemma NoBalanceWithoutOneNewest(rows: seq<Row>, asOf: int, cov: Coverage)
    requires forall at: nat :: !OnlyNewest(rows, at, asOf)
    ensures AccountBalance(rows, asOf, cov) == None
  {
    if NewestAnchor(rows, asOf).0.Some? && NewestAnchor(rows, asOf).1 {
      var at := LoneNewestIsOnly(rows, asOf);
    }
  }
}
