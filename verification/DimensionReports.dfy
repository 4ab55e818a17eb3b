/** What a dimension report shows of one line, stated over the requests that were stored. */
module DimensionReports {
  import opened Options
  import opened Sums
  import opened VersionedLog
  import opened Dimensions

  /** The report over some lines after a run of requests. */
  function Shown(requests: seq<Request>, native: bool, lines: seq<Line>): Report {
    ReportFrom(Current(Run(requests)), native, lines)
  }

  predicate Stored(requests: seq<Request>, i: nat)
    requires i < |requests|
  {
    Assignable(Run(requests[..i]), requests[i])
  }

  /** Request `i` is the last one stored for a line. */
  ghost predicate LastStored(requests: seq<Request>, i: nat, line: string) {
    && i < |requests| && requests[i].line.id == line && Stored(requests, i)
    && forall j :: i < j < |requests| && requests[j].line.id == line ==> !Stored(requests, j)
  }

  /** What a line's current allocation keeps of the request it was stored from. */
  predicate Keeps(log: seq<Allocation>, r: Request) {
    && r.line.id in Current(log) && Current(log)[r.line.id].role == r.line.role
    && Current(log)[r.line.id].shares == Priced(r.line, r.shares)
  }

  lemma StoredIsKept(log: seq<Allocation>, r: Request)
    requires Assignable(log, r)
    ensures Keeps(Assign(log, r), r)
  {
    LatestSnoc(log, NextAllocation(log, r), LineOf());
  }

  lemma OthersAreKept(log: seq<Allocation>, r: Request, next: Request)
    requires Keeps(log, r) && (next.line.id == r.line.id ==> !Assignable(log, next))
    ensures Keeps(Assign(log, next), r)
  {
    LatestSnoc(log, NextAllocation(log, next), LineOf());
  }

  lemma LastStoredEarlier(requests: seq<Request>, i: nat, line: string)
    requires LastStored(requests, i, line) && i < |requests| - 1
    ensures LastStored(requests[..|requests| - 1], i, line)
  {
    var front := requests[..|requests| - 1];
    forall j | i <= j < |front| ensures Stored(front, j) <==> Stored(requests, j) {
      assert front[..j] == requests[..j];
    }
  }

  lemma {:induction false} LastStoredIsCurrent(requests: seq<Request>, i: nat, line: string)
    requires LastStored(requests, i, line)
    ensures Keeps(Run(requests), requests[i])
    decreases |requests|
  {
    var n := |requests| - 1;
    if i < n {
      LastStoredEarlier(requests, i, line);
      LastStoredIsCurrent(requests[..n], i, line);
      assert requests[n].line.id == line ==> !Stored(requests, n);
      OthersAreKept(Run(requests[..n]), requests[i], requests[n]);
    } else {
      StoredIsKept(Run(requests[..n]), requests[n]);
    }
  }

  /** The signed amount of a line, by its side. */
  function Worth(l: Line): int {
    match l.role
    case RevenueRole(_) => l.credit - l.debit
    case ExpenseRole(_) => l.debit - l.credit
  }

  lemma OneLinesParts(latest: map<string, Allocation>, native: bool, lines: seq<Line>, none: seq<Line>)
    requires |lines| == 1 && none == []
    ensures Parts(latest, native, lines) == LineParts(latest, native, lines[0])
  {
    assert lines[..0] == none;
    assert Parts(latest, native, none) == [];
  }

  lemma OneLine(requests: seq<Request>, native: bool, l: Line)
    ensures Shown(requests, native, [l]) == ReportOf(LineParts(Current(Run(requests)), native, l))
  {
    OneLinesParts(Current(Run(requests)), native, [l], []);
  }

  lemma ShareIsBucketed(l: Line, stored: Line, shares: seq<RequestedShare>, k: nat, revenue: bool)
    requires k < |shares| && DistinctDimensions(shares) && ShareOk(stored, shares[k])
    ensures
      var bucket := At(Buckets(ReportOf(ShareParts(l, Priced(stored, shares))), revenue), shares[k].dimension);
      if l.role.RevenueRole? == revenue then bucket * WHOLE == Worth(stored) * shares[k].percent else bucket == 0
  {
    var parts, d := ShareParts(l, Priced(stored, shares)), shares[k].dimension;
    BucketHoldsItsShares(parts, d, revenue);
    SumOnly(parts, k, OfDimension(Some(d), revenue));
    ExactShare(LineAmount(stored), shares[k].percent);
  }

  lemma {:induction false} SharesAreListed(l: Line, shares: seq<Share>)
    ensures
      var r := ReportOf(ShareParts(l, shares));
      && r.unassignedRevenue == 0 && r.unassignedExpense == 0
      && forall d :: d in r.order <==> exists k :: 0 <= k < |shares| && shares[k].dimension == d
    decreases |shares|
  {
    if shares != [] {
      var front, last := shares[..|shares| - 1], shares[|shares| - 1];
      SharesAreListed(l, front);
      assert ShareParts(l, shares) == ShareParts(l, front) + [SharePart(l, last)];
      ReportSnoc(ShareParts(l, front), SharePart(l, last));
      var r := ReportOf(ShareParts(l, shares));
      forall d ensures d in r.order <==> exists k :: 0 <= k < |shares| && shares[k].dimension == d {
        if exists k :: 0 <= k < |front| && front[k].dimension == d {
          var k :| 0 <= k < |front| && front[k].dimension == d;
          assert shares[k].dimension == d;
        }
        if exists k :: 0 <= k < |shares| && shares[k].dimension == d {
          var k :| 0 <= k < |shares| && shares[k].dimension == d;
          assert k < |front| ==> front[k].dimension == d;
        }
        assert shares[|front|] == last;
      }
    }
  }

  lemma LineIsUnassigned(l: Line, latest: map<string, Allocation>, native: bool)
    requires l.id in latest ==> native && latest[l.id].role != l.role
    ensures
      var worth, revenue := Worth(l), l.role.RevenueRole?;
      ReportOf(LineParts(latest, native, l))
      == Report([], map[], map[], if revenue then worth else 0, if revenue then 0 else worth)
  {
    var p := Part(None, l.role.RevenueRole?, LineAmount(l));
    assert [] + [p] == [p];
    ReportSnoc([], p);
  }

  /** After any run, the report over a line whose last stored request still applies (an imported
      line, or a native one of the same role) puts each requested percentage of the line into
      its dimension's bucket on the line's side, lists just those dimensions, and leaves nothing
      unassigned. */
  lemma {:induction false} AssignedLineIsReported(requests: seq<Request>, i: nat, native: bool, l: Line)
    requires LastStored(requests, i, l.id) && (native ==> requests[i].line.role == l.role)
    ensures
      var r, shares, worth := Shown(requests, native, [l]), requests[i].shares, Worth(requests[i].line);
      && r.unassignedRevenue == 0 && r.unassignedExpense == 0
      && (forall d :: d in r.order <==> exists k :: 0 <= k < |shares| && shares[k].dimension == d)
      && (forall k :: 0 <= k < |shares| && l.role.RevenueRole? ==>
            At(r.revenue, shares[k].dimension) * WHOLE == worth * shares[k].percent
            && At(r.expense, shares[k].dimension) == 0)
      && (forall k :: 0 <= k < |shares| && l.role.ExpenseRole? ==>
            At(r.expense, shares[k].dimension) * WHOLE == worth * shares[k].percent
            && At(r.revenue, shares[k].dimension) == 0)
  {
    var stored, shares := requests[i].line, requests[i].shares;
    var r := Shown(requests, native, [l]);
    LastStoredIsCurrent(requests, i, l.id);
    OneLine(requests, native, l);
    SharesAreListed(l, Priced(stored, shares));
    forall d ensures d in r.order <==> exists k :: 0 <= k < |shares| && shares[k].dimension == d {
      assert forall k :: 0 <= k < |shares| ==> Priced(stored, shares)[k].dimension == shares[k].dimension;
    }
    forall k | 0 <= k < |shares|
      ensures
        var bucket, other := At(r.revenue, shares[k].dimension), At(r.expense, shares[k].dimension);
        && (l.role.RevenueRole? ==> bucket * WHOLE == Worth(stored) * shares[k].percent && other == 0)
        && (l.role.ExpenseRole? ==> other * WHOLE == Worth(stored) * shares[k].percent && bucket == 0)
    {
      ShareIsBucketed(l, stored, shares, k, true);
      ShareIsBucketed(l, stored, shares, k, false);
    }
  }

  /** A line never stored, or a native line whose role is no longer the one it was stored under,
      is reported whole as unassigned on its side, in no bucket. */
  lemma {:induction false} UnassignedLineIsReported(requests: seq<Request>, i: nat, native: bool, l: Line)
    requires
      || (forall j :: 0 <= j < |requests| && requests[j].line.id == l.id ==> !Stored(requests, j))
      || (native && LastStored(requests, i, l.id) && requests[i].line.role != l.role)
    ensures
      var worth, revenue := Worth(l), l.role.RevenueRole?;
      Shown(requests, native, [l])
      == Report([], map[], map[], if revenue then worth else 0, if revenue then 0 else worth)
  {
    OneLine(requests, native, l);
    if LastStored(requests, i, l.id) {
      LastStoredIsCurrent(requests, i, l.id);
    } else {
      AssignedIsCurrent(requests, l.id);
    }
    LineIsUnassigned(l, Current(Run(requests)), native);
  }

  // ----- several lines -----

  function GivenBy(latest: map<string, Allocation>, native: bool, f: Part -> int): Line -> int {
    (l: Line) => SumBy(LineParts(latest, native, l), f)
  }

  lemma {:induction false} PartsAreGiven(latest: map<string, Allocation>, native: bool, lines: seq<Line>,
                                         f: Part -> int)
    ensures SumBy(Parts(latest, native, lines), f) == SumBy(lines, GivenBy(latest, native, f))
    decreases |lines|
  {
    if lines != [] {
      var front, l := lines[..|lines| - 1], lines[|lines| - 1];
      PartsAreGiven(latest, native, front, f);
      SumConcat(Parts(latest, native, front), LineParts(latest, native, l), f);
    }
  }

  lemma PartsConcat(latest: map<string, Allocation>, native: bool, a: seq<Line>, b: seq<Line>, f: Part -> int)
    ensures SumBy(Parts(latest, native, a + b), f)
         == SumBy(Parts(latest, native, a), f) + SumBy(Parts(latest, native, b), f)
  {
    PartsAreGiven(latest, native, a, f);
    PartsAreGiven(latest, native, b, f);
    PartsAreGiven(latest, native, a + b, f);
    SumConcat(a, b, GivenBy(latest, native, f));
  }

  /** A report over more lines adds up bucket by bucket and remainder by remainder, so a report
      is what it shows of its lines one by one. */
  lemma ReportsAddUp(requests: seq<Request>, native: bool, a: seq<Line>, b: seq<Line>, d: string)
    ensures
      var r, s, t := Shown(requests, native, a + b), Shown(requests, native, a), Shown(requests, native, b);
      && At(r.revenue, d) == At(s.revenue, d) + At(t.revenue, d)
      && At(r.expense, d) == At(s.expense, d) + At(t.expense, d)
      && r.unassignedRevenue == s.unassignedRevenue + t.unassignedRevenue
      && r.unassignedExpense == s.unassignedExpense + t.unassignedExpense
  {
    var latest := Current(Run(requests));
    SidesAddUp(latest, native, a, b, d, true);
    SidesAddUp(latest, native, a, b, d, false);
  }

  lemma SidesAddUp(latest: map<string, Allocation>, native: bool, a: seq<Line>, b: seq<Line>, d: string,
                   revenue: bool)
    ensures
      var r, s, t := ReportFrom(latest, native, a + b), ReportFrom(latest, native, a), ReportFrom(latest, native, b);
      && At(Buckets(r, revenue), d) == At(Buckets(s, revenue), d) + At(Buckets(t, revenue), d)
      && Unassigned(r, revenue) == Unassigned(s, revenue) + Unassigned(t, revenue)
  {
    var parts, p, q := Parts(latest, native, a + b), Parts(latest, native, a), Parts(latest, native, b);
    BucketHoldsItsShares(p, d, revenue);
    BucketHoldsItsShares(q, d, revenue);
    BucketHoldsItsShares(parts, d, revenue);
    RemainderHoldsTheRest(p, revenue);
    RemainderHoldsTheRest(q, revenue);
    RemainderHoldsTheRest(parts, revenue);
    PartsConcat(latest, native, a, b, OfDimension(Some(d), revenue));
    PartsConcat(latest, native, a, b, OfDimension(None, revenue));
  }
}
