/** Attribution of revenue and expense lines to dimensions: exact shares of the whole line,
    versioned per line, and a report whose parts add up to the lines.
    Money and percentages are in 10^-6. */
module Dimensions {
  import opened Options
  import opened Sums
  import opened VersionedLog

  /** A ledger role by name; the name matters because a reclassified native line keeps its
      old allocation only while the role is the same. */
  datatype Role = RevenueRole(name: string) | ExpenseRole(name: string)
  datatype Line = Line(id: string, role: Role, debit: int, credit: int)
  datatype Share = Share(dimension: string, percent: int, amount: int)
  datatype Allocation = Allocation(line: string, version: int, shares: seq<Share>, role: Role)

  datatype RequestedShare = RequestedShare(dimension: string, percent: int, usable: bool)
  datatype Request = Request(line: Line, shares: seq<RequestedShare>, direct: bool, version: int)

  const UNIT := 1_000_000
  const WHOLE := 100 * UNIT
  const MONEY_LIMIT := 100_000_000_000_000_000_000_000_000_000_000_000_000  // 10^32

  function LineAmount(l: Line): int {
    if l.role.RevenueRole? then l.credit - l.debit else l.debit - l.credit
  }

  function LineOf(): Allocation -> string {
    (a: Allocation) => a.line
  }

  function VersionOf(): Allocation -> int {
    (a: Allocation) => a.version
  }

  /** `latest_allocations`: the newest allocation of each line. */
  function Current(log: seq<Allocation>): map<string, Allocation> {
    Latest(log, LineOf())
  }

  ghost predicate Numbered(log: seq<Allocation>) {
    Gapless(log, LineOf(), VersionOf())
  }

  // ----- assign -----

  /** A share is exact when its percentage of the line is a whole number of 10^-6. */
  predicate Exact(amount: int, percent: int) {
    (amount * percent) % WHOLE == 0 && -MONEY_LIMIT < amount * percent / WHOLE < MONEY_LIMIT
  }

  /** The decimal places of a canonical amount: trailing zeros are not written. */
  function Decimals(x: int): nat {
    if x % UNIT == 0 then 0
    else if x % 100_000 == 0 then 1
    else if x % 10_000 == 0 then 2
    else if x % 1_000 == 0 then 3
    else if x % 100 == 0 then 4
    else if x % 10 == 0 then 5
    else 6
  }

  /** A product is written with the places of both factors, and more than six are refused
      even when the last ones are zeros. */
  predicate Writable(l: Line, percent: int) {
    Decimals(l.debit) + Decimals(percent) <= 6 && Decimals(l.credit) + Decimals(percent) <= 6
  }

  predicate ShareOk(l: Line, s: RequestedShare) {
    s.usable && 0 < s.percent <= WHOLE && Writable(l, s.percent) && Exact(LineAmount(l), s.percent)
  }

  function Percent(): RequestedShare -> int {
    (s: RequestedShare) => s.percent
  }

  function Amount(): Share -> int {
    (s: Share) => s.amount
  }

  function PricedShare(l: Line, s: RequestedShare): Share {
    Share(s.dimension, s.percent, LineAmount(l) * s.percent / WHOLE)
  }

  function Priced(l: Line, shares: seq<RequestedShare>): seq<Share> {
    seq(|shares|, i requires 0 <= i < |shares| => PricedShare(l, shares[i]))
  }

  predicate DistinctDimensions(shares: seq<RequestedShare>) {
    forall i, j :: 0 <= i < j < |shares| ==> shares[i].dimension != shares[j].dimension
  }

  function ExpectedVersion(log: seq<Allocation>, line: string): int {
    if line in Current(log) then Current(log)[line].version else 1
  }

  predicate Assignable(log: seq<Allocation>, r: Request) {
    && r.version == ExpectedVersion(log, r.line.id)
    && DistinctDimensions(r.shares)
    && (forall i :: 0 <= i < |r.shares| ==> ShareOk(r.line, r.shares[i]))
    && SumBy(r.shares, Percent()) == WHOLE
    && (r.direct ==> |r.shares| == 1)
  }

  function NextAllocation(log: seq<Allocation>, r: Request): Allocation {
    var version := if r.line.id in Current(log) then Current(log)[r.line.id].version + 1 else 1;
    Allocation(r.line.id, version, Priced(r.line, r.shares), r.line.role)
  }

  function Assign(log: seq<Allocation>, r: Request): seq<Allocation> {
    if Assignable(log, r) then log + [NextAllocation(log, r)] else log
  }

  lemma ExactShare(amount: int, percent: int)
    requires (amount * percent) % WHOLE == 0
    ensures amount * percent / WHOLE * WHOLE == amount * percent
  {}

  /** The shares of 100 percent are exactly the line: the source's last check cannot fail. */
  lemma {:induction false} SharesScaleWithPercent(l: Line, shares: seq<RequestedShare>)
    requires forall i :: 0 <= i < |shares| ==> ShareOk(l, shares[i])
    ensures SumBy(Priced(l, shares), Amount()) * WHOLE == LineAmount(l) * SumBy(shares, Percent())
    decreases |shares|
  {
    if shares != [] {
      var front, s := shares[..|shares| - 1], shares[|shares| - 1];
      SharesScaleWithPercent(l, front);
      assert Priced(l, shares)[..|front|] == Priced(l, front);
      var part := LineAmount(l) * s.percent / WHOLE;
      ExactShare(LineAmount(l), s.percent);
      Distribute(LineAmount(l), SumBy(front, Percent()), s.percent);
      Distribute(WHOLE, SumBy(Priced(l, front), Amount()), part);
    }
  }

  lemma SharesAreTheLine(l: Line, shares: seq<RequestedShare>)
    requires forall i :: 0 <= i < |shares| ==> ShareOk(l, shares[i])
    requires SumBy(shares, Percent()) == WHOLE
    ensures SumBy(Priced(l, shares), Amount()) == LineAmount(l)
  {
    SharesScaleWithPercent(l, shares);
    SameMultiple(SumBy(Priced(l, shares), Amount()), LineAmount(l));
  }

  lemma SameMultiple(a: int, b: int)
    requires a * WHOLE == b * WHOLE
    ensures a == b
  {}

  // ----- facts behind the lines -----

  /** Ledger amounts never change; a native line's role may, an imported line's may not. */
  datatype Fact = Fact(debit: int, credit: int, role: Role)

  predicate Agrees(facts: map<string, Fact>, native: bool, l: Line) {
    && l.id in facts && l.debit == facts[l.id].debit && l.credit == facts[l.id].credit
    && (!native ==> l.role == facts[l.id].role)
  }

  function Run(requests: seq<Request>): seq<Allocation> {
    if requests == [] then [] else Assign(Run(requests[..|requests| - 1]), requests[|requests| - 1])
  }

  ghost predicate AllAgree(facts: map<string, Fact>, native: bool, requests: seq<Request>) {
    forall i :: 0 <= i < |requests| ==> Agrees(facts, native, requests[i].line)
  }

  /** An allocation attributes exactly its line as it stood, role included. */
  ghost predicate Whole(facts: map<string, Fact>, native: bool, a: Allocation) {
    && a.line in facts
    && SumBy(a.shares, Amount()) == LineAmount(Line(a.line, a.role, facts[a.line].debit, facts[a.line].credit))
    && (!native ==> a.role == facts[a.line].role)
  }

  lemma AssignKeepsNumbered(log: seq<Allocation>, r: Request)
    requires Numbered(log)
    ensures Numbered(Assign(log, r))
  {
    if Assignable(log, r) {
      GaplessSnoc(log, NextAllocation(log, r), LineOf(), VersionOf());
    }
  }

  /** The allocations of each line are numbered 1, 2, 3 in the order they were made. */
  lemma {:induction false} VersionsRunWithoutGaps(requests: seq<Request>)
    ensures Numbered(Run(requests))
    decreases |requests|
  {
    if requests != [] {
      VersionsRunWithoutGaps(requests[..|requests| - 1]);
      AssignKeepsNumbered(Run(requests[..|requests| - 1]), requests[|requests| - 1]);
    }
  }

  lemma {:induction false} EveryAllocationIsWhole(facts: map<string, Fact>, native: bool, requests: seq<Request>)
    requires AllAgree(facts, native, requests)
    ensures forall a :: a in Run(requests) ==> Whole(facts, native, a)
    decreases |requests|
  {
    if requests != [] {
      var n := |requests| - 1;
      var r := requests[n];
      EveryAllocationIsWhole(facts, native, requests[..n]);
      if Assignable(Run(requests[..n]), r) {
        SharesAreTheLine(r.line, r.shares);
        assert Whole(facts, native, NextAllocation(Run(requests[..n]), r));
      }
    }
  }

  // ----- the first assignment can be sent twice -----

  /** An earlier request of the run was stored for this line. */
  predicate EverAssigned(requests: seq<Request>, line: string) {
    exists i :: 0 <= i < |requests| && requests[i].line.id == line && Assignable(Run(requests[..i]), requests[i])
  }

  lemma RunSnoc(requests: seq<Request>, r: Request)
    ensures Run(requests + [r]) == Assign(Run(requests), r)
  {
    assert (requests + [r])[..|requests|] == requests;
  }

  lemma EverAssignedSnoc(requests: seq<Request>, r: Request, line: string)
    ensures EverAssigned(requests + [r], line)
      <==> EverAssigned(requests, line) || (r.line.id == line && Assignable(Run(requests), r))
  {
    var all := requests + [r];
    assert all[..|requests|] == requests && all[|requests|] == r;
    forall i | 0 <= i < |requests| ensures all[..i] == requests[..i] && all[i] == requests[i] {}
    if EverAssigned(requests, line) {
      var i :| 0 <= i < |requests| && requests[i].line.id == line && Assignable(Run(requests[..i]), requests[i]);
      assert all[i].line.id == line && Assignable(Run(all[..i]), all[i]);
    }
  }

  lemma {:induction false} AssignedIsCurrent(requests: seq<Request>, line: string)
    ensures line in Current(Run(requests)) <==> EverAssigned(requests, line)
    decreases |requests|
  {
    if requests != [] {
      var front, r := requests[..|requests| - 1], requests[|requests| - 1];
      assert requests == front + [r];
      AssignedIsCurrent(front, line);
      EverAssignedSnoc(front, r, line);
      RunSnoc(front, r);
      LatestSnoc(Run(front), NextAllocation(Run(front), r), LineOf());
    }
  }

  /** The version check cannot tell "never assigned" from "assigned once": both expect 1. So,
      after any run, sending a request twice stores no more than sending it once if and only if
      it is refused the first time or some request of that run had been stored for its line. */
  lemma RepeatIsRefusedExactly(requests: seq<Request>, r: Request)
    ensures Run(requests + [r] + [r]) == Run(requests + [r])
      <==> !Assignable(Run(requests), r) || EverAssigned(requests, r.line.id)
  {
    RunSnoc(requests, r);
    RunSnoc(requests + [r], r);
    AssignedIsCurrent(requests, r.line.id);
    LatestSnoc(Run(requests), NextAllocation(Run(requests), r), LineOf());
  }

  function WholeShare(): RequestedShare {
    RequestedShare("d", WHOLE, true)
  }

  /** A revenue line of 100 given to one dimension, by someone who has seen no allocation. */
  function Sent(): Request {
    Request(Line("l", RevenueRole("revenue"), 0, 100 * UNIT), [WholeShare()], true, 1)
  }

  function Stored(version: int): Allocation {
    Allocation("l", version, [Share("d", WHOLE, 100 * UNIT)], RevenueRole("revenue"))
  }

  lemma SentIsAssignable(log: seq<Allocation>)
    requires ExpectedVersion(log, "l") == 1
    ensures Assignable(log, Sent())
    ensures Priced(Sent().line, Sent().shares) == [Share("d", WHOLE, 100 * UNIT)]
  {
    SumSnoc([], WholeShare(), Percent());
    assert [] + [WholeShare()] == Sent().shares;
    assert 100 * UNIT * WHOLE / WHOLE == 100 * UNIT && (100 * UNIT * WHOLE) % WHOLE == 0;
  }

  lemma SentOnce(log: seq<Allocation>)
    requires log == []
    ensures Assign(log, Sent()) == log + [Stored(1)] && Current(log + [Stored(1)]) == map["l" := Stored(1)]
  {
    SentIsAssignable(log);
    LatestSnoc(log, Stored(1), LineOf());
  }

  lemma SentAgain(log: seq<Allocation>)
    requires Current(log) == map["l" := Stored(1)]
    ensures Assign(log, Sent()) == log + [Stored(2)]
  {
    SentIsAssignable(log);
  }

  /** Such a run: the same first request is stored twice, as versions 1 and 2. */
  lemma FirstAssignmentIsStoredTwice()
    ensures Run([] + [Sent()] + [Sent()]) == [] + [Stored(1)] + [Stored(2)]
  {
    RunSnoc([], Sent());
    RunSnoc([] + [Sent()], Sent());
    SentOnce(Run([]));
    SentAgain(Run([] + [Sent()]));
  }

  // ----- report -----

  /** One amount of the report: a share of a line, or a whole line left unassigned. */
  datatype Part = Part(dimension: Option<string>, revenue: bool, amount: int)

  function SharePart(l: Line, s: Share): Part {
    Part(Some(s.dimension), l.role.RevenueRole?, s.amount)
  }

  function ShareParts(l: Line, shares: seq<Share>): seq<Part> {
    seq(|shares|, i requires 0 <= i < |shares| => SharePart(l, shares[i]))
  }

  /** The allocation the report uses: a reclassified native line's is kept but not used. */
  function Used(latest: map<string, Allocation>, native: bool, l: Line): Option<Allocation> {
    if l.id in latest && (native ==> latest[l.id].role == l.role) then Some(latest[l.id]) else None
  }

  function LineParts(latest: map<string, Allocation>, native: bool, l: Line): seq<Part> {
    var a := Used(latest, native, l);
    if a.None? then [Part(None, l.role.RevenueRole?, LineAmount(l))] else ShareParts(l, a.value.shares)
  }

  function Parts(latest: map<string, Allocation>, native: bool, lines: seq<Line>): seq<Part> {
    if lines == [] then []
    else Parts(latest, native, lines[..|lines| - 1]) + LineParts(latest, native, lines[|lines| - 1])
  }

  /** Buckets in the order their dimensions appear, and the unassigned remainder. */
  datatype Report = Report(order: seq<string>, revenue: map<string, int>, expense: map<string, int>,
                           unassignedRevenue: int, unassignedExpense: int)

  function Add(m: map<string, int>, d: string, v: int): map<string, int> {
    m[d := At(m, d) + v]
  }

  function Added(r: Report, p: Part): Report {
    if p.dimension.None? then
      if p.revenue then r.(unassignedRevenue := r.unassignedRevenue + p.amount)
      else r.(unassignedExpense := r.unassignedExpense + p.amount)
    else
      var d := p.dimension.value;
      Report(if d in r.order then r.order else r.order + [d],
             if p.revenue then Add(r.revenue, d, p.amount) else r.revenue,
             if p.revenue then r.expense else Add(r.expense, d, p.amount),
             r.unassignedRevenue, r.unassignedExpense)
  }

  function ReportOf(parts: seq<Part>): Report {
    if parts == [] then Report([], map[], map[], 0, 0)
    else Added(ReportOf(parts[..|parts| - 1]), parts[|parts| - 1])
  }

  /** The report over some lines, given each line's newest allocation. */
  function ReportFrom(latest: map<string, Allocation>, native: bool, lines: seq<Line>): Report {
    ReportOf(Parts(latest, native, lines))
  }

  lemma ReportSnoc(parts: seq<Part>, p: Part)
    ensures ReportOf(parts + [p]) == Added(ReportOf(parts), p)
  {
    assert (parts + [p])[..|parts|] == parts;
  }

  /** One assigned line: its shares go to their buckets one by one. */
  method AddShares(start: Report, l: Line, shares: seq<Share>, ghost before: seq<Part>) returns (r: Report)
    requires start == ReportOf(before)
    ensures r == ReportOf(before + ShareParts(l, shares))
  {
    r := start;
    var j := 0;
    assert before + ShareParts(l, shares[..0]) == before;
    while j < |shares|
      invariant 0 <= j <= |shares| && r == ReportOf(before + ShareParts(l, shares[..j]))
    {
      var d, part := shares[j].dimension, SharePart(l, shares[j]);
      assert before + ShareParts(l, shares[..j + 1]) == before + ShareParts(l, shares[..j]) + [part];
      ReportSnoc(before + ShareParts(l, shares[..j]), part);
      if d !in r.order {
        r := r.(order := r.order + [d]);
      }
      if l.role.RevenueRole? {
        r := r.(revenue := Add(r.revenue, d, shares[j].amount));
      } else {
        r := r.(expense := Add(r.expense, d, shares[j].amount));
      }
      j := j + 1;
    }
    assert shares[..j] == shares;
  }

  lemma PartsPrefix(latest: map<string, Allocation>, native: bool, lines: seq<Line>, i: nat)
    requires i < |lines|
    ensures Parts(latest, native, lines[..i + 1])
         == Parts(latest, native, lines[..i]) + LineParts(latest, native, lines[i])
  {
    assert lines[..i + 1][..i] == lines[..i];
  }

  method AddLine(start: Report, l: Line, latest: map<string, Allocation>, native: bool, ghost before: seq<Part>)
    returns (r: Report)
    requires start == ReportOf(before)
    ensures r == ReportOf(before + LineParts(latest, native, l))
  {
    var a := Used(latest, native, l);
    if a.Some? {
      r := AddShares(start, l, a.value.shares, before);
    } else {
      ReportSnoc(before, Part(None, l.role.RevenueRole?, LineAmount(l)));
      if l.role.RevenueRole? {
        r := start.(unassignedRevenue := start.unassignedRevenue + LineAmount(l));
      } else {
        r := start.(unassignedExpense := start.unassignedExpense + LineAmount(l));
      }
    }
  }

  lemma NoLinesReported(lines: seq<Line>, latest: map<string, Allocation>, native: bool)
    requires lines == []
    ensures ReportOf(Parts(latest, native, lines)) == Report([], map[], map[], 0, 0)
  {}

  /** `report`: for each line, either the unassigned remainder or one amount per share. */
  method BuildReport(lines: seq<Line>, latest: map<string, Allocation>, native: bool) returns (r: Report)
    ensures r == ReportFrom(latest, native, lines)
  {
    r := Report([], map[], map[], 0, 0);
    var i := 0;
    NoLinesReported(lines[..i], latest, native);
    while i < |lines|
      invariant 0 <= i <= |lines| && r == ReportOf(Parts(latest, native, lines[..i]))
    {
      PartsPrefix(latest, native, lines, i);
      r := AddLine(r, lines[i], latest, native, Parts(latest, native, lines[..i]));
      i := i + 1;
    }
    assert lines[..i] == lines;
  }

  // ----- conservation -----

  function In(m: map<string, int>): string -> int {
    (d: string) => At(m, d)
  }

  function PartOf(revenue: bool): Part -> int {
    (p: Part) => if p.revenue == revenue then p.amount else 0
  }

  function AmountOf(revenue: bool): Line -> int {
    (l: Line) => if l.role.RevenueRole? == revenue then LineAmount(l) else 0
  }

  function Buckets(r: Report, revenue: bool): map<string, int> {
    if revenue then r.revenue else r.expense
  }

  function Unassigned(r: Report, revenue: bool): int {
    if revenue then r.unassignedRevenue else r.unassignedExpense
  }

  /** What a report states for one side: every bucket and the unassigned remainder. */
  function Total(r: Report, revenue: bool): int {
    SumBy(r.order, In(Buckets(r, revenue))) + Unassigned(r, revenue)
  }

  function DimensionOf(): Part -> Option<string> {
    (p: Part) => p.dimension
  }

  function OfDimension(d: Option<string>, revenue: bool): Part -> int {
    OfKey(DimensionOf(), PartOf(revenue), d)
  }

  /** Each bucket holds exactly the shares given to its dimension. */
  lemma {:induction false} BucketHoldsItsShares(parts: seq<Part>, d: string, revenue: bool)
    ensures At(Buckets(ReportOf(parts), revenue), d) == SumBy(parts, OfDimension(Some(d), revenue))
    decreases |parts|
  {
    if parts != [] {
      BucketHoldsItsShares(parts[..|parts| - 1], d, revenue);
    }
  }

  lemma {:induction false} RemainderHoldsTheRest(parts: seq<Part>, revenue: bool)
    ensures Unassigned(ReportOf(parts), revenue) == SumBy(parts, OfDimension(None, revenue))
    decreases |parts|
  {
    if parts != [] {
      RemainderHoldsTheRest(parts[..|parts| - 1], revenue);
    }
  }

  lemma {:induction false} OrderListsDimensions(parts: seq<Part>)
    ensures Distinct(ReportOf(parts).order)
    ensures forall i ::
      0 <= i < |parts| && parts[i].dimension.Some? ==> parts[i].dimension.value in ReportOf(parts).order
    decreases |parts|
  {
    if parts != [] {
      var front := parts[..|parts| - 1];
      OrderListsDimensions(front);
      assert forall i :: 0 <= i < |front| ==> parts[i] == front[i];
    }
  }

  function Named(order: seq<string>): seq<Option<string>> {
    seq(|order|, i requires 0 <= i < |order| => Some(order[i]))
  }

  function AllKeys(order: seq<string>): seq<Option<string>> {
    Named(order) + [None]
  }

  lemma NamedOrNone(order: seq<string>, key: Option<string>)
    requires key.Some? ==> key.value in order
    ensures key in AllKeys(order)
  {
    if key.None? {
      assert AllKeys(order)[|order|] == None;
    } else {
      var at :| 0 <= at < |order| && order[at] == key.value;
      assert AllKeys(order)[at] == key;
    }
  }

  lemma {:induction false} NamesStayDistinct(order: seq<string>)
    requires Distinct(order)
    ensures Distinct(AllKeys(order))
  {
    var keys := AllKeys(order);
    forall i, j | 0 <= i < j < |keys| ensures keys[i] != keys[j] {
      assert keys[i] == Some(order[i]);
      assert keys[j] == if j < |order| then Some(order[j]) else None;
    }
  }

  lemma {:induction false} AllKeysCover(parts: seq<Part>)
    ensures Distinct(AllKeys(ReportOf(parts).order))
    ensures forall i :: 0 <= i < |parts| ==> DimensionOf()(parts[i]) in AllKeys(ReportOf(parts).order)
  {
    OrderListsDimensions(parts);
    NamesStayDistinct(ReportOf(parts).order);
    forall i | 0 <= i < |parts| ensures DimensionOf()(parts[i]) in AllKeys(ReportOf(parts).order) {
      NamedOrNone(ReportOf(parts).order, parts[i].dimension);
    }
  }

  lemma BucketsHoldTheShares(parts: seq<Part>, order: seq<string>, revenue: bool)
    ensures SumBy(Named(order), KeySum(parts, DimensionOf(), PartOf(revenue)))
         == SumBy(order, In(Buckets(ReportOf(parts), revenue)))
  {
    var sums := KeySum(parts, DimensionOf(), PartOf(revenue));
    forall i | 0 <= i < |order| ensures sums(Named(order)[i]) == In(Buckets(ReportOf(parts), revenue))(order[i]) {
      BucketHoldsItsShares(parts, order[i], revenue);
    }
    SumPointwise(Named(order), order, sums, In(Buckets(ReportOf(parts), revenue)));
  }

  /** Buckets and remainder of a side are all the parts of that side. */
  lemma ReportConservesParts(parts: seq<Part>, revenue: bool)
    ensures Total(ReportOf(parts), revenue) == SumBy(parts, PartOf(revenue))
  {
    var order := ReportOf(parts).order;
    AllKeysCover(parts);
    SumByKeys(parts, AllKeys(order), DimensionOf(), PartOf(revenue));
    SumSnoc(Named(order), None, KeySum(parts, DimensionOf(), PartOf(revenue)));
    BucketsHoldTheShares(parts, order, revenue);
    RemainderHoldsTheRest(parts, revenue);
  }

  lemma SharesOfOneSide(l: Line, shares: seq<Share>, revenue: bool)
    ensures SumBy(ShareParts(l, shares), PartOf(revenue))
         == if l.role.RevenueRole? == revenue then SumBy(shares, Amount()) else 0
  {
    var parts := ShareParts(l, shares);
    if l.role.RevenueRole? == revenue {
      SumPointwise(parts, shares, PartOf(revenue), Amount());
    } else {
      SumZero(parts, PartOf(revenue));
    }
  }

  lemma LineIsItsParts(facts: map<string, Fact>, native: bool, latest: map<string, Allocation>, l: Line, revenue: bool)
    requires Agrees(facts, native, l)
    requires l.id in latest ==> latest[l.id].line == l.id && Whole(facts, native, latest[l.id])
    ensures SumBy(LineParts(latest, native, l), PartOf(revenue)) == AmountOf(revenue)(l)
  {
    var a := Used(latest, native, l);
    if a.None? {
      var p := Part(None, l.role.RevenueRole?, LineAmount(l));
      assert [] + [p] == [p];
      SumSnoc([], p, PartOf(revenue));
    } else {
      SharesOfOneSide(l, a.value.shares, revenue);
    }
  }

  lemma {:induction false} PartsAddUp(facts: map<string, Fact>, native: bool, latest: map<string, Allocation>,
                                      lines: seq<Line>, revenue: bool)
    requires forall i :: 0 <= i < |lines| ==> Agrees(facts, native, lines[i])
    requires forall k :: k in latest ==> latest[k].line == k && Whole(facts, native, latest[k])
    ensures SumBy(Parts(latest, native, lines), PartOf(revenue)) == SumBy(lines, AmountOf(revenue))
    decreases |lines|
  {
    if lines != [] {
      var front, l := lines[..|lines| - 1], lines[|lines| - 1];
      PartsAddUp(facts, native, latest, front, revenue);
      LineIsItsParts(facts, native, latest, l, revenue);
      SumConcat(Parts(latest, native, front), LineParts(latest, native, l), PartOf(revenue));
    }
  }

  /** Whatever was assigned, in whatever order, and whichever native lines were reclassified
      since: for revenue and for expense the buckets plus the unassigned remainder are the
      lines of the report. */
  lemma {:induction false} ReportConservesTotals(facts: map<string, Fact>, native: bool, requests: seq<Request>,
                                                 lines: seq<Line>, revenue: bool)
    requires AllAgree(facts, native, requests)
    requires forall i :: 0 <= i < |lines| ==> Agrees(facts, native, lines[i])
    ensures Total(ReportFrom(Current(Run(requests)), native, lines), revenue) == SumBy(lines, AmountOf(revenue))
  {
    var log := Run(requests);
    EveryAllocationIsWhole(facts, native, requests);
    LatestComesFromLog(log, LineOf());
    PartsAddUp(facts, native, Current(log), lines, revenue);
    ReportConservesParts(Parts(Current(log), native, lines), revenue);
  }

  // ----- the service -----

  /** The loop of `assign`: stop at the first share that has no exact amount. The source then
      compares the sum of the amounts with the line; at 100 percent that cannot fail. */
  method PriceShares(l: Line, shares: seq<RequestedShare>) returns (ok: bool, priced: seq<Share>, total: int)
    ensures ok <==> forall i :: 0 <= i < |shares| ==> ShareOk(l, shares[i])
    ensures ok ==> priced == Priced(l, shares) && total == SumBy(shares, Percent())
    ensures ok && total == WHOLE ==> SumBy(priced, Amount()) == LineAmount(l)
  {
    ok, priced, total := true, [], 0;
    var i := 0;
    while i < |shares|
      invariant 0 <= i <= |shares| && priced == Priced(l, shares[..i])
      invariant total == SumBy(shares[..i], Percent())
      invariant forall j :: 0 <= j < i ==> ShareOk(l, shares[j])
    {
      if !ShareOk(l, shares[i]) {
        return false, [], 0;
      }
      SumPrefix(shares, i, Percent());
      assert Priced(l, shares[..i + 1]) == Priced(l, shares[..i]) + [PricedShare(l, shares[i])];
      priced := priced + [PricedShare(l, shares[i])];
      total := total + shares[i].percent;
      i := i + 1;
    }
    assert shares[..i] == shares;
    if total == WHOLE {
      SharesAreTheLine(l, shares);
    }
  }

  class Attribution {
    var log: seq<Allocation>

    /** Nothing is assigned yet, and what will be is numbered from 1. */
    constructor ()
      ensures Current(log) == map[] && Numbered(log)
    {
      log := [];
    }

    method LatestAllocations() returns (latest: map<string, Allocation>)
      ensures latest == Current(log)
    {
      latest := LatestBy(log, LineOf());
    }

    /** `assign`: price the shares one by one, then require the whole line. */
    method AssignLine(r: Request) returns (done: bool)
      requires Numbered(log)
      modifies this
      ensures done <==> Assignable(old(log), r)
      ensures log == Assign(old(log), r) && Numbered(log)
    {
      AssignKeepsNumbered(log, r);
      var latest := LatestAllocations();
      var expected := if r.line.id in latest then latest[r.line.id].version else 1;
      if r.version != expected || !DistinctDimensions(r.shares) {
        return false;
      }
      var ok, shares, total := PriceShares(r.line, r.shares);
      if !ok {
        return false;
      }
      if total != WHOLE || (r.direct && |shares| != 1) {
        return false;
      }
      var version := if r.line.id in latest then latest[r.line.id].version + 1 else 1;
      log := log + [Allocation(r.line.id, version, shares, r.line.role)];
      done := true;
    }
  }
}
