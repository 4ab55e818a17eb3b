/** Which assignments are stored, stated over the request's own figures. */
module DimensionRequests {
  import opened Options
  import opened Sums
  import opened VersionedLog
  import opened Dimensions

  /** A canonical figure is written with at most `n` decimal places. */
  predicate Places(x: int, n: nat) {
    match n
    case 0 => x % 1_000_000 == 0
    case 1 => (x * 10) % 1_000_000 == 0
    case 2 => (x * 100) % 1_000_000 == 0
    case 3 => (x * 1_000) % 1_000_000 == 0
    case 4 => (x * 10_000) % 1_000_000 == 0
    case 5 => (x * 100_000) % 1_000_000 == 0
    case _ => true
  }

  lemma OnePlace(x: int)
    ensures (x * 10) % 1_000_000 == 0 <==> x % 100_000 == 0
  {
    var q, r := x / 100_000, x % 100_000;
    assert x * 10 == q * 1_000_000 + r * 10;
  }

  lemma TwoPlaces(x: int)
    ensures (x * 100) % 1_000_000 == 0 <==> x % 10_000 == 0
  {
    var q, r := x / 10_000, x % 10_000;
    assert x * 100 == q * 1_000_000 + r * 100;
  }

  lemma ThreePlaces(x: int)
    ensures (x * 1_000) % 1_000_000 == 0 <==> x % 1_000 == 0
  {
    var q, r := x / 1_000, x % 1_000;
    assert x * 1_000 == q * 1_000_000 + r * 1_000;
  }

  lemma FourPlaces(x: int)
    ensures (x * 10_000) % 1_000_000 == 0 <==> x % 100 == 0
  {
    var q, r := x / 100, x % 100;
    assert x * 10_000 == q * 1_000_000 + r * 10_000;
  }

  lemma FivePlaces(x: int)
    ensures (x * 100_000) % 1_000_000 == 0 <==> x % 10 == 0
  {
    var q, r := x / 10, x % 10;
    assert x * 100_000 == q * 1_000_000 + r * 100_000;
  }

  lemma FewerPlaces(x: int)
    ensures x % 1_000_000 == 0 ==> x % 100_000 == 0
    ensures x % 100_000 == 0 ==> x % 10_000 == 0
    ensures x % 10_000 == 0 ==> x % 1_000 == 0
  {}

  lemma FewestPlaces(x: int)
    ensures x % 1_000 == 0 ==> x % 100 == 0
    ensures x % 100 == 0 ==> x % 10 == 0
  {}

  lemma DecimalsAreLeast(x: int, n: nat)
    ensures Decimals(x) <= n <==> Places(x, n)
  {
    OnePlace(x);
    TwoPlaces(x);
    ThreePlaces(x);
    FourPlaces(x);
    FivePlaces(x);
    FewerPlaces(x);
    FewestPlaces(x);
  }

  /** The product of two figures has no more than six places. */
  ghost predicate SixPlaces(x: int, percent: int) {
    exists a: nat, b: nat :: a + b <= 6 && Places(x, a) && Places(percent, b)
  }

  lemma SixPlacesAreWritable(x: int, percent: int)
    ensures SixPlaces(x, percent) <==> Decimals(x) + Decimals(percent) <= 6
  {
    if SixPlaces(x, percent) {
      var a: nat, b: nat :| a + b <= 6 && Places(x, a) && Places(percent, b);
      DecimalsAreLeast(x, a);
      DecimalsAreLeast(percent, b);
    }
    DecimalsAreLeast(x, Decimals(x));
    DecimalsAreLeast(percent, Decimals(percent));
  }

  /** A percentage between nothing and the whole, of an active dimension, that takes a whole
      number of 10^-6 of the line, below 10^32, written with no more than six places. */
  ghost predicate Divides(l: Line, s: RequestedShare) {
    var worth := if l.role.RevenueRole? then l.credit - l.debit else l.debit - l.credit;
    && s.usable && 0 < s.percent && s.percent <= 100_000_000
    && SixPlaces(l.debit, s.percent) && SixPlaces(l.credit, s.percent)
    && exists part :: part * 100_000_000 == worth * s.percent && -MONEY_LIMIT < part < MONEY_LIMIT
  }

  lemma PartIsQuotient(product: int, part: int)
    requires part * 100_000_000 == product
    ensures product % 100_000_000 == 0 && product / 100_000_000 == part
  {}

  lemma ShareDivides(l: Line, s: RequestedShare)
    ensures ShareOk(l, s) <==> Divides(l, s)
  {
    var worth := LineAmount(l);
    SixPlacesAreWritable(l.debit, s.percent);
    SixPlacesAreWritable(l.credit, s.percent);
    if ShareOk(l, s) {
      ExactShare(worth, s.percent);
      assert worth * s.percent / WHOLE * 100_000_000 == worth * s.percent;
    }
    if Divides(l, s) {
      var part :| part * 100_000_000 == worth * s.percent && -MONEY_LIMIT < part < MONEY_LIMIT;
      PartIsQuotient(worth * s.percent, part);
    }
  }

  function StoredFor(requests: seq<Request>, line: string): nat {
    if requests == [] then 0
    else
      var n := |requests| - 1;
      StoredFor(requests[..n], line)
      + (if requests[n].line.id == line && Run(requests) != Run(requests[..n]) then 1 else 0)
  }

  lemma {:induction false} LogCountsStored(requests: seq<Request>, line: string)
    ensures SumBy(Run(requests), Under(LineOf(), line)) == StoredFor(requests, line)
    decreases |requests|
  {
    if requests != [] {
      var n := |requests| - 1;
      LogCountsStored(requests[..n], line);
      SumSnoc(Run(requests[..n]), NextAllocation(Run(requests[..n]), requests[n]), Under(LineOf(), line));
    }
  }

  lemma {:induction false} CurrentIsCounted(log: seq<Allocation>, line: string)
    requires Numbered(log)
    ensures ExpectedVersion(log, line)
         == if SumBy(log, Under(LineOf(), line)) == 0 then 1 else SumBy(log, Under(LineOf(), line))
  {
    LastVersionCounts(log, LineOf(), VersionOf(), line);
    LatestComesFromLog(log, LineOf());
    if line in Current(log) {
      VersionsArePositive(log, Current(log)[line]);
    }
  }

  lemma {:induction false} VersionsArePositive(log: seq<Allocation>, a: Allocation)
    requires Numbered(log) && a in log
    ensures a.version >= 1
  {
    var i :| 0 <= i < |log| && log[i] == a;
    SumNonNegative(log[..i], Under(LineOf(), a.line));
  }

  /** After any run, an assignment is stored if and only if it names the version last stored for
      its line (1 when there is none), its dimensions differ, each share divides the line, the
      percentages make one hundred, and a direct one has a single share. */
  lemma {:induction false} StoredExactly(requests: seq<Request>, r: Request)
    ensures Run(requests + [r]) != Run(requests) <==>
      && r.version == (if StoredFor(requests, r.line.id) == 0 then 1 else StoredFor(requests, r.line.id))
      && (forall i, j :: 0 <= i < j < |r.shares| ==> r.shares[i].dimension != r.shares[j].dimension)
      && (forall i :: 0 <= i < |r.shares| ==> Divides(r.line, r.shares[i]))
      && SumBy(r.shares, Percent()) == 100_000_000
      && (r.direct ==> |r.shares| == 1)
  {
    RunSnoc(requests, r);
    VersionsRunWithoutGaps(requests);
    LogCountsStored(requests, r.line.id);
    CurrentIsCounted(Run(requests), r.line.id);
    forall i | 0 <= i < |r.shares| ensures ShareOk(r.line, r.shares[i]) <==> Divides(r.line, r.shares[i]) {
      ShareDivides(r.line, r.shares[i]);
    }
  }
}
