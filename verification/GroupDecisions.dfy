/** Versioned accept/reject decisions over groups of bank and ledger rows, appended by three
    services to one log; two accepted groups never share a row. */
module GroupDecisions {
  import opened Sums
  import opened VersionedLog

  datatype Decision = Decision(key: string, version: int, accepted: bool, bank: set<string>, ledger: set<string>)
  datatype Candidate = Candidate(key: string, bank: set<string>, ledger: set<string>, balances: bool)

  /** An accepted single-row decision of the other reconciliation workflow. */
  datatype Single = Single(bank: string, ledger: set<string>)

  datatype Writer = Reference | Manual | Native

  /** `stale`: the service's own freshness checks (digest, run, manifest, statement) refuse. The
      reference writer refuses every decision then, the other two only acceptances. */
  datatype Request = Request(writer: Writer, candidate: Candidate, accept: bool, expected: int, stale: bool,
                             singles: seq<Single>)

  function KeyOf(): Decision -> string {
    (d: Decision) => d.key
  }

  function VersionOf(): Decision -> int {
    (d: Decision) => d.version
  }

  /** `latest`: the standing decision of each key. */
  function Current(log: seq<Decision>): map<string, Decision> {
    Latest(log, KeyOf())
  }

  function NextVersion(log: seq<Decision>, key: string): int {
    LastVersion(log, KeyOf(), VersionOf(), key) + 1
  }

  predicate Disjoint(d: Decision, bank: set<string>, ledger: set<string>) {
    d.bank !! bank && d.ledger !! ledger
  }

  /** `check_group_capacity`, ignoring the candidate's own earlier decisions. */
  predicate CapacityFree(log: seq<Decision>, c: Candidate) {
    var latest := Current(log);
    forall k :: k in latest && latest[k].accepted && k != c.key ==> Disjoint(latest[k], c.bank, c.ledger)
  }

  /** The reference and manual writers keep both sides clear of single-row decisions; the
      native writer's ledger rows live in another book and only the bank side is checked. */
  predicate SinglesFree(w: Writer, c: Candidate, singles: seq<Single>) {
    forall i :: 0 <= i < |singles| ==> singles[i].bank !in c.bank && (w.Native? || singles[i].ledger !! c.ledger)
  }

  predicate Allowed(log: seq<Decision>, r: Request) {
    && r.expected == NextVersion(log, r.candidate.key)
    && (r.writer.Reference? ==> !r.stale)
    && (r.accept ==> !r.stale && r.candidate.balances && SinglesFree(r.writer, r.candidate, r.singles))
    && (r.accept ==> CapacityFree(log, r.candidate))
  }

  function DecisionOf(r: Request): Decision {
    Decision(r.candidate.key, r.expected, r.accept, r.candidate.bank, r.candidate.ledger)
  }

  function Decide(log: seq<Decision>, r: Request): seq<Decision> {
    if Allowed(log, r) then log + [DecisionOf(r)] else log
  }

  function Run(requests: seq<Request>): seq<Decision> {
    if requests == [] then [] else Decide(Run(requests[..|requests| - 1]), requests[|requests| - 1])
  }

  // ----- exclusivity -----

  ghost predicate Exclusive(log: seq<Decision>) {
    var latest := Current(log);
    forall j, k :: j in latest && k in latest && j != k && latest[j].accepted && latest[k].accepted
      ==> latest[j].bank !! latest[k].bank && latest[j].ledger !! latest[k].ledger
  }

  ghost predicate Numbered(log: seq<Decision>) {
    Gapless(log, KeyOf(), VersionOf())
  }

  lemma CurrentSnoc(log: seq<Decision>, d: Decision)
    ensures Current(log + [d]) == Current(log)[d.key := d]
  {
    LatestSnoc(log, d, KeyOf());
  }

  lemma RunSnoc(requests: seq<Request>, r: Request)
    ensures Run(requests + [r]) == Decide(Run(requests), r)
  {
    assert (requests + [r])[..|requests|] == requests;
  }

  lemma DecisionKeepsExclusive(log: seq<Decision>, r: Request)
    requires Exclusive(log)
    ensures Exclusive(Decide(log, r))
  {
    if Allowed(log, r) {
      CurrentSnoc(log, DecisionOf(r));
    }
  }

  lemma DecisionKeepsNumbered(log: seq<Decision>, r: Request)
    requires Numbered(log)
    ensures Numbered(Decide(log, r))
  {
    if Allowed(log, r) {
      GaplessSnoc(log, DecisionOf(r), KeyOf(), VersionOf());
    }
  }

  /** Whichever services decide, in whatever order: accepted groups are pairwise disjoint on
      both sides, and every key's versions run without gaps. */
  lemma {:induction false} AcceptedGroupsNeverShareRows(requests: seq<Request>)
    ensures Exclusive(Run(requests)) && Numbered(Run(requests))
    decreases |requests|
  {
    if requests != [] {
      AcceptedGroupsNeverShareRows(requests[..|requests| - 1]);
      DecisionKeepsExclusive(Run(requests[..|requests| - 1]), requests[|requests| - 1]);
      DecisionKeepsNumbered(Run(requests[..|requests| - 1]), requests[|requests| - 1]);
    }
  }

  // ----- which request a row is held by -----

  /** The `i`-th request of a run was recorded rather than refused. */
  predicate Recorded(requests: seq<Request>, i: nat)
    requires i < |requests|
  {
    Run(requests[..i + 1]) != Run(requests[..i])
  }

  /** It was recorded, and its key has not been decided since. */
  predicate Stands(requests: seq<Request>, i: nat) {
    && i < |requests| && Recorded(requests, i)
    && forall j :: i < j < |requests| && requests[j].candidate.key == requests[i].candidate.key
         ==> !Recorded(requests, j)
  }

  lemma RecordedEarlier(requests: seq<Request>, n: nat, i: nat)
    requires i < n <= |requests|
    ensures Recorded(requests[..n], i) <==> Recorded(requests, i)
  {
    assert requests[..n][..i] == requests[..i] && requests[..n][..i + 1] == requests[..i + 1];
  }

  lemma LastStep(requests: seq<Request>)
    requires requests != []
    ensures
      var n := |requests| - 1;
      && Run(requests) == Decide(Run(requests[..n]), requests[n])
      && (Recorded(requests, n) <==> Allowed(Run(requests[..n]), requests[n]))
  {
    assert requests[..|requests|] == requests;
  }

  /** A request stands after one more if it stood before and its key was not decided again. */
  lemma {:induction false} StandsOneLonger(requests: seq<Request>, i: nat)
    requires i < |requests| - 1
    ensures
      var n := |requests| - 1;
      Stands(requests, i) <==>
        && Stands(requests[..n], i)
        && (requests[n].candidate.key == requests[i].candidate.key ==> !Recorded(requests, n))
  {
    var n := |requests| - 1;
    forall j | i <= j < n ensures Recorded(requests[..n], j) <==> Recorded(requests, j) {
      RecordedEarlier(requests, n, j);
    }
    assert requests[..n][i] == requests[i];
  }

  /** A standing request is what its key's latest row says. */
  lemma {:induction false} StandingIsCurrent(requests: seq<Request>, i: nat)
    requires Stands(requests, i)
    ensures requests[i].candidate.key in Current(Run(requests))
    ensures Current(Run(requests))[requests[i].candidate.key] == DecisionOf(requests[i])
    decreases |requests|
  {
    var n := |requests| - 1;
    LastStep(requests);
    CurrentSnoc(Run(requests[..n]), DecisionOf(requests[n]));
    if i < n {
      StandsOneLonger(requests, i);
      StandingIsCurrent(requests[..n], i);
    }
  }

  /** Every latest row was written by a request that still stands. */
  lemma {:induction false} CurrentStands(requests: seq<Request>, k: string) returns (i: nat)
    requires k in Current(Run(requests))
    ensures Stands(requests, i) && requests[i].candidate.key == k
    decreases |requests|
  {
    var n := |requests| - 1;
    LastStep(requests);
    CurrentSnoc(Run(requests[..n]), DecisionOf(requests[n]));
    if Recorded(requests, n) && requests[n].candidate.key == k {
      i := n;
    } else {
      i := CurrentStands(requests[..n], k);
      StandsOneLonger(requests, i);
    }
  }

  predicate Overlap(a: Candidate, b: Candidate) {
    !(a.bank !! b.bank) || !(a.ledger !! b.ledger)
  }

  /** The `i`-th request holds rows of a candidate: an acceptance of another group that stands. */
  predicate Holds(requests: seq<Request>, i: nat, c: Candidate) {
    && Stands(requests, i) && requests[i].accept && requests[i].candidate.key != c.key
    && Overlap(requests[i].candidate, c)
  }

  /** An acceptance with nothing against it but, perhaps, another group. */
  predicate Presentable(log: seq<Decision>, r: Request) {
    && r.accept && !r.stale && r.candidate.balances && SinglesFree(r.writer, r.candidate, r.singles)
    && r.expected == NextVersion(log, r.candidate.key)
  }

  /** No group other than `key`'s holds one of a candidate's rows. */
  predicate FreeBut(log: seq<Decision>, key: string, c: Candidate) {
    var latest := Current(log);
    forall k :: k in latest && latest[k].accepted && k != c.key && k != key ==> Disjoint(latest[k], c.bank, c.ledger)
  }

  lemma {:induction false} OthersHoldNothing(requests: seq<Request>, key: string, c: Candidate)
    ensures FreeBut(Run(requests), key, c) <==>
      forall i: nat :: Holds(requests, i, c) ==> requests[i].candidate.key == key
  {
    var latest := Current(Run(requests));
    if FreeBut(Run(requests), key, c) {
      forall i: nat | Holds(requests, i, c) ensures requests[i].candidate.key == key {
        StandingIsCurrent(requests, i);
      }
    } else {
      var k :| k in latest && latest[k].accepted && k != c.key && k != key && !Disjoint(latest[k], c.bank, c.ledger);
      var i := CurrentStands(requests, k);
      StandingIsCurrent(requests, i);
      assert Holds(requests, i, c);
    }
  }

  /** Over a whole run: such an acceptance is refused if and only if some earlier acceptance of
      another group, not decided again since, holds one of its rows. */
  lemma {:induction false} RefusedExactlyWhileRowsAreHeld(requests: seq<Request>, r: Request)
    requires Presentable(Run(requests), r)
    ensures Run(requests + [r]) == Run(requests) <==> exists i: nat :: Holds(requests, i, r.candidate)
  {
    RunSnoc(requests, r);
    OthersHoldNothing(requests, r.candidate.key, r.candidate);
    assert Allowed(Run(requests), r) <==> FreeBut(Run(requests), r.candidate.key, r.candidate);
  }

  lemma OtherKeyStays(log: seq<Decision>, r: Request, k: string)
    requires k in Current(log) && r.candidate.key != k
    ensures k in Current(Decide(log, r)) && Current(Decide(log, r))[k] == Current(log)[k]
  {
    CurrentSnoc(log, DecisionOf(r));
  }

  lemma {:induction false} DecisionStands(before: seq<Request>, after: seq<Request>, k: string)
    requires k in Current(Run(before)) && forall i :: 0 <= i < |after| ==> after[i].candidate.key != k
    ensures k in Current(Run(before + after)) && Current(Run(before + after))[k] == Current(Run(before))[k]
    decreases |after|
  {
    if after == [] {
      assert before + after == before;
    } else {
      var n := |after| - 1;
      assert (before + after)[..|before| + n] == before + after[..n];
      DecisionStands(before, after[..n], k);
      OtherKeyStays(Run(before + after[..n]), after[n], k);
    }
  }

  /** An accepted group holds its rows until its own key is decided again: whatever the three
      services decide about other groups, it stays as it was and no other accepted group gets
      one of its rows. */
  lemma {:induction false} HeldUntilItsKeyIsDecided(before: seq<Request>, after: seq<Request>, k: string)
    requires k in Current(Run(before)) && Current(Run(before))[k].accepted
    requires forall i :: 0 <= i < |after| ==> after[i].candidate.key != k
    ensures
      var now := Current(Run(before + after));
      && k in now && now[k] == Current(Run(before))[k]
      && forall j :: j in now && j != k && now[j].accepted ==> Disjoint(now[j], now[k].bank, now[k].ledger)
  {
    DecisionStands(before, after, k);
    AcceptedGroupsNeverShareRows(before + after);
  }

  lemma {:induction false} RejectionFrees(log: seq<Decision>, d: Decision, c: Candidate)
    requires !d.accepted && d.key != c.key
    ensures CapacityFree(log + [d], c) <==> FreeBut(log, d.key, c)
  {
    CurrentSnoc(log, d);
    var latest, after := Current(log), Current(log + [d]);
    if CapacityFree(log + [d], c) {
      forall k | k in latest && latest[k].accepted && k != c.key && k != d.key
        ensures Disjoint(latest[k], c.bank, c.ledger)
      {
        assert k in after && after[k] == latest[k];
      }
    }
  }

  /** A recorded rejection releases what its key held and nothing else: an acceptance that
      follows it is recorded if and only if no other key's standing acceptance holds one
      of its rows. */
  lemma {:induction false} RejectionReleasesRows(requests: seq<Request>, r: Request, next: Request)
    requires Presentable(Run(requests), next) && r.candidate.key != next.candidate.key
    requires !r.accept && Allowed(Run(requests), r)
    ensures Run(requests + [r] + [next]) == Run(requests) + [DecisionOf(r)] + [DecisionOf(next)]
      <==> forall i: nat :: Holds(requests, i, next.candidate) ==> requests[i].candidate.key == r.candidate.key
  {
    var log := Run(requests);
    var after := log + [DecisionOf(r)];
    RunSnoc(requests, r);
    RunSnoc(requests + [r], next);
    CurrentSnoc(log, DecisionOf(r));
    RejectionFrees(log, DecisionOf(r), next.candidate);
    OthersHoldNothing(requests, r.candidate.key, next.candidate);
    assert Allowed(after, next) <==> CapacityFree(after, next.candidate);
  }

  // ----- when a request is recorded -----

  function RecordedFor(requests: seq<Request>, key: string): nat {
    if requests == [] then 0
    else
      var n := |requests| - 1;
      RecordedFor(requests[..n], key)
      + (if requests[n].candidate.key == key && Recorded(requests, n) then 1 else 0)
  }

  lemma {:induction false} LogCountsRecorded(requests: seq<Request>, key: string)
    ensures SumBy(Run(requests), Under(KeyOf(), key)) == RecordedFor(requests, key)
    decreases |requests|
  {
    if requests != [] {
      var n := |requests| - 1;
      LogCountsRecorded(requests[..n], key);
      LastStep(requests);
      SumSnoc(Run(requests[..n]), DecisionOf(requests[n]), Under(KeyOf(), key));
    }
  }

  /** No accepted single-row decision uses a row of the candidate; the native writer's ledger
      rows are another book's. */
  predicate ClearOfSingles(r: Request) {
    forall i :: 0 <= i < |r.singles| ==>
      && r.singles[i].bank !in r.candidate.bank
      && (r.writer == Native || forall x :: x in r.singles[i].ledger ==> x !in r.candidate.ledger)
  }

  /** Over any run, a request is recorded if and only if it names the next version of its key
      (one more than was recorded for it), is not a stale one of the reference writer, and, when
      it accepts, is fresh, balanced, clear of single-row decisions and of every group that
      holds one of its rows. */
  lemma {:induction false} RecordedExactly(requests: seq<Request>, r: Request)
    ensures Run(requests + [r]) != Run(requests) <==>
      && r.expected == RecordedFor(requests, r.candidate.key) + 1
      && (r.writer == Reference ==> !r.stale)
      && (r.accept ==>
            && !r.stale && r.candidate.balances && ClearOfSingles(r)
            && forall i: nat :: !Holds(requests, i, r.candidate))
  {
    var log, key := Run(requests), r.candidate.key;
    RunSnoc(requests, r);
    AcceptedGroupsNeverShareRows(requests);
    LastVersionCounts(log, KeyOf(), VersionOf(), key);
    LogCountsRecorded(requests, key);
    OthersHoldNothing(requests, key, r.candidate);
    assert CapacityFree(log, r.candidate) <==> FreeBut(log, key, r.candidate);
    assert SinglesFree(r.writer, r.candidate, r.singles) <==> ClearOfSingles(r);
  }

  // ----- the services -----

  /** The first proposal under a key, or the number of proposals when there is none. */
  function Proposal(proposals: seq<Candidate>, key: string): (at: nat)
    ensures at <= |proposals| && (at < |proposals| ==> proposals[at].key == key)
    ensures forall i :: 0 <= i < at ==> proposals[i].key != key
  {
    if proposals == [] || proposals[0].key == key then 0 else 1 + Proposal(proposals[1..], key)
  }

  class DecisionLog {
    var log: seq<Decision>

    constructor ()
      ensures log == [] && Exclusive(log) && Numbered(log)
    {
      log := [];
    }

    method LatestByKey() returns (latest: map<string, Decision>)
      ensures latest == Current(log)
    {
      latest := LatestBy(log, KeyOf());
    }

    method CheckCapacity(c: Candidate) returns (free: bool)
      ensures free <==> CapacityFree(log, c)
    {
      var latest := LatestByKey();
      var pending := latest.Keys;
      while pending != {}
        invariant pending <= latest.Keys
        invariant forall k :: k in latest && k !in pending && latest[k].accepted && k != c.key
                    ==> Disjoint(latest[k], c.bank, c.ledger)
        decreases pending
      {
        var k :| k in pending;
        if latest[k].accepted && k != c.key && !(latest[k].bank !! c.bank && latest[k].ledger !! c.ledger) {
          return false;
        }
        pending := pending - {k};
      }
      free := true;
    }

    method Record(c: Candidate, version: int, accept: bool)
      modifies this
      ensures log == old(log) + [Decision(c.key, version, accept, c.bank, c.ledger)]
    {
      log := log + [Decision(c.key, version, accept, c.bank, c.ledger)];
    }

    /** `group_match_service.decide`: an outdated run is refused before anything else, then the
        candidate is looked up among today's proposals. */
    method DecideReference(outdated: bool, proposals: seq<Candidate>, key: string, accept: bool, expected: int,
                           singles: seq<Single>)
      returns (done: bool)
      requires Exclusive(log) && Numbered(log)
      modifies this
      ensures outdated || Proposal(proposals, key) == |proposals| ==> !done && log == old(log)
      ensures Proposal(proposals, key) < |proposals| ==>
        var r := Request(Reference, proposals[Proposal(proposals, key)], accept, expected, outdated, singles);
        log == Decide(old(log), r) && (done <==> Allowed(old(log), r))
      ensures Exclusive(log) && Numbered(log)
    {
      if outdated {
        return false;
      }
      var at := 0;
      while at < |proposals| && proposals[at].key != key
        invariant 0 <= at <= |proposals| && Proposal(proposals, key) == at + Proposal(proposals[at..], key)
      {
        at := at + 1;
      }
      if at == |proposals| {
        return false;
      }
      done := DecideCandidate(Request(Reference, proposals[at], accept, expected, false, singles));
    }

    /** `manual_group_service.decide` and `native_bank_match_service.decide`: a stored preview,
        rejected whatever its freshness, accepted only while it is current. */
    method DecidePreview(r: Request) returns (done: bool)
      requires Exclusive(log) && Numbered(log) && !r.writer.Reference?
      modifies this
      ensures done <==> Allowed(old(log), r)
      ensures log == Decide(old(log), r)
      ensures Exclusive(log) && Numbered(log)
    {
      done := DecideCandidate(r);
    }

    method DecideCandidate(r: Request) returns (done: bool)
      requires Exclusive(log) && Numbered(log)
      modifies this
      ensures done <==> Allowed(old(log), r)
      ensures log == Decide(old(log), r)
      ensures Exclusive(log) && Numbered(log)
    {
      DecisionKeepsExclusive(log, r);
      DecisionKeepsNumbered(log, r);
      var latest := LatestByKey();
      var version := if r.candidate.key in latest then latest[r.candidate.key].version + 1 else 1;
      if r.expected != version {
        return false;
      }
      if r.writer.Reference? && r.stale {
        return false;
      }
      if r.accept {
        if r.stale || !r.candidate.balances {
          return false;
        }
        var free := CheckCapacity(r.candidate);
        if !free {
          return false;
        }
        var i := 0;
        while i < |r.singles|
          invariant 0 <= i <= |r.singles|
          invariant forall j :: 0 <= j < i ==>
            r.singles[j].bank !in r.candidate.bank && (r.writer.Native? || r.singles[j].ledger !! r.candidate.ledger)
        {
          var single := r.singles[i];
          if single.bank in r.candidate.bank || (!r.writer.Native? && !(single.ledger !! r.candidate.ledger)) {
            return false;
          }
          i := i + 1;
        }
      }
      Record(r.candidate, version, r.accept);
      done := true;
    }
  }
}
