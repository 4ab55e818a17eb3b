/** Which bank rows are internal transfers, stated over the rows' own fields. */
module BankTransfers {
  import opened Options
  import opened Sums
  import opened BankRoll

  /** A referenced row that is a transfer by kind, or whose reference was confirmed as one. */
  predicate MayTransfer(r: Row, confirmed: set<string>) {
    r.reference.Some? && (r.kind == Transfer || r.reference.value in confirmed)
  }

  /** The other leg of a transfer: another account, the opposite amount, not zero, and no third
      row that may transfer under the reference. */
  predicate OtherLeg(movements: seq<Row>, confirmed: set<string>, r: Row, q: Row) {
    && q in movements && q.id != r.id && MayTransfer(r, confirmed) && MayTransfer(q, confirmed)
    && q.reference == r.reference && q.account != r.account && q.amount == -r.amount && r.amount != 0
    && forall x :: x in movements && MayTransfer(x, confirmed) && x.reference == r.reference ==> x == r || x == q
  }

  lemma LastIdIsNew(movements: seq<Row>, x: Row)
    requires DistinctIds(movements) && movements != [] && x in movements[..|movements| - 1]
    ensures x.id != movements[|movements| - 1].id
  {
    var i :| 0 <= i < |movements| - 1 && movements[..|movements| - 1][i] == x;
    assert movements[i] == x;
  }

  lemma DistinctSnoc(group: seq<Row>, r: Row)
    requires DistinctIds(group) && forall i :: 0 <= i < |group| ==> group[i].id != r.id
    ensures DistinctIds(group + [r])
  {}

  lemma {:induction false} GroupIsDistinct(movements: seq<Row>, confirmed: set<string>, reference: string)
    requires DistinctIds(movements)
    ensures DistinctIds(GroupOf(movements, confirmed, reference))
    decreases |movements|
  {
    if movements != [] {
      var front, r := movements[..|movements| - 1], movements[|movements| - 1];
      var group := GroupOf(front, confirmed, reference);
      GroupIsDistinct(front, confirmed, reference);
      GroupMembers(front, confirmed, reference);
      forall i | 0 <= i < |group| ensures group[i].id != r.id {
        assert group[i] in group;
        LastIdIsNew(movements, group[i]);
      }
      DistinctSnoc(group, r);
      assert group + [] == group;
    }
  }

  lemma IdTellsApart(group: seq<Row>, i: nat, j: nat)
    requires DistinctIds(group) && i < |group| && j < |group| && i != j
    ensures group[i] != group[j]
  {}

  lemma TwoLegs(group: seq<Row>, r: Row, q: Row)
    requires DistinctIds(group) && r.id != q.id && r in group && q in group
    requires forall k :: 0 <= k < |group| ==> group[k] == r || group[k] == q
    ensures group == [r, q] || group == [q, r]
  {
    var i :| 0 <= i < |group| && group[i] == r;
    var j :| 0 <= j < |group| && group[j] == q;
    if |group| > 2 {
      var k := if i != 0 && j != 0 then 0 else if i != 1 && j != 1 then 1 else 2;
      IdTellsApart(group, k, i);
      IdTellsApart(group, k, j);
      assert false;
    }
  }

  lemma {:induction false} PairHasOtherLeg(movements: seq<Row>, confirmed: set<string>, r: Row) returns (q: Row)
    requires DistinctIds(movements) && r in movements && Proposed(r, confirmed)
    requires Paired(GroupOf(movements, confirmed, r.reference.value))
    ensures OtherLeg(movements, confirmed, r, q)
  {
    var group := GroupOf(movements, confirmed, r.reference.value);
    GroupMembers(movements, confirmed, r.reference.value);
    GroupIsDistinct(movements, confirmed, r.reference.value);
    q := if group[0] == r then group[1] else group[0];
    assert group[0] in group && group[1] in group && r in group;
  }

  lemma {:induction false} OtherLegMakesPair(movements: seq<Row>, confirmed: set<string>, r: Row, q: Row)
    requires DistinctIds(movements) && r in movements && OtherLeg(movements, confirmed, r, q)
    ensures Paired(GroupOf(movements, confirmed, r.reference.value))
  {
    var group := GroupOf(movements, confirmed, r.reference.value);
    GroupMembers(movements, confirmed, r.reference.value);
    GroupIsDistinct(movements, confirmed, r.reference.value);
    forall k | 0 <= k < |group| ensures group[k] == r || group[k] == q {
      assert group[k] in group;
    }
    TwoLegs(group, r, q);
  }

  /** With unique ids, a row is an internal transfer exactly when it has such an other leg. */
  lemma {:induction false} InternalHasOtherLegExactly(movements: seq<Row>, confirmed: set<string>, r: Row)
    requires DistinctIds(movements) && r in movements
    ensures r.id in InternalIds(movements, confirmed) <==> exists q :: OtherLeg(movements, confirmed, r, q)
  {
    InternalMeansPaired(movements, confirmed, r);
    if r.id in InternalIds(movements, confirmed) {
      var q := PairHasOtherLeg(movements, confirmed, r);
    }
    if exists q :: OtherLeg(movements, confirmed, r, q) {
      var q :| OtherLeg(movements, confirmed, r, q);
      OtherLegMakesPair(movements, confirmed, r, q);
    }
  }
}
