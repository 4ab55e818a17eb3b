/** The declared 100% ownership scope of a company group: a fixpoint over the latest mappings
    that must be the anchor company's connected component. */
module OwnershipScope {
  import opened VersionedLog

  type Company = string
  datatype Mapping = Mapping(version: int, left: Company, right: Company, full: bool)

  type Edge = (Company, Company)

  function EdgeOf(): Mapping -> Edge {
    (m: Mapping) => (m.left, m.right)
  }

  /** The latest declarations that are 100% and lie within the group. */
  function Relevant(rows: seq<Mapping>, group: set<Company>): set<Edge> {
    var latest := Latest(rows, EdgeOf());
    set e | e in latest && e.0 in group && e.1 in group && latest[e].full
  }

  predicate Linked(edges: set<Edge>, a: Company, b: Company) {
    (a, b) in edges || (b, a) in edges
  }

  ghost predicate Path(edges: set<Edge>, p: seq<Company>) {
    p != [] && forall i :: 1 <= i < |p| ==> Linked(edges, p[i - 1], p[i])
  }

  /** `c` can be reached from `a` over declared mappings, in either direction. */
  ghost predicate Connected(edges: set<Edge>, a: Company, c: Company) {
    exists p :: Path(edges, p) && p[0] == a && p[|p| - 1] == c
  }

  lemma StepStaysConnected(edges: set<Edge>, a: Company, b: Company, c: Company)
    requires Connected(edges, a, b) && Linked(edges, b, c)
    ensures Connected(edges, a, c)
  {
    var p :| Path(edges, p) && p[0] == a && p[|p| - 1] == b;
    var q := p + [c];
    assert Path(edges, q) && q[0] == a && q[|q| - 1] == c;
  }

  lemma AnchorIsConnected(edges: set<Edge>, a: Company)
    ensures Connected(edges, a, a)
  {
    var p := [a];
    assert Path(edges, p) && p[0] == a && p[|p| - 1] == a;
  }

  /** A set that holds the anchor and absorbs every link out of it holds the component. */
  lemma {:induction false} ClosedHoldsPath(edges: set<Edge>, covered: set<Company>, p: seq<Company>)
    requires Path(edges, p) && p[0] in covered
    requires forall e :: e in edges && (e.0 in covered || e.1 in covered) ==> e.0 in covered && e.1 in covered
    ensures p[|p| - 1] in covered
    decreases |p|
  {
    if |p| > 1 {
      var front := p[..|p| - 1];
      ClosedHoldsPath(edges, covered, front);
      assert Linked(edges, p[|p| - 2], p[|p| - 1]);
    }
  }

  function Nodes(edges: set<Edge>, anchor: Company): set<Company> {
    {anchor} + (set e | e in edges :: e.0) + (set e | e in edges :: e.1)
  }

  /** One `for item in relevant` pass: every step stays inside the component, and a pass that
      changes nothing has seen every mapping closed. */
  method Sweep(edges: set<Edge>, anchor: Company, before: set<Company>) returns (covered: set<Company>)
    requires before <= Nodes(edges, anchor) && forall c :: c in before ==> Connected(edges, anchor, c)
    ensures before <= covered <= Nodes(edges, anchor) && forall c :: c in covered ==> Connected(edges, anchor, c)
    ensures covered == before ==>
      forall e :: e in edges && (e.0 in covered || e.1 in covered) ==> e.0 in covered && e.1 in covered
  {
    covered := before;
    var pending := edges;
    while pending != {}
      invariant pending <= edges && before <= covered <= Nodes(edges, anchor)
      invariant forall c :: c in covered ==> Connected(edges, anchor, c)
      invariant covered == before ==>
        forall e ::
          e in edges && e !in pending && (e.0 in covered || e.1 in covered) ==> e.0 in covered && e.1 in covered
      decreases pending
    {
      var e :| e in pending;
      pending := pending - {e};
      if e.0 in covered || e.1 in covered {
        if e.0 in covered {
          StepStaysConnected(edges, anchor, e.0, e.1);
        } else {
          StepStaysConnected(edges, anchor, e.1, e.0);
        }
        covered := covered + {e.0, e.1};
      }
    }
  }

  /** `_ownership_declarations`: `covered` is exactly the anchor's connected component, and a
      draft is allowed exactly when every group company can be reached. */
  method OwnershipDeclarations(rows: seq<Mapping>, anchor: Company, group: set<Company>)
    returns (covered: set<Company>, allowed: bool)
    ensures forall c :: c in covered <==> Connected(Relevant(rows, group), anchor, c)
    ensures allowed <==> forall c :: c in group ==> Connected(Relevant(rows, group), anchor, c)
  {
    var edges := Relevant(rows, group);
    covered := {anchor};
    AnchorIsConnected(edges, anchor);
    var settled := false;
    while !settled
      invariant anchor in covered && covered <= Nodes(edges, anchor)
      invariant forall c :: c in covered ==> Connected(edges, anchor, c)
      invariant settled ==>
        forall e :: e in edges && (e.0 in covered || e.1 in covered) ==> e.0 in covered && e.1 in covered
      decreases Nodes(edges, anchor) - covered, !settled
    {
      var before := covered;
      covered := Sweep(edges, anchor, before);
      settled := covered == before;
    }
    forall c | Connected(edges, anchor, c) ensures c in covered {
      var p :| Path(edges, p) && p[0] == anchor && p[|p| - 1] == c;
      ClosedHoldsPath(edges, covered, p);
    }
    allowed := group <= covered;
  }

  // ----- which declaration counts -----

  predicate InVersionOrder(rows: seq<Mapping>) {
    forall i, j :: 0 <= i < j < |rows| ==> rows[i].version <= rows[j].version
  }

  /** Read in version order, the kept declaration of a pair is one of its newest. */
  lemma {:induction false} LatestIsNewest(rows: seq<Mapping>, i: nat)
    requires InVersionOrder(rows) && i < |rows|
    ensures
      var key := (rows[i].left, rows[i].right);
      && key in Latest(rows, EdgeOf()) && Latest(rows, EdgeOf())[key] in rows
      && Latest(rows, EdgeOf())[key].version >= rows[i].version
      && (Latest(rows, EdgeOf())[key].left, Latest(rows, EdgeOf())[key].right) == key
    decreases |rows|
  {
    var front, last := rows[..|rows| - 1], rows[|rows| - 1];
    assert forall m :: m in front ==> m in rows;
    if i < |front| {
      LatestIsNewest(front, i);
    }
  }

  /** Row `i` is the last declaration of the pair. */
  ghost predicate LastDeclared(rows: seq<Mapping>, i: nat, a: Company, b: Company) {
    && i < |rows| && rows[i].left == a && rows[i].right == b
    && forall j :: i < j < |rows| ==> rows[j].left != a || rows[j].right != b
  }

  lemma {:induction false} LatestIsLastDeclared(rows: seq<Mapping>, i: nat, a: Company, b: Company)
    requires LastDeclared(rows, i, a, b)
    ensures (a, b) in Latest(rows, EdgeOf()) && Latest(rows, EdgeOf())[(a, b)] == rows[i]
    decreases |rows|
  {
    if i < |rows| - 1 {
      LatestIsLastDeclared(rows[..|rows| - 1], i, a, b);
    }
  }

  lemma {:induction false} DeclaredLast(rows: seq<Mapping>, a: Company, b: Company) returns (i: nat)
    requires (a, b) in Latest(rows, EdgeOf())
    ensures LastDeclared(rows, i, a, b)
    decreases |rows|
  {
    var n := |rows| - 1;
    if rows[n].left == a && rows[n].right == b {
      i := n;
    } else {
      i := DeclaredLast(rows[..n], a, b);
    }
  }

  /** Two companies are linked exactly when both belong to the group and the last declaration
      of the pair, in that order, is for 100%. */
  lemma {:induction false} RelevantExactly(rows: seq<Mapping>, group: set<Company>, a: Company, b: Company)
    ensures (a, b) in Relevant(rows, group) <==>
      a in group && b in group && exists i: nat :: LastDeclared(rows, i, a, b) && rows[i].full
  {
    if (a, b) in Relevant(rows, group) {
      var i := DeclaredLast(rows, a, b);
      LatestIsLastDeclared(rows, i, a, b);
    }
    if a in group && b in group && exists i: nat :: LastDeclared(rows, i, a, b) && rows[i].full {
      var i: nat :| LastDeclared(rows, i, a, b) && rows[i].full;
      LatestIsLastDeclared(rows, i, a, b);
    }
  }
}
