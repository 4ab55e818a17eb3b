/** Proof that an operation is backed by one live journal as of a date: the posted original,
    or an approved replacement whose whole ancestry has been reversed by then. */
module InvoiceEvidence {
  import opened Options

  type JournalId = string
  type OperationId = string

  datatype Kind = SaleService | PurchaseService | Receipt | Payment | OtherKind

  /** Posted journals never change; dates are day numbers, money is in 10^-6 IRR. */
  datatype Journal = Journal(date: int, reversalOf: Option<JournalId>, replacementOf: Option<JournalId>,
                             party: string, amount: int)
  datatype Operation = Operation(kind: Kind, original: Option<JournalId>, reference: string)

  /** `sound` are the journals whose draft state, lines, unit, party text and account roles
      pass the content checks now (roles may be reassigned, so this set may change). */
  datatype Book = Book(journals: map<JournalId, Journal>, operations: map<OperationId, Operation>,
                       sound: set<JournalId>)

  datatype Source = Source(operation: OperationId, kind: Kind, journal: JournalId, party: string, date: int,
                           amount: int, replacementOf: Option<JournalId>)

  predicate Reversed(b: Book, j: JournalId, asOf: int) {
    exists r :: r in b.journals && b.journals[r].reversalOf == Some(j) && b.journals[r].date <= asOf
  }

  /** The lineage walk of `_replacement_proof`: back through replaced journals to the
      original, each of them reversed by `asOf`; a revisited or unlinked journal fails. */
  predicate Walk(b: Book, cursor: JournalId, original: JournalId, asOf: int, visited: set<JournalId>)
    requires cursor in b.journals
    decreases b.journals.Keys - visited
  {
    cursor == original || (
      && cursor !in visited && b.journals[cursor].replacementOf.Some?
      && var parent := b.journals[cursor].replacementOf.value;
      && parent in b.journals && Reversed(b, parent, asOf)
      && Walk(b, parent, original, asOf, visited + {cursor}))
  }

  function Evidence(op: OperationId, kind: Kind, id: JournalId, j: Journal, replacement: bool): Source {
    Source(op, kind, id, j.party, j.date, j.amount, if replacement then j.replacementOf else None)
  }

  /** `_proof`; None is a refusal. */
  function Proof(b: Book, op: OperationId, asOf: int, today: int, chosen: Option<JournalId>): Option<Source> {
    if op !in b.operations || b.operations[op].kind.OtherKind? || b.operations[op].original.None? then None
    else
      var kind, original := b.operations[op].kind, b.operations[op].original.value;
      var id := if chosen.Some? then chosen.value else original;
      if id !in b.journals || original !in b.journals then None
      else
        var j := b.journals[id];
        if j.reversalOf.Some? || j.date > asOf || j.date > today || Reversed(b, id, asOf)
           || id !in b.sound || j.amount <= 0 || !Walk(b, id, original, asOf, {})
        then None
        else Some(Evidence(op, kind, id, j, id != original))
  }

  /** The walk as the service runs it. */
  method LineageWalk(b: Book, journal: JournalId, original: JournalId, asOf: int) returns (linked: bool)
    requires journal in b.journals
    ensures linked <==> exists path :: Lineage(b, journal, original, asOf, path)
  {
    WalkFollowsLineage(b, journal, original, asOf);
    var cursor := journal;
    var visited: set<JournalId> := {};
    while cursor != original
      invariant cursor in b.journals
      invariant Walk(b, journal, original, asOf, {}) == Walk(b, cursor, original, asOf, visited)
      decreases b.journals.Keys - visited
    {
      if cursor in visited || b.journals[cursor].replacementOf.None? {
        return false;
      }
      visited := visited + {cursor};
      var parent := b.journals[cursor].replacementOf.value;
      if parent !in b.journals || !Reversed(b, parent, asOf) {
        return false;
      }
      cursor := parent;
    }
    linked := true;
  }

  // ----- what the walk means -----

  /** A chain of replacements from `j` back to `original`, every ancestor reversed by `asOf`. */
  ghost predicate Lineage(b: Book, j: JournalId, original: JournalId, asOf: int, path: seq<JournalId>) {
    && path != [] && path[0] == j && path[|path| - 1] == original
    && (forall i :: 0 <= i < |path| ==> path[i] in b.journals)
    && (forall i ::
          1 <= i < |path| ==> b.journals[path[i - 1]].replacementOf == Some(path[i]) && Reversed(b, path[i], asOf))
  }

  lemma {:induction false} WalkBuildsLineage(b: Book, j: JournalId, original: JournalId, asOf: int,
                                             visited: set<JournalId>)
    returns (path: seq<JournalId>)
    requires j in b.journals && Walk(b, j, original, asOf, visited)
    ensures Lineage(b, j, original, asOf, path)
    decreases b.journals.Keys - visited
  {
    if j == original {
      path := [j];
    } else {
      var rest := WalkBuildsLineage(b, b.journals[j].replacementOf.value, original, asOf, visited + {j});
      path := [j] + rest;
    }
  }

  lemma {:induction false} SameTails(b: Book, path: seq<JournalId>, k: nat, i: nat, t: nat)
    requires k <= i && i + t < |path| && path[k] == path[i]
    requires forall m :: 0 <= m < |path| ==> path[m] in b.journals
    requires forall m :: 1 <= m < |path| ==> b.journals[path[m - 1]].replacementOf == Some(path[m])
    ensures path[k + t] == path[i + t]
  {
    if t > 0 {
      SameTails(b, path, k, i, t - 1);
      assert b.journals[path[k + t - 1]].replacementOf == Some(path[k + t]);
      assert b.journals[path[i + t - 1]].replacementOf == Some(path[i + t]);
    }
  }

  function Seen(path: seq<JournalId>, i: nat): set<JournalId>
    requires i <= |path|
  {
    set x | x in path[..i]
  }

  lemma {:induction false} LineageIsWalked(b: Book, original: JournalId, asOf: int, path: seq<JournalId>, i: nat)
    requires path != [] && i < |path| && Lineage(b, path[0], original, asOf, path)
    requires forall m :: 0 <= m < |path| - 1 ==> path[m] != original
    ensures Walk(b, path[i], original, asOf, Seen(path, i))
    decreases |path| - i
  {
    var visited := Seen(path, i);
    if i < |path| - 1 {
      if path[i] in visited {
        var k :| 0 <= k < i && path[k] == path[i];
        SameTails(b, path, k, i, |path| - 1 - i);
        assert false;
      }
      assert b.journals[path[i]].replacementOf == Some(path[i + 1]);
      LineageIsWalked(b, original, asOf, path, i + 1);
      assert path[..i + 1] == path[..i] + [path[i]];
      assert Seen(path, i + 1) == visited + {path[i]};
    }
  }

  /** The walk always ends, and succeeds exactly when such a chain exists, cycles or not. */
  lemma WalkFollowsLineage(b: Book, j: JournalId, original: JournalId, asOf: int)
    requires j in b.journals
    ensures Walk(b, j, original, asOf, {}) <==> exists path :: Lineage(b, j, original, asOf, path)
  {
    if Walk(b, j, original, asOf, {}) {
      var path := WalkBuildsLineage(b, j, original, asOf, {});
    }
    if exists path :: Lineage(b, j, original, asOf, path) {
      var path :| Lineage(b, j, original, asOf, path);
      var n := FirstAt(path, original);
      var short := path[..n + 1];
      assert Lineage(b, j, original, asOf, short);
      LineageIsWalked(b, original, asOf, short, 0);
      assert Seen(short, 0) == {};
    }
  }

  lemma FirstAt(path: seq<JournalId>, x: JournalId) returns (n: nat)
    requires x in path
    ensures n < |path| && path[n] == x && forall m :: 0 <= m < n ==> path[m] != x
  {
    n := 0;
    while path[n] != x
      invariant n < |path| && x in path[n..]
      invariant forall m :: 0 <= m < n ==> path[m] != x
      decreases |path| - n
    {
      assert path[n..] == [path[n]] + path[n + 1..];
      n := n + 1;
    }
  }

  // ----- one live journal per operation and date -----

  /** The unique constraint on replacement links. */
  ghost predicate OneReplacementEach(b: Book) {
    forall i, j ::
      i in b.journals && j in b.journals && b.journals[i].replacementOf.Some?
      && b.journals[i].replacementOf == b.journals[j].replacementOf
      ==> i == j
  }

  lemma {:induction false} LineagesShareTheirEnds(b: Book, p: seq<JournalId>, q: seq<JournalId>, original: JournalId,
                                                  asOf: int, t: nat)
    requires OneReplacementEach(b) && t < |p| && t < |q|
    requires Lineage(b, p[0], original, asOf, p) && Lineage(b, q[0], original, asOf, q)
    ensures p[|p| - 1 - t] == q[|q| - 1 - t]
  {
    if t > 0 {
      LineagesShareTheirEnds(b, p, q, original, asOf, t - 1);
      assert b.journals[p[|p| - t - 1]].replacementOf == Some(p[|p| - t]);
      assert b.journals[q[|q| - t - 1]].replacementOf == Some(q[|q| - t]);
    }
  }

  /** At any date an operation has at most one journal that counts as its evidence. */
  lemma OneJournalIsEvidence(b: Book, op: OperationId, asOf: int, today: int, c1: Option<JournalId>,
                             c2: Option<JournalId>)
    requires OneReplacementEach(b)
    requires Proof(b, op, asOf, today, c1).Some? && Proof(b, op, asOf, today, c2).Some?
    ensures Proof(b, op, asOf, today, c1) == Proof(b, op, asOf, today, c2)
  {
    var j1, j2 := Proof(b, op, asOf, today, c1).value.journal, Proof(b, op, asOf, today, c2).value.journal;
    var original := b.operations[op].original.value;
    WalkFollowsLineage(b, j1, original, asOf);
    WalkFollowsLineage(b, j2, original, asOf);
    var p :| Lineage(b, j1, original, asOf, p);
    var q :| Lineage(b, j2, original, asOf, q);
    if |p| <= |q| {
      LineagesShareTheirEnds(b, p, q, original, asOf, |p| - 1);
    } else {
      LineagesShareTheirEnds(b, q, p, original, asOf, |q| - 1);
    }
  }

  /** Accepted evidence is live: itself unreversed, everything it replaced reversed. */
  lemma EvidenceIsLive(b: Book, op: OperationId, asOf: int, today: int, chosen: Option<JournalId>)
    requires Proof(b, op, asOf, today, chosen).Some?
    ensures
      var s := Proof(b, op, asOf, today, chosen).value;
      && s.journal in b.journals && !Reversed(b, s.journal, asOf) && s.date <= asOf && s.date <= today && s.amount > 0
      && exists path :: Lineage(b, s.journal, b.operations[op].original.value, asOf, path)
  {
    var s := Proof(b, op, asOf, today, chosen).value;
    WalkFollowsLineage(b, s.journal, b.operations[op].original.value, asOf);
  }

  /** A posted journal that counts as an operation's evidence as of a day. */
  ghost predicate Stands(b: Book, original: JournalId, id: JournalId, asOf: int, today: int) {
    && id in b.journals && original in b.journals && id in b.sound
    && b.journals[id].reversalOf.None? && b.journals[id].amount > 0
    && b.journals[id].date <= asOf && b.journals[id].date <= today
    && (forall r :: r in b.journals && b.journals[r].reversalOf == Some(id) ==> b.journals[r].date > asOf)
    && exists path :: Lineage(b, id, original, asOf, path)
  }

  /** Evidence is accepted exactly when the chosen journal, or else the original, stands; it
      states that journal's own facts, and names what it replaced unless it is the original. */
  lemma EvidenceIsAcceptedExactly(b: Book, op: OperationId, asOf: int, today: int, chosen: Option<JournalId>)
    requires op in b.operations && !b.operations[op].kind.OtherKind? && b.operations[op].original.Some?
    ensures
      var original := b.operations[op].original.value;
      var id := if chosen.Some? then chosen.value else original;
      if !Stands(b, original, id, asOf, today) then Proof(b, op, asOf, today, chosen).None?
      else
        var j := b.journals[id];
        Proof(b, op, asOf, today, chosen)
        == Some(Source(op, b.operations[op].kind, id, j.party, j.date, j.amount,
                       if id == original then None else j.replacementOf))
  {
    var original := b.operations[op].original.value;
    var id := if chosen.Some? then chosen.value else original;
    if id in b.journals {
      WalkFollowsLineage(b, id, original, asOf);
    }
  }
}
