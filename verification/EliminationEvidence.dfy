/** Which pairs are eliminated, stated over the ledger lines' own fields. */
module EliminationEvidence {
  import opened Options
  import opened Sums
  import opened Elimination

  predicate Receivable(role: Role) {
    role == TradeAr || role == TradeReceivable
  }

  predicate Payable(role: Role) {
    role == TradeAp || role == TradePayable
  }

  /** Two roles accumulate together: the same service role, or two of one trade side. */
  predicate SameKind(a: Role, b: Role) {
    || (a == Revenue && b == Revenue) || (a == OperatingExpense && b == OperatingExpense)
    || (Receivable(a) && Receivable(b)) || (Payable(a) && Payable(b))
  }

  /** What a line adds to its kind: revenue and payables by credit, the others by debit. */
  function Worth(l: Line): int {
    if l.role == Revenue || Payable(l.role) then l.credit - l.debit else l.debit - l.credit
  }

  predicate Current(s: Source, l: Line) {
    s.start <= l.date && l.date <= s.end && !l.nonFlow
  }

  predicate SameHolder(a: Line, b: Line) {
    a.account == b.account && a.party == b.party && SameKind(a.role, b.role)
  }

  /** A service line stands for the net of its reference's current lines; a trade line for that
      of all its reference's lines but closing ones. */
  function NetWith(s: Source, l: Line): Line -> int {
    (x: Line) =>
      if SameHolder(x, l) && x.reference == l.reference
         && (if l.role == Revenue || l.role == OperatingExpense then Current(s, x) else !x.closing)
      then Worth(x) else 0
  }

  /** A line that makes the amount doubtful: a current service reversal under another reference,
      or any trade movement under another one. */
  predicate Doubts(s: Source, l: Line, x: Line) {
    && SameHolder(x, l) && x.reference != l.reference
    && (if l.role == Revenue || l.role == OperatingExpense then Current(s, x) && Worth(x) < 0 else Worth(x) != 0)
  }

  ghost predicate StandsAlone(s: Source, l: Line) {
    && (l.role == Revenue || l.role == OperatingExpense || s.openingKnown)
    && (forall i :: 0 <= i < |s.lines| ==> !Doubts(s, l, s.lines[i]))
    && SumBy(s.lines, NetWith(s, l)) == Worth(l)
  }

  /** The two roles of a pair: services, or a trade balance seen from both sides. */
  predicate Counterparts(services: bool, a: Role, b: Role) {
    if services then (a == Revenue && b == OperatingExpense) || (a == OperatingExpense && b == Revenue)
    else (Receivable(a) && Payable(b)) || (Payable(a) && Receivable(b))
  }

  /** The first line under an id. */
  predicate FirstUnder(lines: seq<Line>, i: nat, id: string) {
    i < |lines| && lines[i].id == id && forall j :: 0 <= j < i ==> lines[j].id != id
  }

  lemma {:induction false} FindsFirst(lines: seq<Line>, i: nat, id: string)
    requires FirstUnder(lines, i, id)
    ensures Find(lines, id) == Some(lines[i])
    decreases i
  {
    if i > 0 {
      FindsFirst(lines[1..], i - 1, id);
    }
  }

  lemma {:induction false} FindsNothing(lines: seq<Line>, id: string)
    requires forall j :: 0 <= j < |lines| ==> lines[j].id != id
    ensures Find(lines, id) == None
  {
    if lines != [] {
      FindsNothing(lines[1..], id);
    }
  }

  /** Everything a pair of lines has to meet. */
  ghost predicate Eliminable(sources: map<Company, Source>, used: set<string>, p: Pair, l: Line, r: Line)
    requires p.mapping.left in sources && p.mapping.right in sources
  {
    var ls, rs := sources[p.mapping.left], sources[p.mapping.right];
    && p.mapping.newest && l.id !in used && r.id !in used
    && l.party == p.mapping.leftParty && r.party == p.mapping.rightParty
    && l.reference != "" && l.reference == r.reference && l.date == r.date
    && Current(ls, l) && Current(rs, r) && Counterparts(p.services, l.role, r.role)
    && StandsAlone(ls, l) && StandsAlone(rs, r)
    && Worth(l) == Worth(r) && Worth(l) > 0
  }

  lemma {:induction false} StandsAloneIsEvidenced(s: Source, company: Company, l: Line)
    requires SideOf(l.role).Some?
    ensures Evidenced(s, company, SideOf(l.role).value, l) == if StandsAlone(s, l) then Some(Worth(l)) else None
  {
    var side := SideOf(l.role).value;
    var g := GroupOf(company, side, l);
    forall x ensures Blurs(s, g, x) <==> Doubts(s, l, x) {}
    SumPointwise(s.lines, s.lines, NetWeight(s, g), NetWith(s, l));
  }

  /** A requested pair is eliminated exactly when both its lines exist and meet all of that, and
      the row then takes their common worth. */
  lemma {:induction false} EliminatedExactly(sources: map<Company, Source>, used: set<string>, p: Pair, i: nat, j: nat)
    requires p.mapping.left in sources && p.mapping.right in sources
    requires FirstUnder(sources[p.mapping.left].lines, i, p.leftLine)
    requires FirstUnder(sources[p.mapping.right].lines, j, p.rightLine)
    ensures
      var l, r := sources[p.mapping.left].lines[i], sources[p.mapping.right].lines[j];
      Eliminate(sources, used, p)
      == if Eliminable(sources, used, p, l, r)
         then Some(Row(p.services, Worth(l), p.mapping.left, l, p.mapping.right, r)) else None
  {
    var l, r := sources[p.mapping.left].lines[i], sources[p.mapping.right].lines[j];
    FindsFirst(sources[p.mapping.left].lines, i, p.leftLine);
    FindsFirst(sources[p.mapping.right].lines, j, p.rightLine);
    assert Counterparts(p.services, l.role, r.role) <==> Opposed(p.services, l.role, r.role);
    if Opposed(p.services, l.role, r.role) {
      StandsAloneIsEvidenced(sources[p.mapping.left], p.mapping.left, l);
      StandsAloneIsEvidenced(sources[p.mapping.right], p.mapping.right, r);
    }
  }

  /** A pair that names a company without books, or a line that is not in them, is refused. */
  lemma {:induction false} UnknownLineIsRefused(sources: map<Company, Source>, used: set<string>, p: Pair)
    requires
      || p.mapping.left !in sources || p.mapping.right !in sources
      || (forall i :: 0 <= i < |sources[p.mapping.left].lines| ==> sources[p.mapping.left].lines[i].id != p.leftLine)
      || (forall i :: 0 <= i < |sources[p.mapping.right].lines| ==> sources[p.mapping.right].lines[i].id != p.rightLine)
    ensures Eliminate(sources, used, p) == None
  {
    if p.mapping.left in sources && p.mapping.right in sources {
      if forall i :: 0 <= i < |sources[p.mapping.left].lines| ==> sources[p.mapping.left].lines[i].id != p.leftLine {
        FindsNothing(sources[p.mapping.left].lines, p.leftLine);
      } else {
        FindsNothing(sources[p.mapping.right].lines, p.rightLine);
      }
    }
  }
}
