/** Draft eliminations between group companies: each requested pair must be two equal,
    independently evidenced amounts, and no ledger line may be used twice. */
module Elimination {
  import opened Options
  import opened Sums

  type Company = string

  datatype Role = TradeAr | TradeReceivable | TradeAp | TradePayable | Revenue | OperatingExpense | OtherRole
  datatype Side = Receivables | Payables | Revenues | Expenses

  /** `nonFlow`: opening or any closing entry; `closing`: a closing or transfer entry. */
  datatype Line = Line(id: string, account: string, party: string, reference: string, role: Role, date: int,
                       nonFlow: bool, closing: bool, debit: int, credit: int)

  /** `openingKnown` is false for a native statement without opening evidence. */
  datatype Source = Source(lines: seq<Line>, start: int, end: int, openingKnown: bool)
  datatype Mapping = Mapping(left: Company, right: Company, leftParty: string, rightParty: string, newest: bool)
  datatype Pair = Pair(mapping: Mapping, leftLine: string, rightLine: string, services: bool)

  /** What one accepted pair eliminates on each side. */
  datatype Row = Row(services: bool, amount: int, leftCompany: Company, left: Line, rightCompany: Company, right: Line)

  function SideOf(role: Role): Option<Side> {
    match role
    case TradeAr | TradeReceivable => Some(Receivables)
    case TradeAp | TradePayable => Some(Payables)
    case Revenue => Some(Revenues)
    case OperatingExpense => Some(Expenses)
    case OtherRole => None
  }

  /** The sign in which a side accumulates. */
  function Signed(side: Side, l: Line): int {
    if side.Receivables? || side.Expenses? then l.debit - l.credit else l.credit - l.debit
  }

  /** Where a line's reference lives: one account and party of one side of one company. */
  datatype Group = Group(company: Company, account: string, party: string, reference: string, side: Side)

  /** Services group by exact role, trade balances by their role set: the same side either way. */
  predicate SameAccount(g: Group, l: Line) {
    l.account == g.account && l.party == g.party && SideOf(l.role) == Some(g.side)
  }

  predicate InPeriod(s: Source, l: Line) {
    s.start <= l.date <= s.end && !l.nonFlow
  }

  predicate Counts(s: Source, g: Group, l: Line) {
    SameAccount(g, l) && l.reference == g.reference &&
    (if g.side.Revenues? || g.side.Expenses? then InPeriod(s, l) else !l.closing)
  }

  function NetWeight(s: Source, g: Group): Line -> int {
    (l: Line) => if Counts(s, g, l) then Signed(g.side, l) else 0
  }

  /** The net of a reference. */
  function NetOf(s: Source, g: Group): int {
    SumBy(s.lines, NetWeight(s, g))
  }

  /** Another reference that would blur the amount: a reversal of services elsewhere, or any
      other movement of a trade account. */
  predicate Blurs(s: Source, g: Group, l: Line) {
    SameAccount(g, l) && l.reference != g.reference &&
    (if g.side.Revenues? || g.side.Expenses? then InPeriod(s, l) && Signed(g.side, l) < 0 else Signed(g.side, l) != 0)
  }

  function GroupOf(company: Company, side: Side, l: Line): Group {
    Group(company, l.account, l.party, l.reference, side)
  }

  /** `_services_amount` and `outstanding`: the line must be the whole net of its reference. */
  function Evidenced(s: Source, company: Company, side: Side, l: Line): Option<int> {
    var g := GroupOf(company, side, l);
    if (side.Receivables? || side.Payables?) && !s.openingKnown then None
    else if exists i :: 0 <= i < |s.lines| && Blurs(s, g, s.lines[i]) then None
    else if NetOf(s, g) != Signed(side, l) then None
    else Some(NetOf(s, g))
  }

  method EvidencedAmount(s: Source, company: Company, side: Side, l: Line) returns (amount: Option<int>)
    ensures amount == Evidenced(s, company, side, l)
  {
    var g := GroupOf(company, side, l);
    if (side.Receivables? || side.Payables?) && !s.openingKnown {
      return None;
    }
    var total, i := 0, 0;
    while i < |s.lines|
      invariant 0 <= i <= |s.lines| && total == SumBy(s.lines[..i], NetWeight(s, g))
      invariant forall j :: 0 <= j < i ==> !Blurs(s, g, s.lines[j])
    {
      SumPrefix(s.lines, i, NetWeight(s, g));
      if Blurs(s, g, s.lines[i]) {
        return None;
      }
      if Counts(s, g, s.lines[i]) {
        total := total + Signed(side, s.lines[i]);
      }
      i := i + 1;
    }
    assert s.lines[..i] == s.lines;
    amount := if total == Signed(side, l) then Some(total) else None;
  }

  function Find(lines: seq<Line>, id: string): Option<Line> {
    if lines == [] then None
    else if lines[0].id == id then Some(lines[0])
    else Find(lines[1..], id)
  }

  predicate Opposed(services: bool, left: Role, right: Role) {
    var l, r := SideOf(left), SideOf(right);
    if services then (l == Some(Revenues) && r == Some(Expenses)) || (l == Some(Expenses) && r == Some(Revenues))
    else (l == Some(Receivables) && r == Some(Payables)) || (l == Some(Payables) && r == Some(Receivables))
  }

  /** One requested pair against the sources and the lines used so far. */
  function Eliminate(sources: map<Company, Source>, used: set<string>, p: Pair): Option<Row> {
    var m := p.mapping;
    if m.left !in sources || m.right !in sources || !m.newest then None
    else
      var ls, rs := sources[m.left], sources[m.right];
      var lo, ro := Find(ls.lines, p.leftLine), Find(rs.lines, p.rightLine);
      if lo.None? || ro.None? then None
      else
        var l, r := lo.value, ro.value;
        if l.id in used || r.id in used || l.party != m.leftParty || r.party != m.rightParty
           || l.reference == "" || l.reference != r.reference || l.date != r.date
           || !InPeriod(ls, l) || !InPeriod(rs, r) || !Opposed(p.services, l.role, r.role)
        then None
        else
          var lv, rv := Evidenced(ls, m.left, SideOf(l.role).value, l), Evidenced(rs, m.right, SideOf(r.role).value, r);
          if lv.None? || rv != lv || lv.value <= 0 then None
          else Some(Row(p.services, lv.value, m.left, l, m.right, r))
  }

  function Services(): Row -> int {
    (r: Row) => if r.services then r.amount else 0
  }

  function Balances(): Row -> int {
    (r: Row) => if r.services then 0 else r.amount
  }

  function UsedBy(rows: seq<Row>): set<string> {
    if rows == [] then {}
    else
      var r := rows[|rows| - 1];
      UsedBy(rows[..|rows| - 1]) + {r.left.id, r.right.id}
  }

  function EliminateAll(sources: map<Company, Source>, pairs: seq<Pair>): Option<seq<Row>> {
    if pairs == [] then Some([])
    else
      var rest := EliminateAll(sources, pairs[..|pairs| - 1]);
      if rest.None? then None
      else
        var row := Eliminate(sources, UsedBy(rest.value), pairs[|pairs| - 1]);
        if row.None? then None else Some(rest.value + [row.value])
  }

  datatype Metrics = Metrics(revenue: int, expense: int, receivables: int, payables: int)

  lemma EmptyDraft(sources: map<Company, Source>, pairs: seq<Pair>, rows: seq<Row>)
    requires pairs == [] && rows == []
    ensures EliminateAll(sources, pairs) == Some(rows) && UsedBy(rows) == {}
    ensures SumBy(rows, Services()) == 0 && SumBy(rows, Balances()) == 0
  {}

  lemma DraftNext(sources: map<Company, Source>, pairs: seq<Pair>, i: nat, rows: seq<Row>, row: Row)
    requires i < |pairs| && EliminateAll(sources, pairs[..i]) == Some(rows)
    requires Eliminate(sources, UsedBy(rows), pairs[i]) == Some(row)
    ensures EliminateAll(sources, pairs[..i + 1]) == Some(rows + [row])
    ensures UsedBy(rows + [row]) == UsedBy(rows) + {row.left.id, row.right.id}
    ensures SumBy(rows + [row], Services()) == SumBy(rows, Services()) + Services()(row)
    ensures SumBy(rows + [row], Balances()) == SumBy(rows, Balances()) + Balances()(row)
  {
    assert pairs[..i + 1][..i] == pairs[..i];
    assert (rows + [row])[..|rows|] == rows;
    SumSnoc(rows, row, Services());
    SumSnoc(rows, row, Balances());
  }

  /** The pair loop of `create_draft`, and the adjusted group metrics. */
  method CreateDraft(sources: map<Company, Source>, pairs: seq<Pair>, before: Metrics)
    returns (rows: Option<seq<Row>>, after: Metrics)
    ensures rows == EliminateAll(sources, pairs)
    ensures rows.Some? ==>
      && after.revenue == before.revenue - SumBy(rows.value, Services())
      && after.expense == before.expense - SumBy(rows.value, Services())
      && after.receivables == before.receivables - SumBy(rows.value, Balances())
      && after.payables == before.payables - SumBy(rows.value, Balances())
    ensures after.revenue - after.expense == before.revenue - before.expense
    ensures after.receivables - after.payables == before.receivables - before.payables
  {
    var done: seq<Row> := [];
    var used: set<string> := {};
    var services, balances, i := 0, 0, 0;
    EmptyDraft(sources, pairs[..i], done);
    while i < |pairs|
      invariant 0 <= i <= |pairs| && EliminateAll(sources, pairs[..i]) == Some(done)
      invariant used == UsedBy(done) && services == SumBy(done, Services()) && balances == SumBy(done, Balances())
    {
      var row := Eliminate(sources, used, pairs[i]);
      if row.None? {
        assert pairs[..i + 1][..i] == pairs[..i];
        StaysRefused(sources, pairs, i + 1);
        return None, before;
      }
      DraftNext(sources, pairs, i, done, row.value);
      if row.value.services {
        services := services + row.value.amount;
      } else {
        balances := balances + row.value.amount;
      }
      used := used + {row.value.left.id, row.value.right.id};
      done := done + [row.value];
      i := i + 1;
    }
    assert pairs[..i] == pairs;
    rows := Some(done);
    after := Metrics(before.revenue - services, before.expense - services,
                     before.receivables - balances, before.payables - balances);
  }

  lemma {:induction false} StaysRefused(sources: map<Company, Source>, pairs: seq<Pair>, i: nat)
    requires i <= |pairs| && EliminateAll(sources, pairs[..i]).None?
    ensures EliminateAll(sources, pairs).None?
    decreases |pairs|
  {
    if i < |pairs| {
      assert pairs[..|pairs| - 1][..i] == pairs[..i];
      StaysRefused(sources, pairs[..|pairs| - 1], i);
    } else {
      assert pairs[..i] == pairs;
    }
  }

  // ----- what an accepted draft guarantees -----

  function LineIds(rows: seq<Row>): seq<string> {
    if rows == [] then [] else LineIds(rows[..|rows| - 1]) + [rows[|rows| - 1].left.id, rows[|rows| - 1].right.id]
  }

  /** Both sides of every row are the positive whole net of their own reference. */
  ghost predicate RowEvidenced(sources: map<Company, Source>, r: Row) {
    && r.leftCompany in sources && r.rightCompany in sources && r.amount > 0
    && SideOf(r.left.role).Some? && SideOf(r.right.role).Some?
    && NetOf(sources[r.leftCompany], GroupOf(r.leftCompany, SideOf(r.left.role).value, r.left)) == r.amount
    && NetOf(sources[r.rightCompany], GroupOf(r.rightCompany, SideOf(r.right.role).value, r.right)) == r.amount
    && Signed(SideOf(r.left.role).value, r.left) == r.amount == Signed(SideOf(r.right.role).value, r.right)
    && Opposed(r.services, r.left.role, r.right.role)
  }

  lemma {:induction false} UsedAreIds(rows: seq<Row>)
    ensures forall x :: x in UsedBy(rows) <==> x in LineIds(rows)
    decreases |rows|
  {
    if rows != [] {
      UsedAreIds(rows[..|rows| - 1]);
    }
  }

  /** Line ids are unique across the group's books. */
  ghost predicate DistinctLines(sources: map<Company, Source>) {
    forall a, b, l, m ::
      a in sources && b in sources && l in sources[a].lines && m in sources[b].lines && l.id == m.id
      ==> a == b && l == m
  }

  lemma {:induction false} FindFinds(lines: seq<Line>, id: string)
    ensures Find(lines, id).Some? ==> Find(lines, id).value in lines && Find(lines, id).value.id == id
    decreases |lines|
  {
    if lines != [] && lines[0].id != id {
      FindFinds(lines[1..], id);
    }
  }

  lemma SidesDiffer(sources: map<Company, Source>, r: Row)
    requires DistinctLines(sources) && r.leftCompany in sources && r.rightCompany in sources
    requires r.left in sources[r.leftCompany].lines && r.right in sources[r.rightCompany].lines
    requires Opposed(r.services, r.left.role, r.right.role)
    ensures r.left.id != r.right.id
  {}

  lemma AcceptedPair(sources: map<Company, Source>, used: set<string>, p: Pair)
    requires Eliminate(sources, used, p).Some?
    ensures
      var r := Eliminate(sources, used, p).value;
      RowEvidenced(sources, r) && r.left.id !in used && r.right.id !in used
    ensures
      var r := Eliminate(sources, used, p).value;
      r.left in sources[r.leftCompany].lines && r.right in sources[r.rightCompany].lines
  {
    var r := Eliminate(sources, used, p).value;
    FindFinds(sources[r.leftCompany].lines, p.leftLine);
    FindFinds(sources[r.rightCompany].lines, p.rightLine);
  }

  ghost predicate SoundDraft(sources: map<Company, Source>, rows: seq<Row>) {
    Distinct(LineIds(rows)) && forall i :: 0 <= i < |rows| ==> RowEvidenced(sources, rows[i])
  }

  lemma SoundSnoc(sources: map<Company, Source>, rows: seq<Row>, r: Row)
    requires SoundDraft(sources, rows) && RowEvidenced(sources, r)
    requires r.left.id !in UsedBy(rows) && r.right.id !in UsedBy(rows) && r.left.id != r.right.id
    ensures SoundDraft(sources, rows + [r]) && |LineIds(rows + [r])| == |LineIds(rows)| + 2
  {
    UsedAreIds(rows);
    assert (rows + [r])[..|rows|] == rows;
    DistinctSnoc(LineIds(rows), r.left.id);
    DistinctSnoc(LineIds(rows) + [r.left.id], r.right.id);
    assert LineIds(rows + [r]) == LineIds(rows) + [r.left.id] + [r.right.id];
  }

  /** Every accepted pair is evidenced on both sides, and no line is eliminated twice. */
  lemma {:induction false} NoLineIsEliminatedTwice(sources: map<Company, Source>, pairs: seq<Pair>)
    requires DistinctLines(sources) && EliminateAll(sources, pairs).Some?
    ensures SoundDraft(sources, EliminateAll(sources, pairs).value)
    ensures |LineIds(EliminateAll(sources, pairs).value)| == 2 * |pairs|
    decreases |pairs|
  {
    if pairs != [] {
      var n := |pairs| - 1;
      NoLineIsEliminatedTwice(sources, pairs[..n]);
      var rest := EliminateAll(sources, pairs[..n]).value;
      AcceptedPair(sources, UsedBy(rest), pairs[n]);
      SidesDiffer(sources, Eliminate(sources, UsedBy(rest), pairs[n]).value);
      SoundSnoc(sources, rest, Eliminate(sources, UsedBy(rest), pairs[n]).value);
    }
  }

  lemma DistinctSnoc(ids: seq<string>, x: string)
    requires Distinct(ids) && x !in ids
    ensures Distinct(ids + [x])
  {}

  // ----- eliminated against outstanding -----

  function EliminatedIn(g: Group): Row -> int {
    (r: Row) =>
      (if SideOf(r.left.role) == Some(g.side) && GroupOf(r.leftCompany, g.side, r.left) == g then r.amount else 0)
      + (if SideOf(r.right.role) == Some(g.side) && GroupOf(r.rightCompany, g.side, r.right) == g then r.amount else 0)
  }

  function TimesIn(g: Group): Row -> int {
    (r: Row) =>
      (if SideOf(r.left.role) == Some(g.side) && GroupOf(r.leftCompany, g.side, r.left) == g then 1 else 0)
      + (if SideOf(r.right.role) == Some(g.side) && GroupOf(r.rightCompany, g.side, r.right) == g then 1 else 0)
  }

  /** How many of a requested pair's two lines stand under the reference. */
  function TimesRequested(sources: map<Company, Source>, g: Group): Pair -> int {
    (p: Pair) => Names(sources, g, p.mapping.left, p.leftLine) + Names(sources, g, p.mapping.right, p.rightLine)
  }

  function Names(sources: map<Company, Source>, g: Group, company: Company, id: string): int {
    if company !in sources || Find(sources[company].lines, id).None? then 0
    else
      var l := Find(sources[company].lines, id).value;
      if SideOf(l.role) == Some(g.side) && GroupOf(company, g.side, l) == g then 1 else 0
  }

  lemma {:induction false} RequestedAreTaken(sources: map<Company, Source>, pairs: seq<Pair>, g: Group)
    requires EliminateAll(sources, pairs).Some?
    ensures SumBy(EliminateAll(sources, pairs).value, TimesIn(g)) == SumBy(pairs, TimesRequested(sources, g))
    decreases |pairs|
  {
    if pairs != [] {
      var n := |pairs| - 1;
      RequestedAreTaken(sources, pairs[..n], g);
      var rest := EliminateAll(sources, pairs[..n]).value;
      var row := Eliminate(sources, UsedBy(rest), pairs[n]).value;
      SumSnoc(rest, row, TimesIn(g));
      assert TimesIn(g)(row) == TimesRequested(sources, g)(pairs[n]);
    }
  }

  lemma RowsTakeNet(sources: map<Company, Source>, rows: seq<Row>, g: Group)
    requires g.company in sources && forall i :: 0 <= i < |rows| ==> RowEvidenced(sources, rows[i])
    ensures SumBy(rows, EliminatedIn(g)) == NetOf(sources[g.company], g) * SumBy(rows, TimesIn(g))
  {
    var net := NetOf(sources[g.company], g);
    forall i | 0 <= i < |rows| ensures EliminatedIn(g)(rows[i]) == net * TimesIn(g)(rows[i]) + 0 * TimesIn(g)(rows[i]) {
      RowTakesNet(sources, rows[i], g);
    }
    SumLinear(rows, TimesIn(g), TimesIn(g), EliminatedIn(g), net, 0);
  }

  /** A draft takes from a reference its net once per requested line, so it takes more than is
      outstanding exactly when two of the reference's lines are requested. */
  lemma EliminatedExceedsNetExactly(sources: map<Company, Source>, pairs: seq<Pair>, g: Group)
    requires DistinctLines(sources) && EliminateAll(sources, pairs).Some?
    requires g.company in sources && NetOf(sources[g.company], g) > 0
    ensures
      var rows, net := EliminateAll(sources, pairs).value, NetOf(sources[g.company], g);
      var times := SumBy(pairs, TimesRequested(sources, g));
      SumBy(rows, EliminatedIn(g)) == net * times && (SumBy(rows, EliminatedIn(g)) <= net <==> times <= 1)
  {
    var rows := EliminateAll(sources, pairs).value;
    NoLineIsEliminatedTwice(sources, pairs);
    RowsTakeNet(sources, rows, g);
    RequestedAreTaken(sources, pairs, g);
    SumNonNegative(rows, TimesIn(g));
    AtMostOnce(NetOf(sources[g.company], g), SumBy(pairs, TimesRequested(sources, g)));
  }

  lemma RowTakesNet(sources: map<Company, Source>, r: Row, g: Group)
    requires RowEvidenced(sources, r) && g.company in sources
    ensures EliminatedIn(g)(r) == NetOf(sources[g.company], g) * TimesIn(g)(r)
  {}

  lemma AtMostOnce(net: int, k: int)
    requires net > 0 && k >= 0
    ensures net * k <= net <==> k <= 1
  {
    if k >= 2 {
      assert net * k >= net * 2;
    }
  }

  // ----- such a draft exists -----

  function Sale(id: string, v: int): Line {
    Line(id, "ar", "b", "inv", TradeAr, 1, false, false, if v > 0 then v else 0, if v < 0 then -v else 0)
  }

  function Purchase(id: string, v: int): Line {
    Line(id, "ap", "a", "inv", TradeAp, 1, false, false, if v < 0 then -v else 0, if v > 0 then v else 0)
  }

  function Seller(): Source {
    Source([] + [Sale("a1", 100)] + [Sale("a2", 100)] + [Sale("a3", -100)], 0, 9, true)
  }

  function Buyer(): Source {
    Source([] + [Purchase("b1", 100)] + [Purchase("b2", 100)] + [Purchase("b3", -100)], 0, 9, true)
  }

  function Requested(l: string, r: string): Pair {
    Pair(Mapping("A", "B", "b", "a", true), l, r, false)
  }

  function Both(l: Line, r: Line): Row {
    Row(false, 100, "A", l, "B", r)
  }

  lemma SellerNet()
    ensures NetOf(Seller(), Group("A", "ar", "b", "inv", Receivables)) == 100
    ensures forall i :: 0 <= i < 3 ==> !Blurs(Seller(), Group("A", "ar", "b", "inv", Receivables), Seller().lines[i])
  {
    var w := NetWeight(Seller(), Group("A", "ar", "b", "inv", Receivables));
    SumSnoc([], Sale("a1", 100), w);
    SumSnoc([] + [Sale("a1", 100)], Sale("a2", 100), w);
    SumSnoc([] + [Sale("a1", 100)] + [Sale("a2", 100)], Sale("a3", -100), w);
  }

  lemma BuyerNet()
    ensures NetOf(Buyer(), Group("B", "ap", "a", "inv", Payables)) == 100
    ensures forall i :: 0 <= i < 3 ==> !Blurs(Buyer(), Group("B", "ap", "a", "inv", Payables), Buyer().lines[i])
  {
    var w := NetWeight(Buyer(), Group("B", "ap", "a", "inv", Payables));
    SumSnoc([], Purchase("b1", 100), w);
    SumSnoc([] + [Purchase("b1", 100)], Purchase("b2", 100), w);
    SumSnoc([] + [Purchase("b1", 100)] + [Purchase("b2", 100)], Purchase("b3", -100), w);
  }

  lemma PairIsEliminated(used: set<string>, l: Line, r: Line)
    requires (l == Sale("a1", 100) && r == Purchase("b1", 100)) || (l == Sale("a2", 100) && r == Purchase("b2", 100))
    requires l.id !in used && r.id !in used
    ensures Eliminate(map["A" := Seller(), "B" := Buyer()], used, Requested(l.id, r.id)) == Some(Both(l, r))
  {
    SellerNet();
    BuyerNet();
    var ls, rs := Seller().lines, Buyer().lines;
    assert ls[0] == Sale("a1", 100) && ls[1..][0] == Sale("a2", 100);
    assert rs[0] == Purchase("b1", 100) && rs[1..][0] == Purchase("b2", 100);
    assert Find(ls, l.id) == Some(l) && Find(rs, r.id) == Some(r);
    assert Evidenced(Seller(), "A", Receivables, l) == Some(100);
    assert Evidenced(Buyer(), "B", Payables, r) == Some(100);
  }

  /** Lines of 100, 100 and -100 under one reference on both sides: both hundreds are accepted,
      and 200 is eliminated where 100 is outstanding. */
  lemma EliminationCanExceedNet()
    ensures
      var sources := map["A" := Seller(), "B" := Buyer()];
      var g := Group("A", "ar", "b", "inv", Receivables);
      var rows := EliminateAll(sources, [] + [Requested("a1", "b1")] + [Requested("a2", "b2")]);
      rows.Some? && NetOf(Seller(), g) == 100 && SumBy(rows.value, EliminatedIn(g)) == 200
  {
    var sources := map["A" := Seller(), "B" := Buyer()];
    var g := Group("A", "ar", "b", "inv", Receivables);
    var first, second := Both(Sale("a1", 100), Purchase("b1", 100)), Both(Sale("a2", 100), Purchase("b2", 100));
    var pairs := [] + [Requested("a1", "b1")] + [Requested("a2", "b2")];
    SellerNet();
    assert pairs[..1] == [Requested("a1", "b1")] && pairs[..1][..0] == [];
    PairIsEliminated({}, Sale("a1", 100), Purchase("b1", 100));
    assert EliminateAll(sources, pairs[..1]) == Some([] + [first]);
    assert ([] + [first])[..0] == [];
    assert UsedBy([] + [first]) == {"a1", "b1"};
    PairIsEliminated({"a1", "b1"}, Sale("a2", 100), Purchase("b2", 100));
    assert EliminateAll(sources, pairs) == Some([] + [first] + [second]);
    SumSnoc([], first, EliminatedIn(g));
    SumSnoc([] + [first], second, EliminatedIn(g));
  }
}
