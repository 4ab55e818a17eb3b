/** Ledger control and balances: entries must balance, and the gross splits of receivables
    and debts are exact. */
module LedgerSplit {
  import opened Options
  import opened Sums

  /** Several role names share a side of the book, yet balance apart. */
  datatype Role = Receivable(name: string) | Debt(name: string, component: Component) | Neutral(name: string)
  datatype Component = Trade | Loan | Payroll | Tax | Other
  datatype Row = Row(entry: Option<string>, date: int, role: Role, account: string, party: string, debit: int,
                     credit: int)

  datatype Key = Key(role: Role, account: string, party: string)
  datatype EntryKey = EntryKey(entry: Option<string>, date: int)

  function KeyOf(): Row -> Key {
    (r: Row) => Key(r.role, r.account, r.party)
  }

  function EntryOf(): Row -> EntryKey {
    (r: Row) => EntryKey(r.entry, r.date)
  }

  function Net(): Row -> int {
    (r: Row) => r.debit - r.credit
  }

  function Through(ledger: seq<Row>, end: int): seq<Row> {
    if ledger == [] then []
    else
      var r := ledger[|ledger| - 1];
      Through(ledger[..|ledger| - 1], end) + (if r.date <= end then [r] else [])
  }

  function Keys(rows: seq<Row>): seq<Key> {
    KeysOf(rows, KeyOf())
  }

  function Entries(rows: seq<Row>): seq<EntryKey> {
    KeysOf(rows, EntryOf())
  }

  function Balance(rows: seq<Row>): Key -> int {
    KeySum(rows, KeyOf(), Net())
  }

  function EntryBalance(rows: seq<Row>): EntryKey -> int {
    KeySum(rows, EntryOf(), Net())
  }

  /** The entry control: every (entry, date) with an entry id nets to zero. */
  predicate EntriesBalance(rows: seq<Row>) {
    forall e :: e in Entries(rows) && e.entry.Some? ==> EntryBalance(rows)(e) == 0
  }

  function Positive(rows: seq<Row>, counts: Role -> bool): Key -> int {
    (k: Key) => if counts(k.role) && Balance(rows)(k) > 0 then Balance(rows)(k) else 0
  }

  function Negative(rows: seq<Row>, counts: Role -> bool): Key -> int {
    (k: Key) => if counts(k.role) && Balance(rows)(k) < 0 then -Balance(rows)(k) else 0
  }

  function IsReceivable(): Role -> bool {
    (role: Role) => role.Receivable?
  }

  function IsComponent(c: Component): Role -> bool {
    (role: Role) => role.Debt? && role.component == c
  }

  function NetOf(counts: Role -> bool): Row -> int {
    (r: Row) => if counts(r.role) then r.debit - r.credit else 0
  }

  // ----- the service's dictionaries -----

  /** The entry control: no (entry, date) with an entry id has a residue. */
  method EntryControl(rows: seq<Row>) returns (balanced: bool)
    ensures balanced <==> EntriesBalance(rows)
    ensures balanced ==> SumBy(Keys(rows), Balance(rows)) == SumBy(rows, Unentered())
  {
    var entries, residues := GroupTotals(rows, EntryOf(), Net());
    balanced := true;
    var i := 0;
    while i < |entries|
      invariant 0 <= i <= |entries|
      invariant balanced <==> forall j :: 0 <= j < i && entries[j].entry.Some? ==> EntryBalance(rows)(entries[j]) == 0
    {
      if entries[i].entry.Some? && residues[entries[i]] != 0 {
        balanced := false;
      }
      i := i + 1;
    }
    if balanced {
      OnlyUnenteredRowsEscapeTheControl(rows);
    }
  }

  datatype Split = Split(gross: int, opposite: int)

  /** One side of the book from the balances: positive and negative parts apart. */
  method SplitOf(rows: seq<Row>, counts: Role -> bool) returns (s: Split)
    ensures s == Split(SumBy(Keys(rows), Positive(rows, counts)), SumBy(Keys(rows), Negative(rows, counts)))
    ensures s.gross - s.opposite == SumBy(rows, NetOf(counts))
  {
    var keys, balances := GroupTotals(rows, KeyOf(), Net());
    s := Split(0, 0);
    var i := 0;
    while i < |keys|
      invariant 0 <= i <= |keys|
      invariant s.gross == SumBy(keys[..i], Positive(rows, counts))
          && s.opposite == SumBy(keys[..i], Negative(rows, counts))
    {
      SumPrefix(keys, i, Positive(rows, counts));
      SumPrefix(keys, i, Negative(rows, counts));
      var value := balances[keys[i]];
      if counts(keys[i].role) {
        s := if value > 0 then s.(gross := s.gross + value) else s.(opposite := s.opposite - value);
      }
      i := i + 1;
    }
    assert keys[..i] == keys;
    SplitsAreExact(rows, counts);
  }

  // ----- exactness -----

  /** What the positive balances of the counted roles exceed the negative ones by is the net of
      the rows with those roles: no balance is lost or counted on both sides. */
  lemma SplitsAreExact(rows: seq<Row>, counts: Role -> bool)
    ensures SumBy(Keys(rows), Positive(rows, counts)) - SumBy(Keys(rows), Negative(rows, counts))
        == SumBy(rows, NetOf(counts))
  {
    var keys := Keys(rows);
    var net := KeySum(rows, KeyOf(), NetOf(counts));
    KeysListed(rows, KeyOf());
    forall i | 0 <= i < |keys|
      ensures net(keys[i]) == 1 * Positive(rows, counts)(keys[i]) + -1 * Negative(rows, counts)(keys[i])
    {
      if counts(keys[i].role) {
        SumPointwise(rows, rows, OfKey(KeyOf(), NetOf(counts), keys[i]), OfKey(KeyOf(), Net(), keys[i]));
      } else {
        SumZero(rows, OfKey(KeyOf(), NetOf(counts), keys[i]));
      }
    }
    SumLinear(keys, Positive(rows, counts), Negative(rows, counts), net, 1, -1);
    SumByKeys(rows, keys, KeyOf(), NetOf(counts));
  }

  /** Receivables less receivable credits are the receivable net; each debt less its opposite
      balance is the negated net of its roles. */
  lemma GrossSplitsAreExact(ledger: seq<Row>, end: int, c: Component)
    ensures
      var rows := Through(ledger, end);
      && SumBy(Keys(rows), Positive(rows, IsReceivable())) - SumBy(Keys(rows), Negative(rows, IsReceivable()))
           == SumBy(rows, NetOf(IsReceivable()))
      && SumBy(Keys(rows), Negative(rows, IsComponent(c))) - SumBy(Keys(rows), Positive(rows, IsComponent(c)))
           == -SumBy(rows, NetOf(IsComponent(c)))
  {
    var rows := Through(ledger, end);
    SplitsAreExact(rows, IsReceivable());
    SplitsAreExact(rows, IsComponent(c));
  }

  /** When every row belongs to an entry and the control passes, all balances sum to zero. */
  lemma BalancedEntriesZeroTheBook(rows: seq<Row>)
    requires EntriesBalance(rows) && forall r :: r in rows ==> r.entry.Some?
    ensures SumBy(Keys(rows), Balance(rows)) == 0
  {
    OnlyUnenteredRowsEscapeTheControl(rows);
    SumZero(rows, Unentered());
  }

  function Unentered(): Row -> int {
    (r: Row) => if r.entry.None? then r.debit - r.credit else 0
  }

  function Entered(): Row -> int {
    (r: Row) => if r.entry.Some? then r.debit - r.credit else 0
  }

  lemma EnteredResidue(rows: seq<Row>, e: EntryKey)
    requires EntriesBalance(rows) && e in Entries(rows)
    ensures KeySum(rows, EntryOf(), Entered())(e) == 0
  {
    if e.entry.Some? {
      SumPointwise(rows, rows, OfKey(EntryOf(), Entered(), e), OfKey(EntryOf(), Net(), e));
    } else {
      SumZero(rows, OfKey(EntryOf(), Entered(), e));
    }
  }

  /** Rows without an entry are outside the control: the balances then sum to exactly their
      net, so the book is zero if and only if they cancel. */
  lemma OnlyUnenteredRowsEscapeTheControl(rows: seq<Row>)
    requires EntriesBalance(rows)
    ensures SumBy(Keys(rows), Balance(rows)) == SumBy(rows, Unentered())
  {
    KeysListed(rows, KeyOf());
    KeysListed(rows, EntryOf());
    SumByKeys(rows, Keys(rows), KeyOf(), Net());
    var entries := Entries(rows);
    SumByKeys(rows, entries, EntryOf(), Entered());
    forall i | 0 <= i < |entries| ensures KeySum(rows, EntryOf(), Entered())(entries[i]) == 0 {
      EnteredResidue(rows, entries[i]);
    }
    SumZero(entries, KeySum(rows, EntryOf(), Entered()));
    SumLinear(rows, Entered(), Unentered(), Net(), 1, 1);
  }

  /** A book of one row without an entry passes the control, whatever its amount. */
  lemma {:induction false} UnbalancedBookPasses(r: Row)
    requires r.entry.None?
    ensures EntriesBalance([r]) && SumBy(Keys([r]), Balance([r])) == r.debit - r.credit
  {
    forall e | e in Entries([r]) ensures e.entry.None? {
      var j := KeyHasRow([r], EntryOf(), e);
    }
    OnlyUnenteredRowsEscapeTheControl([r]);
    assert [] + [r] == [r];
    SumSnoc([], r, Unentered());
  }

  // ----- each balance on its side -----

  /** A counted balance stands on one side only, whole: positive on one, negative on the other. */
  lemma EachBalanceOnOneSide(rows: seq<Row>, counts: Role -> bool, k: Key)
    ensures
      var v, p, n := Balance(rows)(k), Positive(rows, counts)(k), Negative(rows, counts)(k);
      && p >= 0 && n >= 0 && (p == 0 || n == 0) && p - n == (if counts(k.role) then v else 0)
  {}

  function DatedReceivable(end: int): Row -> int {
    (r: Row) => if r.date <= end && r.role.Receivable? then r.debit - r.credit else 0
  }

  function DatedDebt(end: int, c: Component): Row -> int {
    (r: Row) => if r.date <= end && r.role.Debt? && r.role.component == c then r.credit - r.debit else 0
  }

  lemma {:induction false} ThroughSums(ledger: seq<Row>, end: int, f: Row -> int, g: Row -> int)
    requires forall r :: g(r) == if r.date <= end then f(r) else 0
    ensures SumBy(Through(ledger, end), f) == SumBy(ledger, g)
    decreases |ledger|
  {
    if ledger != [] {
      var front, r := ledger[..|ledger| - 1], ledger[|ledger| - 1];
      ThroughSums(front, end, f, g);
      if r.date <= end {
        SumSnoc(Through(front, end), r, f);
      } else {
        assert Through(ledger, end) == Through(front, end);
      }
    }
  }

  /** Over the whole ledger: receivables less their credits are what was debited less what was
      credited on receivable roles up to the day, and each debt less its opposite balance is
      what was credited less what was debited on its roles. */
  lemma SplitsFollowTheLedger(ledger: seq<Row>, end: int, c: Component)
    ensures
      var rows := Through(ledger, end);
      && SumBy(Keys(rows), Positive(rows, IsReceivable())) - SumBy(Keys(rows), Negative(rows, IsReceivable()))
         == SumBy(ledger, DatedReceivable(end))
      && SumBy(Keys(rows), Negative(rows, IsComponent(c))) - SumBy(Keys(rows), Positive(rows, IsComponent(c)))
         == SumBy(ledger, DatedDebt(end, c))
  {
    var rows := Through(ledger, end);
    GrossSplitsAreExact(ledger, end, c);
    ThroughSums(ledger, end, NetOf(IsReceivable()), DatedReceivable(end));
    SumLinear(rows, NetOf(IsComponent(c)), NetOf(IsComponent(c)), Owed(c), -1, 0);
    ThroughSums(ledger, end, Owed(c), DatedDebt(end, c));
  }

  function Owed(c: Component): Row -> int {
    (r: Row) => if r.role.Debt? && r.role.component == c then r.credit - r.debit else 0
  }
}
