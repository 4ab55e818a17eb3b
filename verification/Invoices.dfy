/** Operational invoices over the evidence: append-only source revisions, terms, allocations
    and reversals, each dated and readable as of any past day. */
module Invoices {
  import opened Options
  import opened Sums
  import opened InvoiceEvidence

  type InvoiceId = nat
  datatype Direction = Sale | Purchase

  datatype Invoice = Invoice(operation: OperationId, direction: Direction, source: Source, version: nat)

  /** `reversedOn` is the date of the allocation's reversal row; there is at most one. */
  datatype Allocation = Allocation(invoice: InvoiceId, source: Source, amount: int, effectiveDate: Option<int>,
                                   reversedOn: Option<int>)
  datatype Revision = Revision(invoice: InvoiceId, version: int, effective: int, source: Source)
  datatype Payload = Payload(due: Option<int>, dueUnknown: bool, expected: Option<int>, expectedUnknown: bool)
  datatype Terms = Terms(invoice: InvoiceId, version: int, effective: int, payload: Payload)

  datatype Store = Store(today: int, book: Book, invoices: seq<Invoice>, allocations: seq<Allocation>,
                         revisions: seq<Revision>, terms: seq<Terms>)

  // ----- reading as of a day -----

  function Effective(a: Allocation): int {
    if a.effectiveDate.Some? then a.effectiveDate.value else a.source.date
  }

  predicate Visible(a: Allocation, d: int) {
    a.source.date <= d && Effective(a) <= d
  }

  predicate ReversedBy(a: Allocation, d: int) {
    a.reversedOn.Some? && a.reversedOn.value <= d
  }

  predicate Live(a: Allocation, d: int) {
    Visible(a, d) && !ReversedBy(a, d)
  }

  /** `ORDER BY effective_date DESC, version DESC`, first row. */
  predicate Newer(r: Revision, best: Option<Revision>) {
    || best.None? || r.effective > best.value.effective
    || (r.effective == best.value.effective && r.version >= best.value.version)
  }

  function NewestRevision(rs: seq<Revision>, inv: InvoiceId, d: int): Option<Revision> {
    if rs == [] then None
    else
      var best := NewestRevision(rs[..|rs| - 1], inv, d);
      var r := rs[|rs| - 1];
      if r.invoice == inv && r.effective <= d && Newer(r, best) then Some(r) else best
  }

  predicate NewerTerms(t: Terms, best: Option<Terms>) {
    || best.None? || t.effective > best.value.effective
    || (t.effective == best.value.effective && t.version >= best.value.version)
  }

  function TermsFor(ts: seq<Terms>, inv: InvoiceId, d: int): Option<Terms> {
    if ts == [] then None
    else
      var best := TermsFor(ts[..|ts| - 1], inv, d);
      var t := ts[|ts| - 1];
      if t.invoice == inv && t.effective <= d && NewerTerms(t, best) then Some(t) else best
  }

  function SelectedSource(s: Store, inv: InvoiceId, d: int): Source
    requires inv < |s.invoices|
  {
    var r := NewestRevision(s.revisions, inv, d);
    if r.Some? then r.value.source else s.invoices[inv].source
  }

  predicate Current(s: Store, source: Source, d: int) {
    Proof(s.book, source.operation, d, s.today, Some(source.journal)) == Some(source)
  }

  /** One allocation line of the detail view. */
  datatype Line = Line(id: nat, source: Source, amount: int, reversed: bool, current: bool)

  function LineOf(s: Store, id: nat, d: int): Line
    requires id < |s.allocations|
  {
    var a := s.allocations[id];
    Line(id, a.source, a.amount, ReversedBy(a, d), Current(s, a.source, d))
  }

  function LinesUpTo(s: Store, inv: InvoiceId, d: int, n: nat): seq<Line>
    requires n <= |s.allocations|
  {
    if n == 0 then []
    else
      var rest := LinesUpTo(s, inv, d, n - 1);
      if s.allocations[n - 1].invoice == inv && Visible(s.allocations[n - 1], d)
      then rest + [LineOf(s, n - 1, d)] else rest
  }

  function Counted(): Line -> int {
    (l: Line) => if l.reversed || !l.current then 0 else l.amount
  }

  datatype Reason = SourceInvalid | TermsMissing | AllocationInvalid
  datatype View = View(source: Source, terms: Option<Terms>, lines: seq<Line>, reason: Option<Reason>,
                       remaining: Option<int>)

  predicate AnyInvalid(lines: seq<Line>) {
    exists i :: 0 <= i < |lines| && !lines[i].reversed && !lines[i].current
  }

  /** `detail`: remaining is stated only when every piece of evidence behind it holds. */
  function Detail(s: Store, inv: InvoiceId, d: int): View
    requires inv < |s.invoices|
  {
    var source := SelectedSource(s, inv, d);
    var terms := TermsFor(s.terms, inv, d);
    var lines := LinesUpTo(s, inv, d, |s.allocations|);
    var reason := if !Current(s, source, d) then Some(SourceInvalid)
                  else if terms.None? then Some(TermsMissing)
                  else if AnyInvalid(lines) then Some(AllocationInvalid) else None;
    View(source, terms, lines, reason, if reason.None? then Some(source.amount - SumBy(lines, Counted())) else None)
  }

  // ----- weights -----

  function LiveOf(op: OperationId, d: int): Allocation -> int {
    (a: Allocation) => if a.source.operation == op && Live(a, d) then a.amount else 0
  }

  function ActiveOf(op: OperationId): Allocation -> int {
    (a: Allocation) => if a.source.operation == op && a.reversedOn.None? then a.amount else 0
  }

  function LiveOn(inv: InvoiceId, d: int): Allocation -> int {
    (a: Allocation) => if a.invoice == inv && Live(a, d) then a.amount else 0
  }

  // ----- steps -----

  predicate Released(s: Store, source: Source) {
    forall i :: 0 <= i < |s.allocations| ==>
      var a := s.allocations[i];
      a.source.operation == source.operation && a.reversedOn.None? ==> a.source.journal == source.journal
  }

  /** `_capacity`: None while an unreleased allocation cites another journal. */
  function Capacity(s: Store, source: Source): Option<int> {
    if Released(s, source) then Some(source.amount - SumBy(s.allocations, ActiveOf(source.operation))) else None
  }

  predicate EverReversed(s: Store, op: OperationId) {
    exists i :: 0 <= i < |s.allocations| && s.allocations[i].source.operation == op && s.allocations[i].reversedOn.Some?
  }

  /** The last revision in version order among those already effective. */
  function LastRevision(rs: seq<Revision>, inv: InvoiceId, d: int): Option<Revision> {
    if rs == [] then None
    else
      var best := LastRevision(rs[..|rs| - 1], inv, d);
      var r := rs[|rs| - 1];
      if r.invoice == inv && r.effective <= d && (best.None? || r.version >= best.value.version) then Some(r) else best
  }

  function MaxInt(a: int, b: int): int {
    if a >= b then a else b
  }

  /** Re-using a released receipt, or using a replacement, takes effect today at the earliest. */
  function EffectiveDate(s: Store, inv: InvoiceId, source: Source): int {
    var last := LastRevision(s.revisions, inv, s.today);
    var e1 := if last.Some? then MaxInt(source.date, last.value.effective) else source.date;
    if EverReversed(s, source.operation) || source.replacementOf.Some? then MaxInt(e1, s.today) else e1
  }

  /** `seen` is the journal whose digest the caller was shown; `journal` the one chosen, if any. */
  datatype AllocateInput = AllocateInput(invoice: InvoiceId, version: nat, operation: OperationId,
                                         journal: Option<JournalId>, seen: JournalId, amount: int)
  datatype CreateInput = CreateInput(operation: OperationId, seen: JournalId, reference: string, payload: Payload)

  predicate Matches(d: Direction, kind: Kind) {
    if d.Sale? then kind.Receipt? else kind.Payment?
  }

  /** The source `allocate` would charge, or None when one of its requirements fails. */
  function AllocateSource(s: Store, x: AllocateInput): Option<Source> {
    if x.invoice >= |s.invoices| || s.invoices[x.invoice].version != x.version then None
    else
      var invoice := s.invoices[x.invoice];
      var status := Detail(s, x.invoice, s.today);
      var proof := Proof(s.book, x.operation, s.today, s.today, x.journal);
      if status.reason.Some? || proof.None? then None
      else
        var source := proof.value;
        if !Matches(invoice.direction, source.kind) || source.party != status.source.party || source.journal != x.seen
           || source.date < invoice.source.date || x.amount <= 0 || x.amount > status.remaining.value
           || Capacity(s, source).None? || x.amount > Capacity(s, source).value
           || (exists i :: 0 <= i < |s.allocations| && s.allocations[i].invoice == x.invoice
                 && s.allocations[i].source.operation == source.operation && s.allocations[i].reversedOn.None?)
        then None else Some(source)
  }

  function Bumped(invoices: seq<Invoice>, inv: InvoiceId): seq<Invoice>
    requires inv < |invoices|
  {
    invoices[inv := invoices[inv].(version := invoices[inv].version + 1)]
  }

  function NewAllocation(s: Store, inv: InvoiceId, source: Source, amount: int): Allocation {
    var e := EffectiveDate(s, inv, source);
    Allocation(inv, source, amount, if e > source.date then Some(e) else None, None)
  }

  function Allocate(s: Store, x: AllocateInput): Store {
    var source := AllocateSource(s, x);
    if source.None? then s
    else s.(allocations := s.allocations + [NewAllocation(s, x.invoice, source.value, x.amount)],
            invoices := Bumped(s.invoices, x.invoice))
  }

  predicate CanReverse(s: Store, inv: InvoiceId, version: nat, id: nat, reasoned: bool) {
    && inv < |s.invoices| && s.invoices[inv].version == version
    && id < |s.allocations| && s.allocations[id].invoice == inv && s.allocations[id].reversedOn.None? && reasoned
  }

  function ReverseAllocation(s: Store, inv: InvoiceId, version: nat, id: nat, reasoned: bool): Store {
    if !CanReverse(s, inv, version, id, reasoned) then s
    else s.(allocations := s.allocations[id := s.allocations[id].(reversedOn := Some(s.today))],
            invoices := Bumped(s.invoices, inv))
  }

  function RevisionCount(inv: InvoiceId): Revision -> int {
    (r: Revision) => if r.invoice == inv then 1 else 0
  }

  function TermsCount(inv: InvoiceId): Terms -> int {
    (t: Terms) => if t.invoice == inv then 1 else 0
  }

  /** The replacement source `adopt` would select, or None when a requirement fails. */
  function AdoptSource(s: Store, inv: InvoiceId, version: nat, journal: JournalId, reasoned: bool): Option<Source> {
    if inv >= |s.invoices| || s.invoices[inv].version != version || !reasoned then None
    else
      var proof := Proof(s.book, s.invoices[inv].operation, s.today, s.today, Some(journal));
      if proof.None? || proof.value.replacementOf.None?
         || (exists i ::
             0 <= i < |s.allocations| && s.allocations[i].invoice == inv && s.allocations[i].reversedOn.None?)
         || (exists i ::
             && 0 <= i < |s.revisions| && s.revisions[i].invoice == inv
             && s.revisions[i].source.journal == proof.value.journal)
      then None else proof
  }

  function Adopt(s: Store, inv: InvoiceId, version: nat, journal: JournalId, reasoned: bool): Store {
    var source := AdoptSource(s, inv, version, journal, reasoned);
    if source.None? then s
    else
      s.(revisions := s.revisions + [Revision(inv, SumBy(s.revisions, RevisionCount(inv)) + 1, s.today, source.value)],
         invoices := Bumped(s.invoices, inv))
  }

  predicate TermsAccepted(s: Store, inv: InvoiceId, p: Payload, effective: int)
    requires inv < |s.invoices|
  {
    var start := s.invoices[inv].source.date;
    && effective >= start
    && (p.due.Some? ==> p.due.value >= start) && (p.expected.Some? ==> p.expected.value >= start)
    && forall i :: 0 <= i < |s.terms| && s.terms[i].invoice == inv ==> s.terms[i].effective <= effective
  }

  function AppendTerms(s: Store, inv: InvoiceId, p: Payload, effective: int): Store {
    s.(terms := s.terms + [Terms(inv, SumBy(s.terms, TermsCount(inv)) + 1, effective, p)])
  }

  function UpdateTerms(s: Store, inv: InvoiceId, version: nat, p: Payload, effective: int, reasoned: bool): Store {
    if inv >= |s.invoices| || s.invoices[inv].version != version || effective > s.today || !reasoned
       || !Current(s, SelectedSource(s, inv, s.today), s.today) || !TermsAccepted(s, inv, p, effective)
    then s
    else AppendTerms(s, inv, p, effective).(invoices := Bumped(s.invoices, inv))
  }

  /** `create`: one invoice per service operation, with its first terms. */
  function Create(s: Store, x: CreateInput): Store {
    var proof := Proof(s.book, x.operation, s.today, s.today, None);
    if proof.None? || !(proof.value.kind.SaleService? || proof.value.kind.PurchaseService?)
       || proof.value.journal != x.seen || s.book.operations[x.operation].reference != x.reference
       || (exists i :: 0 <= i < |s.invoices| && s.invoices[i].operation == x.operation)
    then s
    else
      var inv := |s.invoices|;
      var direction := if proof.value.kind.SaleService? then Sale else Purchase;
      var t := s.(invoices := s.invoices + [Invoice(x.operation, direction, proof.value, 1)]);
      if TermsAccepted(t, inv, x.payload, proof.value.date) then AppendTerms(t, inv, x.payload, proof.value.date) else s
  }

  /** The evidence may grow and roles may change; what was posted stays as posted. */
  predicate Extends(b: Book, c: Book) {
    && (forall j :: j in b.journals ==> j in c.journals && c.journals[j] == b.journals[j])
    && (forall o :: o in b.operations ==> o in c.operations && SameOperation(b.operations[o], c.operations[o]))
  }

  predicate SameOperation(a: Operation, b: Operation) {
    a.kind == b.kind && (a.original.Some? ==> b.original == a.original)
  }

  datatype Step =
    | StepCreate(create: CreateInput)
    | StepTerms(invoice: InvoiceId, version: nat, payload: Payload, effective: int, reasoned: bool)
    | StepAllocate(input: AllocateInput)
    | StepReverse(invoice: InvoiceId, version: nat, id: nat, reasoned: bool)
    | StepAdopt(invoice: InvoiceId, version: nat, journal: JournalId, reasoned: bool)
    | StepEvidence(book: Book)
    | StepClock(today: int)

  function Apply(s: Store, step: Step): Store {
    match step
    case StepCreate(x) => Create(s, x)
    case StepTerms(inv, version, p, effective, reasoned) => UpdateTerms(s, inv, version, p, effective, reasoned)
    case StepAllocate(x) => Allocate(s, x)
    case StepReverse(inv, version, id, reasoned) => ReverseAllocation(s, inv, version, id, reasoned)
    case StepAdopt(inv, version, journal, reasoned) => Adopt(s, inv, version, journal, reasoned)
    case StepEvidence(b) => if Extends(s.book, b) then s.(book := b) else s
    case StepClock(today) => if today >= s.today then s.(today := today) else s
  }

  function Run(s: Store, steps: seq<Step>): Store {
    if steps == [] then s else Apply(Run(s, steps[..|steps| - 1]), steps[|steps| - 1])
  }

  function Fresh(today: int, book: Book): Store {
    Store(today, book, [], [], [], [])
  }
}
