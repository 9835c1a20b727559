/** The audit claim, transition, staging and settlement protocol (internal/cache/records.go,
    internal/cache/write_settlement.go, internal/audit/audit.go). */
module WriteSettlement {
  import opened Wrappers
  import opened Text
  import opened Records
  import opened SyncBatch

  // ---- record graphs ----

  datatype ConfirmationInput = ConfirmationInput(repo: string, idempotency: string, row: Confirmation)
  datatype Entry = Entry(key: NodeKey, row: AuditRow)
  datatype RecordGraph = RecordGraph(record: RecordInput, origin: Provenance, related: seq<RecordInput>,
                                     confirmations: seq<ConfirmationInput>, comments: seq<CommentInput>,
                                     identities: seq<IdentityInput>, replaceLinkKinds: seq<string>, links: seq<Link>,
                                     revisions: seq<RevisionInput>, auditTrail: seq<Entry>)

  /** How the store was opened: full-text search or not, and the uninterpreted digest that names confirmations. */
  datatype Setup = Setup(useFts: bool, confirmationId: (string, string) -> string)

  function StoredRow(r: Record): Record {
    var created := Or(r.createdAt, EPOCH);
    r.(provenance := if r.provenance.Unset? then Remote else r.provenance, createdAt := created, updatedAt := Or(r.updatedAt, created))
  }

  function RecordWrites(setup: Setup, r: RecordInput, origin: Provenance): seq<Write> {
    var row := StoredRow(r.row);
    var k := NodeKey(r.repo, r.id);
    [PutSource(k, SourceOf(row, if origin.Unset? then r.row.provenance else origin))]
    + (if setup.useFts then [PutSearch(k, Projection(row.path, row.title, row.body))] else [])
    + [PutRecord(k, row)]
  }

  function ConfirmationWrite(setup: Setup, k: NodeKey, c: ConfirmationInput): Write {
    if c.repo != k.repo || c.row.record != k.id then Reject
    else if Blank(c.repo) || Blank(c.row.record) || Blank(c.row.remoteType) || Blank(c.row.remoteId) || Blank(c.idempotency) then Reject
    else PutConfirmation(ConfirmationKey(c.repo, c.idempotency),
                         c.row.(id := Or(c.row.id, setup.confirmationId(c.repo, c.idempotency)), createdAt := Or(c.row.createdAt, EPOCH)))
  }

  function LinkKindWrites(k: NodeKey, kinds: seq<string>): seq<Write> {
    if kinds == [] then []
    else (if Blank(kinds[0]) then [] else [DropLinks(k, TrimSpace(kinds[0]))]) + LinkKindWrites(k, kinds[1..])
  }

  function RecordGraphWrites(setup: Setup, g: RecordGraph): seq<Write> {
    var k := NodeKey(g.record.repo, g.record.id);
    RecordWrites(setup, g.record, g.origin)
    + Each(c => ConfirmationWrite(setup, k, c), g.confirmations)
    + Concat(Each(r => RecordWrites(setup, r, g.origin), g.related))
    + Each(c => CommentWrite(k, c), g.comments)
    + Each(i => IdentityWrite(k, i), g.identities)
    + LinkKindWrites(k, g.replaceLinkKinds)
    + Each(l => LinkWrite(k, l), g.links)
    + Each(r => RevisionWrite(k, r), g.revisions)
  }

  // ---- audit rows ----

  /** Error is an error return, the transaction rolled back; otherwise whether the caller won. */
  datatype Answer = Error | Done(won: bool, tables: Tables)

  /** The unique index on non-empty idempotency keys. */
  predicate KeyTaken(t: Tables, k: NodeKey, idempotency: string) {
    idempotency != "" && exists o | o in t.audit :: o != k && o.repo == k.repo && t.audit[o].idempotency == idempotency
  }

  function PutAudit(t: Tables, k: NodeKey, row: AuditRow): Answer {
    if KeyTaken(t, k, row.idempotency) || k.repo !in t.repos then Error
    else Done(true, t.(audit := t.audit[k := row]))
  }

  function Created(row: AuditRow): AuditRow { row.(createdAt := Or(row.createdAt, EPOCH)) }

  /** A claim: insert, or take over the failed row of the expected generation; "" expects none. */
  function Claim(t: Tables, e: Entry, expected: string): Answer {
    var row := Created(e.row);
    if e.key !in t.audit then PutAudit(t, e.key, row)
    else
      var held := t.audit[e.key];
      if expected == "" || !held.status.Failed? || held.payloadHash != row.payloadHash || held.createdAt != expected then Done(false, t)
      else PutAudit(t, e.key, row)
  }

  function Transition(t: Tables, e: Entry, expectedAt: string, expectedStatus: AuditState): Answer {
    if e.key !in t.audit || t.audit[e.key].createdAt != expectedAt || t.audit[e.key].status != expectedStatus then Done(false, t)
    else PutAudit(t, e.key, e.row.(createdAt := expectedAt))
  }

  /** The stored row is still exactly what the caller observed. */
  predicate Owns(t: Tables, observed: Entry, generation: string) {
    && observed.key in t.audit
    && var held := t.audit[observed.key];
       && held.createdAt == generation && held.status == observed.row.status
       && held.payloadHash == observed.row.payloadHash && held.metadata == observed.row.metadata
  }

  /** The columns that staging and settlement write; key, payload hash and generation stay. */
  function Advanced(held: AuditRow, row: AuditRow): AuditRow {
    row.(idempotency := held.idempotency, payloadHash := held.payloadHash, createdAt := held.createdAt)
  }

  predicate SameReceipt(a: Entry, b: Entry) {
    a.key == b.key && a.row.idempotency == b.row.idempotency && a.row.payloadHash == b.row.payloadHash
  }

  function Stage(t: Tables, pending: Entry, observed: Entry, generation: string): Answer {
    if !SameReceipt(pending, observed) || !pending.row.status.RefreshPending? then Error
    else if !Owns(t, observed, generation) then Done(false, t)
    else Done(true, t.(audit := t.audit[observed.key := Advanced(t.audit[observed.key], pending.row)]))
  }

  predicate Settles(g: RecordGraph, complete: Entry, pending: Entry) {
    && g.record.repo == complete.key.repo && g.record.id == complete.row.record && g.auditTrail == []
    && SameReceipt(pending, complete) && pending.row.status.RefreshPending? && complete.row.status.Succeeded?
  }

  function Receipted(t: Tables, complete: Entry): Tables
    requires complete.key in t.audit
  {
    t.(audit := t.audit[complete.key := Advanced(t.audit[complete.key], complete.row)])
  }

  function Settle(setup: Setup, t: Tables, g: RecordGraph, complete: Entry, pending: Entry, generation: string): Answer {
    if !Settles(g, complete, pending) then Error
    else if !Owns(t, pending, generation) then Done(false, t)
    else match ExecAll(Receipted(t, complete), RecordGraphWrites(setup, g))
      case None => Error
      case Some(u) => Done(true, u)
  }

  // ---- idempotency lookups ----

  function EntryId(key: string): string { "write-" + TrimSpace(key) }

  /** Built the way audit entries are: the id is derived from the trimmed key. */
  predicate Keyed(e: Entry) { e.key.id == "write-" + e.row.idempotency }

  ghost predicate AllKeyed(t: Tables) { forall k | k in t.audit :: Keyed(Entry(k, t.audit[k])) }

  datatype Verdict = Unknown | Conflict | Replay | Partial | Retry | Working | Blocked | Other

  function VerdictOn(row: AuditRow, payloadHash: string): Verdict {
    if row.payloadHash != "" && row.payloadHash != payloadHash then Conflict
    else match row.status
      case Succeeded => Replay
      case RefreshPending => Partial
      case RefreshFailed => Partial
      case Failed => Retry
      case InProgress => Working
      case Unsafe => Blocked
      case AuditFailed => Other
  }

  /** The newest row under a key; the unique index leaves at most one. */
  function Rows(t: Tables, repo: string, key: string): set<NodeKey> {
    set k | k in t.audit && k.repo == repo && t.audit[k].idempotency == key
  }

  ghost predicate Looked(t: Tables, repo: string, key: string, payloadHash: string, verdict: Verdict) {
    if TrimSpace(key) == "" || Rows(t, repo, TrimSpace(key)) == {} then verdict == Unknown
    else exists k | k in Rows(t, repo, TrimSpace(key)) :: verdict == VerdictOn(t.audit[k], payloadHash)
  }

  // ---- runs: interleaved steps of any number of callers, each carrying what it observed ----

  datatype Step =
    | Claiming(entry: Entry, expected: string)
    | Transitioning(entry: Entry, expected: string, from: AuditState)
    | Staging(pending: Entry, observed: Entry, generation: string)
    | Settling(graph: RecordGraph, complete: Entry, pending: Entry, generation: string)
    | Writing(statements: seq<Write>)

  function Answered(setup: Setup, t: Tables, s: Step): Answer {
    match s
    case Claiming(e, expected) => Claim(t, e, expected)
    case Transitioning(e, expected, from) => Transition(t, e, expected, from)
    case Staging(p, o, g) => Stage(t, p, o, g)
    case Settling(g, c, p, at) => Settle(setup, t, g, c, p, at)
    case Writing(ws) => match ExecAll(t, ws) case None => Error case Some(u) => Done(true, u)
  }

  function Next(setup: Setup, t: Tables, s: Step): Tables {
    match Answered(setup, t, s)
    case Error => t
    case Done(_, u) => u
  }

  function Run(setup: Setup, t: Tables, steps: seq<Step>): Tables
    decreases |steps|
  {
    if steps == [] then t else Run(setup, Next(setup, t, steps[0]), steps[1..])
  }
}
