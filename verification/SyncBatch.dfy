/** Sync graphs and batches (internal/cache/records.go), and the statements that publishing them executes. */
module SyncBatch {
  import opened Wrappers
  import opened Text
  import opened Records

  datatype RecordInput = RecordInput(repo: string, id: string, row: Record)
  datatype CommentInput = CommentInput(repo: string, record: string, id: string, row: Comment)
  datatype IdentityInput = IdentityInput(repo: string, aliasType: string, alias: string, row: Identity)
  datatype RevisionInput = RevisionInput(repo: string, record: string, row: Revision)
  datatype SyncGraph = SyncGraph(repo: string, provenance: Provenance, record: RecordInput, comments: seq<CommentInput>,
                                 identities: seq<IdentityInput>, links: seq<Link>, revisions: seq<RevisionInput>,
                                 replaceChunks: bool, chunks: seq<Piece>)

  datatype CommentSyncInput = CommentSyncInput(node: NodeKey, row: CommentSync)
  datatype CommentsReplacement = CommentsReplacement(node: NodeKey, comments: seq<CommentInput>)
  datatype Reconciliation = Reconciliation(repo: string, parent: string, kind: string, keep: seq<string>)
  datatype FrontierInput = FrontierInput(key: FrontierKey, row: Frontier)
  datatype MaintenanceInput = MaintenanceInput(key: MaintenanceKey, row: Maintenance)
  datatype ReceiptInput = ReceiptInput(stage: string, row: Receipt)
  datatype Batch = Batch(graphs: seq<SyncGraph>, commentSyncs: seq<CommentSyncInput>, cleared: seq<NodeKey>,
                         replaced: seq<CommentsReplacement>, reconciled: seq<Reconciliation>,
                         frontier: Option<FrontierInput>, maintenance: Option<MaintenanceInput>, receipt: Option<ReceiptInput>)

  function Each<T, R>(f: T -> R, xs: seq<T>): (r: seq<R>)
    ensures |r| == |xs| && forall i | 0 <= i < |xs| :: r[i] == f(xs[i])
  {
    seq(|xs|, i requires 0 <= i < |xs| => f(xs[i]))
  }

  function Concat<T>(xss: seq<seq<T>>): seq<T> {
    if xss == [] then [] else xss[0] + Concat(xss[1..])
  }

  // ---- defaults ----

  function Or(s: string, fallback: string): string { if s == "" then fallback else s }

  function StoredComment(row: Comment): Comment {
    var created := Or(row.createdAt, EPOCH);
    row.(createdAt := created, updatedAt := Or(row.updatedAt, created))
  }

  function GraphRepo(g: SyncGraph): string { Or(TrimSpace(g.repo), g.record.repo) }

  function Node(g: SyncGraph): NodeKey { NodeKey(GraphRepo(g), g.record.id) }

  function GraphProvenance(g: SyncGraph): Provenance { if g.provenance.Unset? then Fixture else g.provenance }

  function StoredRecord(g: SyncGraph): Record {
    var created := Or(g.record.row.createdAt, EPOCH);
    g.record.row.(provenance := if g.record.row.provenance.Unset? then GraphProvenance(g) else g.record.row.provenance,
                  createdAt := created, updatedAt := Or(g.record.row.updatedAt, created))
  }

  /** The source projection of a record; its origin is live or fixture only. */
  function SourceOf(r: Record, origin: Provenance): Source {
    Source(r.kind, r.path, r.title, r.body, r.status, r.labels, r.hash, if origin.Live? then Live else Fixture, r.createdAt, r.updatedAt)
  }

  function StoredSource(g: SyncGraph): Source { SourceOf(StoredRecord(g), GraphProvenance(g)) }

  function CommentWrite(k: NodeKey, c: CommentInput): Write {
    PutComment(CommentKey(Or(c.repo, k.repo), Or(c.record, k.id), c.id), StoredComment(c.row))
  }

  function IdentityWrite(k: NodeKey, i: IdentityInput): Write {
    PutIdentity(AliasKey(Or(i.repo, k.repo), i.aliasType, i.alias), i.row.(source := Or(i.row.source, k.id)))
  }

  function LinkWrite(k: NodeKey, l: Link): Write {
    PutLink(l.(repo := Or(l.repo, k.repo), source := Or(l.source, k.id)))
  }

  function RevisionWrite(k: NodeKey, r: RevisionInput): Write {
    PutRevision(NodeKey(Or(r.repo, k.repo), Or(r.record, k.id)), r.row.(fetchedAt := Or(r.row.fetchedAt, EPOCH)))
  }

  // ---- one graph ----

  function NodeWrites(fts: bool, g: SyncGraph): seq<Write> {
    var row := StoredRecord(g);
    [RequireRepo(GraphRepo(g)), PutSource(Node(g), StoredSource(g))]
    + (if fts then [PutSearch(Node(g), Projection(row.path, row.title, row.body))] else [])
    + [PutRecord(Node(g), row)]
  }

  function AttachmentWrites(g: SyncGraph): seq<Write> {
    Each(c => CommentWrite(Node(g), c), g.comments)
    + Each(i => IdentityWrite(Node(g), i), g.identities)
    + Each(l => LinkWrite(Node(g), l), g.links)
    + Each(r => RevisionWrite(Node(g), r), g.revisions)
  }

  function ChunkWrites(fingerprint: Fingerprint, g: SyncGraph): seq<Write> {
    (if g.replaceChunks then [TrimChunks(Node(g), Wanted(g.chunks))] else [])
    + StorePieces(fingerprint, Node(g), g.chunks)
  }

  function GraphWrites(fts: bool, fingerprint: Fingerprint, g: SyncGraph): seq<Write> {
    if GraphRepo(g) == "" then [Reject]
    else NodeWrites(fts, g) + AttachmentWrites(g) + ChunkWrites(fingerprint, g)
  }

  // ---- the batch ----

  function CommentSyncWrite(now: string, i: CommentSyncInput): Write {
    PutCommentSync(i.node, i.row.(updatedAt := Or(i.row.updatedAt, now)))
  }

  function ReplacementWrites(r: CommentsReplacement): seq<Write> {
    [ClearComments(r.node)]
    + Each((c: CommentInput) => PutComment(CommentKey(r.node.repo, r.node.id, c.id), StoredComment(c.row)), r.comments)
  }

  /** Everything a batch writes before it reconciles children. */
  function Published(fts: bool, fingerprint: Fingerprint, now: string, b: Batch): seq<Write> {
    Concat(Each(g => GraphWrites(fts, fingerprint, g), b.graphs))
    + Each(i => CommentSyncWrite(now, i), b.commentSyncs)
    + Each(k => ClearComments(k), b.cleared)
    + Concat(Each(r => ReplacementWrites(r), b.replaced))
  }

  /** The ids to keep; blanks are ignored. */
  function Keep(ids: seq<string>): set<string> { set id | id in ids && id != "" }

  function Reconciled(b: Batch): seq<Write> {
    Each((r: Reconciliation) => DropStaleChildren(r.repo, r.parent, r.kind, Keep(r.keep)), b.reconciled)
  }

  function StoredMaintenance(now: string, row: Maintenance): Maintenance {
    var updated := Or(row.updatedAt, now);
    row.(updatedAt := updated,
         lastSuccessAt := if row.lastSuccessAt == "" && row.errorClass == "" && row.status != "degraded" then updated else row.lastSuccessAt)
  }

  function Checkpoint(now: string, b: Batch): seq<Write> {
    (match b.frontier case None => [] case Some(f) => [PutFrontier(f.key, f.row.(updatedAt := Or(f.row.updatedAt, EPOCH)))])
    + (match b.maintenance case None => [] case Some(m) => [PutMaintenance(m.key, StoredMaintenance(now, m.row))])
    + (match b.receipt case None => [] case Some(r) => [PutReceipt(r.stage, r.row.(committedAt := Or(r.row.committedAt, now)))])
  }

  function BatchWrites(fts: bool, fingerprint: Fingerprint, now: string, b: Batch): seq<Write> {
    Published(fts, fingerprint, now, b) + Reconciled(b) + Checkpoint(now, b)
  }

  // ---- well-formed batches ----

  /** One graph a record, and one row a chunk key. A piece may leave its id out, which leaves it the fingerprint as
      its key; several pieces may share a key if they carry the same row. */
  predicate WellFormed(fingerprint: Fingerprint, b: Batch) {
    && (forall g, h | g in b.graphs && h in b.graphs && Node(g) == Node(h) :: g == h)
    && (forall g, h, p, q | g in b.graphs && h in b.graphs && p in g.chunks && q in h.chunks
                            && PieceKey(fingerprint, Node(g), p) == PieceKey(fingerprint, Node(h), q) ::
          StoredPiece(Node(g), p) == StoredPiece(Node(h), q))
  }

  /** No time is left to the clock of the run. */
  predicate ExplicitTimes(b: Batch) {
    && (forall i | i in b.commentSyncs :: i.row.updatedAt != "")
    && (b.maintenance.Some? ==> b.maintenance.value.row.updatedAt != "")
    && (b.receipt.Some? ==> b.receipt.value.row.committedAt != "")
  }

  /** With explicit times a batch executes the same statements whenever it is run. */
  lemma ClockIsIrrelevant(fts: bool, fingerprint: Fingerprint, now: string, later: string, b: Batch)
    requires ExplicitTimes(b)
    ensures BatchWrites(fts, fingerprint, now, b) == BatchWrites(fts, fingerprint, later, b)
  {
    assert Each(i => CommentSyncWrite(now, i), b.commentSyncs) == Each(i => CommentSyncWrite(later, i), b.commentSyncs);
  }
}
