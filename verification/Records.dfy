/** Rows and statements of the record tables (internal/cache/schema.go). A Write is one SQL statement of a
    transaction with its arguments bound; Exec is what the statement does, None where it fails. */
module Records {
  import opened Wrappers
  import opened Text

  const EPOCH := "1970-01-01T00:00:00Z"

  /** Primary key of sources, records, search rows, remote revisions, comment syncs and audit rows. */
  datatype NodeKey = NodeKey(repo: string, id: string)
  datatype CommentKey = CommentKey(repo: string, record: string, comment: string)
  datatype AliasKey = AliasKey(repo: string, aliasType: string, alias: string)
  datatype ChunkKey = ChunkKey(repo: string, id: string)
  datatype EmbeddingKey = EmbeddingKey(repo: string, namespace: string, chunk: string)
  datatype ConfirmationKey = ConfirmationKey(repo: string, idempotency: string)
  datatype FrontierKey = FrontierKey(repo: string, remoteType: string, ordering: string, filter: string)
  datatype MaintenanceKey = MaintenanceKey(repo: string, remoteType: string, ordering: string, filter: string, lane: Lane)

  datatype Provenance = Unset | Fixture | Live | Remote | Projected | Bridge
  datatype CommentState = Pending | Deferred | Complete
  datatype Lane = NoLane | Head | Tail | Secondary
  datatype AuditState = InProgress | Failed | Succeeded | RefreshPending | RefreshFailed | AuditFailed | Unsafe

  datatype Source = Source(kind: string, path: string, title: string, body: string, status: string, labels: seq<string>,
                           hash: string, provenance: Provenance, createdAt: string, updatedAt: string)
  datatype Projection = Projection(path: string, title: string, body: string)
  datatype Record = Record(kind: string, path: string, title: string, body: string, status: string, labels: seq<string>,
                           hash: string, provenance: Provenance, remoteType: string, remoteId: string, revision: string,
                           createdAt: string, updatedAt: string)
  datatype Comment = Comment(author: string, body: string, hash: string, revision: string, createdAt: string, updatedAt: string)
  datatype Identity = Identity(source: string, remoteType: string, remoteId: string)
  datatype Link = Link(repo: string, source: string, target: string, kind: string, text: string)
  datatype ChunkDetail = ChunkDetail(byteEnd: int, lineStart: int, lineEnd: int, headings: seq<string>, text: string,
                                     normalized: string, metadata: map<string, string>, outbound: seq<string>,
                                     aliases: map<string, string>, embedding: string)
  datatype Chunk = Chunk(source: string, record: string, snapshot: string, hash: string, byteStart: int, policy: string,
                         detail: ChunkDetail)
  datatype Embedding = Embedding(chunkHash: string, vectorHash: string, embeddedAt: string)
  datatype Revision = Revision(remoteType: string, remoteId: string, revision: string, status: string, fetchedAt: string)
  datatype CommentSync = CommentSync(number: int, remoteId: string, providerId: string, revision: string, expected: int,
                                     status: CommentState, attempts: int, errorClass: string, retryAfter: string,
                                     lastAttemptAt: string, updatedAt: string)
  datatype Confirmation = Confirmation(id: string, command: string, record: string, recordType: string, remoteType: string,
                                       remoteId: string, status: string, fingerprint: string, createdAt: string)
  datatype Frontier = Frontier(status: string, highUpdatedAt: string, highRemoteId: string, highNumber: int,
                               stopReason: string, pages: int, records: int, updatedAt: string)
  datatype Maintenance = Maintenance(status: string, highUpdatedAt: string, highRemoteId: string, highNumber: int,
                                     stopReason: string, pages: int, records: int, checkpoint: string,
                                     errorClass: string, lastSuccessAt: string, updatedAt: string)
  datatype Receipt = Receipt(checksum: string, repo: string, collection: string, committedAt: string)
  datatype AuditRow = AuditRow(operation: string, command: string, mode: string, record: string, remoteType: string,
                               remoteId: string, idempotency: string, status: AuditState, message: string,
                               payloadHash: string, metadata: map<string, string>, createdAt: string)

  datatype Tables = Tables(repos: set<string>,
                           sources: map<NodeKey, Source>,
                           search: map<NodeKey, Projection>,
                           records: map<NodeKey, Record>,
                           comments: map<CommentKey, Comment>,
                           identities: map<AliasKey, Identity>,
                           links: set<Link>,
                           chunks: map<ChunkKey, Chunk>,
                           embeddings: map<EmbeddingKey, Embedding>,
                           revisions: map<NodeKey, Revision>,
                           commentSyncs: map<NodeKey, CommentSync>,
                           confirmations: map<ConfirmationKey, Confirmation>,
                           frontiers: map<FrontierKey, Frontier>,
                           maintenance: map<MaintenanceKey, Maintenance>,
                           receipts: map<string, Receipt>,
                           audit: map<NodeKey, AuditRow>,
                           generations: map<string, nat>)

  datatype Write =
    | Reject
    | RequireRepo(repo: string)
    | PutSource(node: NodeKey, source: Source)
    | PutSearch(node: NodeKey, projection: Projection)
    | PutRecord(node: NodeKey, record: Record)
    | PutComment(comment: CommentKey, remark: Comment)
    | ClearComments(node: NodeKey)
    | PutIdentity(alias: AliasKey, identity: Identity)
    | PutLink(link: Link)
    | DropLinks(node: NodeKey, kind: string)
    | PutRevision(node: NodeKey, revision: Revision)
    | TrimChunks(node: NodeKey, wanted: map<string, string>)
    | PutChunk(chunk: ChunkKey, piece: Chunk)
    | PutCommentSync(node: NodeKey, sync: CommentSync)
    | PutConfirmation(confirmation: ConfirmationKey, receiptRow: Confirmation)
    | DropStaleChildren(repo: string, parent: string, kind: string, keep: set<string>)
    | PutFrontier(frontier: FrontierKey, high: Frontier)
    | PutMaintenance(lane: MaintenanceKey, upkeep: Maintenance)
    | PutReceipt(stage: string, receipt: Receipt)
    | DropLive(repo: string)
    | DropFrontiers(repo: string)

  /** A chunk as a caller hands it in: repository, id, source, record and policy may be left out. */
  datatype Piece = Piece(repo: string, id: string, row: Chunk)
  /** The digest of source, content hash and first byte that names a chunk without an id; uninterpreted. */
  type Fingerprint = (string, string, int) -> string

  // ---- references ----

  function OfComment(c: CommentKey): NodeKey { NodeKey(c.repo, c.record) }
  function OfIdentity(a: AliasKey, i: Identity): NodeKey { NodeKey(a.repo, i.source) }
  function From(l: Link): NodeKey { NodeKey(l.repo, l.source) }
  function To(l: Link): NodeKey { NodeKey(l.repo, l.target) }
  function OfChunk(c: ChunkKey, row: Chunk): NodeKey { NodeKey(c.repo, row.source) }
  function OfConfirmation(k: ConfirmationKey, row: Confirmation): NodeKey { NodeKey(k.repo, row.record) }
  function Embedded(e: EmbeddingKey): ChunkKey { ChunkKey(e.repo, e.chunk) }

  ghost predicate SourcesOwned(sources: map<NodeKey, Source>, repos: set<string>) {
    forall k | k in sources :: k.repo in repos
  }

  ghost predicate CommentsOwned(comments: map<CommentKey, Comment>, records: set<NodeKey>) {
    forall c | c in comments :: OfComment(c) in records
  }

  ghost predicate ConfirmationsOwned(confirmations: map<ConfirmationKey, Confirmation>, records: set<NodeKey>) {
    forall k | k in confirmations :: OfConfirmation(k, confirmations[k]) in records
  }

  ghost predicate IdentitiesOwned(identities: map<AliasKey, Identity>, sources: set<NodeKey>) {
    forall a | a in identities :: OfIdentity(a, identities[a]) in sources
  }

  ghost predicate LinksOwned(links: set<Link>, sources: set<NodeKey>) {
    forall l | l in links :: From(l) in sources && To(l) in sources
  }

  ghost predicate ChunksOwned(chunks: map<ChunkKey, Chunk>, sources: set<NodeKey>) {
    forall c | c in chunks :: OfChunk(c, chunks[c]) in sources
  }

  ghost predicate EmbeddingsOwned(embeddings: map<EmbeddingKey, Embedding>, chunks: set<ChunkKey>) {
    forall e | e in embeddings :: Embedded(e) in chunks
  }

  /** Every foreign key among the modelled tables. */
  ghost predicate Referential(t: Tables) {
    && SourcesOwned(t.sources, t.repos)
    && CommentsOwned(t.comments, t.records.Keys)
    && ConfirmationsOwned(t.confirmations, t.records.Keys)
    && IdentitiesOwned(t.identities, t.sources.Keys)
    && LinksOwned(t.links, t.sources.Keys)
    && ChunksOwned(t.chunks, t.sources.Keys)
    && EmbeddingsOwned(t.embeddings, t.chunks.Keys)
    && t.revisions.Keys <= t.sources.Keys
    && t.commentSyncs.Keys <= t.sources.Keys
  }

  // ---- content generation: the triggers on sources and chunks ----

  function GenerationIn(g: map<string, nat>, repo: string): nat {
    if repo in g then g[repo] else 0
  }

  function Generation(t: Tables, repo: string): nat {
    GenerationIn(t.generations, repo)
  }

  /** n trigger firings for one repository. */
  function Bump(g: map<string, nat>, repo: string, n: nat): map<string, nat> {
    if n == 0 then g else g[repo := GenerationIn(g, repo) + n]
  }

  // ---- what ON CONFLICT DO UPDATE leaves of the stored row ----

  function MergeSource(was: Source, row: Source): Source { row.(createdAt := was.createdAt) }

  predicate Provider(provenance: Provenance) { provenance.Remote? || provenance.Fixture? || provenance.Live? }

  /** A projection written over a provider record keeps the provider's identity. */
  function MergeRecord(was: Record, row: Record): Record {
    if Provider(was.provenance) && !Provider(row.provenance) then
      row.(provenance := was.provenance, remoteType := was.remoteType, remoteId := was.remoteId, createdAt := was.createdAt)
    else
      row.(createdAt := was.createdAt)
  }

  function MergeComment(was: Comment, row: Comment): Comment { row.(createdAt := was.createdAt) }

  function MergeChunk(was: Chunk, row: Chunk): Chunk { row.(source := was.source, byteStart := was.byteStart) }

  function MergeMaintenance(was: Maintenance, row: Maintenance): Maintenance {
    if row.lastSuccessAt != "" then row else row.(lastSuccessAt := was.lastSuccessAt)
  }

  // ---- chunks handed in for a source ----

  /** Id to content hash; of equal ids the last one counts. */
  function Wanted(ps: seq<Piece>): map<string, string> {
    if ps == [] then map[] else map[ps[0].id := ps[0].row.hash] + Wanted(ps[1..])
  }

  function StoredPiece(k: NodeKey, p: Piece): Chunk {
    var source := if p.row.source == "" then k.id else p.row.source;
    p.row.(source := source,
           record := if p.row.record == "" then source else p.row.record,
           policy := if p.row.policy == "" then "heading" else p.row.policy)
  }

  function PieceKey(fingerprint: Fingerprint, k: NodeKey, p: Piece): ChunkKey {
    ChunkKey(if p.repo == "" then k.repo else p.repo,
             if p.id == "" then fingerprint(StoredPiece(k, p).source, p.row.hash, p.row.byteStart) else p.id)
  }

  function StorePieces(fingerprint: Fingerprint, k: NodeKey, ps: seq<Piece>): seq<Write> {
    seq(|ps|, i requires 0 <= i < |ps| => PutChunk(PieceKey(fingerprint, k, ps[i]), StoredPiece(k, ps[i])))
  }

  /** The pieces name the source, or leave it out, and carry ids. */
  predicate Belong(ps: seq<Piece>, k: NodeKey) {
    forall i | 0 <= i < |ps| :: ps[i].id != "" && ps[i].repo in {"", k.repo} && ps[i].row.source in {"", k.id}
  }

  // ---- what a cascade leaves ----

  function WithoutComments(m: map<CommentKey, Comment>, gone: set<NodeKey>): map<CommentKey, Comment> {
    map c | c in m && OfComment(c) !in gone :: m[c]
  }

  function WithoutConfirmations(m: map<ConfirmationKey, Confirmation>, gone: set<NodeKey>): map<ConfirmationKey, Confirmation> {
    map k | k in m && OfConfirmation(k, m[k]) !in gone :: m[k]
  }

  function WithoutIdentities(m: map<AliasKey, Identity>, gone: set<NodeKey>): map<AliasKey, Identity> {
    map a | a in m && OfIdentity(a, m[a]) !in gone :: m[a]
  }

  function WithoutLinks(links: set<Link>, gone: set<NodeKey>): set<Link> {
    set l | l in links && From(l) !in gone && To(l) !in gone
  }

  function WithoutEmbeddings(m: map<EmbeddingKey, Embedding>, gone: set<ChunkKey>): map<EmbeddingKey, Embedding> {
    map e | e in m && Embedded(e) !in gone :: m[e]
  }

  // ---- statements ----

  function UpsertSource(t: Tables, k: NodeKey, row: Source): Option<Tables> {
    var stored := if k in t.sources then MergeSource(t.sources[k], row) else row;
    if k.repo !in t.repos || (!row.provenance.Fixture? && !row.provenance.Live?) then None
    else Some(t.(sources := t.sources[k := stored],
                 generations := Bump(t.generations, k.repo, if k in t.sources && t.sources[k].hash == row.hash then 0 else 1)))
  }

  predicate RemoteTaken(t: Tables, k: NodeKey, row: Record) {
    && row.remoteType != "" && row.remoteId != ""
    && exists o | o in t.records :: o != k && o.repo == k.repo && t.records[o].remoteType == row.remoteType && t.records[o].remoteId == row.remoteId
  }

  function UpsertRecord(t: Tables, k: NodeKey, row: Record): Option<Tables> {
    var stored := if k in t.records then MergeRecord(t.records[k], row) else row;
    if k.repo !in t.repos || RemoteTaken(t, k, stored) then None
    else Some(t.(records := t.records[k := stored]))
  }

  function UpsertComment(t: Tables, c: CommentKey, row: Comment): Option<Tables> {
    if OfComment(c) !in t.records then None
    else Some(t.(comments := t.comments[c := if c in t.comments then MergeComment(t.comments[c], row) else row]))
  }

  function DeleteComments(t: Tables, k: NodeKey): Tables {
    t.(comments := WithoutComments(t.comments, {k}))
  }

  function UpsertIdentity(t: Tables, a: AliasKey, row: Identity): Option<Tables> {
    if OfIdentity(a, row) !in t.sources then None
    else Some(t.(identities := t.identities[a := row]))
  }

  function UpsertLink(t: Tables, l: Link): Option<Tables> {
    if From(l) !in t.sources || To(l) !in t.sources then None
    else Some(t.(links := t.links + {l}))
  }

  function DeleteLinks(t: Tables, k: NodeKey, kind: string): Tables {
    t.(links := set l | l in t.links && !(From(l) == k && l.kind == kind))
  }

  predicate RevisionTaken(t: Tables, k: NodeKey, row: Revision) {
    exists o | o in t.revisions :: o != k && o.repo == k.repo && t.revisions[o].remoteType == row.remoteType && t.revisions[o].remoteId == row.remoteId
  }

  function UpsertRevision(t: Tables, k: NodeKey, row: Revision): Option<Tables> {
    if k !in t.sources || RevisionTaken(t, k, row) then None
    else Some(t.(revisions := t.revisions[k := row]))
  }

  /** Deleting chunks of one repository takes their embeddings along. */
  function DeleteChunks(t: Tables, repo: string, gone: set<ChunkKey>): Tables {
    t.(chunks := t.chunks - gone,
       embeddings := WithoutEmbeddings(t.embeddings, gone),
       generations := Bump(t.generations, repo, |gone|))
  }

  function StaleChunks(t: Tables, k: NodeKey, wanted: map<string, string>): set<ChunkKey> {
    set c | c in t.chunks && OfChunk(c, t.chunks[c]) == k && !(c.id in wanted && wanted[c.id] == t.chunks[c].hash)
  }

  predicate SliceTaken(t: Tables, k: ChunkKey, row: Chunk) {
    exists o | o in t.chunks :: o != k && o.repo == k.repo && t.chunks[o].source == row.source && t.chunks[o].hash == row.hash
                                && t.chunks[o].byteStart == row.byteStart && t.chunks[o].policy == row.policy
                                && t.chunks[o].snapshot == row.snapshot
  }

  function UpsertChunk(t: Tables, k: ChunkKey, row: Chunk): Option<Tables> {
    var stored := if k in t.chunks then MergeChunk(t.chunks[k], row) else row;
    if SliceTaken(t, k, stored) || OfChunk(k, stored) !in t.sources then None
    else Some(t.(chunks := t.chunks[k := stored],
                 generations := Bump(t.generations, k.repo, if k in t.chunks && t.chunks[k].hash == row.hash then 0 else 1)))
  }

  function UpsertCommentSync(t: Tables, k: NodeKey, row: CommentSync): Option<Tables> {
    if k !in t.sources then None
    else Some(t.(commentSyncs := t.commentSyncs[k := row]))
  }

  /** Unique on the idempotency key, which the statement resolves, and on the id, which it does not. */
  function UpsertConfirmation(t: Tables, k: ConfirmationKey, row: Confirmation): Option<Tables> {
    if OfConfirmation(k, row) !in t.records then None
    else if exists o | o in t.confirmations :: o != k && o.repo == k.repo && t.confirmations[o].id == row.id then None
    else Some(t.(confirmations := t.confirmations[k := row]))
  }

  function ChunksOf(t: Tables, nodes: set<NodeKey>): set<ChunkKey> {
    set c | c in t.chunks && OfChunk(c, t.chunks[c]) in nodes
  }

  /** Delete triggers that removing the nodes fires: one a source, one a chunk. */
  function Firings(t: Tables, gone: set<NodeKey>): nat {
    |ChunksOf(t, gone)| + |gone * t.sources.Keys|
  }

  /** Deletes search row, record and source of every listed node of one repository; the cascades follow. */
  function DeleteNodes(t: Tables, repo: string, gone: set<NodeKey>): Tables {
    var pieces := ChunksOf(t, gone);
    t.(sources := t.sources - gone,
       search := t.search - gone,
       records := t.records - gone,
       comments := WithoutComments(t.comments, gone),
       identities := WithoutIdentities(t.identities, gone),
       links := WithoutLinks(t.links, gone),
       chunks := t.chunks - pieces,
       embeddings := WithoutEmbeddings(t.embeddings, pieces),
       revisions := t.revisions - gone,
       commentSyncs := t.commentSyncs - gone,
       confirmations := WithoutConfirmations(t.confirmations, gone),
       generations := Bump(t.generations, repo, Firings(t, gone)))
  }

  /** Sources of the kind that carry a parent link to the parent and are not to be kept. */
  function StaleChildren(t: Tables, repo: string, parent: string, kind: string, keep: set<string>): set<NodeKey> {
    set l | l in t.links && l.repo == repo && l.target == parent && l.kind == "parent"
            && From(l) in t.sources && t.sources[From(l)].kind == kind && l.source !in keep :: From(l)
  }

  function UpsertFrontier(t: Tables, k: FrontierKey, row: Frontier): Option<Tables> {
    if k.repo !in t.repos then None else Some(t.(frontiers := t.frontiers[k := row]))
  }

  function UpsertMaintenance(t: Tables, k: MaintenanceKey, row: Maintenance): Option<Tables> {
    if k.repo == "" || k.remoteType == "" || k.ordering == "" || k.filter == "" || k.lane.NoLane? || row.status == "" then None
    else if k.repo !in t.repos then None
    else Some(t.(maintenance := t.maintenance[k := if k in t.maintenance then MergeMaintenance(t.maintenance[k], row) else row]))
  }

  function UpsertReceipt(t: Tables, stage: string, row: Receipt): Option<Tables> {
    if stage == "" || row.checksum == "" || row.repo == "" || row.collection == "" || row.repo !in t.repos then None
    else Some(t.(receipts := t.receipts[stage := row]))
  }

  /** Nodes that a live reset removes: provider records and live sources. */
  function LiveNodes(t: Tables, repo: string): set<NodeKey> {
    (set k | k in t.records && k.repo == repo && (t.records[k].provenance.Remote? || t.records[k].provenance.Live?))
    + (set k | k in t.sources && k.repo == repo && t.sources[k].provenance.Live?)
  }

  function Exec(t: Tables, w: Write): Option<Tables> {
    match w
    case Reject => None
    case RequireRepo(repo) => if repo in t.repos then Some(t) else None
    case PutSource(k, row) => UpsertSource(t, k, row)
    case PutSearch(k, row) => Some(t.(search := t.search[k := row]))
    case PutRecord(k, row) => UpsertRecord(t, k, row)
    case PutComment(k, row) => UpsertComment(t, k, row)
    case ClearComments(k) => Some(DeleteComments(t, k))
    case PutIdentity(a, row) => UpsertIdentity(t, a, row)
    case PutLink(l) => UpsertLink(t, l)
    case DropLinks(k, kind) => Some(DeleteLinks(t, k, kind))
    case PutRevision(k, row) => UpsertRevision(t, k, row)
    case TrimChunks(k, wanted) => Some(DeleteChunks(t, k.repo, StaleChunks(t, k, wanted)))
    case PutChunk(k, row) => UpsertChunk(t, k, row)
    case PutCommentSync(k, row) => UpsertCommentSync(t, k, row)
    case PutConfirmation(k, row) => UpsertConfirmation(t, k, row)
    case DropStaleChildren(repo, parent, kind, keep) => Some(DeleteNodes(t, repo, StaleChildren(t, repo, parent, kind, keep)))
    case PutFrontier(k, row) => UpsertFrontier(t, k, row)
    case PutMaintenance(k, row) => UpsertMaintenance(t, k, row)
    case PutReceipt(stage, row) => UpsertReceipt(t, stage, row)
    case DropLive(repo) => Some(DeleteNodes(t, repo, LiveNodes(t, repo)))
    case DropFrontiers(repo) => Some(t.(frontiers := map k | k in t.frontiers && k.repo != repo :: t.frontiers[k]))
  }

  /** A transaction: the statements in order, None as soon as one fails. */
  function ExecAll(t: Tables, ws: seq<Write>): Option<Tables>
    decreases |ws|
  {
    if ws == [] then Some(t)
    else match Exec(t, ws[0])
      case None => None
      case Some(u) => ExecAll(u, ws[1..])
  }

  /** What a transaction leaves behind: a failed one is rolled back. */
  function Committed(t: Tables, ws: seq<Write>): Tables {
    match ExecAll(t, ws)
    case None => t
    case Some(u) => u
  }

  lemma {:induction false} ExecAllConcat(t: Tables, a: seq<Write>, b: seq<Write>)
    ensures ExecAll(t, a + b) == match ExecAll(t, a) case None => None case Some(u) => ExecAll(u, b)
    decreases |a|
  {
    if a == [] {
      assert a + b == b;
    } else {
      assert (a + b)[0] == a[0] && (a + b)[1..] == a[1..] + b;
      match Exec(t, a[0])
      case None =>
      case Some(u) => ExecAllConcat(u, a[1..], b);
    }
  }
}
