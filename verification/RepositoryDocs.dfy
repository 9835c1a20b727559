/** Rows and statements of the repository-document tables (internal/cache/repository_docs.go).
    Each function is one store operation on the whole database: it returns the new tables, or the
    error that makes its transaction roll back. */
module RepositoryDocs {
  import opened Wrappers
  import opened Text

  newtype Byte = b: int | 0 <= b < 256
  type Blob = seq<Byte>
  /** The hex digest of a blob. SHA-256 stays uninterpreted: it is a parameter wherever it is used. */
  type Digest = Blob -> string

  const FLOAT32 := "float32"

  datatype SetState = Unset | Building | Partial | Ready | Blocked | Superseded | Unavailable | Evicted

  /** A stored time: what it parses to, and the text that ORDER BY compares. */
  datatype Stamp = Stamp(instant: int, text: string)

  datatype SetKey = SetKey(repo: string, id: string)
  datatype ChunkKey = ChunkKey(repo: string, id: string)
  datatype NamespaceKey = NamespaceKey(repo: string, id: string)
  datatype MemberKey = MemberKey(repo: string, revisionSet: string, path: string, chunk: string)
  datatype ExclusionKey = ExclusionKey(repo: string, revisionSet: string, path: string, reason: string)
  datatype VectorKey = VectorKey(repo: string, namespace: string, chunk: string)

  datatype SetDetail = SetDetail(registration: string, worktreeRef: string, requestedRevision: string,
                                 configDigest: string, completedAt: string, lastErrorClass: string)
  datatype RevisionSet = RevisionSet(gitStoreRef: string, objectFormat: string, commitOid: string,
                                     policyHash: string, policySource: string, overlayDigest: string,
                                     chunkPolicy: string, processingPolicy: string, namespace: string,
                                     state: SetState, eligibleFiles: int, eligibleChunks: int,
                                     embedded: int, reused: int, failed: int, excludedFiles: int, missing: int,
                                     generation: int, createdAt: Stamp, updatedAt: Stamp, detail: SetDetail)
  datatype Chunk = Chunk(objectFormat: string, blobOid: string, worktreeRef: string, contentDigest: string,
                         byteStart: int, byteEnd: int, lineStart: int, lineEnd: int,
                         rawSliceDigest: string, embeddingInputDigest: string, chunkPolicy: string,
                         createdAt: Stamp, updatedAt: Stamp)
  datatype Member = Member(authority: string, ordinal: int, blobOid: string, worktreeRef: string, contentDigest: string)
  datatype Exclusion = Exclusion(authority: string, blobOid: string)
  datatype Vector = Vector(bytes: Blob, dimensions: int, dtype: string, hash: string)
  datatype Namespace = Namespace(dimensions: int, dtype: string)

  datatype Membership = Membership(key: MemberKey, row: Member)
  datatype Omission = Omission(key: ExclusionKey, row: Exclusion)

  datatype Tables = Tables(repos: set<string>,
                           namespaces: map<NamespaceKey, Namespace>,
                           sets: map<SetKey, RevisionSet>,
                           chunks: map<ChunkKey, Chunk>,
                           members: map<MemberKey, Member>,
                           exclusions: map<ExclusionKey, Exclusion>,
                           vectors: map<VectorKey, Vector>)

  datatype Failure = Incomplete | Invalid | RequiresPublication | Published | NotFound | Constraint
                   | ChunkConflict | VectorConflict | NotPublishable
                   | MemberCount | ExclusionCount | Counters | Coverage | MissingVector | NoNamespace | BadVector

  type Answer = Result<Tables, Failure>

  // ---- rows of one set ----

  function SetOf(m: MemberKey): SetKey { SetKey(m.repo, m.revisionSet) }
  function ChunkOf(m: MemberKey): ChunkKey { ChunkKey(m.repo, m.chunk) }
  function Excluding(e: ExclusionKey): SetKey { SetKey(e.repo, e.revisionSet) }
  function Embedded(v: VectorKey): ChunkKey { ChunkKey(v.repo, v.chunk) }

  function MembersOf(t: Tables, k: SetKey): set<MemberKey> {
    set m | m in t.members && SetOf(m) == k
  }

  function ExclusionsOf(t: Tables, k: SetKey): set<ExclusionKey> {
    set e | e in t.exclusions && Excluding(e) == k
  }

  predicate Referenced(t: Tables, c: ChunkKey) {
    exists m | m in t.members :: ChunkOf(m) == c
  }

  // ---- revision sets ----

  function NormalizeSet(k: SetKey, row: RevisionSet): Result<RevisionSet, Failure> {
    if k.repo == "" || k.id == "" || row.gitStoreRef == "" || row.objectFormat == "" || row.commitOid == ""
       || row.policyHash == "" || row.policySource == "" || row.chunkPolicy == "" || row.state.Unset? then Err(Incomplete)
    else if row.generation < 0 then Err(Invalid)
    else Ok(if row.processingPolicy == "" then row.(processingPolicy := row.chunkPolicy) else row)
  }

  /** INSERT .. ON CONFLICT DO UPDATE .. WHERE state != 'ready'; created_at is not updated. */
  function PutSet(t: Tables, k: SetKey, row: RevisionSet): Answer {
    if k in t.sets then
      if t.sets[k].state.Ready? then Err(Published)
      else Ok(t.(sets := t.sets[k := row.(createdAt := t.sets[k].createdAt)]))
    else if k.repo !in t.repos then Err(Constraint)
    else Ok(t.(sets := t.sets[k := row]))
  }

  function UpsertSet(t: Tables, k: SetKey, row: RevisionSet): Answer {
    match NormalizeSet(k, row)
    case Err(e) => Err(e)
    case Ok(normalized) =>
      if normalized.state.Ready? || normalized.state.Partial? then Err(RequiresPublication)
      else PutSet(t, k, normalized)
  }

  /** Deleting a set cascades to its membership and exclusions. */
  function DeleteSet(t: Tables, k: SetKey): Tables {
    t.(sets := t.sets - {k},
       members := map m | m in t.members && SetOf(m) != k :: t.members[m],
       exclusions := map e | e in t.exclusions && Excluding(e) != k :: t.exclusions[e])
  }

  // ---- chunks, namespaces and vectors ----

  function UpsertNamespace(t: Tables, k: NamespaceKey, row: Namespace): Answer {
    if k.repo == "" || row.dimensions <= 0 || row.dtype == "" then Err(Incomplete)
    else if k.repo !in t.repos then Err(Constraint)
    else Ok(t.(namespaces := t.namespaces[k := row]))
  }

  predicate ValidChunk(k: ChunkKey, row: Chunk) {
    && k.repo != "" && k.id != "" && row.objectFormat != "" && row.contentDigest != "" && row.rawSliceDigest != ""
    && row.embeddingInputDigest != "" && row.chunkPolicy != ""
    && 0 <= row.byteStart < row.byteEnd && 0 < row.lineStart <= row.lineEnd
    && (row.blobOid != "" || row.worktreeRef != "")
  }

  predicate SameSlice(a: Chunk, b: Chunk) {
    && a.contentDigest == b.contentDigest && a.byteStart == b.byteStart && a.byteEnd == b.byteEnd
    && a.lineStart == b.lineStart && a.lineEnd == b.lineEnd && a.rawSliceDigest == b.rawSliceDigest
    && a.embeddingInputDigest == b.embeddingInputDigest && a.chunkPolicy == b.chunkPolicy
  }

  function UpsertChunk(t: Tables, k: ChunkKey, row: Chunk): Answer {
    if !ValidChunk(k, row) then Err(Incomplete)
    else if k in t.chunks then
      if SameSlice(t.chunks[k], row) then Ok(t.(chunks := t.chunks[k := t.chunks[k].(updatedAt := row.updatedAt)]))
      else Err(ChunkConflict)
    else if k.repo !in t.repos then Err(Constraint)
    else Ok(t.(chunks := t.chunks[k := row]))
  }

  function UpsertVector(sha: Digest, t: Tables, k: VectorKey, row: Vector): Answer {
    if k.repo == "" || k.namespace == "" || k.chunk == "" || row.bytes == [] || row.dimensions <= 0 || row.dtype == "" then
      Err(Incomplete)
    else
      var stored := if row.hash == "" then row.(hash := sha(row.bytes)) else row;
      if k in t.vectors then if t.vectors[k] == stored then Ok(t) else Err(VectorConflict)
      else if Embedded(k) !in t.chunks || NamespaceKey(k.repo, k.namespace) !in t.namespaces then Err(Constraint)
      else Ok(t.(vectors := t.vectors[k := stored]))
  }

  // ---- membership and exclusions ----

  function WithSet(k: SetKey, m: MemberKey): MemberKey {
    m.(repo := if m.repo == "" then k.repo else m.repo,
       revisionSet := if m.revisionSet == "" then k.id else m.revisionSet)
  }

  predicate ValidMember(k: SetKey, m: Membership) {
    SetOf(WithSet(k, m.key)) == k && m.key.path != "" && m.key.chunk != "" && m.row.authority != "" && m.row.contentDigest != ""
  }

  function NormalizeMembers(k: SetKey, ms: seq<Membership>): Result<seq<Membership>, Failure> {
    if Blank(k.repo) || Blank(k.id) then Err(Incomplete)
    else if exists m | m in ms :: !ValidMember(k, m) then Err(Invalid)
    else Ok(seq(|ms|, i requires 0 <= i < |ms| => ms[i].(key := WithSet(k, ms[i].key))))
  }

  function InsertMember(t: Tables, m: Membership): Answer {
    if m.key in t.members || SetOf(m.key) !in t.sets || ChunkOf(m.key) !in t.chunks then Err(Constraint)
    else Ok(t.(members := t.members[m.key := m.row]))
  }

  function InsertMembers(t: Tables, ms: seq<Membership>): Answer
    decreases |ms|
  {
    if ms == [] then Ok(t)
    else match InsertMember(t, ms[0])
      case Err(e) => Err(e)
      case Ok(next) => InsertMembers(next, ms[1..])
  }

  function ClearMembers(t: Tables, k: SetKey): Tables {
    t.(members := map m | m in t.members && SetOf(m) != k :: t.members[m])
  }

  function RequireBuilding(t: Tables, k: SetKey): Option<Failure> {
    if k !in t.sets then Some(NotFound)
    else if !t.sets[k].state.Building? then Some(Published)
    else None
  }

  function ReplaceMembership(t: Tables, k: SetKey, ms: seq<Membership>): Answer {
    match NormalizeMembers(k, ms)
    case Err(e) => Err(e)
    case Ok(normalized) =>
      match RequireBuilding(t, k)
      case Some(e) => Err(e)
      case None => InsertMembers(ClearMembers(t, k), normalized)
  }

  function UpsertMembership(t: Tables, m: Membership): Answer {
    match NormalizeMembers(SetOf(m.key), [m])
    case Err(e) => Err(e)
    case Ok(_) =>
      if SetOf(m.key) !in t.sets || !t.sets[SetOf(m.key)].state.Building? then Err(Published)
      else if m.key !in t.members && ChunkOf(m.key) !in t.chunks then Err(Constraint)
      else Ok(t.(members := t.members[m.key := m.row]))
  }

  function WithExcluding(k: SetKey, e: ExclusionKey): ExclusionKey {
    e.(repo := if e.repo == "" then k.repo else e.repo,
       revisionSet := if e.revisionSet == "" then k.id else e.revisionSet)
  }

  predicate ValidExclusion(k: SetKey, e: Omission) {
    Excluding(WithExcluding(k, e.key)) == k && !Blank(e.key.path) && !Blank(e.row.authority) && !Blank(e.key.reason)
  }

  function NormalizeExclusions(k: SetKey, es: seq<Omission>): Result<seq<Omission>, Failure> {
    if Blank(k.repo) || Blank(k.id) then Err(Incomplete)
    else if exists e | e in es :: !ValidExclusion(k, e) then Err(Invalid)
    else Ok(seq(|es|, i requires 0 <= i < |es| => es[i].(key := WithExcluding(k, es[i].key))))
  }

  function InsertExclusions(t: Tables, es: seq<Omission>): Answer
    decreases |es|
  {
    if es == [] then Ok(t)
    else if es[0].key in t.exclusions || Excluding(es[0].key) !in t.sets then Err(Constraint)
    else InsertExclusions(t.(exclusions := t.exclusions[es[0].key := es[0].row]), es[1..])
  }

  function ClearExclusions(t: Tables, k: SetKey): Tables {
    t.(exclusions := map e | e in t.exclusions && Excluding(e) != k :: t.exclusions[e])
  }

  function ReplaceExclusions(t: Tables, k: SetKey, es: seq<Omission>): Answer {
    match NormalizeExclusions(k, es)
    case Err(e) => Err(e)
    case Ok(normalized) =>
      match RequireBuilding(t, k)
      case Some(e) => Err(e)
      case None => InsertExclusions(ClearExclusions(t, k), normalized)
  }

  function UpsertExclusion(t: Tables, e: Omission): Answer {
    match NormalizeExclusions(Excluding(e.key), [e])
    case Err(x) => Err(x)
    case Ok(_) =>
      if Excluding(e.key) !in t.sets || !t.sets[Excluding(e.key)].state.Building? then Err(Published)
      else Ok(t.(exclusions := t.exclusions[e.key := e.row]))
  }

  // ---- publication ----

  predicate MeetsContract(sha: Digest, v: Vector, n: Namespace) {
    && v.dimensions == n.dimensions && v.dtype == n.dtype && v.dtype == FLOAT32
    && |v.bytes| == v.dimensions * 4 && v.hash == sha(v.bytes)
  }

  function PublicationError(sha: Digest, t: Tables, k: SetKey, row: RevisionSet): Option<Failure> {
    if |MembersOf(t, k)| != row.eligibleChunks then Some(MemberCount)
    else if |ExclusionsOf(t, k)| != row.excludedFiles then Some(ExclusionCount)
    else if row.embedded < 0 || row.reused < 0 || row.failed < 0 || row.missing < 0
            || row.embedded + row.reused > row.eligibleChunks then Some(Counters)
    else if !row.state.Ready? then None
    else if row.failed != 0 || row.missing != 0 || row.embedded + row.reused != row.eligibleChunks then Some(Coverage)
    else if exists m | m in MembersOf(t, k) :: VectorKey(k.repo, row.namespace, m.chunk) !in t.vectors then Some(MissingVector)
    else if NamespaceKey(k.repo, row.namespace) !in t.namespaces then Some(NoNamespace)
    else if exists m | m in MembersOf(t, k) ::
              !MeetsContract(sha, t.vectors[VectorKey(k.repo, row.namespace, m.chunk)], t.namespaces[NamespaceKey(k.repo, row.namespace)])
      then Some(BadVector)
    else None
  }

  function Expose(sha: Digest, t: Tables, k: SetKey, row: RevisionSet): Answer {
    match PublicationError(sha, t, k, row)
    case Some(e) => Err(e)
    case None => PutSet(t, k, row)
  }

  function PublishStaged(sha: Digest, t: Tables, k: SetKey, row: RevisionSet): Answer {
    match NormalizeSet(k, row)
    case Err(e) => Err(e)
    case Ok(normalized) =>
      if !normalized.state.Ready? && !normalized.state.Partial? then Err(NotPublishable)
      else if k !in t.sets then Err(NotFound)
      else if t.sets[k].state.Ready? then Err(Published)
      else Expose(sha, t, k, normalized)
  }

  function Publish(sha: Digest, t: Tables, k: SetKey, row: RevisionSet, ms: seq<Membership>): Answer {
    match NormalizeSet(k, row)
    case Err(e) => Err(e)
    case Ok(normalized) =>
      if !normalized.state.Ready? && !normalized.state.Partial? then Err(NotPublishable)
      else match NormalizeMembers(k, ms)
        case Err(e) => Err(e)
        case Ok(members) =>
          if k in t.sets && t.sets[k].state.Ready? then Err(Published)
          else match InsertMembers(ClearMembers(t, k), members)
            case Err(e) => Err(e)
            case Ok(staged) => Expose(sha, staged, k, normalized)
  }

  // ---- collection ----

  /** DELETE FROM repo_doc_vectors WHERE chunk_id NOT IN (the repository's memberships). */
  function SweepVectors(t: Tables, repo: string): Tables {
    t.(vectors := map v | v in t.vectors && (v.repo != repo || Referenced(t, Embedded(v))) :: t.vectors[v])
  }

  function DeadChunks(t: Tables, repo: string): set<ChunkKey> {
    set c | c in t.chunks && c.repo == repo && !Referenced(t, c)
  }

  /** Deleting chunks cascades to their memberships and vectors. */
  function DeleteChunks(t: Tables, dead: set<ChunkKey>): Tables {
    t.(chunks := t.chunks - dead,
       members := map m | m in t.members && ChunkOf(m) !in dead :: t.members[m],
       vectors := map v | v in t.vectors && Embedded(v) !in dead :: t.vectors[v])
  }

  function SweepChunks(t: Tables, repo: string): Tables {
    DeleteChunks(t, DeadChunks(t, repo))
  }

  function Sweep(t: Tables, repo: string): Tables {
    SweepChunks(SweepVectors(t, repo), repo)
  }
}
