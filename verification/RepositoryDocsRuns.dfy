/** Whole runs of the repository-document store: any interleaving of its operations, each one a transaction. */
module RepositoryDocsRuns {
  import opened Wrappers
  import opened RepositoryDocs
  import opened RepositoryDocsInvariant
  import opened RepositoryDocsRetention
  import opened Ordering
  import Text

  datatype Op =
    | AddRepository(repo: string)
    | PutNamespace(nk: NamespaceKey, namespace: Namespace)
    | PutRevisionSet(k: SetKey, row: RevisionSet)
    | PutChunk(ck: ChunkKey, chunk: Chunk)
    | PutVector(vk: VectorKey, vector: Vector)
    | ReplaceMembers(k: SetKey, members: seq<Membership>)
    | PutMember(member: Membership)
    | ReplaceOmissions(k: SetKey, omissions: seq<Omission>)
    | PutOmission(omission: Omission)
    | PublishWith(k: SetKey, row: RevisionSet, members: seq<Membership>)
    | PublishAsStaged(k: SetKey, row: RevisionSet)
    | Delete(k: SetKey)
    | Collect(repo: string)
    | Prune(repo: string, list: seq<Listed>, policy: Policy)

  ghost function Outcome(sha: Digest, t: Tables, op: Op): Answer {
    match op
    case AddRepository(repo) => Ok(t.(repos := t.repos + {repo}))
    case PutNamespace(k, row) => UpsertNamespace(t, k, row)
    case PutRevisionSet(k, row) => UpsertSet(t, k, row)
    case PutChunk(k, row) => UpsertChunk(t, k, row)
    case PutVector(k, row) => UpsertVector(sha, t, k, row)
    case ReplaceMembers(k, ms) => ReplaceMembership(t, k, ms)
    case PutMember(m) => UpsertMembership(t, m)
    case ReplaceOmissions(k, es) => ReplaceExclusions(t, k, es)
    case PutOmission(e) => UpsertExclusion(t, e)
    case PublishWith(k, row, ms) => Publish(sha, t, k, row, ms)
    case PublishAsStaged(k, row) => PublishStaged(sha, t, k, row)
    case Delete(k) => Ok(DeleteSet(t, k))
    case Collect(repo) => Ok(Sweep(t, repo))
    case Prune(repo, list, p) => Ok(Pruned(t, repo, list, p))
  }

  /** A failed transaction restores the tables it found. */
  ghost function Step(sha: Digest, t: Tables, op: Op): Tables {
    match Outcome(sha, t, op)
    case Ok(u) => u
    case Err(_) => t
  }

  ghost function Run(sha: Digest, t: Tables, ops: seq<Op>): Tables
    decreases |ops|
  {
    if ops == [] then t else Run(sha, Step(sha, t, ops[0]), ops[1..])
  }

  const EMPTY := Tables({}, map[], map[], map[], map[], map[], map[])

  lemma StagingStepKeepsReferences(sha: Digest, t: Tables, op: Op)
    requires Referential(t) && Outcome(sha, t, op).Ok?
    requires op.ReplaceMembers? || op.PutMember? || op.ReplaceOmissions? || op.PutOmission?
    ensures Referential(Step(sha, t, op))
  {
    match op
    case ReplaceMembers(k, ms) =>
      RestagedMembers(t, k, ms);
      StagingKeepsReferences(t, Step(sha, t, op), k);
    case PutMember(m) => StagingKeepsReferences(t, Step(sha, t, op), SetOf(m.key));
    case ReplaceOmissions(k, es) =>
      RestagedExclusions(t, k, es);
      StagingKeepsReferences(t, Step(sha, t, op), k);
    case PutOmission(e) => StagingKeepsReferences(t, Step(sha, t, op), Excluding(e.key));
  }

  lemma PublicationKeepsReferences(sha: Digest, t: Tables, k: SetKey, row: RevisionSet, ms: seq<Membership>)
    requires Referential(t) && Publish(sha, t, k, row, ms).Ok?
    ensures Referential(Publish(sha, t, k, row, ms).value)
  {
    var staged := InsertMembers(ClearMembers(t, k), NormalizeMembers(k, ms).value).value;
    RestagedMembers(t, k, ms);
    StagingKeepsReferences(t, staged, k);
    PutSetKeepsReferences(staged, k, NormalizeSet(k, row).value);
  }

  lemma SmallStepKeepsReferences(sha: Digest, t: Tables, op: Op)
    requires Referential(t) && Outcome(sha, t, op).Ok?
    requires op.AddRepository? || op.PutNamespace? || op.PutRevisionSet? || op.PutChunk? || op.PutVector?
    ensures Referential(Step(sha, t, op))
  {
    match op
    case AddRepository(_) =>
    case PutNamespace(_, _) =>
    case PutRevisionSet(k, row) => PutSetKeepsReferences(t, k, NormalizeSet(k, row).value);
    case PutChunk(k, row) => UpsertChunkKeepsReferences(t, k, row);
    case PutVector(k, row) => UpsertVectorKeepsReferences(sha, t, k, row);
  }

  lemma StepKeepsReferences(sha: Digest, t: Tables, op: Op)
    requires Referential(t)
    ensures Referential(Step(sha, t, op))
  {
    if Outcome(sha, t, op).Ok? {
      match op
      case ReplaceMembers(_, _) => StagingStepKeepsReferences(sha, t, op);
      case PutMember(_) => StagingStepKeepsReferences(sha, t, op);
      case ReplaceOmissions(_, _) => StagingStepKeepsReferences(sha, t, op);
      case PutOmission(_) => StagingStepKeepsReferences(sha, t, op);
      case PublishWith(k, row, ms) => PublicationKeepsReferences(sha, t, k, row, ms);
      case PublishAsStaged(k, row) => PutSetKeepsReferences(t, k, NormalizeSet(k, row).value);
      case Delete(k) => DeleteSetKeepsReferences(t, k);
      case Collect(repo) =>
        SweepKeepsReferences(t, repo);
        SweepKeepsReferences(SweepVectors(t, repo), repo);
      case Prune(repo, list, p) =>
        RetainedKeepsReferences(t, repo, MarkedIds(list, p) + Elements(EvictedIds(t, repo, list, p)));
      case _ => SmallStepKeepsReferences(sha, t, op);
    }
  }

  lemma ReflexivelyGood(sha: Digest, t: Tables)
    requires AllCovered(sha, t)
    ensures Good(sha, t, t)
  {
    forall k | k in t.sets && t.sets[k].state.Ready? ensures SameView(t, t, k) {
      assert Covered(sha, t, k);
    }
  }

  predicate Stages(op: Op) {
    op.ReplaceMembers? || op.PutMember? || op.ReplaceOmissions? || op.PutOmission?
  }

  lemma StagingIsGood(sha: Digest, t: Tables, op: Op)
    requires Referential(t) && AllCovered(sha, t) && Stages(op) && Outcome(sha, t, op).Ok?
    ensures Good(sha, t, Outcome(sha, t, op).value)
  {
    match op
    case ReplaceMembers(k, ms) => ReplaceMembershipKeeps(sha, t, k, ms);
    case PutMember(m) => UpsertMembershipKeeps(sha, t, m);
    case ReplaceOmissions(k, es) => ReplaceExclusionsKeeps(sha, t, k, es);
    case PutOmission(e) => UpsertExclusionKeeps(sha, t, e);
  }

  lemma RemovalOf(sha: Digest, t: Tables, op: Op)
    ensures op.Delete? ==> Outcome(sha, t, op) == Ok(DeleteSet(t, op.k))
    ensures op.Collect? ==> Outcome(sha, t, op) == Ok(Sweep(t, op.repo))
    ensures op.Prune? ==> Outcome(sha, t, op) == Ok(Pruned(t, op.repo, op.list, op.policy))
  {
  }

  lemma GoodStep(sha: Digest, t: Tables, op: Op, u: Tables)
    requires Outcome(sha, t, op) == Ok(u) && Good(sha, t, u)
    ensures Good(sha, t, Step(sha, t, op))
  {
  }

  lemma StepIsGood(sha: Digest, t: Tables, op: Op)
    requires Referential(t) && AllCovered(sha, t)
    ensures Good(sha, t, Step(sha, t, op))
  {
    if Outcome(sha, t, op).Err? {
      ReflexivelyGood(sha, t);
    } else if Stages(op) {
      StagingIsGood(sha, t, op);
    } else if op.Delete? {
      RemovalOf(sha, t, op);
      DeleteSetKeeps(sha, t, op.k);
      GoodStep(sha, t, op, DeleteSet(t, op.k));
    } else if op.Collect? {
      RemovalOf(sha, t, op);
      SweepKeeps(sha, t, op.repo);
      GoodStep(sha, t, op, Sweep(t, op.repo));
    } else if op.Prune? {
      RemovalOf(sha, t, op);
      PrunedKeeps(sha, t, op.repo, op.list, op.policy);
      GoodStep(sha, t, op, Pruned(t, op.repo, op.list, op.policy));
    } else {
      match op
      case AddRepository(repo) => GrowthKeeps(sha, t, Step(sha, t, op));
      case PutNamespace(k, row) => UpsertNamespaceKeeps(sha, t, k, row);
      case PutRevisionSet(k, row) => UpsertSetKeeps(sha, t, k, row);
      case PutChunk(k, row) => UpsertChunkKeeps(sha, t, k, row);
      case PutVector(k, row) => UpsertVectorKeeps(sha, t, k, row);
      case PublishWith(k, row, ms) => PublishKeeps(sha, t, k, row, ms);
      case PublishAsStaged(k, row) => PublishStagedKeeps(sha, t, k, row);
    }
  }

  lemma {:induction false} RunKeeps(sha: Digest, t: Tables, ops: seq<Op>)
    requires Referential(t) && AllCovered(sha, t)
    ensures Referential(Run(sha, t, ops)) && AllCovered(sha, Run(sha, t, ops))
    decreases |ops|
  {
    if ops != [] {
      StepKeepsReferences(sha, t, ops[0]);
      StepIsGood(sha, t, ops[0]);
      RunKeeps(sha, Step(sha, t, ops[0]), ops[1..]);
    }
  }

  /** In every reachable state every ready set is completely and correctly covered. */
  lemma ReadySetsAreCovered(sha: Digest, ops: seq<Op>, k: SetKey)
    requires k in Run(sha, EMPTY, ops).sets && Run(sha, EMPTY, ops).sets[k].state.Ready?
    ensures Covered(sha, Run(sha, EMPTY, ops), k) && Referential(Run(sha, EMPTY, ops))
  {
    RunKeeps(sha, EMPTY, ops);
  }

  /** Set k is never absent along the run. */
  ghost predicate NeverDeleted(sha: Digest, t: Tables, ops: seq<Op>, k: SetKey)
    decreases |ops|
  {
    k in t.sets && (ops == [] || NeverDeleted(sha, Step(sha, t, ops[0]), ops[1..], k))
  }

  /** A ready set that is not deleted shows the same rows after any run. */
  lemma {:induction false} ReadyViewIsStable(sha: Digest, t: Tables, ops: seq<Op>, k: SetKey)
    requires Referential(t) && AllCovered(sha, t)
    requires NeverDeleted(sha, t, ops, k) && t.sets[k].state.Ready?
    ensures k in Run(sha, t, ops).sets && SameView(t, Run(sha, t, ops), k)
    decreases |ops|
  {
    if ops == [] {
      ReflexivelyGood(sha, t);
    } else {
      var u := Step(sha, t, ops[0]);
      StepKeepsReferences(sha, t, ops[0]);
      StepIsGood(sha, t, ops[0]);
      assert SameView(t, u, k);
      ReadyViewIsStable(sha, u, ops[1..], k);
      SameViewTransitive(t, u, Run(sha, t, ops), k);
    }
  }

  lemma SameViewTransitive(t: Tables, u: Tables, w: Tables, k: SetKey)
    requires k in t.sets && k in u.sets && k in w.sets && SameView(t, u, k) && SameView(u, w, k)
    ensures SameView(t, w, k)
  {
  }

  // ---- snapshots ----

  datatype Candidate = Candidate(key: MemberKey, member: Member, objectFormat: string,
                                 byteStart: int, byteEnd: int, lineStart: int, lineEnd: int,
                                 rawSliceDigest: string, embeddingInputDigest: string, chunkPolicy: string,
                                 namespace: string, vector: Vector)
  datatype Snapshot = Snapshot(row: RevisionSet, candidates: seq<Candidate>)

  const NO_VECTOR := Vector([], 0, "", "")

  function CandidateOf(t: Tables, m: MemberKey, namespace: string): Candidate
    requires m in t.members && ChunkOf(m) in t.chunks
  {
    var c, v := t.chunks[ChunkOf(m)], VectorKey(m.repo, namespace, m.chunk);
    Candidate(m, t.members[m], c.objectFormat, c.byteStart, c.byteEnd, c.lineStart, c.lineEnd,
              c.rawSliceDigest, c.embeddingInputDigest, c.chunkPolicy,
              if v in t.vectors then namespace else "", if v in t.vectors then t.vectors[v] else NO_VECTOR)
  }

  function Ordinal(t: Tables, m: MemberKey): int {
    if m in t.members then t.members[m].ordinal else 0
  }

  /** ORDER BY path, ordinal, chunk_id. */
  predicate Earlier(t: Tables, a: MemberKey, b: MemberKey) {
    || Text.Less(a.path, b.path)
    || (a.path == b.path && Ordinal(t, a) < Ordinal(t, b))
    || (a.path == b.path && Ordinal(t, a) == Ordinal(t, b) && Text.Less(a.chunk, b.chunk))
  }

  function ByPath(t: Tables): (MemberKey, MemberKey) -> bool {
    (a, b) => Earlier(t, a, b)
  }

  /** The inner join with the chunk table. */
  function Joined(t: Tables, k: SetKey): set<MemberKey> {
    set m | m in MembersOf(t, k) && ChunkOf(m) in t.chunks
  }

  ghost predicate Lists(t: Tables, k: SetKey, namespace: string, order: seq<MemberKey>, candidates: seq<Candidate>) {
    && Enumerates(order, Joined(t, k)) && Sorted(ByPath(t), order)
    && |candidates| == |order|
    && forall i | 0 <= i < |order| :: order[i] in t.members && ChunkOf(order[i]) in t.chunks
                                      && candidates[i] == CandidateOf(t, order[i], namespace)
  }

  ghost predicate IsSnapshot(t: Tables, k: SetKey, namespace: string, s: Snapshot) {
    && k in t.sets && t.sets[k].state.Ready? && t.sets[k].namespace == namespace && s.row == t.sets[k]
    && exists order: seq<MemberKey> :: Lists(t, k, namespace, order, s.candidates)
  }

  lemma EarlierIsAsymmetric(t: Tables, a: MemberKey, b: MemberKey)
    requires Earlier(t, a, b)
    ensures !Earlier(t, b, a)
  {
    if Text.Less(a.path, b.path) { Text.LessIsAsymmetric(a.path, b.path); }
    if Text.Less(b.path, a.path) { Text.LessIsAsymmetric(b.path, a.path); }
    if Text.Less(a.chunk, b.chunk) { Text.LessIsAsymmetric(a.chunk, b.chunk); }
  }

  lemma EarlierIsTransitive(t: Tables, a: MemberKey, b: MemberKey, c: MemberKey)
    requires Earlier(t, a, b) && Earlier(t, b, c)
    ensures Earlier(t, a, c)
  {
    if Text.Less(a.path, b.path) && Text.Less(b.path, c.path) { Text.LessIsTransitive(a.path, b.path, c.path); }
    if Text.Less(a.chunk, b.chunk) && Text.Less(b.chunk, c.chunk) { Text.LessIsTransitive(a.chunk, b.chunk, c.chunk); }
  }

  lemma PathOrderIsStrict(t: Tables, k: SetKey)
    ensures StrictOrderOn(ByPath(t), MembersOf(t, k))
  {
    var items, less := MembersOf(t, k), ByPath(t);
    forall a, b | a in items && b in items && less(a, b) ensures !less(b, a) { EarlierIsAsymmetric(t, a, b); }
    forall a, b | a in items && b in items && a != b ensures less(a, b) || less(b, a) {
      Text.LessIsTotal(a.path, b.path);
      Text.LessIsTotal(a.chunk, b.chunk);
    }
    forall a, b, c | a in items && b in items && c in items && less(a, b) && less(b, c) ensures less(a, c) {
      EarlierIsTransitive(t, a, b, c);
    }
  }

  lemma CandidateFollowsView(t: Tables, u: Tables, k: SetKey, m: MemberKey)
    requires k in t.sets && k in u.sets && SameView(t, u, k) && m in MembersOf(t, k)
    ensures m in u.members && ChunkOf(m) in t.chunks && ChunkOf(m) in u.chunks
    ensures CandidateOf(t, m, t.sets[k].namespace) == CandidateOf(u, m, t.sets[k].namespace)
    ensures Ordinal(t, m) == Ordinal(u, m)
  {
    assert m in MembersOf(u, k);
  }

  lemma OrderFollowsView(t: Tables, u: Tables, k: SetKey, p: seq<MemberKey>, q: seq<MemberKey>)
    requires k in t.sets && k in u.sets && SameView(t, u, k)
    requires Enumerates(p, Joined(t, k)) && Sorted(ByPath(t), p)
    requires Enumerates(q, Joined(u, k)) && Sorted(ByPath(u), q)
    ensures p == q && forall i | 0 <= i < |p| :: p[i] in MembersOf(t, k)
  {
    assert Joined(t, k) == MembersOf(t, k) == Joined(u, k);
    forall i, j | 0 <= i < j < |q| ensures ByPath(t)(q[i], q[j]) {
      assert q[i] in MembersOf(t, k) && q[j] in MembersOf(t, k);
      CandidateFollowsView(t, u, k, q[i]);
      CandidateFollowsView(t, u, k, q[j]);
      assert ByPath(u)(q[i], q[j]);
    }
    PathOrderIsStrict(t, k);
    SortedEnumerationIsUnique(ByPath(t), MembersOf(t, k), p, q);
  }

  lemma SnapshotFollowsView(t: Tables, u: Tables, k: SetKey, namespace: string, a: Snapshot, b: Snapshot)
    requires k in t.sets && k in u.sets && SameView(t, u, k)
    requires IsSnapshot(t, k, namespace, a) && IsSnapshot(u, k, namespace, b)
    ensures a == b
  {
    var p: seq<MemberKey> :| Lists(t, k, namespace, p, a.candidates);
    var q: seq<MemberKey> :| Lists(u, k, namespace, q, b.candidates);
    OrderFollowsView(t, u, k, p, q);
    forall i | 0 <= i < |p| ensures a.candidates[i] == b.candidates[i] {
      CandidateFollowsView(t, u, k, p[i]);
    }
  }

  /** Two loads of a ready set that is not deleted in between return the same candidates in the same order, each
      with a non-empty vector, whatever runs in between. */
  lemma RepeatableSnapshots(sha: Digest, before: seq<Op>, between: seq<Op>, k: SetKey, namespace: string, a: Snapshot, b: Snapshot)
    requires NeverDeleted(sha, Run(sha, EMPTY, before), between, k)
    requires IsSnapshot(Run(sha, EMPTY, before), k, namespace, a)
    requires IsSnapshot(Run(sha, Run(sha, EMPTY, before), between), k, namespace, b)
    ensures a == b
    ensures |a.candidates| == a.row.eligibleChunks
    ensures forall c | c in a.candidates :: c.vector.bytes != [] && c.namespace == namespace && SoundVector(sha, c.vector)
  {
    var t := Run(sha, EMPTY, before);
    RunKeeps(sha, EMPTY, before);
    ReadyViewIsStable(sha, t, between, k);
    SnapshotFollowsView(t, Run(sha, t, between), k, namespace, a, b);
    SnapshotIsComplete(sha, t, k, namespace, a);
  }

  lemma SnapshotIsComplete(sha: Digest, t: Tables, k: SetKey, namespace: string, s: Snapshot)
    requires Referential(t) && AllCovered(sha, t) && IsSnapshot(t, k, namespace, s)
    ensures |s.candidates| == s.row.eligibleChunks
    ensures forall c | c in s.candidates :: c.vector.bytes != [] && c.namespace == namespace && SoundVector(sha, c.vector)
  {
    var p: seq<MemberKey> :| Lists(t, k, namespace, p, s.candidates);
    assert Joined(t, k) == MembersOf(t, k);
    EnumerationLength(p, MembersOf(t, k));
    forall i | 0 <= i < |p|
      ensures s.candidates[i].vector.bytes != [] && s.candidates[i].namespace == namespace && SoundVector(sha, s.candidates[i].vector)
    {
      assert p[i] in MembersOf(t, k);
    }
  }

  // ---- the race of a prune with a publication, run from the empty store ----

  /** A set without documents, on its way to publication. */
  predicate Publishable(k: SetKey, row: RevisionSet) {
    && NormalizeSet(k, row).Ok? && ReadyCommitted(row)
    && row.eligibleChunks == 0 && row.excludedFiles == 0 && row.embedded == 0 && row.reused == 0 && row.failed == 0 && row.missing == 0
  }

  /** Stage the set, and publish it as partial. */
  function Staging(k: SetKey, row: RevisionSet, namespace: Namespace, early: Stamp): seq<Op> {
    [AddRepository(k.repo), PutNamespace(NamespaceKey(k.repo, row.namespace), namespace)]
    + [PutRevisionSet(k, row.(state := Building, updatedAt := early)), PublishAsStaged(k, row.(state := Partial, updatedAt := early))]
  }

  ghost predicate OnlySet(t: Tables, k: SetKey, row: RevisionSet) {
    t.sets == map[k := row] && t.members == map[] && t.exclusions == map[]
  }

  lemma StagingSucceeds(sha: Digest, k: SetKey, row: RevisionSet, namespace: Namespace, early: Stamp)
    requires Publishable(k, row) && namespace.dimensions > 0 && namespace.dtype != ""
    ensures var s := Run(sha, EMPTY, Staging(k, row, namespace, early));
            && OnlySet(s, k, NormalizeSet(k, row.(state := Partial, updatedAt := early)).value)
            && NamespaceKey(k.repo, row.namespace) in s.namespaces
  {
    var ops := Staging(k, row, namespace, early);
    var t1 := Step(sha, EMPTY, ops[0]);
    var t2 := Step(sha, t1, ops[1]);
    var t3 := Step(sha, t2, ops[2]);
    var t4 := Step(sha, t3, ops[3]);
    assert MembersOf(t3, k) == {} && ExclusionsOf(t3, k) == {};
    FourSteps(sha, EMPTY, ops);
  }

  lemma FourSteps(sha: Digest, t: Tables, ops: seq<Op>)
    requires |ops| == 4
    ensures Run(sha, t, ops) == Step(sha, Step(sha, Step(sha, Step(sha, t, ops[0]), ops[1]), ops[2]), ops[3])
  {
    var t1, t2 := Step(sha, t, ops[0]), Step(sha, Step(sha, t, ops[0]), ops[1]);
    assert ops[1..][0] == ops[1] && ops[1..][1..] == ops[2..] && ops[2..][0] == ops[2] && ops[2..][1..] == ops[3..];
    assert ops[3..][0] == ops[3] && ops[3..][1..] == [];
    assert Run(sha, t, ops) == Run(sha, t1, ops[1..]) == Run(sha, t2, ops[2..]) == Run(sha, Step(sha, t2, ops[2]), ops[3..]);
    assert Run(sha, Step(sha, Step(sha, t2, ops[2]), ops[3]), []) == Step(sha, Step(sha, t2, ops[2]), ops[3]);
  }

  lemma LoneListing(t: Tables, k: SetKey, row: RevisionSet)
    requires OnlySet(t, k, row)
    ensures IsListing(t, k.repo, [Listed(k.id, row)])
  {
    assert Rows(t, k.repo) == {Listed(k.id, row)};
  }

  lemma OnlyIsNewest(t: Tables, k: SetKey, row: RevisionSet)
    requires OnlySet(t, k, row) && ReadyCommitted(row)
    ensures NewestOfIdentity(t, k)
  {
  }

  lemma PublicationSucceeds(sha: Digest, s: Tables, k: SetKey, row: RevisionSet, staged: RevisionSet) returns (t: Tables, ready: RevisionSet)
    requires Publishable(k, row) && OnlySet(s, k, staged) && staged.state.Partial? && NamespaceKey(k.repo, row.namespace) in s.namespaces
    ensures PublishStaged(sha, s, k, row) == Ok(t) && OnlySet(t, k, ready) && ReadyCommitted(ready)
  {
    assert MembersOf(s, k) == {} && ExclusionsOf(s, k) == {};
    t := PublishStaged(sha, s, k, row).value;
    ready := t.sets[k];
  }

  ghost predicate PrunedThough(t: Tables, k: SetKey, list: seq<Listed>, p: Policy) {
    NewestOfIdentity(t, k) && k !in Pruned(t, k.repo, list, p).sets
  }

  /** From s a caller can list the sets, another one publish k as the newest ready set of its identity, and the first
      one prune it by its listing. */
  ghost predicate LosesToListing(sha: Digest, s: Tables, k: SetKey, row: RevisionSet, p: Policy) {
    exists list, t :: IsListing(s, k.repo, list) && PublishStaged(sha, s, k, row) == Ok(t) && PrunedThough(t, k, list, p)
  }

  lemma StagedSetLoses(sha: Digest, s: Tables, k: SetKey, row: RevisionSet, staged: RevisionSet, p: Policy)
    requires Publishable(k, row) && OnlySet(s, k, staged) && staged.state.Partial? && NamespaceKey(k.repo, row.namespace) in s.namespaces
    requires TerminalExpired(staged, p) && !CallerProtected(p, k.id)
    ensures LosesToListing(sha, s, k, row, p)
  {
    LoneListing(s, k, staged);
    var t, ready := PublicationSucceeds(sha, s, k, row, staged);
    LoneListing(t, k, ready);
    OnlyIsNewest(t, k, ready);
    StaleListingDropsFreshPublication(sha, s, k.repo, [Listed(k.id, staged)], p, k, row, [], t, [Listed(k.id, ready)]);
    assert PrunedThough(t, k, [Listed(k.id, staged)], p);
  }

  /** The race is real: from the empty store a set can be staged and published as partial, listed, and published as
      ready. Then it is the only and so the newest ready set of its identity, and a prune that goes by that listing
      with a terminal cutoff between the two publications deletes it. */
  lemma FreshPublicationIsPruned(sha: Digest, k: SetKey, row: RevisionSet, namespace: Namespace, early: Stamp, cutoff: int)
    requires Publishable(k, row) && namespace.dimensions > 0 && namespace.dtype != "" && early.instant < cutoff
    ensures LosesToListing(sha, Run(sha, EMPTY, Staging(k, row, namespace, early)), k, row, Policy(8, 0, None, None, Some(cutoff), 0, []))
  {
    var s := Run(sha, EMPTY, Staging(k, row, namespace, early));
    StagingSucceeds(sha, k, row, namespace, early);
    StagedSetLoses(sha, s, k, row, NormalizeSet(k, row.(state := Partial, updatedAt := early)).value, Policy(8, 0, None, None, Some(cutoff), 0, []));
  }
}
