/** What every single store operation keeps about the repository-document tables. */
module RepositoryDocsInvariant {
  import opened Wrappers
  import opened RepositoryDocs

  /** Foreign keys hold and no stored vector is empty. */
  ghost predicate Referential(t: Tables) {
    && (forall n | n in t.namespaces :: n.repo in t.repos)
    && (forall k | k in t.sets :: k.repo in t.repos)
    && (forall c | c in t.chunks :: c.repo in t.repos)
    && (forall m | m in t.members :: SetOf(m) in t.sets && ChunkOf(m) in t.chunks)
    && (forall e | e in t.exclusions :: Excluding(e) in t.sets)
    && (forall v | v in t.vectors :: Embedded(v) in t.chunks && NamespaceKey(v.repo, v.namespace) in t.namespaces && t.vectors[v].bytes != [])
  }

  ghost predicate SoundVector(sha: Digest, v: Vector) {
    v.dtype == FLOAT32 && |v.bytes| == 4 * v.dimensions && v.hash == sha(v.bytes)
  }

  /** A set that readers may search: counters equal the rows, and every member is embedded. */
  ghost predicate Covered(sha: Digest, t: Tables, k: SetKey)
    requires k in t.sets
  {
    var row := t.sets[k];
    && |MembersOf(t, k)| == row.eligibleChunks
    && |ExclusionsOf(t, k)| == row.excludedFiles
    && row.embedded + row.reused == row.eligibleChunks && row.embedded >= 0 && row.reused >= 0
    && row.failed == 0 && row.missing == 0
    && forall m | m in MembersOf(t, k) ::
         && ChunkOf(m) in t.chunks
         && VectorKey(k.repo, row.namespace, m.chunk) in t.vectors
         && SoundVector(sha, t.vectors[VectorKey(k.repo, row.namespace, m.chunk)])
  }

  ghost predicate AllCovered(sha: Digest, t: Tables) {
    forall k | k in t.sets && t.sets[k].state.Ready? :: Covered(sha, t, k)
  }

  predicate SameCandidate(a: Chunk, b: Chunk) {
    SameSlice(a, b) && a.objectFormat == b.objectFormat
  }

  /** Everything a reader of set k can see is the same in t and u. */
  ghost predicate SameView(t: Tables, u: Tables, k: SetKey)
    requires k in t.sets && k in u.sets
  {
    && u.sets[k] == t.sets[k]
    && MembersOf(u, k) == MembersOf(t, k)
    && ExclusionsOf(u, k) == ExclusionsOf(t, k)
    && (forall e | e in ExclusionsOf(t, k) :: u.exclusions[e] == t.exclusions[e])
    && forall m | m in MembersOf(t, k) ::
         var c, v := ChunkOf(m), VectorKey(k.repo, t.sets[k].namespace, m.chunk);
         && u.members[m] == t.members[m]
         && c in t.chunks && c in u.chunks && SameCandidate(t.chunks[c], u.chunks[c])
         && v in t.vectors && v in u.vectors && u.vectors[v] == t.vectors[v]
  }

  /** A step may remove a ready set but never alters one it keeps. */
  ghost predicate KeepsReady(t: Tables, u: Tables) {
    forall k | k in t.sets && t.sets[k].state.Ready? && k in u.sets :: SameView(t, u, k)
  }

  /** What a step promises readers of ready sets. */
  ghost predicate Good(sha: Digest, t: Tables, u: Tables) {
    AllCovered(sha, u) && KeepsReady(t, u)
  }

  lemma SameViewKeepsCoverage(sha: Digest, t: Tables, u: Tables, k: SetKey)
    requires k in t.sets && k in u.sets && Covered(sha, t, k) && SameView(t, u, k)
    ensures Covered(sha, u, k)
  {
  }

  /** Covered sets are preserved as soon as every kept ready set keeps its view. */
  lemma CoveredFromViews(sha: Digest, t: Tables, u: Tables)
    requires AllCovered(sha, t) && KeepsReady(t, u)
    requires forall k | k in u.sets && u.sets[k].state.Ready? && !(k in t.sets && t.sets[k].state.Ready?) :: Covered(sha, u, k)
    ensures Good(sha, t, u)
  {
    forall k | k in u.sets && u.sets[k].state.Ready? ensures Covered(sha, u, k) {
      if k in t.sets && t.sets[k].state.Ready? {
        SameViewKeepsCoverage(sha, t, u, k);
      }
    }
  }

  lemma GoodTransitive(sha: Digest, t: Tables, u: Tables, w: Tables)
    requires Good(sha, t, u) && Good(sha, u, w) && w.sets.Keys <= u.sets.Keys
    ensures Good(sha, t, w)
  {
    forall k | k in t.sets && t.sets[k].state.Ready? && k in w.sets ensures SameView(t, w, k) {
      assert SameView(t, u, k) && SameView(u, w, k);
    }
  }

  // ---- foreign keys ----

  lemma PutSetKeepsReferences(t: Tables, k: SetKey, row: RevisionSet)
    requires Referential(t) && PutSet(t, k, row).Ok?
    ensures Referential(PutSet(t, k, row).value)
  {
  }

  lemma UpsertChunkKeepsReferences(t: Tables, k: ChunkKey, row: Chunk)
    requires Referential(t) && UpsertChunk(t, k, row).Ok?
    ensures Referential(UpsertChunk(t, k, row).value)
  {
  }

  lemma UpsertVectorKeepsReferences(sha: Digest, t: Tables, k: VectorKey, row: Vector)
    requires Referential(t) && UpsertVector(sha, t, k, row).Ok?
    ensures Referential(UpsertVector(sha, t, k, row).value)
  {
  }

  lemma DeleteSetKeepsReferences(t: Tables, k: SetKey)
    requires Referential(t)
    ensures Referential(DeleteSet(t, k))
  {
  }

  lemma SweepKeepsReferences(t: Tables, repo: string)
    requires Referential(t)
    ensures Referential(SweepVectors(t, repo)) && Referential(SweepChunks(t, repo))
  {
  }

  lemma StagingKeepsReferences(t: Tables, u: Tables, k: SetKey)
    requires Referential(t) && OnlyTouches(t, u, k)
    requires forall m | m in u.members && SetOf(m) == k :: k in t.sets && ChunkOf(m) in t.chunks
    requires forall e | e in u.exclusions && Excluding(e) == k :: k in t.sets
    ensures Referential(u)
  {
    forall m | m in u.members ensures SetOf(m) in u.sets && ChunkOf(m) in u.chunks {
      if SetOf(m) != k { assert m in t.members; }
    }
    forall e | e in u.exclusions ensures Excluding(e) in u.sets {
      if Excluding(e) != k { assert e in t.exclusions; }
    }
  }

  // ---- statements ----

  /** Rows are only added, and a chunk changes nothing a candidate shows. */
  ghost predicate Extends(t: Tables, u: Tables) {
    && u.members == t.members && u.exclusions == t.exclusions
    && (forall c | c in t.chunks :: c in u.chunks && SameCandidate(t.chunks[c], u.chunks[c]))
    && (forall v | v in t.vectors :: v in u.vectors && u.vectors[v] == t.vectors[v])
  }

  lemma ExtendsKeepsView(sha: Digest, t: Tables, u: Tables, k: SetKey)
    requires k in t.sets && Covered(sha, t, k) && Extends(t, u) && k in u.sets && u.sets[k] == t.sets[k]
    ensures SameView(t, u, k)
  {
    assert MembersOf(u, k) == MembersOf(t, k) && ExclusionsOf(u, k) == ExclusionsOf(t, k);
  }

  lemma ExtendsKeeps(sha: Digest, t: Tables, u: Tables)
    requires AllCovered(sha, t) && Extends(t, u)
    requires forall k | k in t.sets && t.sets[k].state.Ready? && k in u.sets :: u.sets[k] == t.sets[k]
    requires forall k | k in u.sets && u.sets[k].state.Ready? && !(k in t.sets && t.sets[k].state.Ready?) :: Covered(sha, u, k)
    ensures Good(sha, t, u)
  {
    forall k | k in t.sets && t.sets[k].state.Ready? && k in u.sets ensures SameView(t, u, k) {
      ExtendsKeepsView(sha, t, u, k);
    }
    CoveredFromViews(sha, t, u);
  }

  lemma GrowthKeeps(sha: Digest, t: Tables, u: Tables)
    requires AllCovered(sha, t) && Extends(t, u) && u.sets == t.sets
    ensures Good(sha, t, u)
  {
    ExtendsKeeps(sha, t, u);
  }

  lemma SetRowKeeps(sha: Digest, t: Tables, k: SetKey, row: RevisionSet)
    requires AllCovered(sha, t) && !(k in t.sets && t.sets[k].state.Ready?)
    requires row.state.Ready? ==> Covered(sha, t.(sets := t.sets[k := row]), k)
    ensures Good(sha, t, t.(sets := t.sets[k := row]))
  {
    ExtendsKeeps(sha, t, t.(sets := t.sets[k := row]));
  }

  lemma PutSetKeeps(sha: Digest, t: Tables, k: SetKey, row: RevisionSet)
    requires AllCovered(sha, t) && PutSet(t, k, row).Ok?
    requires row.state.Ready? ==> Covered(sha, t.(sets := t.sets[k := row]), k)
    ensures Good(sha, t, PutSet(t, k, row).value)
  {
    var stored := if k in t.sets then row.(createdAt := t.sets[k].createdAt) else row;
    if row.state.Ready? {
      CoverageIgnoresCreation(sha, t, k, row, stored);
    }
    SetRowKeeps(sha, t, k, stored);
  }

  lemma CoverageIgnoresCreation(sha: Digest, t: Tables, k: SetKey, row: RevisionSet, stored: RevisionSet)
    requires Covered(sha, t.(sets := t.sets[k := row]), k) && stored == row.(createdAt := stored.createdAt)
    ensures Covered(sha, t.(sets := t.sets[k := stored]), k)
  {
    var u, w := t.(sets := t.sets[k := row]), t.(sets := t.sets[k := stored]);
    assert MembersOf(w, k) == MembersOf(u, k) && ExclusionsOf(w, k) == ExclusionsOf(u, k);
  }

  lemma UpsertSetKeeps(sha: Digest, t: Tables, k: SetKey, row: RevisionSet)
    requires AllCovered(sha, t) && UpsertSet(t, k, row).Ok?
    ensures Good(sha, t, UpsertSet(t, k, row).value)
  {
    PutSetKeeps(sha, t, k, NormalizeSet(k, row).value);
  }

  lemma DeleteSetKeeps(sha: Digest, t: Tables, k: SetKey)
    requires AllCovered(sha, t)
    ensures Good(sha, t, DeleteSet(t, k))
  {
    var u := DeleteSet(t, k);
    forall j | j in t.sets && t.sets[j].state.Ready? && j in u.sets ensures SameView(t, u, j) {
      assert Covered(sha, t, j);
      assert MembersOf(u, j) == MembersOf(t, j) && ExclusionsOf(u, j) == ExclusionsOf(t, j);
    }
    CoveredFromViews(sha, t, u);
  }

  lemma UpsertChunkExtends(t: Tables, k: ChunkKey, row: Chunk)
    requires UpsertChunk(t, k, row).Ok?
    ensures Extends(t, UpsertChunk(t, k, row).value)
  {
  }

  lemma UpsertChunkKeeps(sha: Digest, t: Tables, k: ChunkKey, row: Chunk)
    requires AllCovered(sha, t) && UpsertChunk(t, k, row).Ok?
    ensures Good(sha, t, UpsertChunk(t, k, row).value)
  {
    UpsertChunkExtends(t, k, row);
    GrowthKeeps(sha, t, UpsertChunk(t, k, row).value);
  }

  lemma UpsertNamespaceKeeps(sha: Digest, t: Tables, k: NamespaceKey, row: Namespace)
    requires AllCovered(sha, t) && UpsertNamespace(t, k, row).Ok?
    ensures Good(sha, t, UpsertNamespace(t, k, row).value)
  {
    var u := UpsertNamespace(t, k, row).value;
    GrowthKeeps(sha, t, u);
  }

  lemma UpsertVectorKeeps(sha: Digest, t: Tables, k: VectorKey, row: Vector)
    requires AllCovered(sha, t) && UpsertVector(sha, t, k, row).Ok?
    ensures Good(sha, t, UpsertVector(sha, t, k, row).value)
  {
    var u := UpsertVector(sha, t, k, row).value;
    GrowthKeeps(sha, t, u);
  }

  /** Rows of one unpublished set may change freely: no ready set can see them. */
  ghost predicate OnlyTouches(t: Tables, u: Tables, k: SetKey) {
    && u.repos == t.repos && u.namespaces == t.namespaces && u.sets == t.sets && u.chunks == t.chunks && u.vectors == t.vectors
    && (forall m | SetOf(m) != k :: (m in u.members <==> m in t.members) && (m in t.members ==> u.members[m] == t.members[m]))
    && (forall e | Excluding(e) != k :: (e in u.exclusions <==> e in t.exclusions) && (e in t.exclusions ==> u.exclusions[e] == t.exclusions[e]))
  }

  lemma StagingKeeps(sha: Digest, t: Tables, u: Tables, k: SetKey)
    requires AllCovered(sha, t) && OnlyTouches(t, u, k) && !(k in t.sets && t.sets[k].state.Ready?)
    ensures Good(sha, t, u)
  {
    forall j | j in t.sets && t.sets[j].state.Ready? && j in u.sets ensures SameView(t, u, j) {
      assert Covered(sha, t, j);
      assert MembersOf(u, j) == MembersOf(t, j) && ExclusionsOf(u, j) == ExclusionsOf(t, j);
    }
    CoveredFromViews(sha, t, u);
  }

  /** A successful insertion run adds exactly the listed rows, all new and all referenced. */
  lemma {:induction false} InsertedMembers(t: Tables, ms: seq<Membership>)
    requires InsertMembers(t, ms).Ok?
    ensures var u := InsertMembers(t, ms).value;
      && u == t.(members := u.members)
      && (forall m :: m in u.members <==> m in t.members || exists i | 0 <= i < |ms| :: ms[i].key == m)
      && (forall m | m in t.members :: u.members[m] == t.members[m])
      && (forall i | 0 <= i < |ms| :: ms[i].key !in t.members && u.members[ms[i].key] == ms[i].row
                                      && SetOf(ms[i].key) in t.sets && ChunkOf(ms[i].key) in t.chunks)
    decreases |ms|
  {
    if ms != [] {
      var next := InsertMember(t, ms[0]).value;
      InsertedMembers(next, ms[1..]);
      var u := InsertMembers(t, ms).value;
      forall i | 0 <= i < |ms|
        ensures ms[i].key !in t.members && ms[i].key in u.members && u.members[ms[i].key] == ms[i].row
        ensures SetOf(ms[i].key) in t.sets && ChunkOf(ms[i].key) in t.chunks
      {
        if i > 0 { assert ms[i] == ms[1..][i - 1]; }
      }
      forall m | m in u.members ensures m in t.members || exists i | 0 <= i < |ms| :: ms[i].key == m {
        if m !in t.members && m != ms[0].key {
          var i :| 0 <= i < |ms[1..]| && ms[1..][i].key == m;
          assert ms[i + 1].key == m;
        }
      }
    }
  }

  lemma {:induction false} InsertedExclusions(t: Tables, es: seq<Omission>)
    requires InsertExclusions(t, es).Ok?
    ensures var u := InsertExclusions(t, es).value;
      && u == t.(exclusions := u.exclusions)
      && (forall e :: e in u.exclusions <==> e in t.exclusions || exists i | 0 <= i < |es| :: es[i].key == e)
      && (forall e | e in t.exclusions :: u.exclusions[e] == t.exclusions[e])
      && (forall i | 0 <= i < |es| :: es[i].key !in t.exclusions && u.exclusions[es[i].key] == es[i].row && Excluding(es[i].key) in t.sets)
    decreases |es|
  {
    if es != [] {
      var next := t.(exclusions := t.exclusions[es[0].key := es[0].row]);
      InsertedExclusions(next, es[1..]);
      var u := InsertExclusions(t, es).value;
      forall i | 0 <= i < |es|
        ensures es[i].key !in t.exclusions && es[i].key in u.exclusions && u.exclusions[es[i].key] == es[i].row && Excluding(es[i].key) in t.sets
      {
        if i > 0 { assert es[i] == es[1..][i - 1]; }
      }
      forall e | e in u.exclusions ensures e in t.exclusions || exists i | 0 <= i < |es| :: es[i].key == e {
        if e !in t.exclusions && e != es[0].key {
          var i :| 0 <= i < |es[1..]| && es[1..][i].key == e;
          assert es[i + 1].key == e;
        }
      }
    }
  }

  lemma RestagedMembers(t: Tables, k: SetKey, ms: seq<Membership>)
    requires NormalizeMembers(k, ms).Ok?
    requires InsertMembers(ClearMembers(t, k), NormalizeMembers(k, ms).value).Ok?
    ensures var u := InsertMembers(ClearMembers(t, k), NormalizeMembers(k, ms).value).value;
      && OnlyTouches(t, u, k) && u == t.(members := u.members)
      && forall m | m in u.members && SetOf(m) == k :: k in t.sets && ChunkOf(m) in t.chunks
  {
    var rows := NormalizeMembers(k, ms).value;
    InsertedMembers(ClearMembers(t, k), rows);
    assert forall i | 0 <= i < |rows| :: ValidMember(k, ms[i]) && rows[i].key == WithSet(k, ms[i].key);
  }

  lemma RestagedExclusions(t: Tables, k: SetKey, es: seq<Omission>)
    requires NormalizeExclusions(k, es).Ok?
    requires InsertExclusions(ClearExclusions(t, k), NormalizeExclusions(k, es).value).Ok?
    ensures var u := InsertExclusions(ClearExclusions(t, k), NormalizeExclusions(k, es).value).value;
      && OnlyTouches(t, u, k) && u == t.(exclusions := u.exclusions)
      && forall e | e in u.exclusions && Excluding(e) == k :: k in t.sets
  {
    var rows := NormalizeExclusions(k, es).value;
    InsertedExclusions(ClearExclusions(t, k), rows);
    assert forall i | 0 <= i < |rows| :: ValidExclusion(k, es[i]) && rows[i].key == WithExcluding(k, es[i].key);
  }

  lemma ReplaceMembershipKeeps(sha: Digest, t: Tables, k: SetKey, ms: seq<Membership>)
    requires AllCovered(sha, t) && ReplaceMembership(t, k, ms).Ok?
    ensures Good(sha, t, ReplaceMembership(t, k, ms).value)
  {
    RestagedMembers(t, k, ms);
    StagingKeeps(sha, t, ReplaceMembership(t, k, ms).value, k);
  }

  lemma UpsertMembershipKeeps(sha: Digest, t: Tables, m: Membership)
    requires AllCovered(sha, t) && UpsertMembership(t, m).Ok?
    ensures Good(sha, t, UpsertMembership(t, m).value)
  {
    StagingKeeps(sha, t, UpsertMembership(t, m).value, SetOf(m.key));
  }

  lemma ReplaceExclusionsKeeps(sha: Digest, t: Tables, k: SetKey, es: seq<Omission>)
    requires AllCovered(sha, t) && ReplaceExclusions(t, k, es).Ok?
    ensures Good(sha, t, ReplaceExclusions(t, k, es).value)
  {
    RestagedExclusions(t, k, es);
    StagingKeeps(sha, t, ReplaceExclusions(t, k, es).value, k);
  }

  lemma UpsertExclusionKeeps(sha: Digest, t: Tables, e: Omission)
    requires AllCovered(sha, t) && UpsertExclusion(t, e).Ok?
    ensures Good(sha, t, UpsertExclusion(t, e).value)
  {
    StagingKeeps(sha, t, UpsertExclusion(t, e).value, Excluding(e.key));
  }

  // ---- publication and collection ----

  lemma ExposeKeeps(sha: Digest, t: Tables, k: SetKey, row: RevisionSet)
    requires Referential(t) && AllCovered(sha, t) && Expose(sha, t, k, row).Ok?
    ensures Good(sha, t, Expose(sha, t, k, row).value)
  {
    var u := t.(sets := t.sets[k := row]);
    assert MembersOf(u, k) == MembersOf(t, k) && ExclusionsOf(u, k) == ExclusionsOf(t, k);
    if row.state.Ready? {
      forall m | m in MembersOf(t, k)
        ensures ChunkOf(m) in t.chunks && VectorKey(k.repo, row.namespace, m.chunk) in t.vectors
        ensures SoundVector(sha, t.vectors[VectorKey(k.repo, row.namespace, m.chunk)])
      {}
      assert Covered(sha, u, k);
    }
    PutSetKeeps(sha, t, k, row);
  }

  lemma PublishStagedKeeps(sha: Digest, t: Tables, k: SetKey, row: RevisionSet)
    requires Referential(t) && AllCovered(sha, t) && PublishStaged(sha, t, k, row).Ok?
    ensures Good(sha, t, PublishStaged(sha, t, k, row).value)
  {
    ExposeKeeps(sha, t, k, NormalizeSet(k, row).value);
  }

  lemma PublishKeeps(sha: Digest, t: Tables, k: SetKey, row: RevisionSet, ms: seq<Membership>)
    requires Referential(t) && AllCovered(sha, t) && Publish(sha, t, k, row, ms).Ok?
    ensures Good(sha, t, Publish(sha, t, k, row, ms).value)
  {
    var staged := InsertMembers(ClearMembers(t, k), NormalizeMembers(k, ms).value).value;
    RestagedMembers(t, k, ms);
    StagingKeeps(sha, t, staged, k);
    StagingKeepsReferences(t, staged, k);
    ExposeKeeps(sha, staged, k, NormalizeSet(k, row).value);
    var u := Publish(sha, t, k, row, ms).value;
    forall j | j in t.sets && t.sets[j].state.Ready? && j in u.sets ensures SameView(t, u, j) {
      assert SameView(t, staged, j) && SameView(staged, u, j);
    }
  }

  lemma SweepVectorsKeeps(sha: Digest, t: Tables, repo: string)
    requires AllCovered(sha, t)
    ensures Good(sha, t, SweepVectors(t, repo))
  {
    var u := SweepVectors(t, repo);
    forall j | j in t.sets && t.sets[j].state.Ready? && j in u.sets ensures SameView(t, u, j) {
      assert Covered(sha, t, j);
      assert MembersOf(u, j) == MembersOf(t, j) && ExclusionsOf(u, j) == ExclusionsOf(t, j);
      forall m | m in MembersOf(t, j) ensures Referenced(t, ChunkOf(m)) {}
    }
    CoveredFromViews(sha, t, u);
  }

  /** No membership is lost to the chunk sweep: swept chunks are exactly the unreferenced ones. */
  lemma SweepChunksKeepsMembers(t: Tables, repo: string)
    ensures SweepChunks(t, repo).members == t.members
  {
    forall m | m in t.members ensures Referenced(t, ChunkOf(m)) {}
  }

  lemma SweepChunksKeeps(sha: Digest, t: Tables, repo: string)
    requires AllCovered(sha, t)
    ensures Good(sha, t, SweepChunks(t, repo))
  {
    SweepChunksKeepsMembers(t, repo);
    var u := SweepChunks(t, repo);
    forall j | j in t.sets && t.sets[j].state.Ready? && j in u.sets ensures SameView(t, u, j) {
      assert Covered(sha, t, j);
      assert MembersOf(u, j) == MembersOf(t, j) && ExclusionsOf(u, j) == ExclusionsOf(t, j);
      forall m | m in MembersOf(t, j) ensures Referenced(t, ChunkOf(m)) {}
    }
    CoveredFromViews(sha, t, u);
  }

  lemma SweepKeeps(sha: Digest, t: Tables, repo: string)
    requires AllCovered(sha, t)
    ensures Good(sha, t, Sweep(t, repo))
  {
    SweepVectorsKeeps(sha, t, repo);
    SweepChunksKeeps(sha, SweepVectors(t, repo), repo);
    GoodTransitive(sha, t, SweepVectors(t, repo), Sweep(t, repo));
  }
}
