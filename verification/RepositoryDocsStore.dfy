/** The store object: one field per table, every method one transaction. */
module RepositoryDocsStore {
  import opened Wrappers
  import opened RepositoryDocs
  import opened RepositoryDocsInvariant
  import opened RepositoryDocsRetention
  import opened RepositoryDocsRuns
  import opened Ordering
  import Text

  datatype GcResult = GcResult(setsDeleted: int, chunksDeleted: int, vectorsDeleted: int,
                               bytesBefore: int, bytesAfter: int)

  function FailureOf(a: Answer): Option<Failure> {
    match a case Ok(_) => None case Err(e) => Some(e)
  }

  /** The committed tables, or the ones found when the transaction fails. */
  function After(a: Answer, before: Tables): Tables {
    match a case Ok(t) => t case Err(_) => before
  }

  lemma {:induction false} BytesWithout(m: map<VectorKey, Vector>, ks: set<VectorKey>, k: VectorKey)
    requires ks <= m.Keys && k in ks
    ensures BytesOf(m, ks) == |m[k].bytes| + BytesOf(m, ks - {k})
    decreases |ks|
  {
    var x :| x in ks && BytesOf(m, ks) == |m[x].bytes| + BytesOf(m, ks - {x});
    if x != k {
      BytesWithout(m, ks - {x}, k);
      BytesWithout(m, ks - {k}, x);
      assert ks - {x} - {k} == ks - {k} - {x};
    }
  }

  lemma DeadVectorCount(t: Tables, repo: string)
    ensures |set v | v in t.vectors && v.repo == repo && !Referenced(t, Embedded(v))|
         == |VectorsIn(t, repo)| - |VectorsIn(SweepVectors(t, repo), repo)|
  {
    var dead := set v | v in t.vectors && v.repo == repo && !Referenced(t, Embedded(v));
    assert VectorsIn(SweepVectors(t, repo), repo) == VectorsIn(t, repo) - dead;
    assert dead <= VectorsIn(t, repo);
  }

  lemma DeadChunkCount(t: Tables, repo: string)
    ensures |DeadChunks(t, repo)| == |ChunksIn(t, repo)| - |ChunksIn(SweepChunks(t, repo), repo)|
  {
    assert ChunksIn(SweepChunks(t, repo), repo) == ChunksIn(t, repo) - DeadChunks(t, repo);
    assert DeadChunks(t, repo) <= ChunksIn(t, repo);
  }

  /** The counters after a further deletion from `before` to `now`. */
  ghost function CountedSince(r: GcResult, before: Tables, now: Tables, repo: string): GcResult {
    r.(bytesAfter := VectorBytes(now, repo),
       setsDeleted := r.setsDeleted + |SetsIn(before, repo)| - |SetsIn(now, repo)|,
       chunksDeleted := r.chunksDeleted + |ChunksIn(before, repo)| - |ChunksIn(now, repo)|,
       vectorsDeleted := r.vectorsDeleted + |VectorsIn(before, repo)| - |VectorsIn(now, repo)|)
  }

  lemma CountersCompose(r: GcResult, a: Tables, b: Tables, c: Tables, repo: string)
    ensures CountedSince(CountedSince(r, a, b, repo), b, c, repo) == CountedSince(r, a, c, repo)
  {
  }

  lemma DeletedSetCount(t: Tables, repo: string, id: string)
    ensures |SetsIn(t, repo)| - |SetsIn(DeleteSet(t, SetKey(repo, id)), repo)| == if SetKey(repo, id) in t.sets then 1 else 0
  {
    assert SetsIn(DeleteSet(t, SetKey(repo, id)), repo) == SetsIn(t, repo) - {SetKey(repo, id)};
  }

  lemma NoPressureMeansNoEviction(t: Tables, repo: string, list: seq<Listed>, p: Policy)
    requires p.maxVectorBytes <= 0 || VectorBytes(Retained(t, repo, MarkedIds(list, p)), repo) <= p.maxVectorBytes
    ensures Pruned(t, repo, list, p) == Retained(t, repo, MarkedIds(list, p))
  {
    assert EvictedIds(t, repo, list, p) == [];
    assert MarkedIds(list, p) + Elements([]) == MarkedIds(list, p);
  }

  predicate Skips(now: Tables, repo: string, entry: Listed, protectedIds: set<string>) {
    entry.id in protectedIds || entry.row.state.Building? || SetKey(repo, entry.id) !in now.sets
  }

  /** One round of the eviction loop. */
  function OneRound(now: Tables, repo: string, entry: Listed, protectedIds: set<string>): Tables {
    if Skips(now, repo, entry, protectedIds) then now else Sweep(DeleteSet(now, SetKey(repo, entry.id)), repo)
  }

  /** The eviction loop, from the listed entry below `index` down. */
  ghost function Walk(now: Tables, repo: string, list: seq<Listed>, ceiling: int, protectedIds: set<string>, index: nat): Tables
    requires index <= |list|
    decreases index
  {
    if index == 0 || VectorBytes(now, repo) <= ceiling then now
    else Walk(OneRound(now, repo, list[index - 1], protectedIds), repo, list, ceiling, protectedIds, index - 1)
  }

  lemma {:induction false} SameVictims(t: Tables, u: Tables, repo: string, list: seq<Listed>, p: Policy, n: nat)
    requires n <= |list| && forall i | 0 <= i < n :: SetKey(repo, list[i].id) in t.sets <==> SetKey(repo, list[i].id) in u.sets
    ensures Victims(t, repo, list, p, n) == Victims(u, repo, list, p, n)
  {
    if n > 0 { SameVictims(t, u, repo, list, p, n - 1); }
  }

  /** What is gone after an eviction that takes victims in turn while the rest is over the ceiling. */
  ghost function EvictFrom(over: set<string> -> bool, gone: set<string>, victims: seq<string>): set<string> {
    var n := FirstFit(over, gone, victims);
    gone + Elements(if n <= |victims| then victims[..n] else victims)
  }

  lemma EvictNothing(over: set<string> -> bool, gone: set<string>, victims: seq<string>)
    requires victims == [] || !over(gone)
    ensures EvictFrom(over, gone, victims) == gone
  {
    assert gone + Elements(victims[..0]) == gone;
  }

  lemma EvictFirstThenRest(over: set<string> -> bool, gone: set<string>, id: string, rest: seq<string>)
    requires over(gone)
    ensures EvictFrom(over, gone, [id] + rest) == EvictFrom(over, gone + {id}, rest)
  {
    var victims := [id] + rest;
    assert victims[1..] == rest;
    var m := FirstFit(over, gone + {id}, rest);
    if m <= |rest| { assert victims[..m + 1] == [id] + rest[..m]; }
  }

  ghost predicate ListedOnce(list: seq<Listed>) { forall i, j | 0 <= i < j < |list| :: list[i].id != list[j].id }

  ghost predicate ProtectsExactly(protectedIds: set<string>, list: seq<Listed>, p: Policy) {
    forall id :: id in protectedIds <==> Protected(list, p, id)
  }

  /** One eviction leaves the later victims as they are. */
  lemma SameVictimsAfter(t: Tables, repo: string, list: seq<Listed>, p: Policy, gone: set<string>, index: nat)
    requires 0 < index <= |list| && ListedOnce(list)
    ensures Victims(Retained(t, repo, gone + {list[index - 1].id}), repo, list, p, index - 1)
         == Victims(Retained(t, repo, gone), repo, list, p, index - 1)
  {
    RetainedIsReachability(t, repo, gone);
    RetainedIsReachability(t, repo, gone + {list[index - 1].id});
    SameVictims(Retained(t, repo, gone + {list[index - 1].id}), Retained(t, repo, gone), repo, list, p, index - 1);
  }

  lemma VictimsStep(now: Tables, repo: string, list: seq<Listed>, p: Policy, protectedIds: set<string>, index: nat)
    requires 0 < index <= |list| && ProtectsExactly(protectedIds, list, p)
    ensures Victims(now, repo, list, p, index)
         == (if Skips(now, repo, list[index - 1], protectedIds) then [] else [list[index - 1].id]) + Victims(now, repo, list, p, index - 1)
  {
  }

  /** The ids that are gone after one round, and when the eviction loop ends. */
  ghost function GoneNext(t: Tables, repo: string, entry: Listed, protectedIds: set<string>, gone: set<string>): set<string> {
    if Skips(Retained(t, repo, gone), repo, entry, protectedIds) then gone else gone + {entry.id}
  }

  ghost function GoneAfter(t: Tables, repo: string, list: seq<Listed>, ceiling: int, protectedIds: set<string>, gone: set<string>, index: nat): set<string>
    requires index <= |list|
    decreases index
  {
    if index == 0 || !Pressure(t, repo, ceiling)(gone) then gone
    else GoneAfter(t, repo, list, ceiling, protectedIds, GoneNext(t, repo, list[index - 1], protectedIds, gone), index - 1)
  }

  lemma RoundRetains(t: Tables, repo: string, entry: Listed, protectedIds: set<string>, gone: set<string>)
    ensures OneRound(Retained(t, repo, gone), repo, entry, protectedIds) == Retained(t, repo, GoneNext(t, repo, entry, protectedIds, gone))
  {
    IncrementalSweepIsOneSweep(t, repo, gone, entry.id);
  }

  /** The walk with its sweeps in between leaves what one sweep at the end would. */
  lemma {:induction false} WalkRetains(t: Tables, repo: string, list: seq<Listed>, ceiling: int, protectedIds: set<string>, gone: set<string>,
                                       now: Tables, index: nat)
    requires index <= |list| && now == Retained(t, repo, gone)
    ensures Walk(now, repo, list, ceiling, protectedIds, index) == Retained(t, repo, GoneAfter(t, repo, list, ceiling, protectedIds, gone, index))
    decreases index
  {
    if index > 0 && Pressure(t, repo, ceiling)(gone) {
      var next := GoneNext(t, repo, list[index - 1], protectedIds, gone);
      RoundRetains(t, repo, list[index - 1], protectedIds, gone);
      WalkRetains(t, repo, list, ceiling, protectedIds, next, OneRound(now, repo, list[index - 1], protectedIds), index - 1);
    }
  }

  /** It evicts the victims in turn until the bytes fit. */
  lemma {:induction false} WalkEvicts(t: Tables, repo: string, list: seq<Listed>, p: Policy, protectedIds: set<string>,
                                      gone: set<string>, victims: seq<string>, index: nat)
    requires index <= |list| && ListedOnce(list) && ProtectsExactly(protectedIds, list, p)
    requires victims == Victims(Retained(t, repo, gone), repo, list, p, index)
    ensures GoneAfter(t, repo, list, p.maxVectorBytes, protectedIds, gone, index)
         == EvictFrom(Pressure(t, repo, p.maxVectorBytes), gone, victims)
    decreases index
  {
    var over := Pressure(t, repo, p.maxVectorBytes);
    if index == 0 || !over(gone) {
      EvictNothing(over, gone, victims);
    } else {
      var now, entry := Retained(t, repo, gone), list[index - 1];
      var rest := Victims(now, repo, list, p, index - 1);
      VictimsStep(now, repo, list, p, protectedIds, index);
      if Skips(now, repo, entry, protectedIds) {
        assert victims == rest;
        WalkEvicts(t, repo, list, p, protectedIds, gone, rest, index - 1);
      } else {
        SameVictimsAfter(t, repo, list, p, gone, index);
        WalkEvicts(t, repo, list, p, protectedIds, gone + {entry.id}, rest, index - 1);
        EvictFirstThenRest(over, gone, entry.id, rest);
      }
    }
  }

  /** So the eviction loop prunes exactly. */
  lemma WalkPrunes(t: Tables, repo: string, list: seq<Listed>, p: Policy, protectedIds: set<string>)
    requires p.maxVectorBytes > 0 && ListedOnce(list)
    requires ProtectsExactly(protectedIds, list, p)
    ensures Walk(Retained(t, repo, MarkedIds(list, p)), repo, list, p.maxVectorBytes, protectedIds, |list|) == Pruned(t, repo, list, p)
  {
    var marked := MarkedIds(list, p);
    var victims := Victims(Retained(t, repo, marked), repo, list, p, |list|);
    WalkRetains(t, repo, list, p.maxVectorBytes, protectedIds, marked, Retained(t, repo, marked), |list|);
    WalkEvicts(t, repo, list, p, protectedIds, marked, victims, |list|);
  }

  class Store {
    const sha: Digest
    var repos: set<string>
    var namespaces: map<NamespaceKey, Namespace>
    var sets: map<SetKey, RevisionSet>
    var chunks: map<ChunkKey, Chunk>
    var members: map<MemberKey, Member>
    var exclusions: map<ExclusionKey, Exclusion>
    var vectors: map<VectorKey, Vector>

    constructor (sha: Digest)
      ensures this.sha == sha && State() == EMPTY
    {
      this.sha := sha;
      repos, namespaces, sets, chunks, members, exclusions, vectors := {}, map[], map[], map[], map[], map[], map[];
    }

    function State(): Tables
      reads this
    {
      Tables(repos, namespaces, sets, chunks, members, exclusions, vectors)
    }

    // ---- staging ----

    method UpsertRevisionSet(k: SetKey, row: RevisionSet) returns (failure: Option<Failure>)
      modifies this
      ensures State() == After(UpsertSet(old(State()), k, row), old(State()))
      ensures failure == FailureOf(UpsertSet(old(State()), k, row))
    {
      var normalized := NormalizeSet(k, row);
      if normalized.Err? { return Some(normalized.error); }
      if normalized.value.state.Ready? || normalized.value.state.Partial? { return Some(RequiresPublication); }
      failure := StoreSet(k, normalized.value);
    }

    method StoreSet(k: SetKey, row: RevisionSet) returns (failure: Option<Failure>)
      modifies this`sets
      ensures State() == After(PutSet(old(State()), k, row), old(State()))
      ensures failure == FailureOf(PutSet(old(State()), k, row))
    {
      if k in sets {
        if sets[k].state.Ready? { return Some(Published); }
        sets := sets[k := row.(createdAt := sets[k].createdAt)];
      } else {
        if k.repo !in repos { return Some(Constraint); }
        sets := sets[k := row];
      }
      failure := None;
    }

    method UpsertDocChunk(k: ChunkKey, row: Chunk) returns (failure: Option<Failure>)
      modifies this`chunks
      ensures State() == After(UpsertChunk(old(State()), k, row), old(State()))
      ensures failure == FailureOf(UpsertChunk(old(State()), k, row))
    {
      if !ValidChunk(k, row) { return Some(Incomplete); }
      if k in chunks {
        if !SameSlice(chunks[k], row) { return Some(ChunkConflict); }
        chunks := chunks[k := chunks[k].(updatedAt := row.updatedAt)];
      } else {
        if k.repo !in repos { return Some(Constraint); }
        chunks := chunks[k := row];
      }
      failure := None;
    }

    method UpsertDocVector(k: VectorKey, row: Vector) returns (failure: Option<Failure>)
      modifies this`vectors
      ensures State() == After(UpsertVector(sha, old(State()), k, row), old(State()))
      ensures failure == FailureOf(UpsertVector(sha, old(State()), k, row))
    {
      if k.repo == "" || k.namespace == "" || k.chunk == "" || row.bytes == [] || row.dimensions <= 0 || row.dtype == "" {
        return Some(Incomplete);
      }
      var stored := row;
      if stored.hash == "" { stored := stored.(hash := sha(row.bytes)); }
      if k !in vectors {
        if Embedded(k) !in chunks || NamespaceKey(k.repo, k.namespace) !in namespaces { return Some(Constraint); }
        vectors := vectors[k := stored];
        return None;
      }
      return if vectors[k] == stored then None else Some(VectorConflict);
    }

    /** The insertion loop of a membership replacement; the caller rolls back on failure. */
    method InsertRows(rows: seq<Membership>) returns (failure: Option<Failure>)
      modifies this`members
      ensures failure == FailureOf(InsertMembers(old(State()), rows))
      ensures failure.None? ==> State() == InsertMembers(old(State()), rows).value
    {
      var i := 0;
      while i < |rows|
        invariant 0 <= i <= |rows|
        invariant InsertMembers(old(State()), rows) == InsertMembers(State(), rows[i..])
      {
        var row := rows[i];
        assert rows[i..][0] == row && rows[i..][1..] == rows[i + 1..];
        if row.key in members || SetOf(row.key) !in sets || ChunkOf(row.key) !in chunks { return Some(Constraint); }
        members := members[row.key := row.row];
        i := i + 1;
      }
      failure := None;
    }

    method ReplaceDocMembership(k: SetKey, ms: seq<Membership>) returns (failure: Option<Failure>)
      modifies this`members
      ensures State() == After(ReplaceMembership(old(State()), k, ms), old(State()))
      ensures failure == FailureOf(ReplaceMembership(old(State()), k, ms))
    {
      var rows := NormalizeMembers(k, ms);
      if rows.Err? { return Some(rows.error); }
      if k !in sets { return Some(NotFound); }
      if !sets[k].state.Building? { return Some(Published); }
      var saved := members;
      members := map m | m in members && SetOf(m) != k :: members[m];
      failure := InsertRows(rows.value);
      if failure.Some? { members := saved; }
    }

    method UpsertDocMembership(m: Membership) returns (failure: Option<Failure>)
      modifies this`members
      ensures State() == After(UpsertMembership(old(State()), m), old(State()))
      ensures failure == FailureOf(UpsertMembership(old(State()), m))
    {
      var rows := NormalizeMembers(SetOf(m.key), [m]);
      if rows.Err? { return Some(rows.error); }
      if SetOf(m.key) !in sets || !sets[SetOf(m.key)].state.Building? { return Some(Published); }
      if m.key !in members && ChunkOf(m.key) !in chunks { return Some(Constraint); }
      members := members[m.key := m.row];
      failure := None;
    }

    method ReplaceDocExclusions(k: SetKey, es: seq<Omission>) returns (failure: Option<Failure>)
      modifies this`exclusions
      ensures State() == After(ReplaceExclusions(old(State()), k, es), old(State()))
      ensures failure == FailureOf(ReplaceExclusions(old(State()), k, es))
    {
      var rows := NormalizeExclusions(k, es);
      if rows.Err? { return Some(rows.error); }
      if k !in sets { return Some(NotFound); }
      if !sets[k].state.Building? { return Some(Published); }
      var saved := exclusions;
      exclusions := map e | e in exclusions && Excluding(e) != k :: exclusions[e];
      ghost var start := State();
      var i := 0;
      while i < |rows.value|
        invariant 0 <= i <= |rows.value|
        invariant State() == old(State()).(exclusions := exclusions)
        invariant InsertExclusions(start, rows.value) == InsertExclusions(State(), rows.value[i..])
      {
        var row := rows.value[i];
        assert rows.value[i..][0] == row && rows.value[i..][1..] == rows.value[i + 1..];
        if row.key in exclusions || Excluding(row.key) !in sets {
          exclusions := saved;
          return Some(Constraint);
        }
        exclusions := exclusions[row.key := row.row];
        i := i + 1;
      }
      failure := None;
    }

    method UpsertDocExclusion(e: Omission) returns (failure: Option<Failure>)
      modifies this`exclusions
      ensures State() == After(UpsertExclusion(old(State()), e), old(State()))
      ensures failure == FailureOf(UpsertExclusion(old(State()), e))
    {
      var rows := NormalizeExclusions(Excluding(e.key), [e]);
      if rows.Err? { return Some(rows.error); }
      if Excluding(e.key) !in sets || !sets[Excluding(e.key)].state.Building? { return Some(Published); }
      exclusions := exclusions[e.key := e.row];
      failure := None;
    }

    // ---- publication ----

    method ValidatePublication(k: SetKey, row: RevisionSet) returns (failure: Option<Failure>)
      ensures failure == PublicationError(sha, State(), k, row)
    {
      var own := MembersOf(State(), k);
      if |own| != row.eligibleChunks { return Some(MemberCount); }
      if |ExclusionsOf(State(), k)| != row.excludedFiles { return Some(ExclusionCount); }
      if row.embedded < 0 || row.reused < 0 || row.failed < 0 || row.missing < 0 || row.embedded + row.reused > row.eligibleChunks {
        return Some(Counters);
      }
      if !row.state.Ready? { return None; }
      if row.failed != 0 || row.missing != 0 || row.embedded + row.reused != row.eligibleChunks { return Some(Coverage); }
      var rest := own;
      while rest != {}
        invariant rest <= own
        invariant forall m | m in own - rest :: VectorKey(k.repo, row.namespace, m.chunk) in vectors
      {
        var m :| m in rest;
        if VectorKey(k.repo, row.namespace, m.chunk) !in vectors { return Some(MissingVector); }
        rest := rest - {m};
      }
      if NamespaceKey(k.repo, row.namespace) !in namespaces { return Some(NoNamespace); }
      var contract := namespaces[NamespaceKey(k.repo, row.namespace)];
      rest := own;
      while rest != {}
        invariant rest <= own
        invariant forall m | m in own - rest :: MeetsContract(sha, vectors[VectorKey(k.repo, row.namespace, m.chunk)], contract)
      {
        var m :| m in rest;
        if !MeetsContract(sha, vectors[VectorKey(k.repo, row.namespace, m.chunk)], contract) { return Some(BadVector); }
        rest := rest - {m};
      }
      failure := None;
    }

    method PublishRevisionSet(k: SetKey, row: RevisionSet, ms: seq<Membership>) returns (failure: Option<Failure>)
      modifies this
      ensures State() == After(Publish(sha, old(State()), k, row, ms), old(State()))
      ensures failure == FailureOf(Publish(sha, old(State()), k, row, ms))
    {
      var normalized := NormalizeSet(k, row);
      if normalized.Err? { return Some(normalized.error); }
      if !normalized.value.state.Ready? && !normalized.value.state.Partial? { return Some(NotPublishable); }
      var rows := NormalizeMembers(k, ms);
      if rows.Err? { return Some(rows.error); }
      if k in sets && sets[k].state.Ready? { return Some(Published); }
      var saved := members;
      members := map m | m in members && SetOf(m) != k :: members[m];
      failure := InsertRows(rows.value);
      if failure.None? { failure := ValidatePublication(k, normalized.value); }
      if failure.None? { failure := StoreSet(k, normalized.value); }
      if failure.Some? { members := saved; }
    }

    method PublishStagedRevisionSet(k: SetKey, row: RevisionSet) returns (failure: Option<Failure>)
      modifies this
      ensures State() == After(PublishStaged(sha, old(State()), k, row), old(State()))
      ensures failure == FailureOf(PublishStaged(sha, old(State()), k, row))
    {
      var normalized := NormalizeSet(k, row);
      if normalized.Err? { return Some(normalized.error); }
      if !normalized.value.state.Ready? && !normalized.value.state.Partial? { return Some(NotPublishable); }
      if k !in sets { return Some(NotFound); }
      if sets[k].state.Ready? { return Some(Published); }
      failure := ValidatePublication(k, normalized.value);
      if failure.None? { failure := StoreSet(k, normalized.value); }
    }

    // ---- reading ----

    method LoadSearchSnapshot(k: SetKey, namespace: string) returns (answer: Result<Snapshot, Failure>)
      ensures answer.Err? <==>
        || Text.Blank(k.repo) || Text.Blank(k.id) || Text.Blank(namespace)
        || k !in sets || sets[k].namespace != namespace || !sets[k].state.Ready?
      ensures answer.Ok? ==> IsSnapshot(State(), k, namespace, answer.value)
    {
      if Text.Blank(k.repo) || Text.Blank(k.id) || Text.Blank(namespace) { return Err(Incomplete); }
      if k !in sets || sets[k].namespace != namespace || !sets[k].state.Ready? { return Err(NotFound); }
      var t := State();
      PathOrderIsStrict(t, k);
      var order := OrderBy(Joined(t, k), ByPath(t));
      var candidates := [];
      var i := 0;
      while i < |order|
        invariant 0 <= i <= |order| && |candidates| == i
        invariant forall j | 0 <= j < i :: order[j] in t.members && ChunkOf(order[j]) in t.chunks && candidates[j] == CandidateOf(t, order[j], namespace)
      {
        assert order[i] in Joined(t, k);
        candidates := candidates + [CandidateOf(t, order[i], namespace)];
        i := i + 1;
      }
      assert Lists(t, k, namespace, order, candidates);
      answer := Ok(Snapshot(sets[k], candidates));
    }

    // ---- collection ----

    method DeleteDeadVectors(repo: string) returns (affected: int)
      modifies this`vectors
      ensures State() == SweepVectors(old(State()), repo)
      ensures affected == |VectorsIn(old(State()), repo)| - |VectorsIn(State(), repo)|
    {
      var t := State();
      affected := |set v | v in vectors && v.repo == repo && !Referenced(t, Embedded(v))|;
      vectors := map v | v in vectors && (v.repo != repo || Referenced(t, Embedded(v))) :: vectors[v];
      DeadVectorCount(t, repo);
    }

    method DeleteDeadChunks(repo: string) returns (affected: int)
      modifies this`chunks, this`members, this`vectors
      ensures State() == SweepChunks(old(State()), repo)
      ensures affected == |ChunksIn(old(State()), repo)| - |ChunksIn(State(), repo)|
    {
      ghost var t := State();
      var dead := DeadChunks(State(), repo);
      chunks := chunks - dead;
      members := map m | m in members && ChunkOf(m) !in dead :: members[m];
      vectors := map v | v in vectors && Embedded(v) !in dead :: vectors[v];
      affected := |dead|;
      DeadChunkCount(t, repo);
    }

    method DeleteUnreferenced(repo: string) returns (chunksDeleted: int, vectorsDeleted: int)
      modifies this
      ensures State() == Sweep(old(State()), repo)
      ensures chunksDeleted == |ChunksIn(old(State()), repo)| - |ChunksIn(State(), repo)|
      ensures vectorsDeleted == |VectorsIn(old(State()), repo)| - |VectorsIn(State(), repo)|
    {
      ghost var t := State();
      vectorsDeleted := DeleteDeadVectors(repo);
      ghost var s := State();
      chunksDeleted := DeleteDeadChunks(repo);
      SweepRows(t, repo);
      assert VectorsIn(State(), repo) == VectorsIn(s, repo);
      assert ChunksIn(s, repo) == ChunksIn(t, repo);
    }

    method SumVectorBytes(repo: string) returns (sum: int)
      ensures sum == VectorBytes(State(), repo)
    {
      sum := 0;
      var all := VectorsIn(State(), repo);
      var rest := all;
      while rest != {}
        invariant rest <= all
        invariant sum + BytesOf(vectors, rest) == BytesOf(vectors, all)
      {
        var v :| v in rest;
        BytesWithout(vectors, rest, v);
        sum := sum + |vectors[v].bytes|;
        rest := rest - {v};
      }
    }

    method DeleteRevisionSet(k: SetKey) returns (affected: int)
      modifies this`sets, this`members, this`exclusions
      ensures State() == DeleteSet(old(State()), k)
      ensures affected == if k in old(sets) then 1 else 0
    {
      affected := if k in sets then 1 else 0;
      sets := sets - {k};
      members := map m | m in members && SetOf(m) != k :: members[m];
      exclusions := map e | e in exclusions && Excluding(e) != k :: exclusions[e];
    }

    method ListRevisionSets(repo: string) returns (list: seq<Listed>)
      ensures IsListing(State(), repo, list)
    {
      var t := State();
      ListingOrderIsStrict(t, repo);
      list := OrderBy(Rows(t, repo), NewestFirst());
    }

    /** Deletes the marked sets; the count is the number of rows that were there. */
    method DeleteMarked(repo: string, ids: seq<string>) returns (affected: int)
      modifies this`sets, this`members, this`exclusions
      ensures State() == Drop(old(State()), repo, Elements(ids))
      ensures affected == |SetsIn(old(State()), repo)| - |SetsIn(State(), repo)|
    {
      ghost var t := State();
      affected := 0;
      assert Drop(t, repo, Elements(ids[..0])) == t;
      for i := 0 to |ids|
        invariant State() == Drop(t, repo, Elements(ids[..i]))
        invariant affected == |SetsIn(t, repo)| - |SetsIn(State(), repo)|
      {
        ghost var before := State();
        var rows := DeleteRevisionSet(SetKey(repo, ids[i]));
        affected := affected + rows;
        DropOneMore(t, repo, Elements(ids[..i]), ids[i]);
        assert Elements(ids[..i + 1]) == Elements(ids[..i]) + {ids[i]};
        DeletedSetCount(before, repo, ids[i]);
      }
      assert ids[..|ids|] == ids;
    }

    /** Deletes one set, sweeps what it alone referenced and measures again. */
    method EvictOne(repo: string, id: string, so_far: GcResult) returns (result: GcResult)
      requires SetKey(repo, id) in sets
      modifies this
      ensures State() == Sweep(DeleteSet(old(State()), SetKey(repo, id)), repo)
      ensures result == CountedSince(so_far, old(State()), State(), repo)
    {
      ghost var before := State();
      var rows := DeleteRevisionSet(SetKey(repo, id));
      ghost var dropped := State();
      var chunksDeleted, vectorsDeleted := DeleteUnreferenced(repo);
      var bytes := SumVectorBytes(repo);
      DeletedSetCount(before, repo, id);
      SweepRows(dropped, repo);
      result := GcResult(so_far.setsDeleted + rows, so_far.chunksDeleted + chunksDeleted,
                         so_far.vectorsDeleted + vectorsDeleted, so_far.bytesBefore, bytes);
    }

    /** One round of the eviction loop: the entry goes unless it is protected, was listed as building or is gone already. */
    method EvictEntry(repo: string, entry: Listed, protectedIds: set<string>, so_far: GcResult) returns (result: GcResult)
      requires so_far.bytesAfter == VectorBytes(State(), repo)
      modifies this
      ensures State() == OneRound(old(State()), repo, entry, protectedIds)
      ensures result == CountedSince(so_far, old(State()), State(), repo)
    {
      result := so_far;
      if entry.id in protectedIds || entry.row.state.Building? || SetKey(repo, entry.id) !in sets { return; }
      result := EvictOne(repo, entry.id, so_far);
    }

    /** Byte-pressure eviction, oldest listed set first, sweeping after each deletion. */
    method EvictForBytes(repo: string, list: seq<Listed>, ceiling: int, protectedIds: set<string>, so_far: GcResult)
      returns (result: GcResult)
      requires so_far.bytesAfter == VectorBytes(State(), repo)
      modifies this
      ensures State() == Walk(old(State()), repo, list, ceiling, protectedIds, |list|)
      ensures result == CountedSince(so_far, old(State()), State(), repo)
    {
      result := so_far;
      var index := |list|;
      while index > 0 && result.bytesAfter > ceiling
        invariant 0 <= index <= |list|
        invariant Walk(old(State()), repo, list, ceiling, protectedIds, |list|) == Walk(State(), repo, list, ceiling, protectedIds, index)
        invariant result == CountedSince(so_far, old(State()), State(), repo)
      {
        index := index - 1;
        ghost var before := State();
        result := EvictEntry(repo, list[index], protectedIds, result);
        CountersCompose(so_far, old(State()), before, State(), repo);
      }
    }

    /** Deletes the marked sets and sweeps once; counts rows and bytes on both sides. */
    method DropAndSweep(repo: string, doomed: seq<string>) returns (result: GcResult)
      modifies this
      ensures State() == Retained(old(State()), repo, Elements(doomed))
      ensures result == CountedSince(GcResult(0, 0, 0, VectorBytes(old(State()), repo), 0), old(State()), State(), repo)
    {
      var bytesBefore := SumVectorBytes(repo);
      var setsDeleted := DeleteMarked(repo, doomed);
      ghost var dropped := State();
      var chunksDeleted, vectorsDeleted := DeleteUnreferenced(repo);
      SweepRows(dropped, repo);
      var bytesAfter := SumVectorBytes(repo);
      result := GcResult(setsDeleted, chunksDeleted, vectorsDeleted, bytesBefore, bytesAfter);
    }

    /** Lists, marks, deletes and sweeps, then evicts under byte pressure. */
    method PruneRevisionSets(repo: string, policy: Policy) returns (answer: Result<GcResult, Failure>, ghost list: seq<Listed>)
      modifies this
      ensures answer.Err? <==> Text.Blank(repo)
      ensures answer.Err? ==> State() == old(State())
      ensures answer.Ok? ==> IsListing(old(State()), repo, list) && State() == Pruned(old(State()), repo, list, policy)
      ensures answer.Ok? ==> answer.value == CountedSince(GcResult(0, 0, 0, VectorBytes(old(State()), repo), 0), old(State()), State(), repo)
      ensures answer.Ok? ==>
                && answer.value.setsDeleted == |set k | k in old(sets) && k.repo == repo| - |set k | k in sets && k.repo == repo|
                && answer.value.chunksDeleted == |set c | c in old(chunks) && c.repo == repo| - |set c | c in chunks && c.repo == repo|
                && answer.value.vectorsDeleted == |set v | v in old(vectors) && v.repo == repo| - |set v | v in vectors && v.repo == repo|
    {
      list := [];
      if Text.Blank(repo) { return Err(Incomplete), []; }
      ghost var t := State();
      var listed := ListRevisionSets(repo);
      list := listed;
      ListingHasDistinctIds(t, repo, listed);
      var protectedIds := CollectProtected(listed, policy);
      var doomed := MarkForDeletion(listed, policy, protectedIds);
      var result := DropAndSweep(repo, doomed);
      ghost var swept := State();
      if policy.maxVectorBytes > 0 && result.bytesAfter > policy.maxVectorBytes {
        WalkPrunes(t, repo, listed, policy, protectedIds);
        ghost var counted := result;
        result := EvictForBytes(repo, listed, policy.maxVectorBytes, protectedIds, result);
        CountersCompose(GcResult(0, 0, 0, VectorBytes(t, repo), 0), t, swept, State(), repo);
      } else {
        NoPressureMeansNoEviction(t, repo, listed, policy);
      }
      answer := Ok(result);
    }
  }
}
