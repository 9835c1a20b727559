/** Retention of revision sets: which sets a prune removes, and what its incremental sweeping leaves.
    `list` is the newest-first listing the prune read before its transaction opened. */
module RepositoryDocsRetention {
  import opened Wrappers
  import opened Text
  import opened RepositoryDocs
  import opened RepositoryDocsInvariant
  import opened Ordering

  /** A zero cutoff time is None. */
  datatype Policy = Policy(retainCommitted: int, retainOverlays: int, committedCutoff: Option<int>,
                           overlayCutoff: Option<int>, terminalCutoff: Option<int>,
                           maxVectorBytes: int, protectedIds: seq<string>)
  datatype Listed = Listed(id: string, row: RevisionSet)
  datatype Identity = Identity(gitStoreRef: string, policyHash: string, chunkPolicy: string, namespace: string, overlay: bool)

  function IdentityOf(row: RevisionSet): Identity {
    Identity(row.gitStoreRef, row.policyHash, row.chunkPolicy, row.namespace, row.overlayDigest != "")
  }

  predicate Before(row: RevisionSet, cutoff: Option<int>) {
    cutoff.Some? && row.updatedAt.instant < cutoff.value
  }

  predicate TerminalExpired(row: RevisionSet, p: Policy) {
    Before(row, p.terminalCutoff) && !row.state.Ready?
  }

  predicate AgeExpired(row: RevisionSet, p: Policy) {
    Before(row, if row.overlayDigest != "" then p.overlayCutoff else p.committedCutoff)
  }

  function Limit(row: RevisionSet, p: Policy): int {
    if row.overlayDigest != "" then if p.retainOverlays < 0 then 0 else p.retainOverlays
    else if p.retainCommitted <= 0 then 8 else p.retainCommitted
  }

  predicate Counted(row: RevisionSet, p: Policy) {
    !row.state.Building? || TerminalExpired(row, p)
  }

  predicate ReadyCommitted(row: RevisionSet) {
    row.state.Ready? && row.overlayDigest == ""
  }

  /** The newest ready committed set of its identity. */
  predicate NewestReady(list: seq<Listed>, i: nat)
    requires i < |list|
  {
    && ReadyCommitted(list[i].row)
    && forall j | 0 <= j < i && ReadyCommitted(list[j].row) :: IdentityOf(list[j].row) != IdentityOf(list[i].row)
  }

  predicate CallerProtected(p: Policy, id: string) {
    id != "" && exists x | x in p.protectedIds :: TrimSpace(x) == id
  }

  predicate Protected(list: seq<Listed>, p: Policy, id: string) {
    CallerProtected(p, id) || exists i | 0 <= i < |list| :: list[i].id == id && NewestReady(list, i)
  }

  function NewerCounted(list: seq<Listed>, p: Policy, i: nat): set<int>
    requires i < |list|
  {
    set j | 0 <= j < i && Counted(list[j].row, p) && IdentityOf(list[j].row) == IdentityOf(list[i].row)
  }

  /** The retention pass deletes this entry. */
  predicate Marked(list: seq<Listed>, p: Policy, i: nat)
    requires i < |list|
  {
    var row := list[i].row;
    && Counted(row, p) && !Protected(list, p, list[i].id)
    && (TerminalExpired(row, p) || AgeExpired(row, p) || 0 < Limit(row, p) <= |NewerCounted(list, p, i)|)
  }

  function MarkedIds(list: seq<Listed>, p: Policy): set<string> {
    set i | 0 <= i < |list| && Marked(list, p, i) :: list[i].id
  }

  // ---- the reference collector ----

  function Drop(t: Tables, repo: string, gone: set<string>): Tables {
    t.(sets := map k | k in t.sets && !(k.repo == repo && k.id in gone) :: t.sets[k],
       members := map m | m in t.members && !(m.repo == repo && m.revisionSet in gone) :: t.members[m],
       exclusions := map e | e in t.exclusions && !(e.repo == repo && e.revisionSet in gone) :: t.exclusions[e])
  }

  /** Mark and sweep: drop the sets in `gone`, then whatever no membership references. */
  function Retained(t: Tables, repo: string, gone: set<string>): Tables {
    Sweep(Drop(t, repo, gone), repo)
  }

  ghost function BytesOf(m: map<VectorKey, Vector>, ks: set<VectorKey>): nat
    requires ks <= m.Keys
  {
    if ks == {} then 0
    else var k :| k in ks; |m[k].bytes| + BytesOf(m, ks - {k})
  }

  function VectorsIn(t: Tables, repo: string): set<VectorKey> {
    set v | v in t.vectors && v.repo == repo
  }

  function ChunksIn(t: Tables, repo: string): set<ChunkKey> {
    set c | c in t.chunks && c.repo == repo
  }

  function SetsIn(t: Tables, repo: string): set<SetKey> {
    set k | k in t.sets && k.repo == repo
  }

  ghost function VectorBytes(t: Tables, repo: string): nat {
    BytesOf(t.vectors, VectorsIn(t, repo))
  }

  /** Oldest first, the listed sets that byte pressure may evict from t. */
  function Victims(t: Tables, repo: string, list: seq<Listed>, p: Policy, n: nat): seq<string>
    requires n <= |list|
  {
    if n == 0 then []
    else
      var set_ := list[n - 1];
      (if Protected(list, p, set_.id) || set_.row.state.Building? || SetKey(repo, set_.id) !in t.sets then [] else [set_.id])
      + Victims(t, repo, list, p, n - 1)
  }

  function Elements(ids: seq<string>): set<string> {
    set x | x in ids
  }

  /** How many victims fall before the rest is no longer over the ceiling. */
  ghost function FirstFit(over: set<string> -> bool, gone: set<string>, victims: seq<string>): nat
    decreases |victims|
  {
    if victims == [] || !over(gone) then 0 else 1 + FirstFit(over, gone + {victims[0]}, victims[1..])
  }

  /** With these sets gone, and swept after, the vectors exceed the ceiling. */
  ghost function Pressure(t: Tables, repo: string, ceiling: int): set<string> -> bool {
    gone => VectorBytes(Retained(t, repo, gone), repo) > ceiling
  }

  ghost function EvictedIds(t: Tables, repo: string, list: seq<Listed>, p: Policy): seq<string> {
    var marked := MarkedIds(list, p);
    var victims := Victims(Retained(t, repo, marked), repo, list, p, |list|);
    var n := if p.maxVectorBytes > 0 then FirstFit(Pressure(t, repo, p.maxVectorBytes), marked, victims) else 0;
    if n <= |victims| then victims[..n] else victims
  }

  ghost function Pruned(t: Tables, repo: string, list: seq<Listed>, p: Policy): Tables {
    Retained(t, repo, MarkedIds(list, p) + Elements(EvictedIds(t, repo, list, p)))
  }

  // ---- what the collector leaves ----

  /** Afterwards the repository's chunks and vectors are exactly those a surviving membership references;
      other repositories are untouched, and only rows of dropped sets lose membership. */
  lemma RetainedIsReachability(t: Tables, repo: string, gone: set<string>)
    ensures var u := Retained(t, repo, gone);
      && (forall c :: c in u.chunks <==> c in t.chunks && (c.repo != repo || Referenced(u, c)))
      && (forall v :: v in u.vectors <==> v in t.vectors && (v.repo != repo || Referenced(u, Embedded(v))))
      && (forall c | c in u.chunks :: u.chunks[c] == t.chunks[c])
      && (forall v | v in u.vectors :: u.vectors[v] == t.vectors[v])
      && u.members == Drop(t, repo, gone).members
      && u.sets == Drop(t, repo, gone).sets && u.exclusions == Drop(t, repo, gone).exclusions
  {
    var d := Drop(t, repo, gone);
    SweepChunksKeepsMembers(SweepVectors(d, repo), repo);
    var u := Retained(t, repo, gone);
    assert u.members == d.members;
    assert forall c :: Referenced(u, c) <==> Referenced(d, c);
    assert forall c :: Referenced(SweepVectors(d, repo), c) <==> Referenced(d, c);
  }

  function LiveChunks(d: Tables, repo: string): map<ChunkKey, Chunk> {
    map c | c in d.chunks && (c.repo != repo || Referenced(d, c)) :: d.chunks[c]
  }

  function LiveVectors(d: Tables, repo: string): map<VectorKey, Vector> {
    map v | v in d.vectors && (v.repo != repo || Referenced(d, Embedded(v))) :: d.vectors[v]
  }

  lemma SweepRows(d: Tables, repo: string)
    ensures var u := Sweep(d, repo);
      && u.members == d.members && u.sets == d.sets && u.exclusions == d.exclusions
      && u.repos == d.repos && u.namespaces == d.namespaces
      && u.chunks == LiveChunks(d, repo) && u.vectors == LiveVectors(d, repo)
  {
    var s := SweepVectors(d, repo);
    SweepChunksKeepsMembers(s, repo);
    assert forall c :: Referenced(s, c) <==> Referenced(d, c);
  }

  lemma DropOneMoreSet(t: Tables, repo: string, gone: set<string>, id: string)
    ensures Drop(t, repo, gone).sets - {SetKey(repo, id)} == Drop(t, repo, gone + {id}).sets
  {
  }

  lemma DropOneMoreSetsRows(t: Tables, repo: string, gone: set<string>, id: string)
    ensures var k, d, e := SetKey(repo, id), Drop(t, repo, gone), Drop(t, repo, gone + {id});
            && e.members == (map m | m in d.members && SetOf(m) != k :: d.members[m])
            && e.exclusions == (map x | x in d.exclusions && Excluding(x) != k :: d.exclusions[x])
  {
  }

  lemma DropOneMore(t: Tables, repo: string, gone: set<string>, id: string)
    ensures DeleteSet(Drop(t, repo, gone), SetKey(repo, id)) == Drop(t, repo, gone + {id})
  {
    DropOneMoreSet(t, repo, gone, id);
    DropOneMoreSetsRows(t, repo, gone, id);
  }

  /** After the sweep, whatever a smaller membership references was referenced before it. */
  lemma FewerMembersReferenceLess(d: Tables, k: SetKey, c: ChunkKey)
    requires Referenced(DeleteSet(d, k), c)
    ensures Referenced(d, c)
  {
    var m :| m in DeleteSet(d, k).members && ChunkOf(m) == c;
    assert m in d.members;
  }

  lemma DeleteSetCommutesWithSweep(d: Tables, repo: string, k: SetKey)
    ensures Sweep(DeleteSet(Sweep(d, repo), k), repo) == Sweep(DeleteSet(d, k), repo)
  {
    var x, y := DeleteSet(Sweep(d, repo), k), DeleteSet(d, k);
    SweepRows(d, repo);
    assert x == y.(chunks := x.chunks, vectors := x.vectors);
    SweptRowsDecide(d, x, y, repo, k);
  }

  lemma SweptRowsDecide(d: Tables, x: Tables, y: Tables, repo: string, k: SetKey)
    requires y == DeleteSet(d, k) && x == y.(chunks := x.chunks, vectors := x.vectors)
    requires x.chunks == LiveChunks(d, repo) && x.vectors == LiveVectors(d, repo)
    ensures Sweep(x, repo) == Sweep(y, repo)
  {
    forall c | Referenced(y, c) ensures Referenced(d, c) { FewerMembersReferenceLess(d, k, c); }
    LiveTwice(d, x, y, repo);
    SweepRows(x, repo);
    SweepRows(y, repo);
  }

  lemma LiveTwice(d: Tables, x: Tables, y: Tables, repo: string)
    requires forall c | Referenced(y, c) :: Referenced(d, c)
    requires x.members == y.members && y.chunks == d.chunks && y.vectors == d.vectors
    requires x.chunks == LiveChunks(d, repo) && x.vectors == LiveVectors(d, repo)
    ensures LiveChunks(x, repo) == LiveChunks(y, repo) && LiveVectors(x, repo) == LiveVectors(y, repo)
  {
    assert forall c :: Referenced(x, c) <==> Referenced(y, c);
  }

  /** Sweeping after each eviction equals one sweep at the end. */
  lemma IncrementalSweepIsOneSweep(t: Tables, repo: string, gone: set<string>, id: string)
    ensures Sweep(DeleteSet(Retained(t, repo, gone), SetKey(repo, id)), repo) == Retained(t, repo, gone + {id})
  {
    DeleteSetCommutesWithSweep(Drop(t, repo, gone), repo, SetKey(repo, id));
    DropOneMore(t, repo, gone, id);
  }

  /** Vectors are swept first, so the chunk statement cascades to none of them and the vector count misses none. */
  lemma ChunkSweepTakesNoVector(t: Tables, repo: string)
    requires Referential(t)
    ensures SweepChunks(SweepVectors(t, repo), repo).vectors == SweepVectors(t, repo).vectors
  {
    var s := SweepVectors(t, repo);
    assert forall c :: Referenced(s, c) <==> Referenced(t, c);
  }

  /** In the other order every dead vector goes by cascade, so the vector statement would report nothing. */
  lemma ChunksFirstWouldHideVectors(t: Tables, repo: string)
    requires Referential(t)
    ensures SweepVectors(SweepChunks(t, repo), repo) == SweepChunks(t, repo)
  {
    SweepChunksKeepsMembers(t, repo);
    var s := SweepChunks(t, repo);
    forall v | v in s.vectors && v.repo == repo ensures Referenced(s, Embedded(v)) {
      assert Embedded(v) in t.chunks && Embedded(v) !in DeadChunks(t, repo);
      var m :| m in t.members && ChunkOf(m) == Embedded(v);
      assert m in s.members;
    }
    assert SweepVectors(s, repo).vectors == s.vectors;
  }

  // ---- byte pressure ----

  lemma FirstVictimThenRest(gone: set<string>, victims: seq<string>, m: nat)
    requires 1 <= m <= |victims|
    ensures gone + Elements(victims[..m]) == (gone + {victims[0]}) + Elements(victims[1..][..m - 1])
  {
    assert victims[..m] == [victims[0]] + victims[1..][..m - 1];
  }

  ghost predicate AllOver(over: set<string> -> bool, gone: set<string>, victims: seq<string>, n: nat)
    requires n <= |victims|
  {
    forall m | 0 <= m < n :: over(gone + Elements(victims[..m]))
  }

  lemma OverFromRest(over: set<string> -> bool, gone: set<string>, victims: seq<string>, n: nat)
    requires victims != [] && 1 <= n <= |victims| && over(gone)
    requires AllOver(over, gone + {victims[0]}, victims[1..], n - 1)
    ensures AllOver(over, gone, victims, n)
  {
    assert gone + Elements(victims[..0]) == gone;
    forall m | 0 <= m < n ensures over(gone + Elements(victims[..m])) {
      if m > 0 { FirstVictimThenRest(gone, victims, m); }
    }
  }

  /** Eviction stops at the first point where the bytes fit: every shorter run exceeds the ceiling. */
  lemma {:induction false} EvictionStopsAtFirstFit(over: set<string> -> bool, gone: set<string>, victims: seq<string>)
    ensures var n := FirstFit(over, gone, victims);
      && n <= |victims|
      && AllOver(over, gone, victims, n)
      && (n == |victims| || !over(gone + Elements(victims[..n])))
    decreases |victims|
  {
    var n := FirstFit(over, gone, victims);
    if victims == [] || !over(gone) {
      assert gone + Elements(victims[..0]) == gone;
    } else {
      EvictionStopsAtFirstFit(over, gone + {victims[0]}, victims[1..]);
      OverFromRest(over, gone, victims, n);
      if n < |victims| { FirstVictimThenRest(gone, victims, n); }
    }
  }

  /** The first fit is the only stopping point. */
  lemma FirstFitIsUnique(over: set<string> -> bool, gone: set<string>, victims: seq<string>, m: nat)
    requires m <= |victims| && AllOver(over, gone, victims, m)
    requires m == |victims| || !over(gone + Elements(victims[..m]))
    ensures FirstFit(over, gone, victims) == m
  {
    EvictionStopsAtFirstFit(over, gone, victims);
  }

  lemma {:induction false} VictimsAreExactly(t: Tables, repo: string, list: seq<Listed>, p: Policy, n: nat)
    requires n <= |list|
    ensures forall id :: id in Victims(t, repo, list, p, n) <==>
      exists i | 0 <= i < n :: list[i].id == id && !Protected(list, p, id) && !list[i].row.state.Building? && SetKey(repo, id) in t.sets
  {
    if n > 0 {
      VictimsAreExactly(t, repo, list, p, n - 1);
    }
  }

  lemma PrefixIsOver(over: set<string> -> bool, gone: set<string>, victims: seq<string>, e: seq<string>)
    requires e <= victims && AllOver(over, gone, victims, |e|)
    ensures AllOver(over, gone, e, |e|)
  {
    forall m | 0 <= m < |e| ensures over(gone + Elements(e[..m])) {
      assert e[..m] == victims[..m];
    }
  }

  /** The evicted sets are an oldest-first initial run of the victims, and no eviction was one too many. */
  lemma EvictionIsMinimal(t: Tables, repo: string, list: seq<Listed>, p: Policy)
    requires p.maxVectorBytes > 0
    ensures var marked, e := MarkedIds(list, p), EvictedIds(t, repo, list, p);
      var victims := Victims(Retained(t, repo, marked), repo, list, p, |list|);
      && e <= victims
      && (forall m | 0 <= m < |e| :: VectorBytes(Retained(t, repo, marked + Elements(e[..m])), repo) > p.maxVectorBytes)
      && (e == victims || VectorBytes(Retained(t, repo, marked + Elements(e)), repo) <= p.maxVectorBytes)
  {
    var marked, e := MarkedIds(list, p), EvictedIds(t, repo, list, p);
    var victims := Victims(Retained(t, repo, marked), repo, list, p, |list|);
    var over := Pressure(t, repo, p.maxVectorBytes);
    EvictionStopsAtFirstFit(over, marked, victims);
    PrefixIsOver(over, marked, victims, e);
    forall m | 0 <= m < |e| ensures VectorBytes(Retained(t, repo, marked + Elements(e[..m])), repo) > p.maxVectorBytes {
      assert over(marked + Elements(e[..m]));
    }
  }

  lemma VictimsAreGone(t: Tables, repo: string, list: seq<Listed>, p: Policy, i: nat)
    requires i < |list| && SetKey(repo, list[i].id) in Pruned(t, repo, list, p).sets
    requires EvictedIds(t, repo, list, p) == Victims(Retained(t, repo, MarkedIds(list, p)), repo, list, p, |list|)
    ensures Protected(list, p, list[i].id) || list[i].row.state.Building?
  {
    var marked, e := MarkedIds(list, p), EvictedIds(t, repo, list, p);
    VictimsAreExactly(Retained(t, repo, marked), repo, list, p, |list|);
    RetainedIsReachability(t, repo, marked);
    RetainedIsReachability(t, repo, marked + Elements(e));
    assert list[i].id !in e;
  }

  /** On return the bytes fit, or every listed set still present is protected or was listed as building. */
  lemma BytePressure(t: Tables, repo: string, list: seq<Listed>, p: Policy)
    requires p.maxVectorBytes > 0
    ensures var u := Pruned(t, repo, list, p);
      || VectorBytes(u, repo) <= p.maxVectorBytes
      || forall i | 0 <= i < |list| && SetKey(repo, list[i].id) in u.sets :: Protected(list, p, list[i].id) || list[i].row.state.Building?
  {
    EvictionIsMinimal(t, repo, list, p);
    if VectorBytes(Pruned(t, repo, list, p), repo) > p.maxVectorBytes {
      forall i | 0 <= i < |list| && SetKey(repo, list[i].id) in Pruned(t, repo, list, p).sets
        ensures Protected(list, p, list[i].id) || list[i].row.state.Building?
      {
        VictimsAreGone(t, repo, list, p, i);
      }
    }
  }

  // ---- retention safety ----

  /** The exact set of deleted ids, for any listing and any state at the transaction. */
  lemma PrunedSets(t: Tables, repo: string, list: seq<Listed>, p: Policy)
    ensures var u := Pruned(t, repo, list, p);
      forall k :: k in u.sets <==> k in t.sets && !(k.repo == repo && (k.id in MarkedIds(list, p) || k.id in EvictedIds(t, repo, list, p)))
  {
    RetainedIsReachability(t, repo, MarkedIds(list, p) + Elements(EvictedIds(t, repo, list, p)));
  }

  lemma EvictedAreVictims(t: Tables, repo: string, list: seq<Listed>, p: Policy, id: string)
    requires id in EvictedIds(t, repo, list, p)
    ensures exists i | 0 <= i < |list| :: list[i].id == id && !Protected(list, p, id) && !list[i].row.state.Building?
  {
    var base := Retained(t, repo, MarkedIds(list, p));
    var victims := Victims(base, repo, list, p, |list|);
    assert id in victims;
    VictimsAreExactly(base, repo, list, p, |list|);
  }

  /** What a prune never deletes: a caller-protected set, the newest ready committed set of any listed identity, a set
      the listing shows as building and not past the terminal cutoff, and any set the listing does not show. */
  ghost predicate Immune(list: seq<Listed>, p: Policy, id: string) {
    || CallerProtected(p, id)
    || (exists i | 0 <= i < |list| :: list[i].id == id && NewestReady(list, i))
    || (exists i | 0 <= i < |list| :: list[i].id == id && list[i].row.state.Building? && !TerminalExpired(list[i].row, p))
    || (forall i | 0 <= i < |list| :: list[i].id != id)
  }

  lemma ImmuneIsNotMarked(list: seq<Listed>, p: Policy, id: string)
    requires (forall i, j | 0 <= i < j < |list| :: list[i].id != list[j].id) && Immune(list, p, id)
    ensures id !in MarkedIds(list, p)
  {
  }

  lemma ImmuneIsNotEvicted(t: Tables, repo: string, list: seq<Listed>, p: Policy, id: string)
    requires (forall i, j | 0 <= i < j < |list| :: list[i].id != list[j].id) && Immune(list, p, id)
    ensures id !in EvictedIds(t, repo, list, p)
  {
    if id in EvictedIds(t, repo, list, p) {
      EvictedAreVictims(t, repo, list, p, id);
    }
  }

  lemma RetentionSafety(t: Tables, repo: string, list: seq<Listed>, p: Policy, k: SetKey)
    requires k in t.sets && forall i, j | 0 <= i < j < |list| :: list[i].id != list[j].id
    requires k.repo != repo || Immune(list, p, k.id)
    ensures k in Pruned(t, repo, list, p).sets && Pruned(t, repo, list, p).sets[k] == t.sets[k]
  {
    RetainedIsReachability(t, repo, MarkedIds(list, p) + Elements(EvictedIds(t, repo, list, p)));
    if k.repo == repo {
      ImmuneIsNotMarked(list, p, k.id);
      ImmuneIsNotEvicted(t, repo, list, p, k.id);
    }
  }

  /** Every surviving, unprotected, counted entry under a positive limit has at most limit - 1 newer counted
      entries of its identity. */
  lemma RetentionBound(t: Tables, repo: string, list: seq<Listed>, p: Policy, i: nat)
    requires i < |list| && SetKey(repo, list[i].id) in Pruned(t, repo, list, p).sets
    requires Counted(list[i].row, p) && !Protected(list, p, list[i].id) && Limit(list[i].row, p) > 0
    ensures |NewerCounted(list, p, i)| <= Limit(list[i].row, p) - 1
    ensures !TerminalExpired(list[i].row, p) && !AgeExpired(list[i].row, p)
  {
    PrunedSets(t, repo, list, p);
    assert list[i].id !in MarkedIds(list, p);
  }

  lemma PrunedKeeps(sha: Digest, t: Tables, repo: string, list: seq<Listed>, p: Policy)
    requires AllCovered(sha, t)
    ensures Good(sha, t, Pruned(t, repo, list, p))
  {
    RetainedKeeps(sha, t, repo, MarkedIds(list, p) + Elements(EvictedIds(t, repo, list, p)));
  }

  lemma DropKeeps(sha: Digest, t: Tables, repo: string, gone: set<string>)
    requires AllCovered(sha, t)
    ensures Good(sha, t, Drop(t, repo, gone))
  {
    var u := Drop(t, repo, gone);
    forall j | j in t.sets && t.sets[j].state.Ready? && j in u.sets ensures SameView(t, u, j) {
      assert Covered(sha, t, j);
      assert MembersOf(u, j) == MembersOf(t, j) && ExclusionsOf(u, j) == ExclusionsOf(t, j);
    }
    CoveredFromViews(sha, t, u);
  }

  lemma RetainedKeeps(sha: Digest, t: Tables, repo: string, gone: set<string>)
    requires AllCovered(sha, t)
    ensures Good(sha, t, Retained(t, repo, gone))
  {
    DropKeeps(sha, t, repo, gone);
    SweepKeeps(sha, Drop(t, repo, gone), repo);
    SweepRows(Drop(t, repo, gone), repo);
    GoodTransitive(sha, t, Drop(t, repo, gone), Retained(t, repo, gone));
  }

  lemma RetainedKeepsReferences(t: Tables, repo: string, gone: set<string>)
    requires Referential(t)
    ensures Referential(Retained(t, repo, gone))
  {
    var d := Drop(t, repo, gone);
    assert Referential(d);
    SweepKeepsReferences(d, repo);
    SweepKeepsReferences(SweepVectors(d, repo), repo);
  }

  // ---- the listing ----

  /** ORDER BY updated_at DESC, revision_set_id. */
  predicate ListedBefore(a: Listed, b: Listed) {
    || Less(b.row.updatedAt.text, a.row.updatedAt.text)
    || (a.row.updatedAt.text == b.row.updatedAt.text && Less(a.id, b.id))
  }

  function NewestFirst(): (Listed, Listed) -> bool {
    (a, b) => ListedBefore(a, b)
  }

  function Rows(t: Tables, repo: string): set<Listed> {
    set k | k in t.sets && k.repo == repo :: Listed(k.id, t.sets[k])
  }

  ghost predicate IsListing(t: Tables, repo: string, list: seq<Listed>) {
    Enumerates(list, Rows(t, repo)) && Sorted(NewestFirst(), list)
  }

  lemma ListingOrderIsStrict(t: Tables, repo: string)
    ensures StrictOrderOn(NewestFirst(), Rows(t, repo))
  {
    var items, less := Rows(t, repo), NewestFirst();
    forall a, b | a in items && b in items && less(a, b) ensures !less(b, a) {
      if Less(b.row.updatedAt.text, a.row.updatedAt.text) { LessIsAsymmetric(b.row.updatedAt.text, a.row.updatedAt.text); }
      if Less(a.row.updatedAt.text, b.row.updatedAt.text) { LessIsAsymmetric(a.row.updatedAt.text, b.row.updatedAt.text); }
      if Less(a.id, b.id) { LessIsAsymmetric(a.id, b.id); }
    }
    forall a, b | a in items && b in items && a != b ensures less(a, b) || less(b, a) {
      LessIsTotal(a.row.updatedAt.text, b.row.updatedAt.text);
      LessIsTotal(a.id, b.id);
    }
    forall a, b, c | a in items && b in items && c in items && less(a, b) && less(b, c) ensures less(a, c) {
      if Less(b.row.updatedAt.text, a.row.updatedAt.text) && Less(c.row.updatedAt.text, b.row.updatedAt.text) {
        LessIsTransitive(c.row.updatedAt.text, b.row.updatedAt.text, a.row.updatedAt.text);
      }
      if Less(a.id, b.id) && Less(b.id, c.id) { LessIsTransitive(a.id, b.id, c.id); }
    }
  }

  lemma ListingHasDistinctIds(t: Tables, repo: string, list: seq<Listed>)
    requires IsListing(t, repo, list)
    ensures forall i, j | 0 <= i < j < |list| :: list[i].id != list[j].id
    ensures forall i | 0 <= i < |list| :: SetKey(repo, list[i].id) in t.sets && t.sets[SetKey(repo, list[i].id)] == list[i].row
  {
    forall i | 0 <= i < |list|
      ensures SetKey(repo, list[i].id) in t.sets && t.sets[SetKey(repo, list[i].id)] == list[i].row
    {
      assert list[i] in Rows(t, repo);
    }
  }

  /** k is ready and no overlay, and any other such set of the same git store, policy, chunk policy and namespace has a
      lower update time, or the same one and a greater id. */
  ghost predicate NewestOfIdentity(t: Tables, k: SetKey) {
    && k in t.sets && t.sets[k].state.Ready? && t.sets[k].overlayDigest == ""
    && forall j | j in t.sets && j.repo == k.repo && j != k && t.sets[j].state.Ready? && t.sets[j].overlayDigest == ""
                  && t.sets[j].gitStoreRef == t.sets[k].gitStoreRef && t.sets[j].policyHash == t.sets[k].policyHash
                  && t.sets[j].chunkPolicy == t.sets[k].chunkPolicy && t.sets[j].namespace == t.sets[k].namespace ::
         || Less(t.sets[j].updatedAt.text, t.sets[k].updatedAt.text)
         || (t.sets[j].updatedAt.text == t.sets[k].updatedAt.text && Less(k.id, j.id))
  }

  /** With no publication in between, the newest ready committed set of every identity survives. */
  lemma NewestReadySetSurvives(t: Tables, repo: string, list: seq<Listed>, p: Policy, k: SetKey)
    requires IsListing(t, repo, list) && k.repo == repo && NewestOfIdentity(t, k)
    ensures k in Pruned(t, repo, list, p).sets
  {
    ListingHasDistinctIds(t, repo, list);
    assert Listed(k.id, t.sets[k]) in Rows(t, repo);
    var i :| 0 <= i < |list| && list[i] == Listed(k.id, t.sets[k]);
    ListingOrderIsStrict(t, repo);
    forall j | 0 <= j < i && ReadyCommitted(list[j].row) ensures IdentityOf(list[j].row) != IdentityOf(list[i].row) {
      assert NewestFirst()(list[j], list[i]) && list[j] in Rows(t, repo) && list[i] in Rows(t, repo);
      assert !NewestFirst()(list[i], list[j]);
    }
    assert NewestReady(list, i);
    RetentionSafety(t, repo, list, p, k);
  }

  // ---- the two passes over the listing ----

  /** The set of protected ids, built as the prune builds it: trimmed caller ids, then the first ready committed
      entry of each identity. */
  method CollectProtected(list: seq<Listed>, p: Policy) returns (ids: set<string>)
    ensures forall id :: id in ids <==> Protected(list, p, id)
  {
    ids := {};
    for i := 0 to |p.protectedIds|
      invariant forall id :: id in ids <==> id != "" && exists j | 0 <= j < i :: TrimSpace(p.protectedIds[j]) == id
    {
      var id := TrimSpace(p.protectedIds[i]);
      if id != "" { ids := ids + {id}; }
    }
    assert forall id :: id in ids <==> CallerProtected(p, id);
    var latest: set<Identity> := {};
    for i := 0 to |list|
      invariant forall key :: key in latest <==> exists j | 0 <= j < i :: ReadyCommitted(list[j].row) && IdentityOf(list[j].row) == key
      invariant forall id :: id in ids <==> CallerProtected(p, id) || exists j | 0 <= j < i :: list[j].id == id && NewestReady(list, j)
    {
      var set_ := list[i];
      if set_.row.state.Ready? && set_.row.overlayDigest == "" && IdentityOf(set_.row) !in latest {
        latest := latest + {IdentityOf(set_.row)};
        ids := ids + {set_.id};
      }
    }
  }

  function CountedBefore(list: seq<Listed>, p: Policy, key: Identity, n: nat): set<int>
    requires n <= |list|
  {
    set j | 0 <= j < n && Counted(list[j].row, p) && IdentityOf(list[j].row) == key
  }

  lemma CountedStep(list: seq<Listed>, p: Policy, key: Identity, n: nat)
    requires n < |list|
    ensures |CountedBefore(list, p, key, n + 1)|
         == |CountedBefore(list, p, key, n)| + if Counted(list[n].row, p) && IdentityOf(list[n].row) == key then 1 else 0
  {
    var a, b := CountedBefore(list, p, key, n), CountedBefore(list, p, key, n + 1);
    assert b == if Counted(list[n].row, p) && IdentityOf(list[n].row) == key then a + {n} else a;
  }

  function CountOf(counts: map<Identity, int>, key: Identity): int {
    if key in counts then counts[key] else 0
  }

  ghost predicate CountsUpTo(counts: map<Identity, int>, list: seq<Listed>, p: Policy, n: nat)
    requires n <= |list|
  {
    forall key :: CountOf(counts, key) == |CountedBefore(list, p, key, n)|
  }

  lemma CountsAdvance(counts: map<Identity, int>, list: seq<Listed>, p: Policy, n: nat)
    requires n < |list| && CountsUpTo(counts, list, p, n)
    ensures var key := IdentityOf(list[n].row);
            CountsUpTo(if Counted(list[n].row, p) then counts[key := CountOf(counts, key) + 1] else counts, list, p, n + 1)
  {
    forall k ensures |CountedBefore(list, p, k, n + 1)|
                  == |CountedBefore(list, p, k, n)| + if Counted(list[n].row, p) && IdentityOf(list[n].row) == k then 1 else 0 {
      CountedStep(list, p, k, n);
    }
  }

  /** The ids the retention pass deletes, with one running count per identity. */
  method MarkForDeletion(list: seq<Listed>, p: Policy, protectedIds: set<string>) returns (ids: seq<string>)
    requires forall id :: id in protectedIds <==> Protected(list, p, id)
    ensures Elements(ids) == MarkedIds(list, p)
  {
    ids := [];
    var counts: map<Identity, int> := map[];
    for i := 0 to |list|
      invariant CountsUpTo(counts, list, p, i)
      invariant forall id :: id in ids <==> exists j | 0 <= j < i :: list[j].id == id && Marked(list, p, j)
    {
      var set_ := list[i];
      var row := set_.row;
      var key := IdentityOf(row);
      CountsAdvance(counts, list, p, i);
      assert NewerCounted(list, p, i) == CountedBefore(list, p, key, i);
      if row.state.Building? && !TerminalExpired(row, p) { continue; }
      counts := counts[key := CountOf(counts, key) + 1];
      if set_.id in protectedIds { continue; }
      if TerminalExpired(row, p) || AgeExpired(row, p) || (Limit(row, p) > 0 && counts[key] > Limit(row, p)) {
        ids := ids + [set_.id];
      }
    }
  }

  // ---- the race between listing and transaction ----

  /** Without a byte ceiling, a set that is there when the transaction opens survives it if and only if the listing,
      however old, does not mark it. */
  lemma SurvivesUnlessMarked(t: Tables, repo: string, list: seq<Listed>, p: Policy, k: SetKey)
    requires k in t.sets && k.repo == repo && p.maxVectorBytes <= 0
    ensures k in Pruned(t, repo, list, p).sets <==> k.id !in MarkedIds(list, p)
  {
    PrunedSets(t, repo, list, p);
  }

  /** A listing marks a set that it shows as expired, neither ready nor protected by the caller. */
  lemma ExpiredIsMarked(s: Tables, repo: string, list: seq<Listed>, p: Policy, k: SetKey)
    requires IsListing(s, repo, list) && k in s.sets && k.repo == repo
    requires TerminalExpired(s.sets[k], p) && !CallerProtected(p, k.id)
    ensures k.id in MarkedIds(list, p)
  {
    ListingHasDistinctIds(s, repo, list);
    assert Listed(k.id, s.sets[k]) in Rows(s, repo);
    var i :| 0 <= i < |list| && list[i] == Listed(k.id, s.sets[k]);
    assert forall j | 0 <= j < |list| && list[j].id == k.id :: j == i;
    assert Marked(list, p, i);
  }

  /** A publication between the listing and the transaction loses. The listing, taken in s, shows k partial and past
      the terminal cutoff; k is then published, with what was staged or with new membership, and may well be the
      newest ready committed set of its identity. A prune by the old listing deletes it, a prune by a current one
      would have kept it. */
  lemma StaleListingDropsFreshPublication(sha: Digest, s: Tables, repo: string, stale: seq<Listed>, p: Policy, k: SetKey, row: RevisionSet,
                                          ms: seq<Membership>, t: Tables, current: seq<Listed>)
    requires IsListing(s, repo, stale) && k in s.sets && k.repo == repo && s.sets[k].state.Partial?
    requires TerminalExpired(s.sets[k], p) && !CallerProtected(p, k.id)
    requires Ok(t) == PublishStaged(sha, s, k, row) || Ok(t) == Publish(sha, s, k, row, ms)
    requires NewestOfIdentity(t, k) && IsListing(t, repo, current)
    ensures k !in Pruned(t, repo, stale, p).sets && k in Pruned(t, repo, current, p).sets
  {
    ExpiredIsMarked(s, repo, stale, p, k);
    PrunedSets(t, repo, stale, p);
    NewestReadySetSurvives(t, repo, current, p, k);
  }
}
