/** What staging and publication require and leave, column by column. */
module RepositoryDocsOutcomes {
  import opened Wrappers
  import opened Text
  import opened RepositoryDocs
  import opened RepositoryDocsInvariant
  import opened RepositoryDocsRuns
  import opened Ordering

  // ---- revision sets ----

  /** The columns that a revision set may not leave empty. */
  predicate Filled(k: SetKey, row: RevisionSet) {
    && k.repo != "" && k.id != "" && row.gitStoreRef != "" && row.objectFormat != "" && row.commitOid != ""
    && row.policyHash != "" && row.policySource != "" && row.chunkPolicy != "" && !row.state.Unset? && row.generation >= 0
  }

  predicate SameSource(a: RevisionSet, b: RevisionSet) {
    && a.gitStoreRef == b.gitStoreRef && a.objectFormat == b.objectFormat && a.commitOid == b.commitOid
    && a.policyHash == b.policyHash && a.policySource == b.policySource && a.overlayDigest == b.overlayDigest
    && a.chunkPolicy == b.chunkPolicy && a.namespace == b.namespace && a.detail == b.detail
  }

  predicate SameCounters(a: RevisionSet, b: RevisionSet) {
    && a.state == b.state && a.eligibleFiles == b.eligibleFiles && a.eligibleChunks == b.eligibleChunks
    && a.embedded == b.embedded && a.reused == b.reused && a.failed == b.failed && a.excludedFiles == b.excludedFiles
    && a.missing == b.missing && a.generation == b.generation && a.updatedAt == b.updatedAt
  }

  /** The row is stored as given; only the processing policy has a default, and only a first write sets the creation time. */
  ghost predicate StoredSet(t: Tables, u: Tables, k: SetKey, row: RevisionSet) {
    && k in u.sets && SameSource(u.sets[k], row) && SameCounters(u.sets[k], row)
    && u.sets[k].processingPolicy == (if row.processingPolicy == "" then row.chunkPolicy else row.processingPolicy)
    && u.sets[k].createdAt == (if k in t.sets then t.sets[k].createdAt else row.createdAt)
    && (forall j | j != k :: (j in u.sets <==> j in t.sets) && (j in t.sets ==> u.sets[j] == t.sets[j]))
  }

  ghost predicate OnlySetsChange(t: Tables, u: Tables) {
    && u.repos == t.repos && u.namespaces == t.namespaces && u.chunks == t.chunks
    && u.members == t.members && u.exclusions == t.exclusions && u.vectors == t.vectors
  }

  /** A set can be written while it is not ready, and a new one in a known repository. */
  predicate Writable(t: Tables, k: SetKey) {
    if k in t.sets then !t.sets[k].state.Ready? else k.repo in t.repos
  }

  lemma PutSetIsExact(t: Tables, k: SetKey, row: RevisionSet)
    requires Filled(k, row)
    ensures NormalizeSet(k, row).Ok?
    ensures PutSet(t, k, NormalizeSet(k, row).value).Ok? <==> Writable(t, k)
    ensures Writable(t, k) ==> var u := PutSet(t, k, NormalizeSet(k, row).value).value; StoredSet(t, u, k, row) && OnlySetsChange(t, u)
  {
    if Writable(t, k) { PutSetStores(t, k, row, NormalizeSet(k, row).value); }
  }

  lemma PutSetStores(t: Tables, k: SetKey, row: RevisionSet, normalized: RevisionSet)
    requires Writable(t, k) && SameSource(normalized, row) && SameCounters(normalized, row) && normalized.createdAt == row.createdAt
    requires normalized.processingPolicy == if row.processingPolicy == "" then row.chunkPolicy else row.processingPolicy
    ensures var a := PutSet(t, k, normalized); a.Ok? && StoredSet(t, a.value, k, row) && OnlySetsChange(t, a.value)
  {
  }

  /** By its owner a set is written in any state but a published one. */
  lemma UpsertSetIsExact(t: Tables, k: SetKey, row: RevisionSet)
    ensures UpsertSet(t, k, row).Ok? <==> Filled(k, row) && !row.state.Ready? && !row.state.Partial? && Writable(t, k)
    ensures UpsertSet(t, k, row).Ok? ==> var u := UpsertSet(t, k, row).value; StoredSet(t, u, k, row) && OnlySetsChange(t, u)
  {
    if Filled(k, row) { PutSetIsExact(t, k, row); }
  }

  // ---- publication ----

  /** The vector is what the namespace asks for: float32, four bytes a dimension, and its own digest. */
  predicate Fits(sha: Digest, v: Vector, n: Namespace) {
    v.dimensions == n.dimensions && n.dtype == "float32" && v.dtype == "float32" && |v.bytes| == 4 * n.dimensions && v.hash == sha(v.bytes)
  }

  /** What a set that is about to be published has to account for. */
  ghost predicate Accounted(t: Tables, k: SetKey, row: RevisionSet) {
    && |set m | m in t.members && m.repo == k.repo && m.revisionSet == k.id| == row.eligibleChunks
    && |set e | e in t.exclusions && e.repo == k.repo && e.revisionSet == k.id| == row.excludedFiles
    && row.embedded >= 0 && row.reused >= 0 && row.failed >= 0 && row.missing >= 0 && row.embedded + row.reused <= row.eligibleChunks
  }

  /** And, if it is to be ready, for every member a fitting vector. */
  ghost predicate Searchable(sha: Digest, t: Tables, k: SetKey, row: RevisionSet) {
    && row.failed == 0 && row.missing == 0 && row.embedded + row.reused == row.eligibleChunks
    && NamespaceKey(k.repo, row.namespace) in t.namespaces
    && forall m | m in t.members && m.repo == k.repo && m.revisionSet == k.id ::
         && VectorKey(k.repo, row.namespace, m.chunk) in t.vectors
         && Fits(sha, t.vectors[VectorKey(k.repo, row.namespace, m.chunk)], t.namespaces[NamespaceKey(k.repo, row.namespace)])
  }

  ghost predicate Presentable(sha: Digest, t: Tables, k: SetKey, row: RevisionSet) {
    && (row.state.Ready? || row.state.Partial?) && Accounted(t, k, row) && (row.state.Ready? ==> Searchable(sha, t, k, row))
  }

  lemma RulesAreExact(sha: Digest, t: Tables, k: SetKey, row: RevisionSet)
    requires row.state.Ready? || row.state.Partial?
    ensures PublicationError(sha, t, k, row).None? <==> Presentable(sha, t, k, row)
  {
    assert MembersOf(t, k) == set m | m in t.members && m.repo == k.repo && m.revisionSet == k.id;
    assert ExclusionsOf(t, k) == set e | e in t.exclusions && e.repo == k.repo && e.revisionSet == k.id;
  }

  lemma RulesIgnoreDefaults(sha: Digest, t: Tables, k: SetKey, row: RevisionSet)
    requires Filled(k, row)
    ensures NormalizeSet(k, row).Ok?
    ensures Presentable(sha, t, k, NormalizeSet(k, row).value) <==> Presentable(sha, t, k, row)
  {
  }

  lemma ExposeIsExact(sha: Digest, t: Tables, k: SetKey, row: RevisionSet)
    requires Filled(k, row) && (row.state.Ready? || row.state.Partial?)
    ensures NormalizeSet(k, row).Ok?
    ensures var a := Expose(sha, t, k, NormalizeSet(k, row).value);
            && (a.Ok? <==> Presentable(sha, t, k, row) && Writable(t, k))
            && (a.Ok? ==> StoredSet(t, a.value, k, row) && OnlySetsChange(t, a.value))
  {
    RulesIgnoreDefaults(sha, t, k, row);
    RulesAreExact(sha, t, k, NormalizeSet(k, row).value);
    PutSetIsExact(t, k, row);
  }

  /** Staged rows are published exactly if the set exists, is not ready yet, and accounts for them; the row is stored as
      given and nothing else changes. */
  lemma PublishStagedIsExact(sha: Digest, t: Tables, k: SetKey, row: RevisionSet)
    ensures PublishStaged(sha, t, k, row).Ok? <==> Filled(k, row) && k in t.sets && !t.sets[k].state.Ready? && Presentable(sha, t, k, row)
    ensures PublishStaged(sha, t, k, row).Ok? ==>
              var u := PublishStaged(sha, t, k, row).value; StoredSet(t, u, k, row) && OnlySetsChange(t, u)
  {
    if Filled(k, row) && (row.state.Ready? || row.state.Partial?) { ExposeIsExact(sha, t, k, row); }
  }

  // ---- membership ----

  /** The row names the set, or leaves it out, and nothing else is missing. */
  predicate OwnMember(k: SetKey, m: Membership) {
    && m.key.repo in {"", k.repo} && m.key.revisionSet in {"", k.id}
    && m.key.path != "" && m.key.chunk != "" && m.row.authority != "" && m.row.contentDigest != ""
  }

  function Placed(k: SetKey, m: Membership): MemberKey { MemberKey(k.repo, k.id, m.key.path, m.key.chunk) }

  predicate NamedSet(k: SetKey) { !AllSpace(k.repo) && !AllSpace(k.id) }

  /** Rows for one set, each place taken once, for chunks that are there. */
  ghost predicate Insertable(t: Tables, k: SetKey, ms: seq<Membership>) {
    && NamedSet(k) && (forall i | 0 <= i < |ms| :: OwnMember(k, ms[i]) && ChunkKey(k.repo, ms[i].key.chunk) in t.chunks)
    && (forall i, j | 0 <= i < j < |ms| :: Placed(k, ms[i]) != Placed(k, ms[j]))
  }

  /** The set has exactly these rows, and the others what they had. */
  ghost predicate HasMembers(t: Tables, u: Tables, k: SetKey, ms: seq<Membership>) {
    && (forall x: MemberKey | x.repo == k.repo && x.revisionSet == k.id :: x in u.members <==> exists i | 0 <= i < |ms| :: Placed(k, ms[i]) == x)
    && (forall i | 0 <= i < |ms| :: Placed(k, ms[i]) in u.members && u.members[Placed(k, ms[i])] == ms[i].row)
    && (forall x: MemberKey | !(x.repo == k.repo && x.revisionSet == k.id) ::
          (x in u.members <==> x in t.members) && (x in t.members ==> u.members[x] == t.members[x]))
  }

  lemma MembersAreNormal(k: SetKey, ms: seq<Membership>)
    ensures NormalizeMembers(k, ms).Ok? <==> NamedSet(k) && forall i | 0 <= i < |ms| :: OwnMember(k, ms[i])
    ensures NormalizeMembers(k, ms).Ok? ==>
              var rows := NormalizeMembers(k, ms).value;
              |rows| == |ms| && forall i | 0 <= i < |ms| :: rows[i].key == Placed(k, ms[i]) && rows[i].row == ms[i].row
  {
    BlankIsSpace(k.repo);
    BlankIsSpace(k.id);
    forall i | 0 <= i < |ms| ensures ValidMember(k, ms[i]) <==> OwnMember(k, ms[i]) { assert ms[i] in ms; }
    forall i | 0 <= i < |ms| && OwnMember(k, ms[i]) ensures WithSet(k, ms[i].key) == Placed(k, ms[i]) {}
  }

  /** A row can be inserted: nothing is in its place, and its set and chunk are there. */
  predicate Fresh(t: Tables, m: MemberKey) {
    m !in t.members && SetKey(m.repo, m.revisionSet) in t.sets && ChunkKey(m.repo, m.chunk) in t.chunks
  }

  ghost predicate AllFresh(t: Tables, rows: seq<Membership>) {
    && (forall i | 0 <= i < |rows| :: Fresh(t, rows[i].key))
    && (forall i, j | 0 <= i < j < |rows| :: rows[i].key != rows[j].key)
  }

  lemma {:induction false} InsertionIsExact(t: Tables, rows: seq<Membership>)
    ensures InsertMembers(t, rows).Ok? <==> AllFresh(t, rows)
    decreases |rows|
  {
    if rows != [] {
      if Fresh(t, rows[0].key) {
        var next := InsertMember(t, rows[0]).value;
        InsertionIsExact(next, rows[1..]);
        FreshOnward(t, rows, next);
      } else {
        assert InsertMember(t, rows[0]).Err?;
      }
    }
  }

  lemma FreshOnward(t: Tables, rows: seq<Membership>, next: Tables)
    requires rows != [] && Fresh(t, rows[0].key) && next == t.(members := t.members[rows[0].key := rows[0].row])
    ensures AllFresh(next, rows[1..]) <==> AllFresh(t, rows)
  {
    if AllFresh(next, rows[1..]) {
      forall i | 0 <= i < |rows| ensures Fresh(t, rows[i].key) && (i > 0 ==> rows[i].key != rows[0].key) {
        if i > 0 { assert rows[i] == rows[1..][i - 1] && Fresh(next, rows[1..][i - 1].key); }
      }
      forall i, j | 0 <= i < j < |rows| ensures rows[i].key != rows[j].key {
        if i > 0 { assert rows[i] == rows[1..][i - 1] && rows[j] == rows[1..][j - 1]; }
      }
    }
    if AllFresh(t, rows) {
      forall i | 0 <= i < |rows[1..]| ensures Fresh(next, rows[1..][i].key) { assert rows[1..][i] == rows[i + 1]; }
    }
  }

  /** Clearing a set's rows and inserting others succeeds exactly for insertable ones, and leaves exactly those. */
  lemma RestagingIsExact(t: Tables, k: SetKey, ms: seq<Membership>)
    requires NormalizeMembers(k, ms).Ok?
    ensures var a := InsertMembers(ClearMembers(t, k), NormalizeMembers(k, ms).value);
            && (a.Ok? <==> Insertable(t, k, ms) && (ms != [] ==> k in t.sets))
            && (a.Ok? ==> HasMembers(t, a.value, k, ms) && a.value == t.(members := a.value.members))
  {
    var rows, cleared := NormalizeMembers(k, ms).value, ClearMembers(t, k);
    MembersAreNormal(k, ms);
    InsertionIsExact(cleared, rows);
    RestageMeans(t, k, ms, rows);
    if InsertMembers(cleared, rows).Ok? {
      InsertedMembers(cleared, rows);
      RestageLeaves(t, k, ms, rows, InsertMembers(cleared, rows).value);
    }
  }

  lemma RestageMeans(t: Tables, k: SetKey, ms: seq<Membership>, rows: seq<Membership>)
    requires NamedSet(k) && |rows| == |ms|
    requires forall i | 0 <= i < |ms| :: OwnMember(k, ms[i]) && rows[i].key == Placed(k, ms[i])
    ensures AllFresh(ClearMembers(t, k), rows) <==> Insertable(t, k, ms) && (ms != [] ==> k in t.sets)
  {
    var cleared := ClearMembers(t, k);
    forall i | 0 <= i < |ms| ensures Fresh(cleared, rows[i].key) <==> k in t.sets && ChunkKey(k.repo, ms[i].key.chunk) in t.chunks {
      assert SetOf(rows[i].key) == k;
    }
    if AllFresh(cleared, rows) && ms != [] { assert Fresh(cleared, rows[0].key); }
  }

  lemma RestageLeaves(t: Tables, k: SetKey, ms: seq<Membership>, rows: seq<Membership>, u: Tables)
    requires |rows| == |ms| && forall i | 0 <= i < |ms| :: rows[i].key == Placed(k, ms[i]) && rows[i].row == ms[i].row
    requires forall m :: m in u.members <==> m in ClearMembers(t, k).members || exists i | 0 <= i < |rows| :: rows[i].key == m
    requires forall m | m in ClearMembers(t, k).members :: u.members[m] == ClearMembers(t, k).members[m]
    requires forall i | 0 <= i < |rows| :: rows[i].key in u.members && u.members[rows[i].key] == rows[i].row
    ensures HasMembers(t, u, k, ms)
  {
    forall x: MemberKey | x.repo == k.repo && x.revisionSet == k.id
      ensures x in u.members <==> exists i | 0 <= i < |ms| :: Placed(k, ms[i]) == x
    {
      assert SetOf(x) == k && x !in ClearMembers(t, k).members;
      if i :| 0 <= i < |ms| && Placed(k, ms[i]) == x { assert rows[i].key == x; }
    }
    forall x: MemberKey | !(x.repo == k.repo && x.revisionSet == k.id)
      ensures (x in u.members <==> x in t.members) && (x in t.members ==> u.members[x] == t.members[x])
    {
      assert SetOf(x) != k;
      assert forall i | 0 <= i < |rows| :: rows[i].key != x;
    }
  }

  /** Membership is replaced exactly while its set is being built, by insertable rows. */
  lemma ReplaceMembershipIsExact(t: Tables, k: SetKey, ms: seq<Membership>)
    ensures ReplaceMembership(t, k, ms).Ok? <==> Insertable(t, k, ms) && k in t.sets && t.sets[k].state.Building?
    ensures ReplaceMembership(t, k, ms).Ok? ==>
              var u := ReplaceMembership(t, k, ms).value; HasMembers(t, u, k, ms) && u == t.(members := u.members)
  {
    MembersAreNormal(k, ms);
    if NormalizeMembers(k, ms).Ok? { RestagingIsExact(t, k, ms); }
  }

  lemma OneStaging(t: Tables, k: SetKey, ms: seq<Membership>, a: Tables, b: Tables)
    requires HasMembers(t, a, k, ms) && a == t.(members := a.members) && HasMembers(t, b, k, ms) && b == t.(members := b.members)
    ensures a == b
  {
    forall x: MemberKey ensures (x in a.members <==> x in b.members) && (x in a.members ==> a.members[x] == b.members[x]) {
      if x.repo == k.repo && x.revisionSet == k.id && x in a.members {
        var i :| 0 <= i < |ms| && Placed(k, ms[i]) == x;
      }
    }
    assert a.members == b.members;
  }

  /** The tables with the set's membership replaced. */
  ghost predicate Restaged(t: Tables, u: Tables, k: SetKey, ms: seq<Membership>) {
    HasMembers(t, u, k, ms) && u == t.(members := u.members)
  }

  ghost predicate OnlyTheSetChanges(t: Tables, u: Tables, k: SetKey, row: RevisionSet, ms: seq<Membership>) {
    && StoredSet(t, u, k, row) && HasMembers(t, u, k, ms)
    && u.repos == t.repos && u.namespaces == t.namespaces && u.chunks == t.chunks && u.exclusions == t.exclusions && u.vectors == t.vectors
  }

  /** With that membership the set could be published. */
  ghost predicate PresentableWith(sha: Digest, t: Tables, k: SetKey, row: RevisionSet, ms: seq<Membership>) {
    exists staged :: Restaged(t, staged, k, ms) && Presentable(sha, staged, k, row)
  }

  lemma ExposedAlone(sha: Digest, t: Tables, staged: Tables, k: SetKey, row: RevisionSet, ms: seq<Membership>)
    requires Restaged(t, staged, k, ms)
    ensures PresentableWith(sha, t, k, row, ms) <==> Presentable(sha, staged, k, row)
  {
    if other :| Restaged(t, other, k, ms) && Presentable(sha, other, k, row) { OneStaging(t, k, ms, staged, other); }
  }

  lemma ExposedIsExact(sha: Digest, t: Tables, staged: Tables, k: SetKey, row: RevisionSet, ms: seq<Membership>)
    requires Filled(k, row) && (row.state.Ready? || row.state.Partial?) && Restaged(t, staged, k, ms)
    ensures NormalizeSet(k, row).Ok?
    ensures var e := Expose(sha, staged, k, NormalizeSet(k, row).value);
            && (e.Ok? <==> PresentableWith(sha, t, k, row, ms) && Writable(t, k))
            && (e.Ok? ==> OnlyTheSetChanges(t, e.value, k, row, ms))
  {
    ExposeIsExact(sha, staged, k, row);
    ExposedAlone(sha, t, staged, k, row, ms);
  }

  lemma PublishesAfterRestaging(sha: Digest, t: Tables, k: SetKey, row: RevisionSet, ms: seq<Membership>)
    requires Filled(k, row) && (row.state.Ready? || row.state.Partial?) && NormalizeMembers(k, ms).Ok?
    ensures NormalizeSet(k, row).Ok?
    ensures var a := InsertMembers(ClearMembers(t, k), NormalizeMembers(k, ms).value);
            Publish(sha, t, k, row, ms) ==
              if k in t.sets && t.sets[k].state.Ready? then Err(Published)
              else if a.Err? then a else Expose(sha, a.value, k, NormalizeSet(k, row).value)
  {
  }

  lemma NothingElsePublishes(sha: Digest, t: Tables, k: SetKey, row: RevisionSet, ms: seq<Membership>)
    requires !(Filled(k, row) && (row.state.Ready? || row.state.Partial?) && NormalizeMembers(k, ms).Ok?)
    ensures Publish(sha, t, k, row, ms).Err? && !(Filled(k, row) && Insertable(t, k, ms) && PresentableWith(sha, t, k, row, ms))
  {
    MembersAreNormal(k, ms);
  }

  /** A set is published together with membership exactly if the rows are insertable, the set is not ready yet and
      accounts for them. */
  lemma PublishIsExact(sha: Digest, t: Tables, k: SetKey, row: RevisionSet, ms: seq<Membership>)
    ensures Publish(sha, t, k, row, ms).Ok? <==>
              Filled(k, row) && Insertable(t, k, ms) && Writable(t, k) && (ms != [] ==> k in t.sets) && PresentableWith(sha, t, k, row, ms)
    ensures Publish(sha, t, k, row, ms).Ok? ==> OnlyTheSetChanges(t, Publish(sha, t, k, row, ms).value, k, row, ms)
  {
    if Filled(k, row) && (row.state.Ready? || row.state.Partial?) && NormalizeMembers(k, ms).Ok? {
      PublishesAfterRestaging(sha, t, k, row, ms);
      RestagingIsExact(t, k, ms);
      var a := InsertMembers(ClearMembers(t, k), NormalizeMembers(k, ms).value);
      if a.Ok? { ExposedIsExact(sha, t, a.value, k, row, ms); }
    } else {
      NothingElsePublishes(sha, t, k, row, ms);
    }
  }

  // ---- one membership row ----

  /** A membership row is written exactly while its set is being built; a new one needs its chunk. */
  lemma UpsertMembershipIsExact(t: Tables, m: Membership)
    ensures UpsertMembership(t, m).Ok? <==>
              && NamedSet(SetOf(m.key)) && OwnMember(SetOf(m.key), m)
              && SetOf(m.key) in t.sets && t.sets[SetOf(m.key)].state.Building?
              && (m.key in t.members || ChunkKey(m.key.repo, m.key.chunk) in t.chunks)
    ensures UpsertMembership(t, m).Ok? ==> UpsertMembership(t, m).value == t.(members := t.members[m.key := m.row])
  {
    assert [m][0] == m;
    MembersAreNormal(SetOf(m.key), [m]);
  }

  // ---- exclusions ----

  predicate OwnExclusion(k: SetKey, e: Omission) {
    && e.key.repo in {"", k.repo} && e.key.revisionSet in {"", k.id}
    && !AllSpace(e.key.path) && !AllSpace(e.key.reason) && !AllSpace(e.row.authority)
  }

  function Barred(k: SetKey, e: Omission): ExclusionKey { ExclusionKey(k.repo, k.id, e.key.path, e.key.reason) }

  /** Rows for one set, each path and reason once. */
  ghost predicate Excludable(k: SetKey, es: seq<Omission>) {
    && NamedSet(k) && (forall i | 0 <= i < |es| :: OwnExclusion(k, es[i]))
    && (forall i, j | 0 <= i < j < |es| :: Barred(k, es[i]) != Barred(k, es[j]))
  }

  ghost predicate HasExclusions(t: Tables, u: Tables, k: SetKey, es: seq<Omission>) {
    && (forall x: ExclusionKey | x.repo == k.repo && x.revisionSet == k.id ::
          x in u.exclusions <==> exists i | 0 <= i < |es| :: Barred(k, es[i]) == x)
    && (forall i | 0 <= i < |es| :: Barred(k, es[i]) in u.exclusions && u.exclusions[Barred(k, es[i])] == es[i].row)
    && (forall x: ExclusionKey | !(x.repo == k.repo && x.revisionSet == k.id) ::
          (x in u.exclusions <==> x in t.exclusions) && (x in t.exclusions ==> u.exclusions[x] == t.exclusions[x]))
  }

  lemma ExclusionsAreNormal(k: SetKey, es: seq<Omission>)
    ensures NormalizeExclusions(k, es).Ok? <==> NamedSet(k) && forall i | 0 <= i < |es| :: OwnExclusion(k, es[i])
    ensures NormalizeExclusions(k, es).Ok? ==>
              var rows := NormalizeExclusions(k, es).value;
              |rows| == |es| && forall i | 0 <= i < |es| :: rows[i].key == Barred(k, es[i]) && rows[i].row == es[i].row
  {
    BlankIsSpace(k.repo);
    BlankIsSpace(k.id);
    forall i | 0 <= i < |es| ensures ValidExclusion(k, es[i]) <==> OwnExclusion(k, es[i]) {
      assert es[i] in es;
      BlankIsSpace(es[i].key.path);
      BlankIsSpace(es[i].key.reason);
      BlankIsSpace(es[i].row.authority);
    }
    forall i | 0 <= i < |es| && OwnExclusion(k, es[i]) ensures WithExcluding(k, es[i].key) == Barred(k, es[i]) {}
  }

  predicate Open(t: Tables, x: ExclusionKey) { x !in t.exclusions && SetKey(x.repo, x.revisionSet) in t.sets }

  ghost predicate AllOpen(t: Tables, rows: seq<Omission>) {
    && (forall i | 0 <= i < |rows| :: Open(t, rows[i].key))
    && (forall i, j | 0 <= i < j < |rows| :: rows[i].key != rows[j].key)
  }

  lemma {:induction false} ExclusionInsertionIsExact(t: Tables, rows: seq<Omission>)
    ensures InsertExclusions(t, rows).Ok? <==> AllOpen(t, rows)
    decreases |rows|
  {
    if rows != [] {
      assert Open(t, rows[0].key) <==> !(rows[0].key in t.exclusions || Excluding(rows[0].key) !in t.sets);
      if Open(t, rows[0].key) {
        var next := t.(exclusions := t.exclusions[rows[0].key := rows[0].row]);
        ExclusionInsertionIsExact(next, rows[1..]);
        OpenOnward(t, rows, next);
      }
    }
  }

  lemma OpenOnward(t: Tables, rows: seq<Omission>, next: Tables)
    requires rows != [] && Open(t, rows[0].key) && next == t.(exclusions := t.exclusions[rows[0].key := rows[0].row])
    ensures AllOpen(next, rows[1..]) <==> AllOpen(t, rows)
  {
    if AllOpen(next, rows[1..]) {
      forall i | 0 <= i < |rows| ensures Open(t, rows[i].key) && (i > 0 ==> rows[i].key != rows[0].key) {
        if i > 0 { assert rows[i] == rows[1..][i - 1] && Open(next, rows[1..][i - 1].key); }
      }
      forall i, j | 0 <= i < j < |rows| ensures rows[i].key != rows[j].key {
        if i > 0 { assert rows[i] == rows[1..][i - 1] && rows[j] == rows[1..][j - 1]; }
      }
    }
    if AllOpen(t, rows) {
      forall i | 0 <= i < |rows[1..]| ensures Open(next, rows[1..][i].key) { assert rows[1..][i] == rows[i + 1]; }
    }
  }

  lemma ReopeningMeans(t: Tables, k: SetKey, es: seq<Omission>, rows: seq<Omission>)
    requires NamedSet(k) && k in t.sets && |rows| == |es|
    requires forall i | 0 <= i < |es| :: OwnExclusion(k, es[i]) && rows[i].key == Barred(k, es[i])
    ensures AllOpen(ClearExclusions(t, k), rows) <==> Excludable(k, es)
  {
    forall i | 0 <= i < |es| ensures Open(ClearExclusions(t, k), rows[i].key) { assert Excluding(rows[i].key) == k; }
  }

  lemma ReopeningLeaves(t: Tables, k: SetKey, es: seq<Omission>, rows: seq<Omission>, u: Tables)
    requires |rows| == |es| && forall i | 0 <= i < |es| :: rows[i].key == Barred(k, es[i]) && rows[i].row == es[i].row
    requires forall e :: e in u.exclusions <==> e in ClearExclusions(t, k).exclusions || exists i | 0 <= i < |rows| :: rows[i].key == e
    requires forall e | e in ClearExclusions(t, k).exclusions :: u.exclusions[e] == ClearExclusions(t, k).exclusions[e]
    requires forall i | 0 <= i < |rows| :: rows[i].key in u.exclusions && u.exclusions[rows[i].key] == rows[i].row
    ensures HasExclusions(t, u, k, es)
  {
    forall x: ExclusionKey | x.repo == k.repo && x.revisionSet == k.id
      ensures x in u.exclusions <==> exists i | 0 <= i < |es| :: Barred(k, es[i]) == x
    {
      assert Excluding(x) == k && x !in ClearExclusions(t, k).exclusions;
      if i :| 0 <= i < |es| && Barred(k, es[i]) == x { assert rows[i].key == x; }
    }
    forall x: ExclusionKey | !(x.repo == k.repo && x.revisionSet == k.id)
      ensures (x in u.exclusions <==> x in t.exclusions) && (x in t.exclusions ==> u.exclusions[x] == t.exclusions[x])
    {
      assert Excluding(x) != k;
      assert forall i | 0 <= i < |rows| :: rows[i].key != x;
    }
  }

  /** Exclusions are replaced exactly while their set is being built, by distinct rows of the set with a reason. */
  lemma ReplaceExclusionsIsExact(t: Tables, k: SetKey, es: seq<Omission>)
    ensures ReplaceExclusions(t, k, es).Ok? <==> Excludable(k, es) && k in t.sets && t.sets[k].state.Building?
    ensures ReplaceExclusions(t, k, es).Ok? ==>
              var u := ReplaceExclusions(t, k, es).value; HasExclusions(t, u, k, es) && u == t.(exclusions := u.exclusions)
  {
    ExclusionsAreNormal(k, es);
    if NormalizeExclusions(k, es).Ok? && k in t.sets && t.sets[k].state.Building? {
      var rows, cleared := NormalizeExclusions(k, es).value, ClearExclusions(t, k);
      ExclusionInsertionIsExact(cleared, rows);
      ReopeningMeans(t, k, es, rows);
      if InsertExclusions(cleared, rows).Ok? {
        InsertedExclusions(cleared, rows);
        ReopeningLeaves(t, k, es, rows, InsertExclusions(cleared, rows).value);
      }
    }
  }

  lemma UpsertExclusionIsExact(t: Tables, e: Omission)
    ensures UpsertExclusion(t, e).Ok? <==>
              && NamedSet(Excluding(e.key)) && OwnExclusion(Excluding(e.key), e)
              && Excluding(e.key) in t.sets && t.sets[Excluding(e.key)].state.Building?
    ensures UpsertExclusion(t, e).Ok? ==> UpsertExclusion(t, e).value == t.(exclusions := t.exclusions[e.key := e.row])
  {
    assert [e][0] == e;
    ExclusionsAreNormal(Excluding(e.key), [e]);
  }

  // ---- chunks and vectors ----

  /** A slice of a document: a nonempty byte range, its lines, its digests, and a blob or a worktree to read it from. */
  predicate Sliced(k: ChunkKey, c: Chunk) {
    && k.repo != "" && k.id != "" && c.objectFormat != "" && c.contentDigest != "" && c.rawSliceDigest != ""
    && c.embeddingInputDigest != "" && c.chunkPolicy != "" && c.byteStart >= 0 && c.byteEnd > c.byteStart
    && c.lineStart >= 1 && c.lineEnd >= c.lineStart && !(c.blobOid == "" && c.worktreeRef == "")
  }

  /** A stored slice takes only the same content, range, digests and policy, and then only its update time moves. */
  lemma UpsertChunkIsExact(t: Tables, k: ChunkKey, c: Chunk)
    ensures UpsertChunk(t, k, c).Ok? <==>
              && Sliced(k, c)
              && if k in t.chunks then
                   var was := t.chunks[k];
                   && was.contentDigest == c.contentDigest && was.rawSliceDigest == c.rawSliceDigest
                   && was.embeddingInputDigest == c.embeddingInputDigest && was.chunkPolicy == c.chunkPolicy
                   && was.byteStart == c.byteStart && was.byteEnd == c.byteEnd
                   && was.lineStart == c.lineStart && was.lineEnd == c.lineEnd
                 else k.repo in t.repos
    ensures UpsertChunk(t, k, c).Ok? ==>
              UpsertChunk(t, k, c).value ==
                t.(chunks := t.chunks[k := if k in t.chunks then t.chunks[k].(updatedAt := c.updatedAt) else c])
  {
  }

  /** A vector is stored once, under its own digest if it comes without one; afterwards only the same vector is accepted. */
  lemma UpsertVectorIsExact(sha: Digest, t: Tables, k: VectorKey, v: Vector)
    ensures UpsertVector(sha, t, k, v).Ok? <==>
              && k.repo != "" && k.namespace != "" && k.chunk != "" && v.bytes != [] && v.dimensions > 0 && v.dtype != ""
              && if k in t.vectors then
                   var was := t.vectors[k];
                   && was.bytes == v.bytes && was.dimensions == v.dimensions && was.dtype == v.dtype
                   && was.hash == (if v.hash == "" then sha(v.bytes) else v.hash)
                 else ChunkKey(k.repo, k.chunk) in t.chunks && NamespaceKey(k.repo, k.namespace) in t.namespaces
    ensures UpsertVector(sha, t, k, v).Ok? ==>
              var u := UpsertVector(sha, t, k, v).value;
              && u == t.(vectors := u.vectors) && k in u.vectors && u.vectors == t.vectors[k := u.vectors[k]]
              && u.vectors[k] == Vector(v.bytes, v.dimensions, v.dtype, if v.hash == "" then sha(v.bytes) else v.hash)
  {
    if k in t.vectors { assert t.vectors == t.vectors[k := t.vectors[k]]; }
  }

  lemma UpsertNamespaceIsExact(t: Tables, k: NamespaceKey, n: Namespace)
    ensures UpsertNamespace(t, k, n).Ok? <==> k.repo != "" && n.dimensions > 0 && n.dtype != "" && k.repo in t.repos
    ensures UpsertNamespace(t, k, n).Ok? ==> UpsertNamespace(t, k, n).value == t.(namespaces := t.namespaces[k := n])
  {
  }

  // ---- snapshots ----

  /** The candidate carries its membership row, its chunk's columns, and its vector in the namespace, if there is one. */
  predicate Shows(t: Tables, m: MemberKey, namespace: string, c: Candidate) {
    && c.key == m && m in t.members && c.member == t.members[m] && ChunkKey(m.repo, m.chunk) in t.chunks
    && (var chunk := t.chunks[ChunkKey(m.repo, m.chunk)];
        && c.objectFormat == chunk.objectFormat && c.byteStart == chunk.byteStart && c.byteEnd == chunk.byteEnd
        && c.lineStart == chunk.lineStart && c.lineEnd == chunk.lineEnd && c.rawSliceDigest == chunk.rawSliceDigest
        && c.embeddingInputDigest == chunk.embeddingInputDigest && c.chunkPolicy == chunk.chunkPolicy)
    && (var v := VectorKey(m.repo, namespace, m.chunk);
        if v in t.vectors then c.namespace == namespace && c.vector == t.vectors[v]
        else c.namespace == "" && c.vector.bytes == [] && c.vector.dimensions == 0 && c.vector.dtype == "" && c.vector.hash == "")
  }

  /** By path, then ordinal, then chunk. */
  predicate Ascending(a: Candidate, b: Candidate) {
    && !Less(b.key.path, a.key.path)
    && (a.key.path == b.key.path ==> a.member.ordinal <= b.member.ordinal)
    && (a.key.path == b.key.path && a.member.ordinal == b.member.ordinal ==> Less(a.key.chunk, b.key.chunk))
  }

  /** Every member of the set whose chunk is there, once. */
  ghost predicate ShowsAll(t: Tables, k: SetKey, namespace: string, cs: seq<Candidate>) {
    && (forall m | m in t.members && m.repo == k.repo && m.revisionSet == k.id && ChunkKey(m.repo, m.chunk) in t.chunks ::
          exists i | 0 <= i < |cs| :: cs[i].key == m)
    && (forall i | 0 <= i < |cs| ::
          cs[i].key.repo == k.repo && cs[i].key.revisionSet == k.id && Shows(t, cs[i].key, namespace, cs[i]))
    && (forall i, j | 0 <= i < j < |cs| :: Ascending(cs[i], cs[j]))
  }

  lemma CandidateShows(t: Tables, m: MemberKey, namespace: string, c: Candidate)
    requires m in t.members && ChunkOf(m) in t.chunks
    ensures c == CandidateOf(t, m, namespace) <==> Shows(t, m, namespace, c)
  {
  }

  lemma EarlierAscends(t: Tables, namespace: string, a: Candidate, b: Candidate)
    requires Shows(t, a.key, namespace, a) && Shows(t, b.key, namespace, b)
    ensures Earlier(t, a.key, b.key) <==> Ascending(a, b)
  {
    LessIsTotal(a.key.path, b.key.path);
    if Less(a.key.path, b.key.path) { LessIsAsymmetric(a.key.path, b.key.path); }
  }

  lemma ListsShows(t: Tables, k: SetKey, namespace: string, order: seq<MemberKey>, cs: seq<Candidate>)
    requires Lists(t, k, namespace, order, cs)
    ensures ShowsAll(t, k, namespace, cs)
  {
    forall i | 0 <= i < |cs| ensures cs[i].key == order[i] && order[i] in Joined(t, k) && Shows(t, order[i], namespace, cs[i]) {
      assert order[i] in order;
      CandidateShows(t, order[i], namespace, cs[i]);
    }
    forall m | m in t.members && m.repo == k.repo && m.revisionSet == k.id && ChunkKey(m.repo, m.chunk) in t.chunks
      ensures exists i | 0 <= i < |cs| :: cs[i].key == m
    {
      assert m in Joined(t, k) && m in order;
      var i :| 0 <= i < |order| && order[i] == m;
      assert cs[i].key == m;
    }
    forall i, j | 0 <= i < j < |cs| ensures Ascending(cs[i], cs[j]) {
      assert ByPath(t)(order[i], order[j]);
      EarlierAscends(t, namespace, cs[i], cs[j]);
    }
  }

  lemma ShownLists(t: Tables, k: SetKey, namespace: string, order: seq<MemberKey>, cs: seq<Candidate>)
    requires ShowsAll(t, k, namespace, cs) && |order| == |cs| && forall i | 0 <= i < |cs| :: order[i] == cs[i].key
    ensures Lists(t, k, namespace, order, cs)
  {
    forall i | 0 <= i < |order| ensures order[i] in Joined(t, k) && cs[i] == CandidateOf(t, order[i], namespace) {
      assert Shows(t, cs[i].key, namespace, cs[i]);
      CandidateShows(t, order[i], namespace, cs[i]);
    }
    forall i, j | 0 <= i < j < |order| ensures ByPath(t)(order[i], order[j]) && order[i] != order[j] {
      assert Ascending(cs[i], cs[j]);
      EarlierAscends(t, namespace, cs[i], cs[j]);
      if order[i] == order[j] { EarlierIsAsymmetric(t, order[i], order[j]); }
    }
    forall m ensures m in order <==> m in Joined(t, k) {
      if m in Joined(t, k) {
        var i :| 0 <= i < |cs| && cs[i].key == m;
        assert order[i] == m;
      }
    }
  }

  /** A snapshot is the ready set's row with every member joined to its chunk, in order, column by column. */
  lemma SnapshotIsExact(t: Tables, k: SetKey, namespace: string, s: Snapshot)
    ensures IsSnapshot(t, k, namespace, s) <==>
              && k in t.sets && t.sets[k].state.Ready? && t.sets[k].namespace == namespace && s.row == t.sets[k]
              && ShowsAll(t, k, namespace, s.candidates)
  {
    if IsSnapshot(t, k, namespace, s) {
      var order: seq<MemberKey> :| Lists(t, k, namespace, order, s.candidates);
      ListsShows(t, k, namespace, order, s.candidates);
    }
    if ShowsAll(t, k, namespace, s.candidates) {
      var order := seq(|s.candidates|, i requires 0 <= i < |s.candidates| => s.candidates[i].key);
      ShownLists(t, k, namespace, order, s.candidates);
    }
  }
}
