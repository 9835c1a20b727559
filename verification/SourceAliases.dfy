/** Batched alias hydration of source lists (internal/cache/store.go) against the lookup of one source
    (internal/cache/accessors.go). */
module SourceAliases {
  import opened Wrappers
  import opened Text
  import opened Ordering
  import opened Records

  const BATCH_SIZE := 500

  datatype AliasRow = AliasRow(key: AliasKey, identity: Identity)

  function Owner(r: AliasRow): NodeKey { OfIdentity(r.key, r.identity) }

  function Rows(identities: map<AliasKey, Identity>, owners: set<NodeKey>): set<AliasRow> {
    set a | a in identities && OfIdentity(a, identities[a]) in owners :: AliasRow(a, identities[a])
  }

  // ---- the two orders ----

  predicate ByAlias(a: AliasRow, b: AliasRow) {
    if a.key.aliasType != b.key.aliasType then Less(a.key.aliasType, b.key.aliasType) else Less(a.key.alias, b.key.alias)
  }

  predicate BySourceAndAlias(a: AliasRow, b: AliasRow) {
    if a.identity.source != b.identity.source then Less(a.identity.source, b.identity.source) else ByAlias(a, b)
  }

  lemma ByAliasIsStrict(a: AliasRow, b: AliasRow, c: AliasRow)
    ensures ByAlias(a, b) ==> !ByAlias(b, a)
    ensures a.key.repo == b.key.repo && a.key != b.key ==> ByAlias(a, b) || ByAlias(b, a)
    ensures ByAlias(a, b) && ByAlias(b, c) ==> ByAlias(a, c)
  {
    LessFacts(a.key.aliasType, b.key.aliasType, c.key.aliasType);
    LessFacts(a.key.alias, b.key.alias, c.key.alias);
  }

  lemma LessFacts(a: string, b: string, c: string)
    ensures Less(a, b) ==> !Less(b, a) && a != b
    ensures a != b ==> Less(a, b) || Less(b, a)
    ensures Less(a, b) && Less(b, c) ==> Less(a, c)
  {
    if Less(a, b) { LessIsAsymmetric(a, b); }
    LessIsTotal(a, b);
    if Less(a, b) && Less(b, c) { LessIsTransitive(a, b, c); }
  }

  lemma BySourceIsStrict(a: AliasRow, b: AliasRow, c: AliasRow)
    ensures BySourceAndAlias(a, b) ==> !BySourceAndAlias(b, a)
    ensures a.key.repo == b.key.repo && a.key != b.key ==> BySourceAndAlias(a, b) || BySourceAndAlias(b, a)
    ensures BySourceAndAlias(a, b) && BySourceAndAlias(b, c) ==> BySourceAndAlias(a, c)
  {
    ByAliasIsStrict(a, b, c);
    LessFacts(a.identity.source, b.identity.source, c.identity.source);
    LessFacts(b.identity.source, c.identity.source, a.identity.source);
  }

  lemma RowsAreOrdered(identities: map<AliasKey, Identity>, owners: set<NodeKey>, repo: string)
    requires forall k | k in owners :: k.repo == repo
    ensures StrictOrderOn(BySourceAndAlias, Rows(identities, owners)) && StrictOrderOn(ByAlias, Rows(identities, owners))
  {
    forall a, b, c | a in Rows(identities, owners) && b in Rows(identities, owners) && c in Rows(identities, owners)
      ensures BySourceAndAlias(a, b) ==> !BySourceAndAlias(b, a)
      ensures ByAlias(a, b) ==> !ByAlias(b, a)
      ensures a != b ==> BySourceAndAlias(a, b) || BySourceAndAlias(b, a)
      ensures a != b ==> ByAlias(a, b) || ByAlias(b, a)
      ensures BySourceAndAlias(a, b) && BySourceAndAlias(b, c) ==> BySourceAndAlias(a, c)
      ensures ByAlias(a, b) && ByAlias(b, c) ==> ByAlias(a, c)
    {
      BySourceIsStrict(a, b, c);
      ByAliasIsStrict(a, b, c);
    }
  }

  // ---- one source ----

  /** The identities of one source, ordered by alias type and alias. */
  ghost predicate IsLookup(identities: map<AliasKey, Identity>, k: NodeKey, rows: seq<AliasRow>) {
    Enumerates(rows, Rows(identities, {k})) && Sorted(ByAlias, rows)
  }

  lemma LookupIsUnique(identities: map<AliasKey, Identity>, k: NodeKey, a: seq<AliasRow>, b: seq<AliasRow>)
    requires IsLookup(identities, k, a) && IsLookup(identities, k, b)
    ensures a == b
  {
    RowsAreOrdered(identities, {k}, k.repo);
    SortedEnumerationIsUnique(ByAlias, Rows(identities, {k}), a, b);
  }

  /** Every identity of the source and no other, by alias type and then alias. */
  ghost predicate ListsAliases(identities: map<AliasKey, Identity>, k: NodeKey, rows: seq<AliasRow>) {
    && (forall i | 0 <= i < |rows| ::
          && rows[i].key in identities && rows[i].identity == identities[rows[i].key]
          && rows[i].key.repo == k.repo && rows[i].identity.source == k.id)
    && (forall a: AliasKey | a in identities && a.repo == k.repo && identities[a].source == k.id :: exists i | 0 <= i < |rows| :: rows[i].key == a)
    && (forall i, j | 0 <= i < j < |rows| ::
          || Less(rows[i].key.aliasType, rows[j].key.aliasType)
          || (rows[i].key.aliasType == rows[j].key.aliasType && Less(rows[i].key.alias, rows[j].key.alias)))
  }

  lemma LookupIsExact(identities: map<AliasKey, Identity>, k: NodeKey, rows: seq<AliasRow>)
    ensures IsLookup(identities, k, rows) <==> ListsAliases(identities, k, rows)
  {
    if IsLookup(identities, k, rows) {
      forall i | 0 <= i < |rows| ensures rows[i] in Rows(identities, {k}) { assert rows[i] in rows; }
      forall a: AliasKey | a in identities && a.repo == k.repo && identities[a].source == k.id
        ensures exists i | 0 <= i < |rows| :: rows[i].key == a
      {
        assert AliasRow(a, identities[a]) in Rows(identities, {k});
        assert AliasRow(a, identities[a]) in rows;
        var i :| 0 <= i < |rows| && rows[i] == AliasRow(a, identities[a]);
      }
      forall i, j | 0 <= i < j < |rows|
        ensures Less(rows[i].key.aliasType, rows[j].key.aliasType)
                || (rows[i].key.aliasType == rows[j].key.aliasType && Less(rows[i].key.alias, rows[j].key.alias))
      {
        assert ByAlias(rows[i], rows[j]);
      }
    }
    if ListsAliases(identities, k, rows) { ListedIsLookup(identities, k, rows); }
  }

  lemma ListedIsLookup(identities: map<AliasKey, Identity>, k: NodeKey, rows: seq<AliasRow>)
    requires ListsAliases(identities, k, rows)
    ensures IsLookup(identities, k, rows)
  {
    forall i, j | 0 <= i < j < |rows| ensures ByAlias(rows[i], rows[j]) && rows[i] != rows[j] {
      LessFacts(rows[i].key.aliasType, rows[j].key.aliasType, "");
      LessFacts(rows[i].key.alias, rows[j].key.alias, "");
    }
    forall r ensures r in rows <==> r in Rows(identities, {k}) {
      if r in Rows(identities, {k}) {
        assert r.key in identities && OfIdentity(r.key, identities[r.key]) == k;
        var i :| 0 <= i < |rows| && rows[i].key == r.key;
        assert rows[i] == r;
      }
    }
  }

  method GetIdentityMapScoped(identities: map<AliasKey, Identity>, k: NodeKey) returns (rows: seq<AliasRow>)
    ensures IsLookup(identities, k, rows)
  {
    RowsAreOrdered(identities, {k}, k.repo);
    rows := OrderBy(Rows(identities, {k}), ByAlias);
  }

  // ---- a batch ----

  function Filter(rows: seq<AliasRow>, k: NodeKey): seq<AliasRow> {
    if rows == [] then []
    else Filter(rows[..|rows| - 1], k) + if Owner(rows[|rows| - 1]) == k then [rows[|rows| - 1]] else []
  }

  lemma {:induction false} FilterIsSorted(rows: seq<AliasRow>, k: NodeKey)
    requires Sorted(BySourceAndAlias, rows)
    ensures Sorted(ByAlias, Filter(rows, k))
    ensures forall r :: r in Filter(rows, k) <==> r in rows && Owner(r) == k
  {
    if rows != [] {
      var init, last := rows[..|rows| - 1], rows[|rows| - 1];
      FilterIsSorted(init, k);
      var f := Filter(init, k);
      assert rows == init + [last];
      if Owner(last) == k {
        forall i | 0 <= i < |f| ensures ByAlias(f[i], last) {
          assert f[i] in f;
          var j :| 0 <= j < |init| && init[j] == f[i];
          assert BySourceAndAlias(rows[j], rows[|rows| - 1]);
        }
      }
    }
  }

  lemma SortedIsDistinct(rows: seq<AliasRow>)
    requires Sorted(ByAlias, rows)
    ensures forall i, j | 0 <= i < j < |rows| :: rows[i] != rows[j]
  {
    forall i, j | 0 <= i < j < |rows| ensures rows[i] != rows[j] {
      ByAliasIsStrict(rows[i], rows[j], rows[j]);
    }
  }

  /** What a batch query returns for one of its sources is that source's own lookup. */
  lemma BatchHoldsLookups(identities: map<AliasKey, Identity>, owners: set<NodeKey>, rows: seq<AliasRow>, k: NodeKey)
    requires Enumerates(rows, Rows(identities, owners)) && Sorted(BySourceAndAlias, rows) && k in owners
    ensures IsLookup(identities, k, Filter(rows, k))
  {
    FilterIsSorted(rows, k);
    SortedIsDistinct(Filter(rows, k));
    forall r ensures r in Filter(rows, k) <==> r in Rows(identities, {k}) {
      assert r in Rows(identities, {k}) <==> r in Rows(identities, owners) && Owner(r) == k;
    }
  }

  // ---- keys: repository, NUL, source ----

  function Key(k: NodeKey): string { k.repo + ['\0'] + k.id }

  predicate Plain(s: string) { forall i | 0 <= i < |s| :: s[i] != '\0' }

  /** Keys are injective as soon as repository ids hold no NUL. */
  lemma {:induction false} KeysAreDistinct(a: NodeKey, b: NodeKey)
    requires Plain(a.repo) && Plain(b.repo) && Key(a) == Key(b)
    ensures a == b
    decreases |a.repo|
  {
    assert Key(a)[0] == Key(b)[0];
    if a.repo == "" || b.repo == "" {
      assert a.repo == b.repo;
      assert a.id == Key(a)[1..] && b.id == Key(b)[1..];
    } else {
      var x, y := NodeKey(a.repo[1..], a.id), NodeKey(b.repo[1..], b.id);
      assert Key(x) == Key(a)[1..] && Key(y) == Key(b)[1..];
      KeysAreDistinct(x, y);
      assert a.repo == [a.repo[0]] + x.repo && b.repo == [b.repo[0]] + y.repo;
    }
  }

  /** The repository id of a goes on after b's with a NUL, and what follows it begins b's source id. */
  ghost predicate Confused(a: NodeKey, b: NodeKey) {
    exists m :: a.repo == b.repo + ['\0'] + m && b.id == m + ['\0'] + a.id
  }

  lemma LongerIsConfused(a: NodeKey, b: NodeKey)
    requires Key(a) == Key(b) && |b.repo| < |a.repo|
    ensures Confused(a, b)
  {
    var n := |b.repo|;
    var m := a.repo[n + 1..];
    assert a.repo[..n] == Key(a)[..n] == Key(b)[..n] == b.repo;
    assert a.repo[n] == Key(a)[n] == Key(b)[n] == '\0';
    assert a.repo == b.repo + ['\0'] + m;
    assert b.id == Key(b)[n + 1..] && Key(a)[n + 1..] == m + ['\0'] + a.id;
  }

  lemma ConfusedKeys(a: NodeKey, b: NodeKey)
    requires Confused(a, b)
    ensures Key(a) == Key(b) && a != b
  {
    var m :| a.repo == b.repo + ['\0'] + m && b.id == m + ['\0'] + a.id;
    assert b.repo + ['\0'] + m + ['\0'] + a.id == b.repo + ['\0'] + (m + ['\0'] + a.id);
  }

  /** Two sources share a key, so that one is taken for the other, exactly if the repository id of one extends the
      other's by a NUL and a piece that its source id lacks. */
  lemma NulConfusesKeys(a: NodeKey, b: NodeKey)
    ensures a != b && Key(a) == Key(b) <==> Confused(a, b) || Confused(b, a)
  {
    if Confused(a, b) { ConfusedKeys(a, b); }
    if Confused(b, a) { ConfusedKeys(b, a); }
    if Key(a) == Key(b) {
      if |b.repo| < |a.repo| {
        LongerIsConfused(a, b);
      } else if |a.repo| < |b.repo| {
        LongerIsConfused(b, a);
      } else {
        assert a.repo == Key(a)[..|a.repo|] == Key(b)[..|b.repo|] == b.repo;
        assert a.id == Key(a)[|a.repo| + 1..] == Key(b)[|b.repo| + 1..] == b.id;
      }
    }
  }

  // ---- hydration ----

  type Table = map<string, seq<AliasRow>>

  function At(m: Table, key: string): seq<AliasRow> { if key in m then m[key] else [] }

  ghost predicate Listed(sources: seq<NodeKey>, k: NodeKey) { k in sources }

  /** Sources already looked up have their identities, the others none yet. */
  ghost predicate Hydrated(identities: map<AliasKey, Identity>, sources: seq<NodeKey>, m: Table, done: set<NodeKey>) {
    forall k | Listed(sources, k) :: if k in done then IsLookup(identities, k, At(m, Key(k))) else At(m, Key(k)) == []
  }

  /** Distinct source ids by repository, in the order of their first occurrence. */
  method GroupByRepo(sources: seq<NodeKey>) returns (ids: map<string, seq<string>>)
    requires forall k | k in sources :: Plain(k.repo)
    ensures forall k :: k in sources <==> k.repo in ids && k.id in ids[k.repo]
    ensures forall r, i, j | r in ids && 0 <= i < j < |ids[r]| :: ids[r][i] != ids[r][j]
  {
    ids := map[];
    var seen: set<string> := {};
    var n := 0;
    while n < |sources|
      invariant 0 <= n <= |sources|
      invariant forall k :: k in sources[..n] <==> k.repo in ids && k.id in ids[k.repo]
      invariant forall r, i, j | r in ids && 0 <= i < j < |ids[r]| :: ids[r][i] != ids[r][j]
      invariant forall k | k in sources :: Key(k) in seen <==> k in sources[..n]
    {
      var k := sources[n];
      assert sources[..n + 1] == sources[..n] + [k];
      if Key(k) !in seen {
        forall o | o in sources && Key(o) == Key(k) ensures o == k { KeysAreDistinct(o, k); }
        seen := seen + {Key(k)};
        ids := ids[k.repo := (if k.repo in ids then ids[k.repo] else []) + [k.id]];
      }
      n := n + 1;
    }
    assert sources[..n] == sources;
  }

  lemma FilterStep(rows: seq<AliasRow>, n: nat, k: NodeKey)
    requires n < |rows|
    ensures Filter(rows[..n + 1], k) == Filter(rows[..n], k) + if Owner(rows[n]) == k then [rows[n]] else []
  {
    assert rows[..n + 1][..n] == rows[..n];
  }

  lemma Appended(a: seq<AliasRow>, b: seq<AliasRow>, r: AliasRow)
    ensures a + b + [r] == a + (b + [r]) && a + (b + []) == a + b
  {
    assert b + [] == b;
  }

  /** Appends every row to its source's list. */
  method Distribute(m: Table, rows: seq<AliasRow>, ghost sources: seq<NodeKey>) returns (out: Table)
    requires forall k | k in sources :: Plain(k.repo)
    requires forall r | r in rows :: Listed(sources, Owner(r))
    ensures forall k | Listed(sources, k) :: At(out, Key(k)) == At(m, Key(k)) + Filter(rows, k)
  {
    out := m;
    var n := 0;
    while n < |rows|
      invariant 0 <= n <= |rows|
      invariant forall k | Listed(sources, k) :: At(out, Key(k)) == At(m, Key(k)) + Filter(rows[..n], k)
    {
      var r := rows[n];
      var key := Key(NodeKey(r.key.repo, r.identity.source));
      ghost var before := out;
      out := out[key := At(out, key) + [r]];
      forall k | Listed(sources, k) ensures At(out, Key(k)) == At(m, Key(k)) + Filter(rows[..n + 1], k) {
        FilterStep(rows, n, k);
        if Key(k) == key { KeysAreDistinct(k, Owner(r)); }
        Appended(At(m, Key(k)), Filter(rows[..n], k), r);
      }
      n := n + 1;
    }
    assert rows[..n] == rows;
  }

  function Nodes(repo: string, ids: seq<string>): set<NodeKey> { set id | id in ids :: NodeKey(repo, id) }

  /** One query with bounded placeholders, and the distribution of its rows. */
  method HydrateBatch(identities: map<AliasKey, Identity>, ghost sources: seq<NodeKey>, m: Table, repo: string, batch: seq<string>,
                      ghost done: set<NodeKey>) returns (out: Table)
    requires forall k | k in sources :: Plain(k.repo)
    requires Hydrated(identities, sources, m, done) && Nodes(repo, batch) !! done
    requires forall k | k in Nodes(repo, batch) :: k in sources
    ensures Hydrated(identities, sources, out, done + Nodes(repo, batch))
  {
    var owners := Nodes(repo, batch);
    RowsAreOrdered(identities, owners, repo);
    var rows := OrderBy(Rows(identities, owners), BySourceAndAlias);
    assert forall r | r in rows :: r in Rows(identities, owners);
    out := Distribute(m, rows, sources);
    forall k | Listed(sources, k)
      ensures if k in done + owners then IsLookup(identities, k, At(out, Key(k))) else At(out, Key(k)) == []
    {
      BatchAdds(identities, owners, rows, k, At(m, Key(k)));
    }
  }

  lemma {:induction false} FilterOfOthers(rows: seq<AliasRow>, k: NodeKey)
    requires forall r | r in rows :: Owner(r) != k
    ensures Filter(rows, k) == []
  {
    if rows != [] { FilterOfOthers(rows[..|rows| - 1], k); }
  }

  /** A batch adds a source's whole lookup if the source is in the batch, and nothing otherwise. */
  lemma BatchAdds(identities: map<AliasKey, Identity>, owners: set<NodeKey>, rows: seq<AliasRow>, k: NodeKey, before: seq<AliasRow>)
    requires Enumerates(rows, Rows(identities, owners)) && Sorted(BySourceAndAlias, rows)
    ensures k !in owners ==> before + Filter(rows, k) == before
    ensures k in owners && before == [] ==> IsLookup(identities, k, before + Filter(rows, k))
  {
    FilterIsSorted(rows, k);
    if k in owners {
      BatchHoldsLookups(identities, owners, rows, k);
      assert [] + Filter(rows, k) == Filter(rows, k);
    } else {
      assert forall r | r in rows :: r in Rows(identities, owners) && Owner(r) in owners;
      FilterOfOthers(rows, k);
    }
  }

  /** The loop over the batches of one repository. */
  method HydrateRepo(identities: map<AliasKey, Identity>, ghost sources: seq<NodeKey>, m: Table, repo: string, ids: seq<string>,
                     ghost done: set<NodeKey>) returns (out: Table)
    requires forall k | k in sources :: Plain(k.repo)
    requires forall i, j | 0 <= i < j < |ids| :: ids[i] != ids[j]
    requires Hydrated(identities, sources, m, done) && Nodes(repo, ids) !! done
    requires forall k | k in Nodes(repo, ids) :: k in sources
    ensures Hydrated(identities, sources, out, done + Nodes(repo, ids))
  {
    out := m;
    var start := 0;
    assert done + Nodes(repo, ids[..0]) == done;
    while start < |ids|
      invariant 0 <= start <= |ids|
      invariant Hydrated(identities, sources, out, done + Nodes(repo, ids[..start]))
    {
      var end := if start + BATCH_SIZE > |ids| then |ids| else start + BATCH_SIZE;
      BatchIsNew(repo, ids, start, end);
      out := HydrateBatch(identities, sources, out, repo, ids[start..end], done + Nodes(repo, ids[..start]));
      assert done + Nodes(repo, ids[..start]) + Nodes(repo, ids[start..end]) == done + Nodes(repo, ids[..end]);
      start := end;
    }
    assert ids[..start] == ids;
  }

  lemma BatchIsNew(repo: string, ids: seq<string>, start: nat, end: nat)
    requires start <= end <= |ids| && forall i, j | 0 <= i < j < |ids| :: ids[i] != ids[j]
    ensures Nodes(repo, ids[..end]) == Nodes(repo, ids[..start]) + Nodes(repo, ids[start..end])
    ensures Nodes(repo, ids[..start]) !! Nodes(repo, ids[start..end])
    ensures Nodes(repo, ids[start..end]) <= Nodes(repo, ids)
  {
    assert ids[..end] == ids[..start] + ids[start..end];
  }

  /** Every listed source gets exactly the ordered identities that its own lookup returns, for any mix of
      repositories, duplicates and list lengths. */
  method AttachSourceAliases(identities: map<AliasKey, Identity>, sources: seq<NodeKey>) returns (aliases: seq<seq<AliasRow>>)
    requires forall k | k in sources :: Plain(k.repo)
    ensures |aliases| == |sources|
    ensures forall i | 0 <= i < |sources| :: IsLookup(identities, sources[i], aliases[i])
  {
    var ids := GroupByRepo(sources);
    var m: Table := map[];
    var rest := ids.Keys;
    ghost var done: set<NodeKey> := {};
    while rest != {}
      invariant rest <= ids.Keys
      invariant forall k :: k in done <==> k in sources && k.repo !in rest
      invariant Hydrated(identities, sources, m, done)
    {
      var repo :| repo in rest;
      m := HydrateRepo(identities, sources, m, repo, ids[repo], done);
      done := done + Nodes(repo, ids[repo]);
      rest := rest - {repo};
    }
    aliases := [];
    var i := 0;
    while i < |sources|
      invariant 0 <= i <= |sources| && |aliases| == i
      invariant forall j | 0 <= j < i :: IsLookup(identities, sources[j], aliases[j])
    {
      assert Listed(sources, sources[i]) && sources[i] in done;
      aliases := aliases + [At(m, Key(sources[i]))];
      i := i + 1;
    }
  }
}
