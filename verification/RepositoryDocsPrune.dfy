/** Which revision sets a prune removes, told by the rows of the tables alone. */
module RepositoryDocsPrune {
  import opened Wrappers
  import opened Text
  import opened RepositoryDocs
  import opened RepositoryDocsRetention
  import opened Ordering

  // ---- the order of the sets, and what a policy says about one ----

  /** The update time of a is greater, or it is the same and the id of a is lower. */
  predicate Newer(t: Tables, a: SetKey, b: SetKey)
    requires a in t.sets && b in t.sets
  {
    || Less(t.sets[b].updatedAt.text, t.sets[a].updatedAt.text)
    || (t.sets[a].updatedAt.text == t.sets[b].updatedAt.text && Less(a.id, b.id))
  }

  predicate Overlay(row: RevisionSet) { row.overlayDigest != "" }

  predicate Alike(a: RevisionSet, b: RevisionSet) {
    && a.gitStoreRef == b.gitStoreRef && a.policyHash == b.policyHash && a.chunkPolicy == b.chunkPolicy
    && a.namespace == b.namespace && (Overlay(a) <==> Overlay(b))
  }

  /** Not ready, and last updated before the terminal cutoff. */
  predicate Abandoned(row: RevisionSet, p: Policy) {
    !row.state.Ready? && p.terminalCutoff.Some? && row.updatedAt.instant < p.terminalCutoff.value
  }

  predicate Aged(row: RevisionSet, p: Policy) {
    if Overlay(row) then p.overlayCutoff.Some? && row.updatedAt.instant < p.overlayCutoff.value
    else p.committedCutoff.Some? && row.updatedAt.instant < p.committedCutoff.value
  }

  /** Sets that are being built do not count, unless they were abandoned. */
  predicate Counts(row: RevisionSet, p: Policy) { row.state.Building? ==> Abandoned(row, p) }

  /** The sets of k's kind that count and are newer. */
  ghost function Ahead(t: Tables, p: Policy, k: SetKey): set<SetKey>
    requires k in t.sets
  {
    set j | j in t.sets && j.repo == k.repo && Counts(t.sets[j], p) && Alike(t.sets[j], t.sets[k]) && Newer(t, j, k)
  }

  /** Eight by default; overlays are not limited unless the policy does. */
  ghost predicate TooMany(t: Tables, p: Policy, k: SetKey)
    requires k in t.sets
  {
    if Overlay(t.sets[k]) then p.retainOverlays > 0 && |Ahead(t, p, k)| >= p.retainOverlays
    else |Ahead(t, p, k)| >= if p.retainCommitted > 0 then p.retainCommitted else 8
  }

  /** The newest ready set of its kind that is no overlay. */
  ghost predicate Current(t: Tables, k: SetKey)
    requires k in t.sets
  {
    && t.sets[k].state.Ready? && !Overlay(t.sets[k])
    && forall j | j in t.sets && j.repo == k.repo && j != k && t.sets[j].state.Ready? && Alike(t.sets[j], t.sets[k]) :: Newer(t, k, j)
  }

  ghost predicate Named(p: Policy, id: string) { id != "" && exists x | x in p.protectedIds :: TrimSpace(x) == id }

  /** Retention removes k. */
  ghost predicate Outlived(t: Tables, p: Policy, k: SetKey)
    requires k in t.sets
  {
    && Counts(t.sets[k], p) && !Named(p, k.id) && !Current(t, k)
    && (Abandoned(t.sets[k], p) || Aged(t.sets[k], p) || TooMany(t, p, k))
  }

  // ---- a listing shows the sets in that order ----

  function KeyAt(repo: string, list: seq<Listed>, i: nat): SetKey
    requires i < |list|
  {
    SetKey(repo, list[i].id)
  }

  /** The listing has every set of the repository once, the newest first and equally new ones by id. */
  lemma ListingIsNewestFirst(t: Tables, repo: string, list: seq<Listed>)
    requires IsListing(t, repo, list)
    ensures forall i | 0 <= i < |list| :: KeyAt(repo, list, i) in t.sets && list[i].row == t.sets[KeyAt(repo, list, i)]
    ensures forall k | k in t.sets && k.repo == repo :: exists i | 0 <= i < |list| :: KeyAt(repo, list, i) == k
    ensures forall i, j | 0 <= i < j < |list| ::
              || Less(list[j].row.updatedAt.text, list[i].row.updatedAt.text)
              || (list[i].row.updatedAt.text == list[j].row.updatedAt.text && Less(list[i].id, list[j].id))
  {
    ListingHasDistinctIds(t, repo, list);
    forall k | k in t.sets && k.repo == repo ensures exists i | 0 <= i < |list| :: KeyAt(repo, list, i) == k {
      assert Listed(k.id, t.sets[k]) in Rows(t, repo);
      var i :| 0 <= i < |list| && list[i] == Listed(k.id, t.sets[k]);
      assert KeyAt(repo, list, i) == k;
    }
    forall i, j | 0 <= i < j < |list|
      ensures || Less(list[j].row.updatedAt.text, list[i].row.updatedAt.text)
              || (list[i].row.updatedAt.text == list[j].row.updatedAt.text && Less(list[i].id, list[j].id))
    {
      assert NewestFirst()(list[i], list[j]);
    }
  }

  lemma NewerIsAsymmetric(t: Tables, a: SetKey, b: SetKey)
    requires a in t.sets && b in t.sets && Newer(t, a, b)
    ensures !Newer(t, b, a)
  {
    var x, y := t.sets[a].updatedAt.text, t.sets[b].updatedAt.text;
    if Less(y, x) { LessIsAsymmetric(y, x); }
    if Less(x, y) { LessIsAsymmetric(x, y); }
    if Less(a.id, b.id) { LessIsAsymmetric(a.id, b.id); }
  }

  lemma BeforeMeansNewer(t: Tables, repo: string, list: seq<Listed>, i: nat, j: nat)
    requires IsListing(t, repo, list) && i < |list| && j < |list|
    requires KeyAt(repo, list, i) in t.sets && KeyAt(repo, list, j) in t.sets
    ensures i < j <==> Newer(t, KeyAt(repo, list, i), KeyAt(repo, list, j))
  {
    ListingIsNewestFirst(t, repo, list);
    if i < j {
      assert Newer(t, KeyAt(repo, list, i), KeyAt(repo, list, j));
    } else if j < i {
      assert Newer(t, KeyAt(repo, list, j), KeyAt(repo, list, i));
      NewerIsAsymmetric(t, KeyAt(repo, list, j), KeyAt(repo, list, i));
    } else if Newer(t, KeyAt(repo, list, i), KeyAt(repo, list, j)) {
      NewerIsAsymmetric(t, KeyAt(repo, list, i), KeyAt(repo, list, j));
    }
  }

  // ---- what the passes over the listing decide ----

  lemma {:induction false} ImageSize<A, B>(xs: set<A>, ys: set<B>, f: A -> B)
    requires (forall a, b | a in xs && b in xs && a != b :: f(a) != f(b)) && ys == set a | a in xs :: f(a)
    ensures |xs| == |ys|
    decreases |xs|
  {
    if xs != {} {
      var x :| x in xs;
      assert ys - {f(x)} == set a | a in xs - {x} :: f(a);
      ImageSize(xs - {x}, ys - {f(x)}, f);
    }
  }

  lemma RowsAgree(a: RevisionSet, b: RevisionSet, p: Policy)
    ensures IdentityOf(a) == IdentityOf(b) <==> Alike(a, b)
    ensures Counted(a, p) <==> Counts(a, p)
    ensures TerminalExpired(a, p) <==> Abandoned(a, p)
    ensures AgeExpired(a, p) <==> Aged(a, p)
    ensures ReadyCommitted(a) <==> a.state.Ready? && !Overlay(a)
  {
  }

  lemma AheadIsNewerCounted(t: Tables, repo: string, list: seq<Listed>, p: Policy, i: nat, k: SetKey)
    requires IsListing(t, repo, list) && i < |list| && k in t.sets && KeyAt(repo, list, i) == k
    ensures |NewerCounted(list, p, i)| == |Ahead(t, p, k)|
  {
    ListingIsNewestFirst(t, repo, list);
    ListingHasDistinctIds(t, repo, list);
    var f := (j: int) => if 0 <= j < |list| then KeyAt(repo, list, j) else k;
    forall j | j in Ahead(t, p, k) ensures exists n :: n in NewerCounted(list, p, i) && f(n) == j {
      var n :| 0 <= n < |list| && KeyAt(repo, list, n) == j;
      BeforeMeansNewer(t, repo, list, n, i);
      RowsAgree(list[n].row, list[i].row, p);
      assert n in NewerCounted(list, p, i);
    }
    forall n | n in NewerCounted(list, p, i) ensures f(n) in Ahead(t, p, k) {
      BeforeMeansNewer(t, repo, list, n, i);
      RowsAgree(list[n].row, list[i].row, p);
    }
    ImageSize(NewerCounted(list, p, i), Ahead(t, p, k), f);
  }

  lemma CurrentIsNewestReady(t: Tables, repo: string, list: seq<Listed>, i: nat, k: SetKey, p: Policy)
    requires IsListing(t, repo, list) && i < |list| && k in t.sets && KeyAt(repo, list, i) == k
    ensures NewestReady(list, i) <==> Current(t, k)
  {
    ListingIsNewestFirst(t, repo, list);
    RowsAgree(list[i].row, list[i].row, p);
    if NewestReady(list, i) {
      forall j | j in t.sets && j.repo == k.repo && j != k && t.sets[j].state.Ready? && Alike(t.sets[j], t.sets[k]) ensures Newer(t, k, j) {
        var n :| 0 <= n < |list| && KeyAt(repo, list, n) == j;
        RowsAgree(list[n].row, list[i].row, p);
        BeforeMeansNewer(t, repo, list, i, n);
      }
    }
    if Current(t, k) {
      forall n | 0 <= n < i && ReadyCommitted(list[n].row) ensures IdentityOf(list[n].row) != IdentityOf(list[i].row) {
        RowsAgree(list[n].row, list[i].row, p);
        BeforeMeansNewer(t, repo, list, n, i);
        if Alike(list[n].row, list[i].row) { NewerIsAsymmetric(t, KeyAt(repo, list, n), k); }
      }
    }
  }

  lemma ProtectedMeans(t: Tables, repo: string, list: seq<Listed>, p: Policy, i: nat, k: SetKey)
    requires IsListing(t, repo, list) && i < |list| && k in t.sets && KeyAt(repo, list, i) == k
    ensures Protected(list, p, k.id) <==> Named(p, k.id) || Current(t, k)
  {
    ListingHasDistinctIds(t, repo, list);
    CurrentIsNewestReady(t, repo, list, i, k, p);
    assert forall n | 0 <= n < |list| && list[n].id == k.id :: n == i;
  }

  lemma LimitMeans(t: Tables, p: Policy, k: SetKey, n: nat)
    requires k in t.sets && n == |Ahead(t, p, k)|
    ensures 0 < Limit(t.sets[k], p) <= n <==> TooMany(t, p, k)
  {
  }

  /** The pass marks exactly the sets that retention is to remove. */
  lemma MarkedIsOutlived(t: Tables, repo: string, list: seq<Listed>, p: Policy, k: SetKey)
    requires IsListing(t, repo, list) && k in t.sets && k.repo == repo
    ensures k.id in MarkedIds(list, p) <==> Outlived(t, p, k)
  {
    ListingIsNewestFirst(t, repo, list);
    ListingHasDistinctIds(t, repo, list);
    var i :| 0 <= i < |list| && KeyAt(repo, list, i) == k;
    assert forall n | 0 <= n < |list| && list[n].id == k.id :: n == i;
    AheadIsNewerCounted(t, repo, list, p, i, k);
    LimitMeans(t, p, k, |Ahead(t, p, k)|);
    ProtectedMeans(t, repo, list, p, i, k);
    RowsAgree(list[i].row, list[i].row, p);
    assert Marked(list, p, i) <==> Outlived(t, p, k);
  }

  /** With a current listing and no byte ceiling a prune removes exactly the sets that are outlived: they count, are
      neither named by the caller nor the newest ready set of their kind, and were abandoned, are past their age, or
      have as many newer sets of their kind ahead of them as the policy keeps. */
  lemma PruneIsExact(t: Tables, repo: string, list: seq<Listed>, p: Policy, k: SetKey)
    requires IsListing(t, repo, list) && p.maxVectorBytes <= 0
    ensures k in Pruned(t, repo, list, p).sets <==> k in t.sets && (k.repo == repo ==> !Outlived(t, p, k))
  {
    PrunedSets(t, repo, list, p);
    if k in t.sets && k.repo == repo { MarkedIsOutlived(t, repo, list, p, k); }
  }

  // ---- byte pressure takes the oldest first ----

  lemma PrefixOfCons(head: string, rest: seq<string>, m: nat, x: string)
    requires m <= |rest| + 1
    ensures x in ([head] + rest)[..m] <==> m > 0 && (x == head || x in rest[..m - 1])
  {
    if m > 0 { assert ([head] + rest)[..m] == [head] + rest[..m - 1]; }
  }

  ghost predicate Once(list: seq<Listed>) { forall x, y | 0 <= x < y < |list| :: list[x].id != list[y].id }

  /** The chosen ids of the first n entries, last entry first. */
  function Picked(list: seq<Listed>, chosen: set<string>, n: nat): seq<string>
    requires n <= |list|
  {
    if n == 0 then [] else (if list[n - 1].id in chosen then [list[n - 1].id] else []) + Picked(list, chosen, n - 1)
  }

  lemma {:induction false} VictimsArePicked(base: Tables, repo: string, list: seq<Listed>, p: Policy, chosen: set<string>, n: nat)
    requires n <= |list|
    requires forall i | 0 <= i < |list| :: list[i].id in chosen <==>
               !(Protected(list, p, list[i].id) || list[i].row.state.Building? || SetKey(repo, list[i].id) !in base.sets)
    ensures Victims(base, repo, list, p, n) == Picked(list, chosen, n)
  {
    if n > 0 { VictimsArePicked(base, repo, list, p, chosen, n - 1); }
  }

  lemma {:induction false} PickedAreEarlier(list: seq<Listed>, chosen: set<string>, n: nat)
    requires n <= |list|
    ensures forall x | x in Picked(list, chosen, n) :: exists i | 0 <= i < n :: list[i].id == x
  {
    if n > 0 { PickedAreEarlier(list, chosen, n - 1); }
  }

  /** Whatever prefix holds x holds y. */
  ghost predicate Precedes(ids: seq<string>, y: string, x: string) {
    y in ids ==> forall m | 0 <= m <= |ids| && x in ids[..m] :: y in ids[..m]
  }

  lemma PrecedesInFront(head: string, rest: seq<string>, all: seq<string>, y: string, x: string)
    requires head !in rest && (all == rest || all == [head] + rest)
    requires x != head && (y == head || Precedes(rest, y, x))
    ensures Precedes(all, y, x)
  {
    if all == [head] + rest {
      forall m | 0 <= m <= |all| && x in all[..m] ensures y in all ==> y in all[..m] {
        PrefixOfCons(head, rest, m, x);
        PrefixOfCons(head, rest, m, y);
      }
    }
  }

  lemma {:induction false} LaterEntriesComeFirst(list: seq<Listed>, chosen: set<string>, n: nat, i: nat, j: nat)
    requires i < j < n <= |list| && Once(list)
    ensures Precedes(Picked(list, chosen, n), list[j].id, list[i].id)
    decreases n
  {
    PickedAreEarlier(list, chosen, n - 1);
    if j < n - 1 { LaterEntriesComeFirst(list, chosen, n - 1, i, j); }
    PrecedesInFront(list[n - 1].id, Picked(list, chosen, n - 1), Picked(list, chosen, n), list[j].id, list[i].id);
  }

  lemma OlderVictimsComeFirst(base: Tables, repo: string, list: seq<Listed>, p: Policy, i: nat, j: nat)
    requires i < j < |list| && Once(list)
    ensures Precedes(Victims(base, repo, list, p, |list|), list[j].id, list[i].id)
  {
    var chosen := set n | 0 <= n < |list| && !(Protected(list, p, list[n].id) || list[n].row.state.Building? || SetKey(repo, list[n].id) !in base.sets) :: list[n].id;
    forall n | 0 <= n < |list| && list[n].id in chosen
      ensures !(Protected(list, p, list[n].id) || list[n].row.state.Building? || SetKey(repo, list[n].id) !in base.sets)
    {
      var o :| 0 <= o < |list| && list[o].id == list[n].id
               && !(Protected(list, p, list[o].id) || list[o].row.state.Building? || SetKey(repo, list[o].id) !in base.sets);
      assert o == n;
    }
    VictimsArePicked(base, repo, list, p, chosen, |list|);
    LaterEntriesComeFirst(list, chosen, |list|, i, j);
  }

  /** Byte pressure may take the set: nobody named it, it is not the newest ready one of its kind, and not being built. */
  ghost predicate Evictable(t: Tables, p: Policy, k: SetKey)
    requires k in t.sets
  {
    !Named(p, k.id) && !Current(t, k) && !t.sets[k].state.Building?
  }

  lemma EvictableIsVictim(t: Tables, repo: string, list: seq<Listed>, p: Policy, k: SetKey)
    requires IsListing(t, repo, list) && k in t.sets && k.repo == repo
    ensures k.id in Victims(Retained(t, repo, MarkedIds(list, p)), repo, list, p, |list|) <==> Evictable(t, p, k) && !Outlived(t, p, k)
  {
    var base := Retained(t, repo, MarkedIds(list, p));
    ListingIsNewestFirst(t, repo, list);
    ListingHasDistinctIds(t, repo, list);
    var i :| 0 <= i < |list| && KeyAt(repo, list, i) == k;
    VictimsAreExactly(base, repo, list, p, |list|);
    RetainedIsReachability(t, repo, MarkedIds(list, p));
    ProtectedMeans(t, repo, list, p, i, k);
    MarkedIsOutlived(t, repo, list, p, k);
    assert forall n | 0 <= n < |list| && list[n].id == k.id :: n == i;
  }

  /** Under a byte ceiling a prune with a current listing removes the outlived sets and some evictable ones, and of
      those never a newer one before an older one. */
  lemma OldestGoesFirst(t: Tables, repo: string, list: seq<Listed>, p: Policy, a: SetKey, b: SetKey)
    requires IsListing(t, repo, list) && p.maxVectorBytes > 0
    requires a in t.sets && a.repo == repo && a !in Pruned(t, repo, list, p).sets
    ensures Outlived(t, p, a) || Evictable(t, p, a)
    ensures b in t.sets && b.repo == repo && !Outlived(t, p, a) && Evictable(t, p, b) && Newer(t, a, b) ==> b !in Pruned(t, repo, list, p).sets
  {
    PrunedSets(t, repo, list, p);
    MarkedIsOutlived(t, repo, list, p, a);
    EvictableIsVictim(t, repo, list, p, a);
    EvictionIsMinimal(t, repo, list, p);
    if !Outlived(t, p, a) && b in t.sets && b.repo == repo && Evictable(t, p, b) && Newer(t, a, b) {
      MarkedIsOutlived(t, repo, list, p, b);
      if !Outlived(t, p, b) { OlderGoesToo(t, repo, list, p, a, b); }
    }
  }

  lemma ListedInOrder(t: Tables, repo: string, list: seq<Listed>, a: SetKey, b: SetKey) returns (i: nat, j: nat)
    requires IsListing(t, repo, list) && a in t.sets && b in t.sets && a.repo == repo && b.repo == repo && Newer(t, a, b)
    ensures i < j < |list| && list[i].id == a.id && list[j].id == b.id && Once(list)
  {
    ListingIsNewestFirst(t, repo, list);
    ListingHasDistinctIds(t, repo, list);
    i :| 0 <= i < |list| && KeyAt(repo, list, i) == a;
    j :| 0 <= j < |list| && KeyAt(repo, list, j) == b;
    BeforeMeansNewer(t, repo, list, i, j);
  }

  lemma OlderGoesToo(t: Tables, repo: string, list: seq<Listed>, p: Policy, a: SetKey, b: SetKey)
    requires IsListing(t, repo, list) && a in t.sets && b in t.sets && a.repo == repo && b.repo == repo && Newer(t, a, b)
    requires a.id in EvictedIds(t, repo, list, p) && Evictable(t, p, b) && !Outlived(t, p, b) && p.maxVectorBytes > 0
    ensures b.id in EvictedIds(t, repo, list, p)
  {
    var base := Retained(t, repo, MarkedIds(list, p));
    var victims, e := Victims(base, repo, list, p, |list|), EvictedIds(t, repo, list, p);
    EvictableIsVictim(t, repo, list, p, b);
    var i, j := ListedInOrder(t, repo, list, a, b);
    OlderVictimsComeFirst(base, repo, list, p, i, j);
    EvictedIsPrefix(t, repo, list, p);
    assert e == victims[..|e|];
  }

  lemma EvictedIsPrefix(t: Tables, repo: string, list: seq<Listed>, p: Policy)
    requires p.maxVectorBytes > 0
    ensures EvictedIds(t, repo, list, p) <= Victims(Retained(t, repo, MarkedIds(list, p)), repo, list, p, |list|)
  {
    EvictionIsMinimal(t, repo, list, p);
  }
}
