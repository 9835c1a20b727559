/** A repair loses no comment, keeps the latest version of each, and never lowers an expected count. */
module IssueParentRepairComments {
  import opened Wrappers
  import opened Collections
  import opened Records
  import opened IssueParentRepair
  import opened IssueParentRepairResult

  type Comments = map<CommentKey, Comment>

  /** Comment x ends up as comment k: it is k, or the same comment of a placeholder of k's issue. */
  predicate Contributes(x: CommentKey, k: CommentKey, gone: set<NodeKey>, canon: Canon) {
    && x.comment == k.comment
    && (if OfComment(x) in gone && OfComment(x) in canon then canon[OfComment(x)] == OfComment(k) else OfComment(x) == OfComment(k))
  }

  /** The comments are exactly the contributed ones, each with the row of a contributor. */
  ghost predicate Gathered(m: Comments, n: Comments, gone: set<NodeKey>, canon: Canon) {
    && (forall x, k | x in m && Contributes(x, k, gone, canon) :: k in n)
    && (forall k | k in n :: exists x :: x in m && Contributes(x, k, gone, canon) && n[k] == m[x])
  }

  /** No contributor is later than what was kept, and an issue's own version only gives way to a later one. */
  ghost predicate Latest(sql: Sql, m: Comments, n: Comments, gone: set<NodeKey>, canon: Canon) {
    && (forall x, k | x in m && k in n && Contributes(x, k, gone, canon) :: !Later(sql, m[x], n[k]))
    && (forall k | k in m && k in n && OfComment(k) !in gone :: n[k] == m[k] || Later(sql, n[k], m[k]))
  }

  function OneMerge(sql: Sql, m: Comments, p: NodeKey, c: NodeKey): Comments {
    WithoutComments(MergedComments(sql, m, p, c), {p})
  }

  lemma OneMergeGathers(sql: Sql, m: Comments, p: NodeKey, canon: Canon)
    requires p in canon && canon[p].repo == p.repo && canon[p] != p
    ensures Gathered(m, OneMerge(sql, m, p, canon[p]), {p}, canon)
  {
    var c := canon[p];
    var n := OneMerge(sql, m, p, c);
    forall x, k | x in m && Contributes(x, k, {p}, canon) ensures k in n {
      if OfComment(x) == p { assert k in Moved(m, p, c); }
    }
    forall k | k in n ensures exists x :: x in m && Contributes(x, k, {p}, canon) && n[k] == m[x] {
      var from := CommentKey(p.repo, p.id, k.comment);
      if k in Moved(m, p, c) && (k !in m || Later(sql, m[from], m[k])) {
        assert from in m && Contributes(from, k, {p}, canon) && n[k] == m[from];
      } else {
        assert k in m && Contributes(k, k, {p}, canon) && n[k] == m[k];
      }
    }
  }

  lemma OneMergeKeepsLatest(sql: Sql, m: Comments, p: NodeKey, canon: Canon)
    requires p in canon && canon[p].repo == p.repo && canon[p] != p
    ensures Latest(sql, m, OneMerge(sql, m, p, canon[p]), {p}, canon)
  {
    var c := canon[p];
    var n := OneMerge(sql, m, p, c);
    OneMergeGathers(sql, m, p, canon);
    forall x, k | x in m && k in n && Contributes(x, k, {p}, canon) ensures !Later(sql, m[x], n[k]) {
      if OfComment(x) == p { assert k in Moved(m, p, c) && x == CommentKey(p.repo, p.id, k.comment); }
    }
  }

  /** Where comment x goes in one merge. */
  function Goes(x: CommentKey, p: NodeKey, canon: Canon): CommentKey
    requires p in canon
  {
    if OfComment(x) == p then CommentKey(canon[p].repo, canon[p].id, x.comment) else x
  }

  lemma ContributionsCompose(x: CommentKey, k: CommentKey, p: NodeKey, rest: set<NodeKey>, canon: Canon)
    requires p in canon && canon[p].repo == p.repo && p !in rest && canon[p] !in rest && rest <= canon.Keys
    ensures Contributes(x, k, {p} + rest, canon) <==> Contributes(Goes(x, p, canon), k, rest, canon)
    ensures forall y :: Contributes(x, y, {p}, canon) <==> y == Goes(x, p, canon)
  {
    assert OfComment(Goes(x, p, canon)) == if OfComment(x) == p then canon[p] else OfComment(x);
  }

  lemma GatheringsCompose(m: Comments, n: Comments, v: Comments, p: NodeKey, rest: set<NodeKey>, canon: Canon)
    requires p in canon && canon[p].repo == p.repo && p !in rest && canon[p] !in rest && rest <= canon.Keys
    requires Gathered(m, n, {p}, canon) && Gathered(n, v, rest, canon)
    ensures Gathered(m, v, {p} + rest, canon)
  {
    forall x, k | x in m && Contributes(x, k, {p} + rest, canon) ensures k in v {
      ContributionsCompose(x, k, p, rest, canon);
      assert Contributes(x, Goes(x, p, canon), {p}, canon);
    }
    forall k | k in v ensures exists x :: x in m && Contributes(x, k, {p} + rest, canon) && v[k] == m[x] {
      var y :| y in n && Contributes(y, k, rest, canon) && v[k] == n[y];
      var x :| x in m && Contributes(x, y, {p}, canon) && n[y] == m[x];
      ContributionsCompose(x, k, p, rest, canon);
    }
  }

  lemma LatestCompose(sql: Sql, m: Comments, n: Comments, v: Comments, p: NodeKey, rest: set<NodeKey>, canon: Canon)
    requires p in canon && canon[p].repo == p.repo && p !in rest && canon[p] !in rest && rest <= canon.Keys
    requires Gathered(m, n, {p}, canon) && Latest(sql, m, n, {p}, canon) && Latest(sql, n, v, rest, canon)
    ensures Latest(sql, m, v, {p} + rest, canon)
  {
    forall x, k | x in m && k in v && Contributes(x, k, {p} + rest, canon) ensures !Later(sql, m[x], v[k]) {
      ContributionsCompose(x, k, p, rest, canon);
      var y := Goes(x, p, canon);
      assert y in n && !Later(sql, m[x], n[y]) && !Later(sql, n[y], v[k]);
      if OfComment(x) == p {
        assert y == k && OfComment(k) !in rest;
      } else {
        assert n[x] == m[x] || Later(sql, n[x], m[x]);
      }
    }
    forall k | k in m && k in v && OfComment(k) !in {p} + rest ensures v[k] == m[k] || Later(sql, v[k], m[k]) {
      assert Contributes(k, k, {p}, canon);
    }
  }

  lemma FirstComments(sql: Sql, t: Tables, ps: seq<NodeKey>, canon: Canon) returns (mid: Tables)
    requires ps != [] && Plan(t, ps, canon)
    ensures Plan(mid, ps[1..], canon) && Repair(sql, t, ps, canon) == Repair(sql, mid, ps[1..], canon)
    ensures mid.comments == OneMerge(sql, t.comments, ps[0], canon[ps[0]])
  {
    PlanGoesOn(sql, t, ps, canon);
    MergeRows(sql, t, ps[0], canon[ps[0]]);
    mid := Merge(sql, t, ps[0], canon[ps[0]]);
  }

  lemma PlanFacts(t: Tables, ps: seq<NodeKey>, canon: Canon)
    requires ps != [] && Plan(t, ps, canon)
    ensures var p := ps[0]; p in canon && canon[p].repo == p.repo && canon[p] != p
    ensures ps[0] !in Nodes(ps[1..]) && canon[ps[0]] !in Nodes(ps[1..]) && Nodes(ps[1..]) <= canon.Keys
    ensures Nodes(ps) == {ps[0]} + Nodes(ps[1..])
  {
    assert ps[0] in ps;
    assert forall p | p in ps[1..] :: p in ps;
    NodesSplit(ps);
  }

  /** No comment is lost: after the repair an issue has exactly its own comments and its placeholders'. */
  lemma {:induction false} RepairedComments(sql: Sql, t: Tables, ps: seq<NodeKey>, canon: Canon)
    requires Plan(t, ps, canon)
    ensures Gathered(t.comments, Repair(sql, t, ps, canon).comments, Nodes(ps), canon)
    decreases |ps|
  {
    if ps == [] {
      assert forall k :: Contributes(k, k, Nodes(ps), canon);
    } else {
      var mid := FirstComments(sql, t, ps, canon);
      PlanFacts(t, ps, canon);
      OneMergeGathers(sql, t.comments, ps[0], canon);
      RepairedComments(sql, mid, ps[1..], canon);
      GatheringsCompose(t.comments, mid.comments, Repair(sql, mid, ps[1..], canon).comments, ps[0], Nodes(ps[1..]), canon);
    }
  }

  /** By the database's comparison no version of a comment is later than the one that is kept. */
  lemma {:induction false} RepairKeepsLatest(sql: Sql, t: Tables, ps: seq<NodeKey>, canon: Canon)
    requires Plan(t, ps, canon)
    ensures Latest(sql, t.comments, Repair(sql, t, ps, canon).comments, Nodes(ps), canon)
    decreases |ps|
  {
    if ps == [] {
      assert forall x, k :: Contributes(x, k, Nodes(ps), canon) ==> x == k;
    } else {
      var mid := FirstComments(sql, t, ps, canon);
      PlanFacts(t, ps, canon);
      OneMergeGathers(sql, t.comments, ps[0], canon);
      OneMergeKeepsLatest(sql, t.comments, ps[0], canon);
      RepairKeepsLatest(sql, mid, ps[1..], canon);
      LatestCompose(sql, t.comments, mid.comments, Repair(sql, mid, ps[1..], canon).comments, ps[0], Nodes(ps[1..]), canon);
    }
  }

  /** The version that is kept carries the greatest update time of all versions if and only if it has a time, or
      none of them has. */
  lemma KeptIsGreatest(sql: Sql, t: Tables, ps: seq<NodeKey>, canon: Canon, k: CommentKey)
    requires Plan(t, ps, canon) && k in Repair(sql, t, ps, canon).comments
    ensures var n := Repair(sql, t, ps, canon).comments;
            var kept := sql.julianday(n[k].updatedAt);
            (forall x | x in t.comments && Contributes(x, k, Nodes(ps), canon) && sql.julianday(t.comments[x].updatedAt).Some? ::
               kept.Some? && sql.julianday(t.comments[x].updatedAt).value <= kept.value)
            <==> kept.Some? || forall x | x in t.comments && Contributes(x, k, Nodes(ps), canon) :: sql.julianday(t.comments[x].updatedAt).None?
  {
    RepairKeepsLatest(sql, t, ps, canon);
  }

  /** A time that does not parse is never replaced: the comparison yields NULL. */
  lemma UndatedCommentStays(sql: Sql, m: Comments, p: NodeKey, c: NodeKey, k: CommentKey)
    requires p != c && k in m && OfComment(k) == c && sql.julianday(m[k].updatedAt).None?
    ensures k in OneMerge(sql, m, p, c) && OneMerge(sql, m, p, c)[k] == m[k]
  {
  }

  // ---- expected counts ----

  function Expected(t: Tables, k: NodeKey): int { if k in t.commentSyncs then t.commentSyncs[k].expected else 0 }

  /** The issue is queued, expecting at least its comments and at least as many as the floor. */
  ghost predicate Queued(t: Tables, c: NodeKey, floor: int) {
    && c in t.commentSyncs && t.commentSyncs[c].expected >= floor
    && t.commentSyncs[c].expected >= |CommentsOf(t.comments, c)|
  }

  lemma SameIssueComments(sql: Sql, m: Comments, p: NodeKey, c: NodeKey, k: NodeKey)
    requires p != c && c.repo == p.repo && k != p
    ensures k == c ==> CommentsOf(OneMerge(sql, m, p, c), k) == CommentsOf(MergedComments(sql, m, p, c), k)
    ensures k != c ==> CommentsOf(OneMerge(sql, m, p, c), k) == CommentsOf(m, k)
  {
  }

  lemma RequeuedExpects(sql: Sql, syncs: map<NodeKey, CommentSync>, p: NodeKey, c: NodeKey, r: Record, provider: string, count: int)
    requires p != c
    ensures var queued := Requeued(sql, syncs, c, r, provider, count) - {p};
            && c in queued && queued[c].expected >= count
            && (c in syncs ==> queued[c].expected >= syncs[c].expected)
            && forall k | k != p && k != c :: (k in queued <==> k in syncs) && (k in syncs ==> queued[k] == syncs[k])
  {
  }

  lemma QueuedFrom(t: Tables, u: Tables, c: NodeKey, floor: int, count: int)
    requires c in u.commentSyncs && u.commentSyncs[c].expected >= count && count == |CommentsOf(u.comments, c)|
    requires c in t.commentSyncs ==> u.commentSyncs[c].expected >= t.commentSyncs[c].expected
    requires floor <= Expected(t, c)
    ensures Queued(u, c, floor)
  {
  }

  lemma MergeQueues(sql: Sql, t: Tables, p: NodeKey, c: NodeKey, floor: int)
    requires c in t.records && p != c && c.repo == p.repo && floor <= Expected(t, c)
    ensures Queued(Merge(sql, t, p, c), c, floor)
  {
    var count := |CommentsOf(MergedComments(sql, t.comments, p, c), c)|;
    MergeSyncs(sql, t, p, c);
    MergeRows(sql, t, p, c);
    SameIssueComments(sql, t.comments, p, c, c);
    RequeuedExpects(sql, t.commentSyncs, p, c, t.records[c], FirstAlias(t, c), count);
    QueuedFrom(t, Merge(sql, t, p, c), c, floor, count);
  }

  lemma MergeKeepsQueued(sql: Sql, t: Tables, p: NodeKey, c: NodeKey, k: NodeKey, floor: int)
    requires c in t.records && p != c && c.repo == p.repo && k != p && k != c && Queued(t, k, floor)
    ensures Queued(Merge(sql, t, p, c), k, floor)
  {
    MergeSyncs(sql, t, p, c);
    MergeRows(sql, t, p, c);
    SameIssueComments(sql, t.comments, p, c, k);
    RequeuedExpects(sql, t.commentSyncs, p, c, t.records[c], FirstAlias(t, c), |CommentsOf(MergedComments(sql, t.comments, p, c), c)|);
  }

  lemma MergeKeepsExpected(sql: Sql, t: Tables, p: NodeKey, c: NodeKey, k: NodeKey)
    requires c in t.records && k != p && k != c
    ensures Expected(Merge(sql, t, p, c), k) == Expected(t, k)
  {
    MergeSyncs(sql, t, p, c);
  }

  lemma {:induction false} StaysQueued(sql: Sql, t: Tables, ps: seq<NodeKey>, canon: Canon, c: NodeKey, floor: int)
    requires Plan(t, ps, canon) && c !in ps && Queued(t, c, floor)
    ensures Queued(Repair(sql, t, ps, canon), c, floor)
    decreases |ps|
  {
    if ps != [] {
      PlanFacts(t, ps, canon);
      PlanGoesOn(sql, t, ps, canon);
      if canon[ps[0]] == c {
        MergeQueues(sql, t, ps[0], c, floor);
      } else {
        MergeKeepsQueued(sql, t, ps[0], canon[ps[0]], c, floor);
      }
      StaysQueued(sql, Merge(sql, t, ps[0], canon[ps[0]]), ps[1..], canon, c, floor);
    }
  }

  /** Every canonical issue ends queued for its comments, with an expected count at least the merged count and at
      least its old value. */
  lemma {:induction false} ExpectedCountsCover(sql: Sql, t: Tables, ps: seq<NodeKey>, canon: Canon, p: NodeKey)
    requires Plan(t, ps, canon) && p in ps
    ensures Queued(Repair(sql, t, ps, canon), canon[p], Expected(t, canon[p]))
    decreases |ps|
  {
    var first, c := ps[0], canon[p];
    PlanFacts(t, ps, canon);
    PlanGoesOn(sql, t, ps, canon);
    assert c !in ps;
    if canon[first] == c {
      MergeQueues(sql, t, first, c, Expected(t, c));
      StaysQueued(sql, Merge(sql, t, first, c), ps[1..], canon, c, Expected(t, c));
    } else {
      MergeKeepsExpected(sql, t, first, canon[first], c);
      ExpectedCountsCover(sql, Merge(sql, t, first, canon[first]), ps[1..], canon, p);
    }
  }
}
