/** Which issues a repair takes for placeholders, and what it leaves in the comment queue, column by column. */
module IssueParentRepairOutcomes {
  import opened Wrappers
  import opened Collections
  import opened Text
  import opened Records
  import opened RecordsOutcomes
  import opened IssueParentRepair
  import opened IssueParentRepairResult
  import opened IssueParentRepairComments

  // ---- placeholders ----

  /** Some alias of the node. */
  predicate AliasOf(t: Tables, k: NodeKey, a: AliasKey) { a in t.identities && a.repo == k.repo && t.identities[a].source == k.id }

  /** A record named after a provider id of another issue: empty and generic, or a copy under that one wrong alias. */
  ghost predicate StandsIn(t: Tables, k: NodeKey, c: NodeKey) {
    && k in t.records && c in t.records && k.repo == c.repo && k.id != c.id
    && var r, own := t.records[k], t.records[c];
       && r.kind == "issue" && r.remoteType == "issue" && k.id == "ISSUE-" + r.remoteId
       && AliasOf(t, c, AliasKey(k.repo, "gitcode_issue_id", r.remoteId))
       && (|| (&& r.title == "Issue " + r.remoteId && (forall i | 0 <= i < |r.body| :: r.body[i] == ' ')
               && forall a: AliasKey :: !AliasOf(t, k, a))
           || (&& r.title == own.title && r.body == own.body
               && forall a: AliasKey :: AliasOf(t, k, a) <==> a == AliasKey(k.repo, "issue", r.remoteId)))
  }

  lemma StandsInIsCandidate(t: Tables, k: NodeKey, c: NodeKey)
    ensures StandsIn(t, k, c) <==> Candidate(t, k, c)
  {
    forall a: AliasKey ensures AliasOf(t, k, a) <==> OwnAlias(t, k, a) {}
    forall a: AliasKey ensures AliasOf(t, c, a) <==> OwnAlias(t, c, a) {}
  }

  /** The placeholders are exactly the records that stand in for another one, and that one is their canonical issue. */
  lemma PlaceholdersAreExact(t: Tables, repo: string)
    ensures forall k: NodeKey :: k in Placeholders(t, repo) <==> k.repo == repo && exists c: NodeKey :: StandsIn(t, k, c)
    ensures forall k: NodeKey, c: NodeKey | k in Placeholders(t, repo) :: StandsIn(t, k, c) <==> CanonOf(t, repo)[k] == c
  {
    forall k: NodeKey ensures k in Placeholders(t, repo) <==> k.repo == repo && exists c: NodeKey :: StandsIn(t, k, c) {
      if k in Placeholders(t, repo) { StandsInIsCandidate(t, k, Canonical(t, k)); }
      if k.repo == repo && exists c: NodeKey :: StandsIn(t, k, c) {
        var c: NodeKey :| StandsIn(t, k, c);
        StandsInIsCandidate(t, k, c);
        OneCanonical(t, k, c);
      }
    }
    forall k: NodeKey, c: NodeKey | k in Placeholders(t, repo) ensures StandsIn(t, k, c) <==> CanonOf(t, repo)[k] == c {
      StandsInIsCandidate(t, k, c);
      StandsInIsCandidate(t, k, Canonical(t, k));
      if StandsIn(t, k, c) { OneCanonical(t, k, c); }
    }
  }

  // ---- the queue entry of a canonical issue ----

  /** The least provider alias of the issue, or none. */
  ghost predicate LeastProvider(t: Tables, c: NodeKey, provider: string) {
    if exists x: string :: AliasOf(t, c, AliasKey(c.repo, "gitcode_issue_id", x)) then
      && AliasOf(t, c, AliasKey(c.repo, "gitcode_issue_id", provider))
      && forall x: string | AliasOf(t, c, AliasKey(c.repo, "gitcode_issue_id", x)) :: x == provider || Less(provider, x)
    else provider == ""
  }

  lemma FirstAliasIsLeast(t: Tables, c: NodeKey)
    ensures LeastProvider(t, c, FirstAlias(t, c))
  {
    var s := Aliases(t, c);
    forall x: string ensures AliasOf(t, c, AliasKey(c.repo, "gitcode_issue_id", x)) <==> x in s {
      if AliasOf(t, c, AliasKey(c.repo, "gitcode_issue_id", x)) { assert OwnAlias(t, c, AliasKey(c.repo, "gitcode_issue_id", x)); }
      if x in s {
        var a :| a in t.identities && a.aliasType == PROVIDER_ALIAS && OwnAlias(t, c, a) && a.alias == x;
        assert a == AliasKey(c.repo, "gitcode_issue_id", x);
      }
    }
  }

  lemma OneLeastProvider(t: Tables, c: NodeKey, a: string, b: string)
    requires LeastProvider(t, c, a) && LeastProvider(t, c, b)
    ensures a == b
  {
    if a != b && Less(a, b) { LessIsAsymmetric(a, b); }
  }

  /** The entry waits to be fetched, with no error and no delay, for what the issue's record says; attempts stay. */
  predicate Waits(sql: Sql, was: Option<CommentSync>, now: CommentSync, r: Record) {
    && now.status == Pending && now.errorClass == "" && now.retryAfter == ""
    && now.number == sql.castInteger(r.remoteId) && now.remoteId == r.remoteId && now.revision == r.revision
    && now.updatedAt == r.updatedAt
    && now.attempts == (if was.Some? then was.value.attempts else 0)
    && now.lastAttemptAt == (if was.Some? then was.value.lastAttemptAt else "")
  }

  /** A provider id is taken over unless it is empty. */
  predicate ProviderKept(was: Option<CommentSync>, now: CommentSync, provider: string) {
    now.providerId == if provider != "" then provider else if was.Some? then was.value.providerId else ""
  }

  /** The expected count is the number of comments, or what was expected before if that was more. */
  predicate Expects(was: Option<CommentSync>, now: CommentSync, count: int) {
    now.expected == if was.Some? && was.value.expected >= count then was.value.expected else count
  }

  /** The number of the issue's comments. */
  function CountOf(t: Tables, c: NodeKey): nat { |set k: CommentKey | k in t.comments && k.repo == c.repo && k.record == c.id| }

  function EntryOf(t: Tables, c: NodeKey): Option<CommentSync> { if c in t.commentSyncs then Some(t.commentSyncs[c]) else None }

  ghost predicate WaitsAgain(sql: Sql, t: Tables, u: Tables, c: NodeKey)
    requires c in t.records
  {
    && c in u.commentSyncs
    && Waits(sql, EntryOf(t, c), u.commentSyncs[c], t.records[c])
    && Expects(EntryOf(t, c), u.commentSyncs[c], CountOf(u, c))
    && forall provider: string | LeastProvider(t, c, provider) :: ProviderKept(EntryOf(t, c), u.commentSyncs[c], provider)
  }

  lemma CountsComments(t: Tables, c: NodeKey)
    ensures CountOf(t, c) == |CommentsOf(t.comments, c)|
  {
    assert CommentsOf(t.comments, c) == set k: CommentKey | k in t.comments && k.repo == c.repo && k.record == c.id;
  }

  lemma RequeuedWaits(sql: Sql, syncs: map<NodeKey, CommentSync>, p: NodeKey, c: NodeKey, r: Record, provider: string, count: int)
    requires p != c
    ensures var was := if c in syncs then Some(syncs[c]) else None;
            var queued := Requeued(sql, syncs, c, r, provider, count) - {p};
            && c in queued && Waits(sql, was, queued[c], r) && Expects(was, queued[c], count) && ProviderKept(was, queued[c], provider)
  {
  }

  /** One merge puts the canonical issue back into the queue. */
  lemma MergeWaits(sql: Sql, t: Tables, p: NodeKey, c: NodeKey)
    requires c in t.records && p != c && c.repo == p.repo
    ensures WaitsAgain(sql, t, Merge(sql, t, p, c), c)
  {
    var u, count := Merge(sql, t, p, c), |CommentsOf(MergedComments(sql, t.comments, p, c), c)|;
    MergeSyncs(sql, t, p, c);
    MergeRows(sql, t, p, c);
    SameIssueComments(sql, t.comments, p, c, c);
    CountsComments(u, c);
    FirstAliasIsLeast(t, c);
    RequeuedWaits(sql, t.commentSyncs, p, c, t.records[c], FirstAlias(t, c), count);
    forall provider: string | LeastProvider(t, c, provider) ensures provider == FirstAlias(t, c) {
      OneLeastProvider(t, c, provider, FirstAlias(t, c));
    }
  }

  /** Nothing that the entry of c depends on changes. */
  ghost predicate SameIssue(t: Tables, u: Tables, c: NodeKey) {
    && (c in t.records <==> c in u.records) && (c in t.records ==> u.records[c] == t.records[c])
    && (forall a: AliasKey :: AliasOf(u, c, a) <==> AliasOf(t, c, a))
  }

  lemma SameAliasesSameProvider(t: Tables, u: Tables, c: NodeKey, provider: string)
    requires SameIssue(t, u, c)
    ensures LeastProvider(t, c, provider) <==> LeastProvider(u, c, provider)
  {
  }

  lemma MergeKeepsIssue(sql: Sql, t: Tables, p: NodeKey, c: NodeKey, k: NodeKey)
    requires c in t.records && k != p
    ensures SameIssue(t, Merge(sql, t, p, c), k)
  {
    MergeRows(sql, t, p, c);
    IssueBeside(t, Merge(sql, t, p, c), p, k);
  }

  lemma IssueBeside(t: Tables, u: Tables, p: NodeKey, k: NodeKey)
    requires u.records == t.records - {p} && u.identities == WithoutIdentities(t.identities, {p}) && k != p
    ensures SameIssue(t, u, k)
  {
  }

  /** A merge leaves the entries of other issues alone. */
  lemma EntryElsewhere(sql: Sql, t: Tables, p: NodeKey, c: NodeKey, k: NodeKey)
    requires c in t.records && p != c && k != p && k != c
    ensures EntryOf(Merge(sql, t, p, c), k) == EntryOf(t, k)
  {
    MergeSyncs(sql, t, p, c);
    RequeuedExpects(sql, t.commentSyncs, p, c, t.records[c], FirstAlias(t, c), |CommentsOf(MergedComments(sql, t.comments, p, c), c)|);
  }

  lemma CommentsOnlyJoin(sql: Sql, m: map<CommentKey, Comment>, p: NodeKey, c: NodeKey)
    ensures CommentsOf(m, c) <= CommentsOf(MergedComments(sql, m, p, c), c)
  {
  }

  /** A merge leaves the comments of other issues alone, and takes none from its own. */
  lemma CountElsewhere(sql: Sql, t: Tables, p: NodeKey, c: NodeKey, k: NodeKey)
    requires c in t.records && p != c && c.repo == p.repo && k != p
    ensures var u := Merge(sql, t, p, c); CountOf(t, k) <= CountOf(u, k) && (k != c ==> CountOf(u, k) == CountOf(t, k))
  {
    MergeRows(sql, t, p, c);
    SameIssueComments(sql, t.comments, p, c, k);
    CountsComments(t, k);
    CountsComments(Merge(sql, t, p, c), k);
    if k == c {
      CommentsOnlyJoin(sql, t.comments, p, c);
      SubsetIsSmaller(CommentsOf(t.comments, k), CommentsOf(MergedComments(sql, t.comments, p, c), k));
    }
  }

  lemma MergeElsewhere(sql: Sql, t: Tables, p: NodeKey, c: NodeKey, k: NodeKey)
    requires c in t.records && p != c && c.repo == p.repo && k != p
    ensures var u := Merge(sql, t, p, c);
            && (k != c ==> EntryOf(u, k) == EntryOf(t, k) && CountOf(u, k) == CountOf(t, k))
            && CountOf(t, k) <= CountOf(u, k)
  {
    CountElsewhere(sql, t, p, c, k);
    if k != c { EntryElsewhere(sql, t, p, c, k); }
  }

  lemma SubsetIsSmaller<T>(a: set<T>, b: set<T>)
    requires a <= b
    ensures |a| <= |b|
  {
    assert b == a + (b - a);
  }

  lemma WaitsCompose(sql: Sql, t: Tables, mid: Tables, u: Tables, c: NodeKey)
    requires c in t.records && c in mid.records && SameIssue(t, mid, c) && CountOf(mid, c) <= CountOf(u, c)
    requires WaitsAgain(sql, t, mid, c)
    requires WaitsAgain(sql, mid, u, c) || (EntryOf(u, c) == EntryOf(mid, c) && CountOf(u, c) == CountOf(mid, c))
    ensures WaitsAgain(sql, t, u, c)
  {
    forall provider: string | LeastProvider(t, c, provider) ensures ProviderKept(EntryOf(t, c), u.commentSyncs[c], provider) {
      SameAliasesSameProvider(t, mid, c, provider);
    }
  }

  lemma {:induction false} KeepsWaiting(sql: Sql, t: Tables, mid: Tables, ps: seq<NodeKey>, canon: Canon, c: NodeKey)
    requires Plan(mid, ps, canon) && c !in ps && c in t.records && c in mid.records
    requires SameIssue(t, mid, c) && WaitsAgain(sql, t, mid, c)
    ensures WaitsAgain(sql, t, Repair(sql, mid, ps, canon), c)
    decreases |ps|
  {
    if ps != [] {
      var p, next := ps[0], Merge(sql, mid, ps[0], canon[ps[0]]);
      PlanFacts(mid, ps, canon);
      PlanGoesOn(sql, mid, ps, canon);
      MergeKeepsIssue(sql, mid, p, canon[p], c);
      MergeElsewhere(sql, mid, p, canon[p], c);
      if canon[p] == c { MergeWaits(sql, mid, p, c); }
      WaitsCompose(sql, t, mid, next, c);
      KeepsWaiting(sql, t, next, ps[1..], canon, c);
    }
  }

  lemma WaitsFromSame(sql: Sql, t: Tables, mid: Tables, u: Tables, c: NodeKey)
    requires c in t.records && c in mid.records && SameIssue(t, mid, c) && EntryOf(mid, c) == EntryOf(t, c) && WaitsAgain(sql, mid, u, c)
    ensures WaitsAgain(sql, t, u, c)
  {
    forall provider: string | LeastProvider(t, c, provider) ensures ProviderKept(EntryOf(t, c), u.commentSyncs[c], provider) {
      SameAliasesSameProvider(t, mid, c, provider);
    }
  }

  /** After a repair every canonical issue waits in the comment queue for all its comments, under its own record's number,
      revision and time, with a provider id if it has one. */
  lemma {:induction false} RepairedQueue(sql: Sql, t: Tables, ps: seq<NodeKey>, canon: Canon, p: NodeKey)
    requires Plan(t, ps, canon) && p in ps
    ensures WaitsAgain(sql, t, Repair(sql, t, ps, canon), canon[p])
    decreases |ps|
  {
    var first, c, mid := ps[0], canon[p], Merge(sql, t, ps[0], canon[ps[0]]);
    PlanFacts(t, ps, canon);
    PlanGoesOn(sql, t, ps, canon);
    MergeKeepsIssue(sql, t, first, canon[first], c);
    if canon[first] == c {
      MergeWaits(sql, t, first, c);
      KeepsWaiting(sql, t, mid, ps[1..], canon, c);
    } else {
      MergeElsewhere(sql, t, first, canon[first], c);
      RepairedQueue(sql, mid, ps[1..], canon, p);
      WaitsFromSame(sql, t, mid, Repair(sql, mid, ps[1..], canon), c);
    }
  }

  lemma PlaceholderLeavesQueue(sql: Sql, t: Tables, p: NodeKey, c: NodeKey)
    requires c in t.records && p != c
    ensures p !in Merge(sql, t, p, c).commentSyncs
    ensures forall k | k != c :: k in Merge(sql, t, p, c).commentSyncs ==> k in t.commentSyncs
  {
    MergeSyncs(sql, t, p, c);
  }

  lemma {:induction false} StaysUnqueued(sql: Sql, t: Tables, ps: seq<NodeKey>, canon: Canon, k: NodeKey)
    requires Plan(t, ps, canon) && k !in t.commentSyncs && forall p | p in ps :: canon[p] != k
    ensures k !in Repair(sql, t, ps, canon).commentSyncs
    decreases |ps|
  {
    if ps != [] {
      PlanFacts(t, ps, canon);
      PlanGoesOn(sql, t, ps, canon);
      PlaceholderLeavesQueue(sql, t, ps[0], canon[ps[0]]);
      StaysUnqueued(sql, Merge(sql, t, ps[0], canon[ps[0]]), ps[1..], canon, k);
    }
  }

  /** The placeholders leave the queue, and every issue that is neither keeps its entry. */
  lemma {:induction false} OtherQueueEntries(sql: Sql, t: Tables, ps: seq<NodeKey>, canon: Canon, k: NodeKey)
    requires Plan(t, ps, canon) && forall p | p in ps :: canon[p] != k
    ensures EntryOf(Repair(sql, t, ps, canon), k) == if k in ps then None else EntryOf(t, k)
    decreases |ps|
  {
    if ps != [] {
      var p, mid := ps[0], Merge(sql, t, ps[0], canon[ps[0]]);
      PlanFacts(t, ps, canon);
      PlanGoesOn(sql, t, ps, canon);
      if k == p {
        PlaceholderLeavesQueue(sql, t, p, canon[p]);
        StaysUnqueued(sql, mid, ps[1..], canon, k);
      } else {
        MergeElsewhere(sql, t, p, canon[p], k);
        OtherQueueEntries(sql, mid, ps[1..], canon, k);
      }
    }
  }

  // ---- the placeholders' other rows ----

  ghost predicate PiecesGone(t: Tables, u: Tables, gone: set<NodeKey>) {
    && Loses(t.search, u.search, iset k | k in gone) && Loses(t.revisions, u.revisions, iset k | k in gone)
    && Loses(t.chunks, u.chunks, iset c: ChunkKey | c in t.chunks && NodeKey(c.repo, t.chunks[c].source) in gone)
    && (forall e: EmbeddingKey :: e in u.embeddings <==>
          e in t.embeddings && (ChunkKey(e.repo, e.chunk) in t.chunks ==> ChunkKey(e.repo, e.chunk) in u.chunks))
    && (forall e | e in u.embeddings :: u.embeddings[e] == t.embeddings[e])
  }

  lemma MergePiecesGone(sql: Sql, t: Tables, p: NodeKey, c: NodeKey)
    requires c in t.records
    ensures PiecesGone(t, Merge(sql, t, p, c), {p})
  {
    MergePieces(sql, t, p, c);
    MergeSearch(sql, t, p, c);
    PiecesBeside(t, Merge(sql, t, p, c), p);
  }

  lemma PiecesBeside(t: Tables, u: Tables, p: NodeKey)
    requires u.search == t.search - {p} && u.revisions == t.revisions - {p}
    requires u.chunks == t.chunks - ChunksOf(t, {p}) && u.embeddings == WithoutEmbeddings(t.embeddings, ChunksOf(t, {p}))
    ensures PiecesGone(t, u, {p})
  {
    ChunksLost(t, u.chunks, u.embeddings, {p});
  }

  lemma MergeSearch(sql: Sql, t: Tables, p: NodeKey, c: NodeKey)
    requires c in t.records
    ensures Merge(sql, t, p, c).search == t.search - {p}
  {
  }

  lemma PiecesGoneCompose(t: Tables, mid: Tables, u: Tables, a: set<NodeKey>, b: set<NodeKey>)
    requires PiecesGone(t, mid, a) && PiecesGone(mid, u, b)
    ensures PiecesGone(t, u, a + b)
  {
    LossesAdd(t.search, mid.search, u.search, a, b);
    LossesAdd(t.revisions, mid.revisions, u.revisions, a, b);
  }

  lemma LossesAdd<R>(m: map<NodeKey, R>, n: map<NodeKey, R>, o: map<NodeKey, R>, a: set<NodeKey>, b: set<NodeKey>)
    requires Loses(m, n, iset k | k in a) && Loses(n, o, iset k | k in b)
    ensures Loses(m, o, iset k | k in a + b)
  {
  }

  /** Search rows, revisions, chunks and embeddings of the placeholders are gone, and no others. */
  lemma {:induction false} RepairedPieces(sql: Sql, t: Tables, ps: seq<NodeKey>, canon: Canon)
    requires Plan(t, ps, canon)
    ensures PiecesGone(t, Repair(sql, t, ps, canon), Nodes(ps))
    decreases |ps|
  {
    if ps != [] {
      var mid := Merge(sql, t, ps[0], canon[ps[0]]);
      PlanFacts(t, ps, canon);
      PlanGoesOn(sql, t, ps, canon);
      MergePiecesGone(sql, t, ps[0], canon[ps[0]]);
      RepairedPieces(sql, mid, ps[1..], canon);
      PiecesGoneCompose(t, mid, Repair(sql, mid, ps[1..], canon), {ps[0]}, Nodes(ps[1..]));
    }
  }
}
