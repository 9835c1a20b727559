/** Statements that do nothing the second time, and the rows that nothing refers to: identities, revisions, comment
    syncs and comments, which a batch may write several times and cascades may remove. */
module SyncIdempotence {
  import opened Wrappers
  import opened Collections
  import opened Records
  import opened RecordsContent
  import opened SyncBatch
  import opened SyncReplay

  // ---- statements without effect ----

  lemma DeleteNoChunks(t: Tables, repo: string)
    ensures DeleteChunks(t, repo, {}) == t
  {
  }

  lemma NothingFires(t: Tables)
    ensures ChunksOf(t, {}) == {} && Firings(t, {}) == 0
  {
    assert {} * t.sources.Keys == {};
  }

  lemma NothingWithout(t: Tables)
    ensures WithoutLinks(t.links, {}) == t.links && WithoutConfirmations(t.confirmations, {}) == t.confirmations
    ensures WithoutEmbeddings(t.embeddings, {}) == t.embeddings
    ensures WithoutComments(t.comments, {}) == t.comments && WithoutIdentities(t.identities, {}) == t.identities
  {
  }

  /** What deleting nodes leaves, table by table. */
  lemma CoreWithout(t: Tables, repo: string, gone: set<NodeKey>)
    ensures var u := DeleteNodes(t, repo, gone);
            && u.repos == t.repos && u.audit == t.audit
            && u.sources == t.sources - gone && u.search == t.search - gone && u.records == t.records - gone
            && u.links == WithoutLinks(t.links, gone) && u.confirmations == WithoutConfirmations(t.confirmations, gone)
            && u.chunks == t.chunks - ChunksOf(t, gone) && u.embeddings == WithoutEmbeddings(t.embeddings, ChunksOf(t, gone))
            && u.generations == Bump(t.generations, repo, Firings(t, gone))
  {
  }

  lemma NoNodesCore(t: Tables, repo: string)
    ensures SameCore(t, DeleteNodes(t, repo, {}))
  {
    CoreWithout(t, repo, {});
    NothingFires(t);
    NothingWithout(t);
    MinusNothing(t.sources);
    MinusNothing(t.search);
    MinusNothing(t.records);
    MinusNothing(t.chunks);
  }

  lemma NoNodesLoose(t: Tables, repo: string)
    ensures SameLoose(t, DeleteNodes(t, repo, {})) && SameCheckpoints(t, DeleteNodes(t, repo, {}))
  {
    NothingWithout(t);
    MinusNothing(t.revisions);
    MinusNothing(t.commentSyncs);
  }

  lemma DeleteNoNodes(t: Tables, repo: string)
    ensures DeleteNodes(t, repo, {}) == t
  {
    NoNodesCore(t, repo);
    NoNodesLoose(t, repo);
    SameTables(t, DeleteNodes(t, repo, {}));
  }

  lemma TrimAgain(t: Tables, w: Write)
    requires w.TrimChunks? && Settled(t, w)
    ensures DeleteChunks(t, w.node.repo, StaleChunks(t, w.node, w.wanted)) == t
  {
    assert StaleChunks(t, w.node, w.wanted) == {};
    DeleteNoChunks(t, w.node.repo);
  }

  lemma ReconciliationAgain(t: Tables, w: Write)
    requires w.DropStaleChildren? && Settled(t, w)
    ensures Exec(t, w) == Some(t)
  {
    DeleteNoNodes(t, w.repo);
  }

  lemma CheckpointAgain(t: Tables, w: Write)
    requires Checkpointing(w) && Settled(t, w) && Exec(t, w).Some?
    ensures Exec(t, w) == Some(t)
  {
    if w.PutFrontier? {
      assert t.frontiers[w.frontier := t.frontiers[w.frontier]] == t.frontiers;
    } else if w.PutMaintenance? {
      assert t.maintenance[w.lane := t.maintenance[w.lane]] == t.maintenance;
    } else {
      assert t.receipts[w.stage := t.receipts[w.stage]] == t.receipts;
    }
  }

  lemma ClosingAgain(t: Tables, w: Write)
    requires Closing(w) && Settled(t, w) && Exec(t, w).Some?
    ensures Exec(t, w) == Some(t)
  {
    if Checkpointing(w) { CheckpointAgain(t, w); } else { ReconciliationAgain(t, w); }
  }

  lemma RowSparesCheckpoints(t: Tables, v: Write)
    requires WritesRows(v) && Exec(t, v).Some?
    ensures SameCheckpoints(t, Exec(t, v).value)
  {
  }

  lemma AttachmentSparesCheckpoints(t: Tables, v: Write)
    requires Attaches(v) && Exec(t, v).Some?
    ensures SameCheckpoints(t, Exec(t, v).value)
  {
  }

  lemma ContentSparesCheckpoints(t: Tables, v: Write)
    requires Publishing(v) && !WritesRows(v) && !Attaches(v) && Exec(t, v).Some?
    ensures SameCheckpoints(t, Exec(t, v).value)
  {
  }

  lemma PublishingSparesCheckpoints(t: Tables, v: Write)
    requires Publishing(v) && Exec(t, v).Some?
    ensures SameCheckpoints(t, Exec(t, v).value)
  {
    if WritesRows(v) {
      RowSparesCheckpoints(t, v);
    } else if Attaches(v) {
      AttachmentSparesCheckpoints(t, v);
    } else {
      ContentSparesCheckpoints(t, v);
    }
  }

  lemma LinkPresent(t: Tables, w: Write)
    requires w.PutLink? && Exec(t, w).Some?
    ensures Present(t, w)
  {
  }

  lemma {:induction false} ClosingChangesNothing(t: Tables, ws: seq<Write>)
    requires AllClosing(ws) && (forall w | w in ws :: Settled(t, w)) && ExecAll(t, ws).Some?
    ensures ExecAll(t, ws) == Some(t)
    decreases |ws|
  {
    if ws != [] {
      ClosingAgain(t, ws[0]);
      ClosingChangesNothing(t, ws[1..]);
    }
  }

  // ---- rows that nothing refers to: identities, revisions, comment syncs ----

  function AliasOf(w: Write): map<AliasKey, Identity> { if w.PutIdentity? then map[w.alias := w.identity] else map[] }
  function RevisionOf(w: Write): map<NodeKey, Revision> { if w.PutRevision? then map[w.node := w.revision] else map[] }
  function SyncOf(w: Write): map<NodeKey, CommentSync> { if w.PutCommentSync? then map[w.node := w.sync] else map[] }

  function Aliases(ws: seq<Write>): map<AliasKey, Identity> { if ws == [] then map[] else AliasOf(ws[0]) + Aliases(ws[1..]) }
  function Revisions(ws: seq<Write>): map<NodeKey, Revision> { if ws == [] then map[] else RevisionOf(ws[0]) + Revisions(ws[1..]) }
  function Syncs(ws: seq<Write>): map<NodeKey, CommentSync> { if ws == [] then map[] else SyncOf(ws[0]) + Syncs(ws[1..]) }

  ghost predicate AliasesOwned(aliases: map<AliasKey, Identity>, sources: set<NodeKey>) {
    forall a | a in aliases :: OfIdentity(a, aliases[a]) in sources
  }

  lemma LooseFrameOf(t: Tables, w: Write)
    requires Publishing(w) && Exec(t, w).Some?
    ensures var u := Exec(t, w).value;
            && (if w.PutIdentity? then u.identities == t.identities[w.alias := w.identity] else u.identities == t.identities)
            && (if w.PutRevision? then u.revisions == t.revisions[w.node := w.revision] else u.revisions == t.revisions)
            && (if w.PutCommentSync? then u.commentSyncs == t.commentSyncs[w.node := w.sync] else u.commentSyncs == t.commentSyncs)
  {
  }

  ghost predicate Overlaid(t: Tables, ws: seq<Write>, u: Tables) {
    && u.identities == t.identities + Aliases(ws)
    && u.revisions == t.revisions + Revisions(ws)
    && u.commentSyncs == t.commentSyncs + Syncs(ws)
  }

  lemma NothingOverlaid(t: Tables)
    ensures Overlaid(t, [], t)
  {
    PlusNothing(t.identities);
    PlusNothing(t.revisions);
    PlusNothing(t.commentSyncs);
  }

  lemma OneOverlaid(t: Tables, w: Write)
    requires Publishing(w) && Exec(t, w).Some?
    ensures var u := Exec(t, w).value;
            u.identities == t.identities + AliasOf(w) && u.revisions == t.revisions + RevisionOf(w) && u.commentSyncs == t.commentSyncs + SyncOf(w)
  {
    LooseFrameOf(t, w);
    NothingOverlaid(t);
    if w.PutIdentity? { PlusOne(t.identities, w.alias, w.identity); }
    if w.PutRevision? { PlusOne(t.revisions, w.node, w.revision); }
    if w.PutCommentSync? { PlusOne(t.commentSyncs, w.node, w.sync); }
  }

  lemma OverlaysCompose(t: Tables, ws: seq<Write>, u: Tables, v: Tables)
    requires ws != [] && Overlaid(u, ws[1..], v)
    requires u.identities == t.identities + AliasOf(ws[0]) && u.revisions == t.revisions + RevisionOf(ws[0]) && u.commentSyncs == t.commentSyncs + SyncOf(ws[0])
    ensures Overlaid(t, ws, v)
  {
    PlusAssociates(t.identities, AliasOf(ws[0]), Aliases(ws[1..]));
    PlusAssociates(t.revisions, RevisionOf(ws[0]), Revisions(ws[1..]));
    PlusAssociates(t.commentSyncs, SyncOf(ws[0]), Syncs(ws[1..]));
  }

  lemma NodesGrow(t: Tables, w: Write)
    requires Publishing(w) && Exec(t, w).Some?
    ensures var u := Exec(t, w).value; t.sources.Keys <= u.sources.Keys && t.records.Keys <= u.records.Keys
  {
    PublishingFrame(t, w);
  }

  lemma PublishingGrows(t: Tables, w: Write)
    requires Publishing(w) && Exec(t, w).Some?
    ensures var u := Exec(t, w).value; t.sources.Keys <= u.sources.Keys && t.records.Keys <= u.records.Keys
    ensures AliasesOwned(AliasOf(w), t.sources.Keys) && RevisionOf(w).Keys <= t.sources.Keys && SyncOf(w).Keys <= t.sources.Keys
    ensures w.PutComment? ==> OfComment(w.comment) in t.records
  {
    NodesGrow(t, w);
  }

  /** Publishing overlays the rows it brings. */
  lemma {:induction false} Overlays(t: Tables, ws: seq<Write>)
    requires AllPublishing(ws) && ExecAll(t, ws).Some?
    ensures Overlaid(t, ws, ExecAll(t, ws).value)
    decreases |ws|
  {
    if ws == [] {
      NothingOverlaid(t);
    } else {
      OneOverlaid(t, ws[0]);
      Overlays(Exec(t, ws[0]).value, ws[1..]);
      OverlaysCompose(t, ws, Exec(t, ws[0]).value, ExecAll(t, ws).value);
    }
  }

  lemma {:induction false} OverlaysAreOwned(t: Tables, ws: seq<Write>)
    requires AllPublishing(ws) && ExecAll(t, ws).Some?
    ensures var u := ExecAll(t, ws).value;
            && t.sources.Keys <= u.sources.Keys && t.records.Keys <= u.records.Keys
            && AliasesOwned(Aliases(ws), u.sources.Keys) && Revisions(ws).Keys <= u.sources.Keys && Syncs(ws).Keys <= u.sources.Keys
    decreases |ws|
  {
    if ws != [] {
      PublishingGrows(t, ws[0]);
      OverlaysAreOwned(Exec(t, ws[0]).value, ws[1..]);
    }
  }

  // ---- comments: an upsert keeps the creation time, a clearing forgets it ----

  /** What a run of statements does to one comment. */
  datatype Effect = Effect(cleared: bool, put: Option<Comment>)

  function Touch(w: Write, k: CommentKey): Effect {
    if w.PutComment? && w.comment == k then Effect(false, Some(w.remark))
    else Effect(w.ClearComments? && w.node == OfComment(k), None)
  }

  function Then(e: Effect, f: Effect): Effect {
    if f.cleared then f
    else if e.put.Some? && f.put.Some? then e.(put := Some(MergeComment(e.put.value, f.put.value)))
    else if e.put.Some? then e
    else Effect(e.cleared, f.put)
  }

  function Apply(v: Option<Comment>, e: Effect): Option<Comment> {
    var base := if e.cleared then None else v;
    if e.put.None? then base
    else if base.None? then e.put
    else Some(MergeComment(base.value, e.put.value))
  }

  function Total(ws: seq<Write>, k: CommentKey): Effect {
    if ws == [] then Effect(false, None) else Then(Touch(ws[0], k), Total(ws[1..], k))
  }

  lemma CommentStep(t: Tables, w: Write, k: CommentKey)
    requires Publishing(w) && Exec(t, w).Some?
    ensures Get(Exec(t, w).value.comments, k) == Apply(Get(t.comments, k), Touch(w, k))
  {
  }

  lemma ApplyThen(v: Option<Comment>, e: Effect, f: Effect)
    ensures Apply(Apply(v, e), f) == Apply(v, Then(e, f))
  {
  }

  /** The effect of a run on a comment is the same the second time. */
  lemma ApplyTwice(v: Option<Comment>, e: Effect)
    ensures Apply(Apply(v, e), e) == Apply(v, e)
  {
  }

  lemma {:induction false} CommentsFollow(t: Tables, ws: seq<Write>, k: CommentKey)
    requires AllPublishing(ws) && ExecAll(t, ws).Some?
    ensures Get(ExecAll(t, ws).value.comments, k) == Apply(Get(t.comments, k), Total(ws, k))
    ensures Total(ws, k).put.Some? ==> OfComment(k) in ExecAll(t, ws).value.records
    decreases |ws|
  {
    if ws != [] {
      var u := Exec(t, ws[0]).value;
      CommentStep(t, ws[0], k);
      PublishingGrows(t, ws[0]);
      OverlaysAreOwned(u, ws[1..]);
      CommentsFollow(u, ws[1..], k);
      ApplyThen(Get(t.comments, k), Touch(ws[0], k), Total(ws[1..], k));
    }
  }

  // ---- closing deletes rows only together with their owners ----

  ghost predicate ThinnedAliases(t: map<AliasKey, Identity>, u: map<AliasKey, Identity>, sources: set<NodeKey>) {
    && (forall a | a in u :: a in t && t[a] == u[a])
    && (forall a | a in t && OfIdentity(a, t[a]) in sources :: a in u)
  }

  ghost predicate ThinnedNodes<R>(t: map<NodeKey, R>, u: map<NodeKey, R>, sources: set<NodeKey>) {
    && (forall k | k in u :: k in t && t[k] == u[k])
    && (forall k | k in t && k in sources :: k in u)
  }

  ghost predicate ThinnedComments(t: map<CommentKey, Comment>, u: map<CommentKey, Comment>, records: set<NodeKey>) {
    && (forall c | c in u :: c in t && t[c] == u[c])
    && (forall c | c in t && OfComment(c) in records :: c in u)
  }

  ghost predicate Thinned(t: Tables, u: Tables) {
    && u.sources.Keys <= t.sources.Keys && u.records.Keys <= t.records.Keys
    && ThinnedAliases(t.identities, u.identities, u.sources.Keys)
    && ThinnedNodes(t.revisions, u.revisions, u.sources.Keys)
    && ThinnedNodes(t.commentSyncs, u.commentSyncs, u.sources.Keys)
    && ThinnedComments(t.comments, u.comments, u.records.Keys)
  }

  lemma DeletionThins(t: Tables, repo: string, gone: set<NodeKey>)
    ensures Thinned(t, DeleteNodes(t, repo, gone))
  {
  }

  lemma ClosingThins(t: Tables, w: Write)
    requires Closing(w) && Exec(t, w).Some?
    ensures Thinned(t, Exec(t, w).value)
  {
    if Checkpointing(w) {
      CheckpointFrame(t, w);
    } else {
      DeletionThins(t, w.repo, StaleChildren(t, w.repo, w.parent, w.kind, w.keep));
    }
  }

  lemma ThinnedTransitive(t: Tables, u: Tables, v: Tables)
    requires Thinned(t, u) && Thinned(u, v)
    ensures Thinned(t, v)
  {
  }

  lemma {:induction false} AllClosingThins(t: Tables, ws: seq<Write>)
    requires AllClosing(ws) && ExecAll(t, ws).Some?
    ensures Thinned(t, ExecAll(t, ws).value)
    decreases |ws|
  {
    if ws != [] {
      ClosingThins(t, ws[0]);
      AllClosingThins(Exec(t, ws[0]).value, ws[1..]);
      ThinnedTransitive(t, Exec(t, ws[0]).value, ExecAll(t, ws).value);
    }
  }

  /** Overlaying the same rows again, after their unowned part was deleted, restores nothing. */
  lemma OverlayAgain<R>(base: map<NodeKey, R>, overlay: map<NodeKey, R>, kept: map<NodeKey, R>, sources: set<NodeKey>)
    requires ThinnedNodes(base + overlay, kept, sources) && overlay.Keys <= sources
    ensures kept + overlay == kept
  {
    forall k | k in overlay ensures k in kept && kept[k] == overlay[k] {
      assert k in base + overlay && (base + overlay)[k] == overlay[k];
    }
  }

  lemma AliasesAgain(base: map<AliasKey, Identity>, overlay: map<AliasKey, Identity>, kept: map<AliasKey, Identity>, sources: set<NodeKey>)
    requires ThinnedAliases(base + overlay, kept, sources) && AliasesOwned(overlay, sources)
    ensures kept + overlay == kept
  {
    forall a | a in overlay ensures a in kept && kept[a] == overlay[a] {
      assert a in base + overlay && (base + overlay)[a] == overlay[a];
    }
  }

  lemma CommentAgain(t: Tables, ws: seq<Write>, s: Tables, k: CommentKey)
    requires AllPublishing(ws) && ExecAll(t, ws).Some? && ExecAll(s, ws).Some?
    requires ThinnedComments(ExecAll(t, ws).value.comments, s.comments, s.records.Keys)
    requires CommentsOwned(s.comments, s.records.Keys) && ExecAll(s, ws).value.records == s.records
    ensures Get(ExecAll(s, ws).value.comments, k) == Get(s.comments, k)
  {
    CommentsFollow(t, ws, k);
    CommentsFollow(s, ws, k);
    if OfComment(k) in s.records {
      ApplyTwice(Get(t.comments, k), Total(ws, k));
    }
  }

  /** Publishing again after the close leaves the loose tables as they are, too. */
  lemma ReplayKeepsLoose(t: Tables, ws: seq<Write>, closing: seq<Write>, s: Tables)
    requires Referential(t) && AllPublishing(ws) && AllClosing(closing)
    requires ExecAll(t, ws).Some? && ExecAll(ExecAll(t, ws).value, closing) == Some(s)
    requires ExecAll(s, ws).Some? && SameCore(s, ExecAll(s, ws).value)
    ensures SameLoose(s, ExecAll(s, ws).value)
  {
    var mid, u := ExecAll(t, ws).value, ExecAll(s, ws).value;
    ExecAllKeepsReferences(t, ws);
    ExecAllKeepsReferences(mid, closing);
    AllClosingThins(mid, closing);
    Overlays(t, ws);
    Overlays(s, ws);
    OverlaysAreOwned(s, ws);
    AliasesAgain(t.identities, Aliases(ws), s.identities, s.sources.Keys);
    OverlayAgain(t.revisions, Revisions(ws), s.revisions, s.sources.Keys);
    OverlayAgain(t.commentSyncs, Syncs(ws), s.commentSyncs, s.sources.Keys);
    forall k ensures Get(u.comments, k) == Get(s.comments, k) {
      CommentAgain(t, ws, s, k);
    }
    GetDecides(u.comments, s.comments);
  }
}
