/** What a committed batch settles: every statement leaves a fact that compatible statements after it keep, and at
    which executing the statement again is without effect. */
module SyncReplay {
  import opened Wrappers
  import opened Records
  import opened RecordsContent

  // ---- the statements of a batch, by phase ----

  predicate Publishing(w: Write) {
    || w.Reject? || w.RequireRepo? || w.PutSource? || w.PutSearch? || w.PutRecord? || w.PutComment? || w.ClearComments?
    || w.PutIdentity? || w.PutLink? || w.PutRevision? || w.TrimChunks? || w.PutChunk? || w.PutCommentSync?
  }

  predicate Checkpointing(w: Write) { w.PutFrontier? || w.PutMaintenance? || w.PutReceipt? }

  predicate Closing(w: Write) { w.DropStaleChildren? || Checkpointing(w) }

  /** The statements that write a node or a chunk, or trim a node's chunks. */
  predicate Anchored(w: Write) { w.PutSource? || w.PutSearch? || w.PutRecord? || w.PutChunk? || w.TrimChunks? }

  /** What w wrote to has not been deleted since, and what it trimmed has not come back. */
  ghost predicate Present(t: Tables, w: Write) {
    if w.PutSource? || w.PutSearch? || w.PutRecord? then w.node in t.sources
    else if w.PutChunk? then w.chunk in t.chunks
    else if w.TrimChunks? then NothingStale(t.chunks, w.node, w.wanted)
    else w.PutLink? ==> From(w.link) in t.sources && To(w.link) in t.sources
  }

  /** Nothing is left for w to do. */
  ghost predicate Settled(t: Tables, w: Write) {
    if w.PutSource? then w.node in t.sources && t.sources[w.node] == MergeSource(t.sources[w.node], w.source)
    else if w.PutSearch? then w.node in t.search && t.search[w.node] == w.projection
    else if w.PutRecord? then w.node in t.records && t.records[w.node] == MergeRecord(t.records[w.node], w.record)
    else if w.PutLink? then w.link in t.links
    else if w.TrimChunks? then NothingStale(t.chunks, w.node, w.wanted)
    else if w.PutChunk? then w.chunk in t.chunks && t.chunks[w.chunk] == MergeChunk(t.chunks[w.chunk], w.piece)
    else if w.DropStaleChildren? then StaleChildren(t, w.repo, w.parent, w.kind, w.keep) == {}
    else if w.PutFrontier? then w.frontier in t.frontiers && t.frontiers[w.frontier] == w.high
    else if w.PutMaintenance? then w.lane in t.maintenance && t.maintenance[w.lane] == MergeMaintenance(t.maintenance[w.lane], w.upkeep)
    else w.PutReceipt? ==> w.stage in t.receipts && t.receipts[w.stage] == w.receipt
  }

  ghost predicate NothingStale(chunks: map<ChunkKey, Chunk>, k: NodeKey, wanted: map<string, string>) {
    forall c | c in chunks && OfChunk(c, chunks[c]) == k :: c.id in wanted && wanted[c.id] == chunks[c].hash
  }

  lemma NothingStaleMeans(t: Tables, k: NodeKey, wanted: map<string, string>)
    ensures NothingStale(t.chunks, k, wanted) <==> StaleChunks(t, k, wanted) == {}
  {
    if StaleChunks(t, k, wanted) == {} {
      assert forall c | c in t.chunks :: c !in StaleChunks(t, k, wanted);
    }
  }

  /** Settled, or a chunk that was trimmed, or a trimming that later chunks may follow. */
  ghost predicate Held(t: Tables, w: Write) { Settled(t, w) || (w.PutChunk? && w.chunk !in t.chunks) || w.TrimChunks? }

  /** Settled, unless what it wrote to is gone. */
  ghost predicate Kept(t: Tables, w: Write) { Present(t, w) ==> Settled(t, w) }

  /** Executing v after w does not disturb what w wrote. */
  predicate Compatible(w: Write, v: Write) {
    && (w.PutSource? && v.PutSource? && w.node == v.node ==> w == v)
    && (w.PutSearch? && v.PutSearch? && w.node == v.node ==> w == v)
    && (w.PutRecord? && v.PutRecord? && w.node == v.node ==> w == v)
    && (w.PutChunk? && v.PutChunk? && w.chunk == v.chunk ==> w == v)
    && (w.PutFrontier? && v.PutFrontier? ==> w == v)
    && (w.PutMaintenance? && v.PutMaintenance? ==> w == v)
    && (w.PutReceipt? && v.PutReceipt? ==> w == v)
  }

  ghost predicate Consistent(ws: seq<Write>) {
    forall w, v | w in ws && v in ws :: Compatible(w, v)
  }

  // ---- one statement ----

  lemma PublishingFrame(t: Tables, v: Write)
    requires Publishing(v) && Exec(t, v).Some?
    ensures var u := Exec(t, v).value;
            && (v.PutSource? || u.sources == t.sources)
            && (v.PutSearch? || u.search == t.search)
            && (v.PutRecord? || u.records == t.records)
            && (v.PutLink? || u.links == t.links)
            && (v.PutChunk? || v.TrimChunks? || u.chunks == t.chunks)
  {
  }

  lemma SourceSettles(t: Tables, k: NodeKey, row: Source)
    requires UpsertSource(t, k, row).Some?
    ensures Settled(UpsertSource(t, k, row).value, PutSource(k, row))
  {
  }

  lemma RecordSettles(t: Tables, k: NodeKey, row: Record)
    requires UpsertRecord(t, k, row).Some?
    ensures Settled(UpsertRecord(t, k, row).value, PutRecord(k, row))
  {
  }

  lemma ChunkSettles(t: Tables, k: ChunkKey, row: Chunk)
    requires UpsertChunk(t, k, row).Some?
    ensures Settled(UpsertChunk(t, k, row).value, PutChunk(k, row))
  {
  }

  lemma PublishingSettles(t: Tables, w: Write)
    requires Publishing(w) && Exec(t, w).Some?
    ensures Held(Exec(t, w).value, w) && (!w.TrimChunks? ==> Settled(Exec(t, w).value, w))
  {
    if w.PutSource? {
      SourceSettles(t, w.node, w.source);
    } else if w.PutRecord? {
      RecordSettles(t, w.node, w.record);
    } else if w.PutChunk? {
      ChunkSettles(t, w.chunk, w.piece);
    }
  }

  lemma SourceHolds(t: Tables, w: Write, v: Write)
    requires w.PutSource? && Settled(t, w) && v.PutSource? && Compatible(w, v) && UpsertSource(t, v.node, v.source).Some?
    ensures Settled(UpsertSource(t, v.node, v.source).value, w)
  {
  }

  lemma RecordHolds(t: Tables, w: Write, v: Write)
    requires w.PutRecord? && Settled(t, w) && v.PutRecord? && Compatible(w, v) && UpsertRecord(t, v.node, v.record).Some?
    ensures Settled(UpsertRecord(t, v.node, v.record).value, w)
  {
  }

  lemma ChunkHolds(t: Tables, w: Write, v: Write)
    requires w.PutChunk? && Held(t, w) && v.PutChunk? && Compatible(w, v) && UpsertChunk(t, v.chunk, v.piece).Some?
    ensures Held(UpsertChunk(t, v.chunk, v.piece).value, w)
  {
  }

  lemma TrimmingHolds(t: Tables, w: Write, k: NodeKey, wanted: map<string, string>)
    requires w.PutChunk? && Held(t, w)
    ensures Held(DeleteChunks(t, k.repo, StaleChunks(t, k, wanted)), w)
  {
  }

  lemma UntouchedHolds(t: Tables, u: Tables, w: Write)
    requires Publishing(w) && Held(t, w)
    requires w.PutSource? ==> u.sources == t.sources
    requires w.PutSearch? ==> u.search == t.search
    requires w.PutRecord? ==> u.records == t.records
    requires w.PutLink? ==> t.links <= u.links
    requires w.PutChunk? ==> u.chunks == t.chunks
    ensures Held(u, w)
  {
  }

  lemma SearchAndLinksHold(t: Tables, w: Write, v: Write)
    requires (w.PutSearch? && v.PutSearch?) || (w.PutLink? && v.PutLink?)
    requires Held(t, w) && Compatible(w, v) && Exec(t, v).Some?
    ensures Held(Exec(t, v).value, w)
  {
  }

  /** Until children are reconciled, later statements disturb earlier ones only by trimming chunks. */
  lemma HeldStep(t: Tables, w: Write, v: Write)
    requires Publishing(w) && Publishing(v) && Held(t, w) && Compatible(w, v) && Exec(t, v).Some?
    ensures Held(Exec(t, v).value, w)
  {
    if w.PutSource? && v.PutSource? {
      SourceHolds(t, w, v);
    } else if w.PutRecord? && v.PutRecord? {
      RecordHolds(t, w, v);
    } else if w.PutChunk? && v.PutChunk? {
      ChunkHolds(t, w, v);
    } else if w.PutChunk? && v.TrimChunks? {
      TrimmingHolds(t, w, v.node, v.wanted);
    } else if (w.PutSearch? && v.PutSearch?) || (w.PutLink? && v.PutLink?) {
      SearchAndLinksHold(t, w, v);
    } else {
      PublishingFrame(t, v);
      UntouchedHolds(t, Exec(t, v).value, w);
    }
  }

  lemma DeletionKeeps(t: Tables, repo: string, gone: set<NodeKey>, w: Write)
    requires Kept(t, w) && (Publishing(w) || w.DropStaleChildren?)
    ensures Kept(DeleteNodes(t, repo, gone), w)
  {
    if w.DropStaleChildren? {
      var u := DeleteNodes(t, repo, gone);
      assert StaleChildren(u, w.repo, w.parent, w.kind, w.keep) <= StaleChildren(t, w.repo, w.parent, w.kind, w.keep);
    }
  }

  lemma DeletionSparesCheckpoints(t: Tables, repo: string, gone: set<NodeKey>)
    ensures var u := DeleteNodes(t, repo, gone);
            u.frontiers == t.frontiers && u.maintenance == t.maintenance && u.receipts == t.receipts && u.audit == t.audit && u.repos == t.repos
  {
  }

  lemma ReconciliationSettles(t: Tables, w: Write)
    requires w.DropStaleChildren?
    ensures Settled(Exec(t, w).value, w)
  {
    var gone := StaleChildren(t, w.repo, w.parent, w.kind, w.keep);
    var u := DeleteNodes(t, w.repo, gone);
    assert StaleChildren(u, w.repo, w.parent, w.kind, w.keep) <= gone;
    assert forall k | k in StaleChildren(u, w.repo, w.parent, w.kind, w.keep) :: k in u.sources;
  }

  /** The tables that publishing a graph can fail on or bump the generation for, and those a batch never writes. */
  ghost predicate SameCore(t: Tables, u: Tables) {
    && t.repos == u.repos && t.sources == u.sources && t.search == u.search && t.records == u.records
    && t.links == u.links && t.chunks == u.chunks && t.embeddings == u.embeddings
    && t.confirmations == u.confirmations && t.audit == u.audit && t.generations == u.generations
  }

  ghost predicate SameLoose(t: Tables, u: Tables) {
    t.comments == u.comments && t.identities == u.identities && t.revisions == u.revisions && t.commentSyncs == u.commentSyncs
  }

  ghost predicate SameCheckpoints(t: Tables, u: Tables) {
    t.frontiers == u.frontiers && t.maintenance == u.maintenance && t.receipts == u.receipts
  }

  lemma SameTables(t: Tables, u: Tables)
    requires SameCore(t, u) && SameLoose(t, u) && SameCheckpoints(t, u)
    ensures t == u
  {
  }

  lemma CheckpointFrame(t: Tables, v: Write)
    requires Checkpointing(v) && Exec(t, v).Some?
    ensures SameCore(t, Exec(t, v).value) && SameLoose(t, Exec(t, v).value)
  {
  }

  lemma CheckpointSettles(t: Tables, v: Write)
    requires Checkpointing(v) && Exec(t, v).Some?
    ensures Settled(Exec(t, v).value, v)
  {
  }

  lemma CheckpointHolds(t: Tables, w: Write, v: Write)
    requires Checkpointing(v) && Checkpointing(w) && Settled(t, w) && Compatible(w, v) && Exec(t, v).Some?
    ensures Settled(Exec(t, v).value, w)
  {
    if w == v { CheckpointSettles(t, v); }
  }

  lemma SameCoreKeeps(t: Tables, u: Tables, w: Write)
    requires Kept(t, w) && SameCore(t, u) && !Checkpointing(w)
    ensures Kept(u, w)
  {
  }

  lemma CheckpointKeeps(t: Tables, w: Write, v: Write)
    requires Kept(t, w) && (Publishing(w) || Closing(w)) && Checkpointing(v) && Compatible(w, v) && Exec(t, v).Some?
    ensures Kept(Exec(t, v).value, w)
  {
    if Checkpointing(w) {
      CheckpointHolds(t, w, v);
    } else {
      CheckpointFrame(t, v);
      SameCoreKeeps(t, Exec(t, v).value, w);
    }
  }

  /** Reconciling children and writing checkpoints undoes nothing but what it deletes. */
  lemma KeptStep(t: Tables, w: Write, v: Write)
    requires Kept(t, w) && (Publishing(w) || Closing(w)) && Closing(v) && Compatible(w, v) && Exec(t, v).Some?
    ensures Kept(Exec(t, v).value, w)
  {
    if Checkpointing(v) {
      CheckpointKeeps(t, w, v);
    } else {
      var gone := StaleChildren(t, v.repo, v.parent, v.kind, v.keep);
      DeletionSparesCheckpoints(t, v.repo, gone);
      if !Checkpointing(w) { DeletionKeeps(t, v.repo, gone, w); }
    }
  }

  lemma ClosingSettles(t: Tables, w: Write)
    requires Closing(w) && Exec(t, w).Some?
    ensures Settled(Exec(t, w).value, w)
  {
    if Checkpointing(w) { CheckpointSettles(t, w); } else { ReconciliationSettles(t, w); }
  }

  // ---- a whole run ----

  ghost predicate AllPublishing(ws: seq<Write>) { forall w | w in ws :: Publishing(w) }

  ghost predicate AllClosing(ws: seq<Write>) { forall w | w in ws :: Closing(w) }

  ghost predicate CompatibleWithAll(w: Write, vs: seq<Write>) { forall v | v in vs :: Compatible(w, v) }

  lemma {:induction false} HeldThrough(t: Tables, w: Write, vs: seq<Write>)
    requires Publishing(w) && Held(t, w) && AllPublishing(vs) && CompatibleWithAll(w, vs) && ExecAll(t, vs).Some?
    ensures Held(ExecAll(t, vs).value, w)
    decreases |vs|
  {
    if vs != [] {
      HeldStep(t, w, vs[0]);
      HeldThrough(Exec(t, vs[0]).value, w, vs[1..]);
    }
  }

  lemma {:induction false} AllHeld(t: Tables, ws: seq<Write>, w: Write)
    requires AllPublishing(ws) && CompatibleWithAll(w, ws) && ExecAll(t, ws).Some? && w in ws
    ensures Held(ExecAll(t, ws).value, w)
    decreases |ws|
  {
    var u := Exec(t, ws[0]).value;
    if w == ws[0] {
      PublishingSettles(t, w);
      HeldThrough(u, w, ws[1..]);
    } else {
      AllHeld(u, ws[1..], w);
    }
  }

  lemma {:induction false} KeptThrough(t: Tables, w: Write, vs: seq<Write>)
    requires (Publishing(w) || Closing(w)) && Kept(t, w) && AllClosing(vs) && CompatibleWithAll(w, vs) && ExecAll(t, vs).Some?
    ensures Kept(ExecAll(t, vs).value, w)
    decreases |vs|
  {
    if vs != [] {
      KeptStep(t, w, vs[0]);
      KeptThrough(Exec(t, vs[0]).value, w, vs[1..]);
    }
  }

  lemma {:induction false} AllKept(t: Tables, ws: seq<Write>, w: Write)
    requires AllClosing(ws) && Consistent(ws) && ExecAll(t, ws).Some? && w in ws
    ensures Kept(ExecAll(t, ws).value, w)
    decreases |ws|
  {
    var u := Exec(t, ws[0]).value;
    if w == ws[0] {
      ClosingSettles(t, w);
      KeptThrough(u, w, ws[1..]);
    } else {
      AllKept(u, ws[1..], w);
    }
  }

  /** After a committed batch every statement is settled, unless a later one deleted what it wrote. */
  lemma BatchSettles(t: Tables, published: seq<Write>, closing: seq<Write>, w: Write)
    requires AllPublishing(published) && AllClosing(closing) && Consistent(published + closing)
    requires ExecAll(t, published + closing).Some? && w in published + closing
    ensures Kept(ExecAll(t, published + closing).value, w)
  {
    ExecAllConcat(t, published, closing);
    var mid := ExecAll(t, published).value;
    assert forall v | v in published || v in closing :: v in published + closing;
    if w in published {
      AllHeld(t, published, w);
      KeptThrough(mid, w, closing);
    } else {
      AllKept(mid, closing, w);
    }
  }
}
