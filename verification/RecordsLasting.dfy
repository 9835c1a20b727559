/** What of a statement still shows after any statements that follow: the last write of a key gives its columns, the
    first one its origin. */
module RecordsLasting {
  import opened Wrappers
  import opened Records
  import opened RecordsContent
  import opened RecordsOutcomes

  predicate Puts(w: Write) {
    || w.PutSource? || w.PutSearch? || w.PutRecord? || w.PutComment? || w.PutIdentity? || w.PutLink? || w.PutRevision?
    || w.PutChunk? || w.PutCommentSync? || w.PutConfirmation? || w.PutFrontier? || w.PutMaintenance? || w.PutReceipt?
  }

  /** Both write the row of one key. */
  predicate SamePut(v: Write, w: Write) {
    || (v.PutSource? && w.PutSource? && v.node == w.node) || (v.PutSearch? && w.PutSearch? && v.node == w.node)
    || (v.PutRecord? && w.PutRecord? && v.node == w.node) || (v.PutComment? && w.PutComment? && v.comment == w.comment)
    || (v.PutIdentity? && w.PutIdentity? && v.alias == w.alias) || (v.PutLink? && w.PutLink? && v.link == w.link)
    || (v.PutRevision? && w.PutRevision? && v.node == w.node) || (v.PutChunk? && w.PutChunk? && v.chunk == w.chunk)
    || (v.PutCommentSync? && w.PutCommentSync? && v.node == w.node)
    || (v.PutConfirmation? && w.PutConfirmation? && v.confirmation == w.confirmation)
    || (v.PutFrontier? && w.PutFrontier? && v.frontier == w.frontier)
    || (v.PutMaintenance? && w.PutMaintenance? && v.lane == w.lane) || (v.PutReceipt? && w.PutReceipt? && v.stage == w.stage)
  }

  /** v may delete the row that w writes. */
  predicate Erases(v: Write, w: Write) {
    || (v.ClearComments? && w.PutComment? && v.node == OfComment(w.comment)) || (v.TrimChunks? && w.PutChunk?) || (v.DropLinks? && w.PutLink?)
    || (v.DropFrontiers? && w.PutFrontier?) || v.DropStaleChildren? || v.DropLive?
  }

  /** The row that w writes is there. */
  predicate There(t: Tables, w: Write) {
    match w
    case PutSource(k, _) => k in t.sources
    case PutSearch(k, _) => k in t.search
    case PutRecord(k, _) => k in t.records
    case PutComment(k, _) => k in t.comments
    case PutIdentity(k, _) => k in t.identities
    case PutLink(l) => l in t.links
    case PutRevision(k, _) => k in t.revisions
    case PutChunk(k, _) => k in t.chunks
    case PutCommentSync(k, _) => k in t.commentSyncs
    case PutConfirmation(k, _) => k in t.confirmations
    case PutFrontier(k, _) => k in t.frontiers
    case PutMaintenance(k, _) => k in t.maintenance
    case PutReceipt(k, _) => k in t.receipts
    case _ => false
  }

  /** And shows w's columns. */
  predicate Shows(t: Tables, w: Write)
    requires There(t, w)
  {
    match w
    case PutSource(k, row) => SourceShows(t.sources[k], row)
    case PutSearch(k, row) => SearchShows(t.search[k], row)
    case PutRecord(k, row) => RecordShows(t.records[k], row)
    case PutComment(k, row) => CommentShows(t.comments[k], row)
    case PutIdentity(k, row) => t.identities[k] == row
    case PutLink(_) => true
    case PutRevision(k, row) => t.revisions[k] == row
    case PutChunk(k, row) => ChunkShows(t.chunks[k], row)
    case PutCommentSync(k, row) => t.commentSyncs[k] == row
    case PutConfirmation(k, row) => t.confirmations[k] == row
    case PutFrontier(k, row) => t.frontiers[k] == row
    case PutMaintenance(k, row) => MaintenanceShows(t.maintenance[k], row)
    case PutReceipt(k, row) => t.receipts[k] == row
    case _ => true
  }

  /** Either it is gone, or it shows them. */
  predicate Stands(t: Tables, w: Write) { There(t, w) ==> Shows(t, w) }

  // ---- one statement ----

  /** Rows that v does not write are as they were, or gone. */
  ghost predicate Spares<K(!new), V>(m: map<K, V>, n: map<K, V>, at: iset<K>) {
    forall k | k in n && k !in at :: k in m && n[k] == m[k]
  }

  ghost predicate SparesNodes(t: Tables, u: Tables, v: Write) {
    && Spares(t.sources, u.sources, if v.PutSource? then iset{v.node} else iset{})
    && Spares(t.search, u.search, if v.PutSearch? then iset{v.node} else iset{})
    && Spares(t.records, u.records, if v.PutRecord? then iset{v.node} else iset{})
    && Spares(t.comments, u.comments, if v.PutComment? then iset{v.comment} else iset{})
    && Spares(t.chunks, u.chunks, if v.PutChunk? then iset{v.chunk} else iset{})
  }

  ghost predicate SparesDependents(t: Tables, u: Tables, v: Write) {
    && Spares(t.identities, u.identities, if v.PutIdentity? then iset{v.alias} else iset{})
    && Spares(t.revisions, u.revisions, if v.PutRevision? then iset{v.node} else iset{})
    && Spares(t.commentSyncs, u.commentSyncs, if v.PutCommentSync? then iset{v.node} else iset{})
    && Spares(t.confirmations, u.confirmations, if v.PutConfirmation? then iset{v.confirmation} else iset{})
  }

  ghost predicate SparesCheckpoints(t: Tables, u: Tables, v: Write) {
    && Spares(t.frontiers, u.frontiers, if v.PutFrontier? then iset{v.frontier} else iset{})
    && Spares(t.maintenance, u.maintenance, if v.PutMaintenance? then iset{v.lane} else iset{})
    && Spares(t.receipts, u.receipts, if v.PutReceipt? then iset{v.stage} else iset{})
  }

  ghost predicate SparesOthers(t: Tables, u: Tables, v: Write) {
    SparesNodes(t, u, v) && SparesDependents(t, u, v) && SparesCheckpoints(t, u, v)
  }

  lemma RowSparesOthers(t: Tables, v: Write)
    requires WritesRows(v) && Exec(t, v).Some?
    ensures SparesOthers(t, Exec(t, v).value, v)
  {
  }

  lemma AttachmentSparesOthers(t: Tables, v: Write)
    requires Attaches(v) && Exec(t, v).Some?
    ensures SparesOthers(t, Exec(t, v).value, v)
  {
  }

  lemma ContentSparesOthers(t: Tables, v: Write)
    requires (v.PutSource? || v.PutChunk? || v.TrimChunks?) && Exec(t, v).Some?
    ensures SparesOthers(t, Exec(t, v).value, v)
  {
  }

  lemma DeletionSparesOthers(t: Tables, repo: string, gone: set<NodeKey>, v: Write)
    requires v.DropStaleChildren? || v.DropLive?
    ensures SparesOthers(t, DeleteNodes(t, repo, gone), v)
  {
    DeleteNodesIsExact(t, repo, gone);
  }

  lemma CheckpointSparesOthers(t: Tables, v: Write)
    requires !WritesRows(v) && !Attaches(v) && !WritesContent(v) && Exec(t, v).Some?
    ensures SparesOthers(t, Exec(t, v).value, v)
  {
  }

  lemma StatementSparesOthers(t: Tables, v: Write)
    requires Exec(t, v).Some?
    ensures SparesOthers(t, Exec(t, v).value, v)
  {
    if WritesRows(v) {
      RowSparesOthers(t, v);
    } else if Attaches(v) {
      AttachmentSparesOthers(t, v);
    } else if v.PutSource? || v.PutChunk? || v.TrimChunks? {
      ContentSparesOthers(t, v);
    } else if v.DropStaleChildren? {
      DeletionSparesOthers(t, v.repo, StaleChildren(t, v.repo, v.parent, v.kind, v.keep), v);
    } else if v.DropLive? {
      DeletionSparesOthers(t, v.repo, LiveNodes(t, v.repo), v);
    } else {
      CheckpointSparesOthers(t, v);
    }
  }

  predicate OfNodes(w: Write) { w.PutSource? || w.PutSearch? || w.PutRecord? || w.PutComment? || w.PutChunk? }

  predicate OfDependents(w: Write) { w.PutIdentity? || w.PutRevision? || w.PutCommentSync? || w.PutConfirmation? }

  lemma SparedNodeStands(t: Tables, u: Tables, v: Write, w: Write)
    requires SparesNodes(t, u, v) && OfNodes(w) && !SamePut(v, w) && Stands(t, w)
    ensures Stands(u, w)
  {
  }

  lemma SparedDependentStands(t: Tables, u: Tables, v: Write, w: Write)
    requires SparesDependents(t, u, v) && OfDependents(w) && !SamePut(v, w) && Stands(t, w)
    ensures Stands(u, w)
  {
  }

  lemma SparedCheckpointStands(t: Tables, u: Tables, v: Write, w: Write)
    requires SparesCheckpoints(t, u, v) && !OfNodes(w) && !OfDependents(w) && !SamePut(v, w) && Stands(t, w)
    ensures Stands(u, w)
  {
  }

  lemma SparedStands(t: Tables, v: Write, w: Write)
    requires Exec(t, v).Some? && !SamePut(v, w) && Stands(t, w)
    ensures Stands(Exec(t, v).value, w)
  {
    var u := Exec(t, v).value;
    StatementSparesOthers(t, v);
    if OfNodes(w) {
      SparedNodeStands(t, u, v, w);
    } else if OfDependents(w) {
      SparedDependentStands(t, u, v, w);
    } else {
      SparedCheckpointStands(t, u, v, w);
    }
  }

  lemma NodeStandsNow(t: Tables, w: Write)
    requires OfNodes(w) && Exec(t, w).Some?
    ensures There(Exec(t, w).value, w) && Shows(Exec(t, w).value, w)
  {
  }

  lemma StandsNow(t: Tables, w: Write)
    requires Puts(w) && Exec(t, w).Some?
    ensures There(Exec(t, w).value, w) && Shows(Exec(t, w).value, w)
  {
    if OfNodes(w) { NodeStandsNow(t, w); }
  }

  // ---- any statements that follow ----

  /** No statement of vs writes the key of w. */
  predicate NotRewritten(w: Write, vs: seq<Write>) { forall v | v in vs :: !SamePut(v, w) }

  lemma {:induction false} StandsThrough(t: Tables, w: Write, vs: seq<Write>)
    requires Stands(t, w) && NotRewritten(w, vs) && ExecAll(t, vs).Some?
    ensures Stands(ExecAll(t, vs).value, w)
    decreases |vs|
  {
    if vs != [] {
      var u := Exec(t, vs[0]).value;
      SparedStands(t, vs[0], w);
      StandsThrough(u, w, vs[1..]);
    }
  }

  /** The last write of a key gives its columns, if the row is still there. */
  lemma {:induction false} LastWriteStands(t: Tables, ws: seq<Write>, i: nat)
    requires ExecAll(t, ws).Some? && i < |ws| && Puts(ws[i]) && NotRewritten(ws[i], ws[i + 1..])
    ensures Stands(ExecAll(t, ws).value, ws[i])
    decreases i
  {
    var u := Exec(t, ws[0]).value;
    if i == 0 {
      StandsNow(t, ws[0]);
      StandsThrough(u, ws[0], ws[1..]);
    } else {
      assert ws[1..][i - 1] == ws[i] && ws[1..][i..] == ws[i + 1..];
      LastWriteStands(u, ws[1..], i - 1);
    }
  }

  // ---- the origin of a row: creation time, or source and first byte ----

  predicate SameOrigin(t: Tables, u: Tables, w: Write)
    requires There(t, w) && There(u, w)
  {
    match w
    case PutSource(k, _) => u.sources[k].createdAt == t.sources[k].createdAt
    case PutRecord(k, _) => u.records[k].createdAt == t.records[k].createdAt
    case PutComment(k, _) => u.comments[k].createdAt == t.comments[k].createdAt
    case PutChunk(k, _) => u.chunks[k].source == t.chunks[k].source && u.chunks[k].byteStart == t.chunks[k].byteStart
    case _ => true
  }

  predicate OwnOrigin(u: Tables, w: Write)
    requires There(u, w)
  {
    match w
    case PutSource(k, row) => u.sources[k].createdAt == row.createdAt
    case PutRecord(k, row) => u.records[k].createdAt == row.createdAt
    case PutComment(k, row) => u.comments[k].createdAt == row.createdAt
    case PutChunk(k, row) => u.chunks[k].source == row.source && u.chunks[k].byteStart == row.byteStart
    case _ => true
  }

  /** The row is there, with the origin it had, or with w's if it was not there before. */
  predicate OriginOf(t: Tables, u: Tables, w: Write) {
    There(u, w) && if There(t, w) then SameOrigin(t, u, w) else OwnOrigin(u, w)
  }

  lemma RowKeepsOrigin(t: Tables, v: Write, w: Write)
    requires There(t, w) && !Erases(v, w) && Exec(t, v).Some? && WritesRows(v)
    ensures There(Exec(t, v).value, w) && SameOrigin(t, Exec(t, v).value, w)
  {
  }

  lemma LinkKeepsOrigin(t: Tables, v: Write, w: Write)
    requires There(t, w) && !Erases(v, w) && Exec(t, v).Some? && (v.PutLink? || v.DropLinks?)
    ensures There(Exec(t, v).value, w) && SameOrigin(t, Exec(t, v).value, w)
  {
  }

  lemma AttachmentKeepsOrigin(t: Tables, v: Write, w: Write)
    requires There(t, w) && !Erases(v, w) && Exec(t, v).Some? && (v.PutIdentity? || v.PutRevision? || v.PutCommentSync?)
    ensures There(Exec(t, v).value, w) && SameOrigin(t, Exec(t, v).value, w)
  {
  }

  lemma SourceKeepsOrigin(t: Tables, v: Write, w: Write)
    requires There(t, w) && !Erases(v, w) && Exec(t, v).Some? && v.PutSource?
    ensures There(Exec(t, v).value, w) && SameOrigin(t, Exec(t, v).value, w)
  {
  }

  lemma ChunkKeepsOrigin(t: Tables, v: Write, w: Write)
    requires There(t, w) && !Erases(v, w) && Exec(t, v).Some? && (v.PutChunk? || v.TrimChunks?)
    ensures There(Exec(t, v).value, w) && SameOrigin(t, Exec(t, v).value, w)
  {
  }

  lemma OtherKeepsOrigin(t: Tables, v: Write, w: Write)
    requires There(t, w) && !Erases(v, w) && Exec(t, v).Some? && !WritesRows(v) && !Attaches(v) && !WritesContent(v)
    ensures There(Exec(t, v).value, w) && SameOrigin(t, Exec(t, v).value, w)
  {
  }

  lemma KeepsOrigin(t: Tables, v: Write, w: Write)
    requires There(t, w) && !Erases(v, w) && Exec(t, v).Some?
    ensures There(Exec(t, v).value, w) && SameOrigin(t, Exec(t, v).value, w)
  {
    if WritesRows(v) {
      RowKeepsOrigin(t, v, w);
    } else if v.PutLink? || v.DropLinks? {
      LinkKeepsOrigin(t, v, w);
    } else if Attaches(v) {
      AttachmentKeepsOrigin(t, v, w);
    } else if v.PutSource? {
      SourceKeepsOrigin(t, v, w);
    } else if v.PutChunk? || v.TrimChunks? {
      ChunkKeepsOrigin(t, v, w);
    } else {
      OtherKeepsOrigin(t, v, w);
    }
  }

  lemma NewOrigin(t: Tables, w: Write)
    requires Puts(w) && !There(t, w) && Exec(t, w).Some?
    ensures There(Exec(t, w).value, w) && OwnOrigin(Exec(t, w).value, w)
  {
  }

  lemma NotYetThere(t: Tables, v: Write, w: Write)
    requires Puts(w) && !w.PutLink? && !There(t, w) && !SamePut(v, w) && Exec(t, v).Some?
    ensures !There(Exec(t, v).value, w)
  {
    StatementSparesOthers(t, v);
  }

  predicate NotErased(w: Write, vs: seq<Write>) { forall v | v in vs :: !Erases(v, w) }

  lemma {:induction false} OriginStays(t: Tables, vs: seq<Write>, w: Write)
    requires There(t, w) && NotErased(w, vs) && ExecAll(t, vs).Some?
    ensures There(ExecAll(t, vs).value, w) && SameOrigin(t, ExecAll(t, vs).value, w)
    decreases |vs|
  {
    if vs != [] {
      KeepsOrigin(t, vs[0], w);
      OriginStays(Exec(t, vs[0]).value, vs[1..], w);
    }
  }

  /** The first write of a key gives the row its origin, unless it was there before. */
  lemma {:induction false} FirstWriteDates(t: Tables, ws: seq<Write>, i: nat)
    requires ExecAll(t, ws).Some? && i < |ws| && Puts(ws[i]) && !ws[i].PutLink?
    requires NotRewritten(ws[i], ws[..i]) && NotErased(ws[i], ws)
    ensures OriginOf(t, ExecAll(t, ws).value, ws[i])
    decreases i
  {
    var u, w := Exec(t, ws[0]).value, ws[i];
    if There(t, w) {
      OriginStays(t, ws, w);
    } else if i == 0 {
      NewOrigin(t, w);
      OriginStays(u, ws[1..], w);
    } else {
      assert ws[0] in ws[..i];
      NotYetThere(t, ws[0], w);
      assert ws[1..][i - 1] == w && ws[1..][..i - 1] == ws[..i][1..];
      FirstWriteDates(u, ws[1..], i - 1);
    }
  }

  // ---- rows that no statement names ----

  /** The row that w would write is as it was. */
  predicate Alike(t: Tables, u: Tables, w: Write) {
    && (There(u, w) <==> There(t, w))
    && (There(t, w) ==>
          match w
          case PutSource(k, _) => u.sources[k] == t.sources[k]
          case PutSearch(k, _) => u.search[k] == t.search[k]
          case PutRecord(k, _) => u.records[k] == t.records[k]
          case PutComment(k, _) => u.comments[k] == t.comments[k]
          case PutIdentity(k, _) => u.identities[k] == t.identities[k]
          case PutRevision(k, _) => u.revisions[k] == t.revisions[k]
          case PutChunk(k, _) => u.chunks[k] == t.chunks[k]
          case PutCommentSync(k, _) => u.commentSyncs[k] == t.commentSyncs[k]
          case PutConfirmation(k, _) => u.confirmations[k] == t.confirmations[k]
          case _ => true)
  }

  predicate OfTables(w: Write) { OfNodes(w) || OfDependents(w) }

  lemma AlikeStep(t: Tables, v: Write, w: Write)
    requires OfTables(w) && !SamePut(v, w) && !Erases(v, w) && Exec(t, v).Some?
    ensures Alike(t, Exec(t, v).value, w)
  {
    if There(t, w) { KeepsOrigin(t, v, w); } else { NotYetThere(t, v, w); }
    StatementSparesOthers(t, v);
    if OfNodes(w) { SparedNodeAlike(t, Exec(t, v).value, v, w); } else { SparedDependentAlike(t, Exec(t, v).value, v, w); }
  }

  lemma SparedNodeAlike(t: Tables, u: Tables, v: Write, w: Write)
    requires SparesNodes(t, u, v) && OfNodes(w) && !SamePut(v, w) && (There(t, w) <==> There(u, w))
    ensures Alike(t, u, w)
  {
  }

  lemma SparedDependentAlike(t: Tables, u: Tables, v: Write, w: Write)
    requires SparesDependents(t, u, v) && OfDependents(w) && !SamePut(v, w) && (There(t, w) <==> There(u, w))
    ensures Alike(t, u, w)
  {
  }

  lemma AlikeTransitive(t: Tables, u: Tables, x: Tables, w: Write)
    requires Alike(t, u, w) && Alike(u, x, w)
    ensures Alike(t, x, w)
  {
  }

  /** What is neither written nor erased is as it was. */
  lemma {:induction false} StaysAlike(t: Tables, vs: seq<Write>, w: Write)
    requires OfTables(w) && NotRewritten(w, vs) && NotErased(w, vs) && ExecAll(t, vs).Some?
    ensures Alike(t, ExecAll(t, vs).value, w)
    decreases |vs|
  {
    if vs != [] {
      var u := Exec(t, vs[0]).value;
      AlikeStep(t, vs[0], w);
      StaysAlike(u, vs[1..], w);
      AlikeTransitive(t, u, ExecAll(u, vs[1..]).value, w);
    }
  }

  // ---- who the provider says a record is ----

  /** v gives record k the identity of a provider. */
  predicate SpeaksOf(v: Write, k: NodeKey) { v.PutRecord? && v.node == k && Speaks(v.record) }

  predicate Silent(vs: seq<Write>, k: NodeKey) { forall v | v in vs :: !SpeaksOf(v, k) }

  predicate DeletesNoRecord(vs: seq<Write>) { forall v | v in vs :: !v.DropStaleChildren? && !v.DropLive? }

  predicate Spoken(t: Tables, k: NodeKey) { k in t.records && Speaks(t.records[k]) }

  lemma RecordsElsewhere(t: Tables, v: Write, k: NodeKey)
    requires Exec(t, v).Some? && !v.DropStaleChildren? && !v.DropLive? && !(v.PutRecord? && v.node == k)
    ensures RecordOf(Exec(t, v).value, k) == RecordOf(t, k)
  {
    var probe := Record("", "", "", "", "", [], "", Unset, "", "", "", "", "");
    StatementSparesOthers(t, v);
    if k in t.records { KeepsOrigin(t, v, PutRecord(k, probe)); }
  }

  lemma SilentStep(t: Tables, v: Write, k: NodeKey)
    requires Spoken(t, k) && Exec(t, v).Some? && !SpeaksOf(v, k) && !v.DropStaleChildren? && !v.DropLive?
    ensures var u := Exec(t, v).value; Spoken(u, k) && IdentityShows(u.records[k], t.records[k])
  {
    if v.PutRecord? && v.node == k {
      PutRecordIsExact(t, k, v.record, MergeRecord(t.records[k], v.record));
    } else {
      RecordsElsewhere(t, v, k);
    }
  }

  /** Projections leave a provider's record its identity. */
  lemma {:induction false} SpokenStays(t: Tables, vs: seq<Write>, k: NodeKey)
    requires Spoken(t, k) && Silent(vs, k) && DeletesNoRecord(vs) && ExecAll(t, vs).Some?
    ensures var u := ExecAll(t, vs).value; Spoken(u, k) && IdentityShows(u.records[k], t.records[k])
    decreases |vs|
  {
    if vs != [] {
      SilentStep(t, vs[0], k);
      SpokenStays(Exec(t, vs[0]).value, vs[1..], k);
    }
  }

  /** So the last provider's word stands. */
  lemma {:induction false} LastSpeakerStands(t: Tables, ws: seq<Write>, i: nat, k: NodeKey)
    requires ExecAll(t, ws).Some? && i < |ws| && SpeaksOf(ws[i], k) && Silent(ws[i + 1..], k) && DeletesNoRecord(ws)
    ensures var u := ExecAll(t, ws).value; k in u.records && IdentityShows(u.records[k], ws[i].record)
    decreases i
  {
    var u := Exec(t, ws[0]).value;
    if i == 0 {
      PutRecordIsExact(t, k, ws[0].record, ws[0].record);
      SpokenStays(u, ws[1..], k);
    } else {
      assert ws[1..][i - 1] == ws[i] && ws[1..][i..] == ws[i + 1..];
      LastSpeakerStands(u, ws[1..], i - 1, k);
    }
  }

  lemma UnspokenStep(t: Tables, v: Write, k: NodeKey)
    requires !Spoken(t, k) && Exec(t, v).Some? && !SpeaksOf(v, k) && !v.DropStaleChildren? && !v.DropLive?
    ensures !Spoken(Exec(t, v).value, k)
    ensures v.PutRecord? && v.node == k ==> k in Exec(t, v).value.records && IdentityShows(Exec(t, v).value.records[k], v.record)
  {
    if v.PutRecord? && v.node == k {
      UnspokenPut(t, k, v.record);
    } else {
      RecordsElsewhere(t, v, k);
    }
  }

  lemma UnspokenPut(t: Tables, k: NodeKey, row: Record)
    requires !Spoken(t, k) && Exec(t, PutRecord(k, row)).Some? && !Speaks(row)
    ensures var u := Exec(t, PutRecord(k, row)).value; !Spoken(u, k) && k in u.records && IdentityShows(u.records[k], row)
  {
    PutRecordIsExact(t, k, row, row);
  }

  lemma {:induction false} IdentityElsewhere(t: Tables, vs: seq<Write>, k: NodeKey)
    requires DeletesNoRecord(vs) && ExecAll(t, vs).Some? && forall v | v in vs :: !(v.PutRecord? && v.node == k)
    ensures RecordOf(ExecAll(t, vs).value, k) == RecordOf(t, k)
    decreases |vs|
  {
    if vs != [] {
      RecordsElsewhere(t, vs[0], k);
      IdentityElsewhere(Exec(t, vs[0]).value, vs[1..], k);
    }
  }

  /** Where no provider speaks, the last write names the record. */
  lemma {:induction false} LastProjectionStands(t: Tables, ws: seq<Write>, i: nat, k: NodeKey)
    requires ExecAll(t, ws).Some? && i < |ws| && ws[i].PutRecord? && ws[i].node == k && DeletesNoRecord(ws)
    requires !Spoken(t, k) && Silent(ws, k) && forall v | v in ws[i + 1..] :: !(v.PutRecord? && v.node == k)
    ensures var u := ExecAll(t, ws).value; k in u.records && IdentityShows(u.records[k], ws[i].record)
    decreases i
  {
    var u := Exec(t, ws[0]).value;
    UnspokenStep(t, ws[0], k);
    if i == 0 {
      IdentityElsewhere(u, ws[1..], k);
    } else {
      assert ws[1..][i - 1] == ws[i] && ws[1..][i..] == ws[i + 1..];
      LastProjectionStands(u, ws[1..], i - 1, k);
    }
  }
}
