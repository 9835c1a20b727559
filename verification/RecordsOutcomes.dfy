/** What each statement of the record tables requires and leaves, column by column, and which of its columns still show
    after any statements that follow. */
module RecordsOutcomes {
  import opened Wrappers
  import opened Records
  import opened RecordsContent

  // ---- what a statement writes into a row ----

  predicate SourceShows(now: Source, row: Source) {
    && now.kind == row.kind && now.path == row.path && now.title == row.title && now.body == row.body && now.status == row.status
    && now.labels == row.labels && now.hash == row.hash && now.provenance == row.provenance && now.updatedAt == row.updatedAt
  }

  predicate SearchShows(now: Projection, row: Projection) { now.path == row.path && now.title == row.title && now.body == row.body }

  predicate RecordShows(now: Record, row: Record) {
    && now.kind == row.kind && now.path == row.path && now.title == row.title && now.body == row.body && now.status == row.status
    && now.labels == row.labels && now.hash == row.hash && now.revision == row.revision && now.updatedAt == row.updatedAt
  }

  /** Who the provider says a record is. */
  predicate IdentityShows(now: Record, row: Record) {
    now.provenance == row.provenance && now.remoteType == row.remoteType && now.remoteId == row.remoteId
  }

  /** Remote, fixture and live rows come from a provider; the others are projections of this cache. */
  predicate Speaks(row: Record) { row.provenance == Remote || row.provenance == Fixture || row.provenance == Live }

  predicate CommentShows(now: Comment, row: Comment) {
    && now.author == row.author && now.body == row.body && now.hash == row.hash && now.revision == row.revision
    && now.updatedAt == row.updatedAt
  }

  predicate ChunkShows(now: Chunk, row: Chunk) {
    now.record == row.record && now.snapshot == row.snapshot && now.hash == row.hash && now.policy == row.policy && now.detail == row.detail
  }

  predicate RevisionShows(now: Revision, row: Revision) {
    && now.remoteType == row.remoteType && now.remoteId == row.remoteId && now.revision == row.revision
    && now.status == row.status && now.fetchedAt == row.fetchedAt
  }

  predicate MaintenanceShows(now: Maintenance, row: Maintenance) {
    && now.status == row.status && now.highUpdatedAt == row.highUpdatedAt && now.highRemoteId == row.highRemoteId
    && now.highNumber == row.highNumber && now.stopReason == row.stopReason && now.pages == row.pages && now.records == row.records
    && now.checkpoint == row.checkpoint && now.errorClass == row.errorClass && now.updatedAt == row.updatedAt
  }

  // ---- maps that change in one place ----

  ghost predicate OnlyAt<K(!new), V>(m: map<K, V>, n: map<K, V>, k: K) {
    k in n && forall j | j != k :: (j in n <==> j in m) && (j in m ==> n[j] == m[j])
  }

  /** The rows that stay are as they were, and exactly those in gone are no longer there. */
  ghost predicate Loses<K(!new), V>(m: map<K, V>, n: map<K, V>, gone: iset<K>) {
    forall k :: (k in n <==> k in m && k !in gone) && (k in n ==> n[k] == m[k])
  }

  /** One repository's generation moves by n. */
  ghost predicate Counted(t: Tables, u: Tables, repo: string, n: nat) {
    forall r: string :: Generation(u, r) == Generation(t, r) + if r == repo then n else 0
  }

  // ---- sources and search rows ----

  ghost predicate SourceStored(t: Tables, u: Tables, k: NodeKey, row: Source) {
    && OnlyAt(t.sources, u.sources, k) && SourceShows(u.sources[k], row)
    && u.sources[k].createdAt == (if k in t.sources then t.sources[k].createdAt else row.createdAt)
    && Counted(t, u, k.repo, if k in t.sources && t.sources[k].hash == row.hash then 0 else 1)
    && u == t.(sources := u.sources, generations := u.generations)
  }

  lemma PutSourceIsExact(t: Tables, k: NodeKey, row: Source)
    ensures Exec(t, PutSource(k, row)).Some? <==> k.repo in t.repos && (row.provenance == Fixture || row.provenance == Live)
    ensures Exec(t, PutSource(k, row)).Some? ==> SourceStored(t, Exec(t, PutSource(k, row)).value, k, row)
  {
  }

  lemma PutSearchIsExact(t: Tables, k: NodeKey, row: Projection)
    ensures var a := Exec(t, PutSearch(k, row)); a.Some? && a.value == t.(search := t.search[k := row])
  {
  }

  // ---- records ----

  /** The identity that the upsert leaves: a projection does not take a provider's record over. */
  predicate IdentityKept(was: Option<Record>, row: Record, now: Record) {
    if was.Some? && Speaks(was.value) && !Speaks(row) then IdentityShows(now, was.value) else IdentityShows(now, row)
  }

  function RecordOf(t: Tables, k: NodeKey): Option<Record> { if k in t.records then Some(t.records[k]) else None }

  /** Another record of the repository has the remote identity. */
  ghost predicate RemoteHeld(t: Tables, k: NodeKey, row: Record) {
    && row.remoteType != "" && row.remoteId != ""
    && exists o: NodeKey :: o in t.records && o.repo == k.repo && o.id != k.id
                            && t.records[o].remoteType == row.remoteType && t.records[o].remoteId == row.remoteId
  }

  ghost predicate RecordStored(t: Tables, u: Tables, k: NodeKey, row: Record) {
    && OnlyAt(t.records, u.records, k) && RecordShows(u.records[k], row) && IdentityKept(RecordOf(t, k), row, u.records[k])
    && u.records[k].createdAt == (if k in t.records then t.records[k].createdAt else row.createdAt)
    && u == t.(records := u.records)
  }

  lemma TakenIsHeld(t: Tables, k: NodeKey, row: Record)
    ensures RemoteTaken(t, k, row) <==> RemoteHeld(t, k, row)
  {
    if RemoteTaken(t, k, row) {
      var o :| o in t.records && o != k && o.repo == k.repo && t.records[o].remoteType == row.remoteType && t.records[o].remoteId == row.remoteId;
      assert o.id != k.id;
    }
    if RemoteHeld(t, k, row) {
      var o: NodeKey :| o in t.records && o.repo == k.repo && o.id != k.id
                        && t.records[o].remoteType == row.remoteType && t.records[o].remoteId == row.remoteId;
      assert o != k;
    }
  }

  /** A record is refused exactly if its repository is unknown or another record holds the identity it would end with. */
  lemma PutRecordIsExact(t: Tables, k: NodeKey, row: Record, ends: Record)
    requires IdentityKept(RecordOf(t, k), row, ends)
    ensures Exec(t, PutRecord(k, row)).Some? <==> k.repo in t.repos && !RemoteHeld(t, k, ends)
    ensures Exec(t, PutRecord(k, row)).Some? ==> RecordStored(t, Exec(t, PutRecord(k, row)).value, k, row)
  {
    var stored := if k in t.records then MergeRecord(t.records[k], row) else row;
    TakenIsHeld(t, k, stored);
    SameRemoteHeld(t, k, stored, ends);
    if Exec(t, PutRecord(k, row)).Some? { StoredRecordShows(t, k, row); }
  }

  lemma SameRemoteHeld(t: Tables, k: NodeKey, a: Record, b: Record)
    requires IdentityShows(a, b)
    ensures RemoteHeld(t, k, a) <==> RemoteHeld(t, k, b)
  {
  }

  lemma StoredRecordShows(t: Tables, k: NodeKey, row: Record)
    requires UpsertRecord(t, k, row).Some?
    ensures RecordStored(t, UpsertRecord(t, k, row).value, k, row)
  {
  }

  // ---- comments, identities, links, revisions ----

  lemma PutCommentIsExact(t: Tables, k: CommentKey, row: Comment)
    ensures var a := Exec(t, PutComment(k, row));
            && (a.Some? <==> NodeKey(k.repo, k.record) in t.records)
            && (a.Some? ==> && a.value == t.(comments := a.value.comments) && OnlyAt(t.comments, a.value.comments, k)
                            && CommentShows(a.value.comments[k], row)
                            && a.value.comments[k].createdAt == if k in t.comments then t.comments[k].createdAt else row.createdAt)
  {
  }

  lemma ClearCommentsIsExact(t: Tables, k: NodeKey)
    ensures var a := Exec(t, ClearComments(k));
            && a.Some? && a.value == t.(comments := a.value.comments)
            && Loses(t.comments, a.value.comments, iset c: CommentKey | c.repo == k.repo && c.record == k.id)
  {
  }

  lemma PutIdentityIsExact(t: Tables, k: AliasKey, row: Identity)
    ensures var a := Exec(t, PutIdentity(k, row));
            && (a.Some? <==> NodeKey(k.repo, row.source) in t.sources)
            && (a.Some? ==> a.value == t.(identities := t.identities[k := row]))
  {
  }

  lemma PutLinkIsExact(t: Tables, l: Link)
    ensures var a := Exec(t, PutLink(l));
            && (a.Some? <==> NodeKey(l.repo, l.source) in t.sources && NodeKey(l.repo, l.target) in t.sources)
            && (a.Some? ==> a.value == t.(links := t.links + {l}))
  {
  }

  lemma DropLinksIsExact(t: Tables, k: NodeKey, kind: string)
    ensures var a := Exec(t, DropLinks(k, kind));
            && a.Some? && a.value == t.(links := a.value.links)
            && forall l: Link :: l in a.value.links <==> l in t.links && !(l.repo == k.repo && l.source == k.id && l.kind == kind)
  {
  }

  /** Another node of the repository has the remote identity. */
  ghost predicate RevisionHeld(t: Tables, k: NodeKey, row: Revision) {
    exists o: NodeKey :: o in t.revisions && o.repo == k.repo && o.id != k.id
                         && t.revisions[o].remoteType == row.remoteType && t.revisions[o].remoteId == row.remoteId
  }

  lemma PutRevisionIsExact(t: Tables, k: NodeKey, row: Revision)
    ensures var a := Exec(t, PutRevision(k, row));
            && (a.Some? <==> k in t.sources && !RevisionHeld(t, k, row))
            && (a.Some? ==> a.value == t.(revisions := t.revisions[k := row]))
  {
    if RevisionTaken(t, k, row) {
      var o :| o in t.revisions && o != k && o.repo == k.repo && t.revisions[o].remoteType == row.remoteType && t.revisions[o].remoteId == row.remoteId;
      assert o.id != k.id;
    }
    if o: NodeKey :| o in t.revisions && o.repo == k.repo && o.id != k.id
                     && t.revisions[o].remoteType == row.remoteType && t.revisions[o].remoteId == row.remoteId { assert o != k; }
  }

  lemma PutCommentSyncIsExact(t: Tables, k: NodeKey, row: CommentSync)
    ensures var a := Exec(t, PutCommentSync(k, row));
            && (a.Some? <==> k in t.sources) && (a.Some? ==> a.value == t.(commentSyncs := t.commentSyncs[k := row]))
  {
  }

  /** Another confirmation of the repository has the id. */
  ghost predicate ConfirmationHeld(t: Tables, k: ConfirmationKey, id: string) {
    exists o: ConfirmationKey :: o in t.confirmations && o.repo == k.repo && o.idempotency != k.idempotency && t.confirmations[o].id == id
  }

  lemma PutConfirmationIsExact(t: Tables, k: ConfirmationKey, row: Confirmation)
    ensures var a := Exec(t, PutConfirmation(k, row));
            && (a.Some? <==> NodeKey(k.repo, row.record) in t.records && !ConfirmationHeld(t, k, row.id))
            && (a.Some? ==> a.value == t.(confirmations := t.confirmations[k := row]))
  {
    if o :| o in t.confirmations && o != k && o.repo == k.repo && t.confirmations[o].id == row.id { assert o.idempotency != k.idempotency; }
    if o: ConfirmationKey :| o in t.confirmations && o.repo == k.repo && o.idempotency != k.idempotency && t.confirmations[o].id == row.id {
      assert o != k;
    }
  }

  // ---- chunks ----

  /** A stored chunk stays with its source and first byte. */
  function PlaceOf(t: Tables, k: ChunkKey, row: Chunk): (string, int) {
    if k in t.chunks then (t.chunks[k].source, t.chunks[k].byteStart) else (row.source, row.byteStart)
  }

  /** Another chunk of the repository is the same slice under the same policy and snapshot. */
  ghost predicate SliceHeld(t: Tables, k: ChunkKey, row: Chunk) {
    exists o: ChunkKey :: o in t.chunks && o.repo == k.repo && o.id != k.id
      && t.chunks[o].source == PlaceOf(t, k, row).0 && t.chunks[o].byteStart == PlaceOf(t, k, row).1
      && t.chunks[o].hash == row.hash && t.chunks[o].policy == row.policy && t.chunks[o].snapshot == row.snapshot
  }

  ghost predicate ChunkStored(t: Tables, u: Tables, k: ChunkKey, row: Chunk) {
    && OnlyAt(t.chunks, u.chunks, k) && ChunkShows(u.chunks[k], row)
    && u.chunks[k].source == PlaceOf(t, k, row).0 && u.chunks[k].byteStart == PlaceOf(t, k, row).1
    && Counted(t, u, k.repo, if k in t.chunks && t.chunks[k].hash == row.hash then 0 else 1)
    && u == t.(chunks := u.chunks, generations := u.generations)
  }

  lemma SliceTakenIsHeld(t: Tables, k: ChunkKey, row: Chunk)
    ensures SliceTaken(t, k, if k in t.chunks then MergeChunk(t.chunks[k], row) else row) <==> SliceHeld(t, k, row)
  {
    var stored := if k in t.chunks then MergeChunk(t.chunks[k], row) else row;
    if SliceTaken(t, k, stored) {
      var o :| o in t.chunks && o != k && o.repo == k.repo && t.chunks[o].source == stored.source && t.chunks[o].hash == stored.hash
               && t.chunks[o].byteStart == stored.byteStart && t.chunks[o].policy == stored.policy && t.chunks[o].snapshot == stored.snapshot;
      assert o.id != k.id;
    }
    if SliceHeld(t, k, row) {
      var o: ChunkKey :| o in t.chunks && o.repo == k.repo && o.id != k.id
        && t.chunks[o].source == PlaceOf(t, k, row).0 && t.chunks[o].byteStart == PlaceOf(t, k, row).1
        && t.chunks[o].hash == row.hash && t.chunks[o].policy == row.policy && t.chunks[o].snapshot == row.snapshot;
      assert o != k;
    }
  }

  lemma PutChunkIsExact(t: Tables, k: ChunkKey, row: Chunk)
    ensures Exec(t, PutChunk(k, row)).Some? <==> NodeKey(k.repo, PlaceOf(t, k, row).0) in t.sources && !SliceHeld(t, k, row)
    ensures Exec(t, PutChunk(k, row)).Some? ==> ChunkStored(t, Exec(t, PutChunk(k, row)).value, k, row)
  {
    SliceTakenIsHeld(t, k, row);
  }

  /** Trimming takes the node's chunks whose id is not wanted with the hash they have, and their embeddings. */
  lemma TrimChunksIsExact(t: Tables, k: NodeKey, wanted: map<string, string>)
    ensures var a := Exec(t, TrimChunks(k, wanted));
            && a.Some?
            && Loses(t.chunks, a.value.chunks,
                     iset c: ChunkKey | c in t.chunks && c.repo == k.repo && t.chunks[c].source == k.id
                                        && (c.id !in wanted || wanted[c.id] != t.chunks[c].hash))
            && (forall e: EmbeddingKey :: e in a.value.embeddings <==>
                  e in t.embeddings && (ChunkKey(e.repo, e.chunk) in t.chunks ==> ChunkKey(e.repo, e.chunk) in a.value.chunks))
            && (forall e | e in a.value.embeddings :: a.value.embeddings[e] == t.embeddings[e])
            && a.value == t.(chunks := a.value.chunks, embeddings := a.value.embeddings, generations := a.value.generations)
  {
  }

  // ---- deleting nodes ----

  /** What refers to a deleted node goes with it: comments, confirmations, identities, links, chunks and their embeddings. */
  ghost predicate NodesDeleted(t: Tables, u: Tables, gone: set<NodeKey>) {
    && Loses(t.sources, u.sources, iset k | k in gone) && Loses(t.search, u.search, iset k | k in gone)
    && Loses(t.records, u.records, iset k | k in gone) && Loses(t.revisions, u.revisions, iset k | k in gone)
    && Loses(t.commentSyncs, u.commentSyncs, iset k | k in gone)
    && Loses(t.comments, u.comments, iset c: CommentKey | NodeKey(c.repo, c.record) in gone)
  }

  ghost predicate DependentsDeleted(t: Tables, u: Tables, gone: set<NodeKey>) {
    && Loses(t.identities, u.identities, iset a: AliasKey | a in t.identities && NodeKey(a.repo, t.identities[a].source) in gone)
    && Loses(t.confirmations, u.confirmations,
             iset k: ConfirmationKey | k in t.confirmations && NodeKey(k.repo, t.confirmations[k].record) in gone)
    && (forall l: Link :: l in u.links <==> l in t.links && NodeKey(l.repo, l.source) !in gone && NodeKey(l.repo, l.target) !in gone)
    && Loses(t.chunks, u.chunks, iset c: ChunkKey | c in t.chunks && NodeKey(c.repo, t.chunks[c].source) in gone)
    && (forall e: EmbeddingKey :: e in u.embeddings <==>
          e in t.embeddings && (ChunkKey(e.repo, e.chunk) in t.chunks ==> ChunkKey(e.repo, e.chunk) in u.chunks))
    && (forall e | e in u.embeddings :: u.embeddings[e] == t.embeddings[e])
  }

  ghost predicate OthersAlike(t: Tables, u: Tables) {
    && u.repos == t.repos && u.frontiers == t.frontiers && u.maintenance == t.maintenance && u.receipts == t.receipts && u.audit == t.audit
  }

  lemma DeleteNodesIsExact(t: Tables, repo: string, gone: set<NodeKey>)
    ensures var u := DeleteNodes(t, repo, gone); NodesDeleted(t, u, gone) && DependentsDeleted(t, u, gone) && OthersAlike(t, u)
  {
    DeleteNodesDrops(t, repo, gone);
    DeleteNodesFollows(t, repo, gone);
  }

  lemma SubtractionLoses<K(!new), V>(m: map<K, V>, gone: set<K>)
    ensures Loses(m, m - gone, iset k | k in gone)
  {
  }

  lemma CommentsLost(m: map<CommentKey, Comment>, gone: set<NodeKey>)
    ensures Loses(m, WithoutComments(m, gone), iset c: CommentKey | NodeKey(c.repo, c.record) in gone)
  {
  }

  lemma IdentitiesLost(m: map<AliasKey, Identity>, gone: set<NodeKey>)
    ensures Loses(m, WithoutIdentities(m, gone), iset a: AliasKey | a in m && NodeKey(a.repo, m[a].source) in gone)
  {
  }

  lemma ConfirmationsLost(m: map<ConfirmationKey, Confirmation>, gone: set<NodeKey>)
    ensures Loses(m, WithoutConfirmations(m, gone), iset k: ConfirmationKey | k in m && NodeKey(k.repo, m[k].record) in gone)
  {
  }

  lemma DeleteNodesDrops(t: Tables, repo: string, gone: set<NodeKey>)
    ensures NodesDeleted(t, DeleteNodes(t, repo, gone), gone)
  {
    SubtractionLoses(t.sources, gone);
    SubtractionLoses(t.search, gone);
    SubtractionLoses(t.records, gone);
    SubtractionLoses(t.revisions, gone);
    SubtractionLoses(t.commentSyncs, gone);
    CommentsLost(t.comments, gone);
  }

  lemma ChunksLost(t: Tables, chunks: map<ChunkKey, Chunk>, embeddings: map<EmbeddingKey, Embedding>, gone: set<NodeKey>)
    requires chunks == t.chunks - ChunksOf(t, gone) && embeddings == WithoutEmbeddings(t.embeddings, ChunksOf(t, gone))
    ensures Loses(t.chunks, chunks, iset c: ChunkKey | c in t.chunks && NodeKey(c.repo, t.chunks[c].source) in gone)
    ensures forall e: EmbeddingKey :: e in embeddings <==>
              e in t.embeddings && (ChunkKey(e.repo, e.chunk) in t.chunks ==> ChunkKey(e.repo, e.chunk) in chunks)
    ensures forall e | e in embeddings :: embeddings[e] == t.embeddings[e]
  {
  }

  lemma DeleteNodesFollows(t: Tables, repo: string, gone: set<NodeKey>)
    ensures DependentsDeleted(t, DeleteNodes(t, repo, gone), gone)
  {
    var u := DeleteNodes(t, repo, gone);
    IdentitiesLost(t.identities, gone);
    ConfirmationsLost(t.confirmations, gone);
    ChunksLost(t, u.chunks, u.embeddings, gone);
    LinksLost(t.links, gone);
  }

  lemma LinksLost(links: set<Link>, gone: set<NodeKey>)
    ensures forall l: Link :: l in WithoutLinks(links, gone) <==>
              l in links && NodeKey(l.repo, l.source) !in gone && NodeKey(l.repo, l.target) !in gone
  {
  }

  /** Reconciling takes exactly the sources of the kind that point to the parent and are not kept. */
  lemma DropStaleChildrenIsExact(t: Tables, repo: string, parent: string, kind: string, keep: set<string>)
    ensures var a, gone := Exec(t, DropStaleChildren(repo, parent, kind, keep)), StaleChildren(t, repo, parent, kind, keep);
            && a.Some? && NodesDeleted(t, a.value, gone) && DependentsDeleted(t, a.value, gone) && OthersAlike(t, a.value)
            && forall k: NodeKey :: k in gone <==>
                 && k.repo == repo && k in t.sources && t.sources[k].kind == kind && k.id !in keep
                 && exists text: string :: Link(repo, k.id, parent, "parent", text) in t.links
  {
    var gone := StaleChildren(t, repo, parent, kind, keep);
    DeleteNodesIsExact(t, repo, gone);
    forall k: NodeKey | k.repo == repo && k in t.sources && t.sources[k].kind == kind && k.id !in keep
                        && exists text: string :: Link(repo, k.id, parent, "parent", text) in t.links
      ensures k in gone
    {
      var text: string :| Link(repo, k.id, parent, "parent", text) in t.links;
      assert From(Link(repo, k.id, parent, "parent", text)) == k;
    }
    forall k: NodeKey | k in gone ensures exists text: string :: Link(repo, k.id, parent, "parent", text) in t.links {
      var l :| l in t.links && l.repo == repo && l.target == parent && l.kind == "parent" && From(l) == k;
      assert l == Link(repo, k.id, parent, "parent", l.text);
    }
  }

  /** A live reset takes exactly the repository's remote and live records and its live sources. */
  lemma DropLiveIsExact(t: Tables, repo: string)
    ensures var a, gone := Exec(t, DropLive(repo)), LiveNodes(t, repo);
            && a.Some? && NodesDeleted(t, a.value, gone) && DependentsDeleted(t, a.value, gone) && OthersAlike(t, a.value)
            && forall k: NodeKey :: k in gone <==> k.repo == repo && (RemoteRecord(t, k) || LiveSource(t, k))
  {
    DeleteNodesIsExact(t, repo, LiveNodes(t, repo));
    LiveNodesAreExact(t, repo);
  }

  predicate RemoteRecord(t: Tables, k: NodeKey) {
    k in t.records && (t.records[k].provenance == Remote || t.records[k].provenance == Live)
  }

  predicate LiveSource(t: Tables, k: NodeKey) { k in t.sources && t.sources[k].provenance == Live }

  lemma LiveNodesAreExact(t: Tables, repo: string)
    ensures forall k: NodeKey :: k in LiveNodes(t, repo) <==> k.repo == repo && (RemoteRecord(t, k) || LiveSource(t, k))
  {
  }

  // ---- checkpoints ----

  lemma PutFrontierIsExact(t: Tables, k: FrontierKey, row: Frontier)
    ensures var a := Exec(t, PutFrontier(k, row));
            && (a.Some? <==> k.repo in t.repos) && (a.Some? ==> a.value == t.(frontiers := t.frontiers[k := row]))
  {
  }

  lemma DropFrontiersIsExact(t: Tables, repo: string)
    ensures var a := Exec(t, DropFrontiers(repo));
            a.Some? && a.value == t.(frontiers := a.value.frontiers) && Loses(t.frontiers, a.value.frontiers, iset k: FrontierKey | k.repo == repo)
  {
  }

  /** A lane without a success of its own keeps the last one. */
  lemma PutMaintenanceIsExact(t: Tables, k: MaintenanceKey, row: Maintenance)
    ensures var a := Exec(t, PutMaintenance(k, row));
            && (a.Some? <==> && k.repo != "" && k.remoteType != "" && k.ordering != "" && k.filter != "" && k.lane != NoLane
                             && row.status != "" && k.repo in t.repos)
            && (a.Some? ==> && a.value == t.(maintenance := a.value.maintenance) && OnlyAt(t.maintenance, a.value.maintenance, k)
                            && MaintenanceShows(a.value.maintenance[k], row)
                            && a.value.maintenance[k].lastSuccessAt ==
                               if row.lastSuccessAt == "" && k in t.maintenance then t.maintenance[k].lastSuccessAt else row.lastSuccessAt)
  {
  }

  lemma PutReceiptIsExact(t: Tables, stage: string, row: Receipt)
    ensures var a := Exec(t, PutReceipt(stage, row));
            && (a.Some? <==> stage != "" && row.checksum != "" && row.repo != "" && row.collection != "" && row.repo in t.repos)
            && (a.Some? ==> a.value == t.(receipts := t.receipts[stage := row]))
  {
  }

  // ---- the live reset as a whole ----

  /** The repository's remote and live nodes are gone with all that refers to them, and so are its frontiers. */
  ghost predicate Forgotten(t: Tables, u: Tables, repo: string) {
    && (exists gone: set<NodeKey> ::
          && (forall k: NodeKey :: k in gone <==> k.repo == repo && (RemoteRecord(t, k) || LiveSource(t, k)))
          && NodesDeleted(t, u, gone) && DependentsDeleted(t, u, gone))
    && Loses(t.frontiers, u.frontiers, iset k: FrontierKey | k.repo == repo)
    && u.repos == t.repos && u.maintenance == t.maintenance && u.receipts == t.receipts && u.audit == t.audit
  }

  lemma ResetForgets(t: Tables, repo: string, mid: Tables, u: Tables)
    requires Exec(t, DropLive(repo)) == Some(mid) && Exec(mid, DropFrontiers(repo)) == Some(u)
    ensures Forgotten(t, u, repo)
  {
    DropLiveIsExact(t, repo);
    DropFrontiersIsExact(mid, repo);
    FrontiersAside(t, mid, u, LiveNodes(t, repo));
  }

  lemma FrontiersAside(t: Tables, mid: Tables, u: Tables, gone: set<NodeKey>)
    requires NodesDeleted(t, mid, gone) && DependentsDeleted(t, mid, gone) && u == mid.(frontiers := u.frontiers)
    ensures NodesDeleted(t, u, gone) && DependentsDeleted(t, u, gone)
  {
  }
}
