/** When the graphs of a sync batch survive it: what the keep lists of its reconciliations must cover. */
module SyncCoverage {
  import opened Wrappers
  import opened Records
  import opened RecordsContent
  import opened SyncBatch
  import opened SyncReplay
  import opened SyncIdempotence
  import opened SyncStatements
  import opened SyncTrimming
  import opened SyncOwnership

  // ---- children that no reconciliation takes stay ----

  /** The reconciliation would delete the source if it carried the parent link. */
  predicate WouldTake(v: Write, k: NodeKey, kind: string) {
    v.DropStaleChildren? && v.repo == k.repo && v.kind == kind && k.id !in v.keep
  }

  ghost predicate Unclaimed(links: set<Link>, k: NodeKey, kind: string, vs: seq<Write>) {
    forall v, l | v in vs && WouldTake(v, k, kind) && l in links :: !(From(l) == k && l.target == v.parent && l.kind == "parent")
  }

  lemma NotStale(t: Tables, k: NodeKey, kind: string, v: Write)
    requires v.DropStaleChildren? && k in t.sources && t.sources[k].kind == kind && Unclaimed(t.links, k, kind, [v])
    ensures k !in StaleChildren(t, v.repo, v.parent, v.kind, v.keep)
  {
    assert v in [v];
  }

  lemma ReconciliationSpares(t: Tables, k: NodeKey, v: Write)
    requires v.DropStaleChildren? && k in t.sources && k !in StaleChildren(t, v.repo, v.parent, v.kind, v.keep)
    ensures var u := Exec(t, v).value;
            && k in u.sources && u.sources[k] == t.sources[k] && u.links <= t.links
            && forall c | c in t.chunks && OfChunk(c, t.chunks[c]) == k :: c in u.chunks && u.chunks[c] == t.chunks[c]
  {
  }

  /** The source and its chunks. */
  ghost predicate Spared(t: Tables, u: Tables, k: NodeKey) {
    && k in u.sources
    && forall c | c in t.chunks && OfChunk(c, t.chunks[c]) == k :: c in u.chunks && u.chunks[c] == t.chunks[c]
  }

  lemma {:induction false} ClosingSpares(t: Tables, vs: seq<Write>, k: NodeKey, kind: string)
    requires AllClosing(vs) && ExecAll(t, vs).Some? && k in t.sources && t.sources[k].kind == kind && Unclaimed(t.links, k, kind, vs)
    ensures Spared(t, ExecAll(t, vs).value, k)
    decreases |vs|
  {
    if vs != [] {
      var v := vs[0];
      var u := Exec(t, v).value;
      assert v in vs;
      if Checkpointing(v) {
        CheckpointFrame(t, v);
      } else {
        NotStale(t, k, kind, v);
        ReconciliationSpares(t, k, v);
      }
      ClosingSpares(u, vs[1..], k, kind);
    }
  }

  // ---- links a batch publishes ----

  lemma {:induction false} PublishedLinks(t: Tables, ws: seq<Write>, l: Link)
    requires AllPublishing(ws) && ExecAll(t, ws).Some?
    ensures l in ExecAll(t, ws).value.links ==> l in t.links || PutLink(l) in ws
    decreases |ws|
  {
    if ws != [] {
      var u := Exec(t, ws[0]).value;
      PublishingFrame(t, ws[0]);
      assert l in u.links ==> l in t.links || ws[0] == PutLink(l);
      PublishedLinks(u, ws[1..], l);
    }
  }

  // ---- in terms of the batch ----

  /** Links the tables hold or the batch brings. */
  ghost predicate Linked(t: Tables, b: Batch, l: Link) {
    l in t.links || exists g, m :: g in b.graphs && m in g.links && LinkWrite(Node(g), m) == PutLink(l)
  }

  /** The reconciliation would take a source of that kind for the sake of this link. */
  predicate Takes(r: Reconciliation, k: NodeKey, kind: string, l: Link) {
    && r.repo == k.repo && r.kind == kind && k.id !in Keep(r.keep)
    && From(l) == k && l.target == r.parent && l.kind == "parent"
  }

  /** No reconciliation of a graph's kind leaves out a graph that carries, or is given, the parent link. */
  ghost predicate Covered(t: Tables, b: Batch) {
    forall g, r, l | g in b.graphs && r in b.reconciled && Linked(t, b, l) :: !Takes(r, Node(g), g.record.row.kind, l)
  }

  lemma LinkIsLinked(fts: bool, fingerprint: Fingerprint, now: string, t: Tables, b: Batch, l: Link)
    requires PutLink(l) in Published(fts, fingerprint, now, b)
    ensures Linked(t, b, l)
  {
    var g := PublishedOf(fts, fingerprint, now, b, PutLink(l));
    LinkOfGraph(fts, fingerprint, g.value, l);
  }

  lemma LinkOfGraph(fts: bool, fingerprint: Fingerprint, g: SyncGraph, l: Link)
    requires PutLink(l) in GraphWrites(fts, fingerprint, g)
    ensures exists m :: m in g.links && LinkWrite(Node(g), m) == PutLink(l)
  {
    assert PutLink(l) !in NodeWrites(fts, g) && PutLink(l) !in ChunkWrites(fingerprint, g);
    assert PutLink(l) in AttachmentWrites(g);
    var i :| 0 <= i < |g.links| && LinkWrite(Node(g), g.links[i]) == PutLink(l);
  }

  lemma PublishedLinksAreLinked(fts: bool, fingerprint: Fingerprint, now: string, t: Tables, b: Batch, mid: Tables, l: Link)
    requires AllPublishing(Published(fts, fingerprint, now, b)) && ExecAll(t, Published(fts, fingerprint, now, b)) == Some(mid)
    requires l in mid.links
    ensures Linked(t, b, l)
  {
    PublishedLinks(t, Published(fts, fingerprint, now, b), l);
    if l !in t.links { LinkIsLinked(fts, fingerprint, now, t, b, l); }
  }

  lemma DropsOfBatch(now: string, b: Batch, v: Write) returns (r: Reconciliation)
    requires v in Reconciled(b) + Checkpoint(now, b) && v.DropStaleChildren?
    ensures r in b.reconciled && v == DropStaleChildren(r.repo, r.parent, r.kind, Keep(r.keep))
  {
    assert v !in Checkpoint(now, b);
    var i :| 0 <= i < |b.reconciled| && Reconciled(b)[i] == v;
    r := b.reconciled[i];
  }

  lemma CoveredIsUnclaimed(fts: bool, fingerprint: Fingerprint, now: string, t: Tables, b: Batch, mid: Tables, g: SyncGraph)
    requires AllPublishing(Published(fts, fingerprint, now, b)) && ExecAll(t, Published(fts, fingerprint, now, b)) == Some(mid)
    requires Covered(t, b) && g in b.graphs
    ensures Unclaimed(mid.links, Node(g), g.record.row.kind, Reconciled(b) + Checkpoint(now, b))
  {
    forall v, l | v in Reconciled(b) + Checkpoint(now, b) && WouldTake(v, Node(g), g.record.row.kind) && l in mid.links
      ensures !(From(l) == Node(g) && l.target == v.parent && l.kind == "parent")
    {
      var r := DropsOfBatch(now, b, v);
      PublishedLinksAreLinked(fts, fingerprint, now, t, b, mid, l);
      assert !Takes(r, Node(g), g.record.row.kind, l);
    }
  }

  lemma NodeIsPublished(fts: bool, fingerprint: Fingerprint, now: string, t: Tables, b: Batch, g: SyncGraph)
    requires WellFormed(fingerprint, b) && ExecAll(t, BatchWrites(fts, fingerprint, now, b)).Some? && g in b.graphs
    ensures ExecAll(t, Published(fts, fingerprint, now, b)).Some?
    ensures var mid := ExecAll(t, Published(fts, fingerprint, now, b)).value;
            Node(g) in mid.sources && mid.sources[Node(g)].kind == g.record.row.kind
  {
    var published, closing := Published(fts, fingerprint, now, b), Reconciled(b) + Checkpoint(now, b);
    assert BatchWrites(fts, fingerprint, now, b) == published + closing;
    BatchIsConsistent(fts, fingerprint, now, b);
    ExecAllConcat(t, published, closing);
    assert forall w | w in published :: w in published + closing;
    GraphIsWritten(fts, fingerprint, now, b, t, g);
    AllHeld(t, published, PutSource(Node(g), StoredSource(g)));
  }

  lemma PieceIsPublished(fts: bool, fingerprint: Fingerprint, now: string, t: Tables, b: Batch, g: SyncGraph, p: Piece)
    requires WellFormed(fingerprint, b) && OwnPieces(b) && KeysAreOwn(fingerprint, t, b) && g in b.graphs && p in g.chunks
    requires ExecAll(t, BatchWrites(fts, fingerprint, now, b)).Some? && ExecAll(t, Published(fts, fingerprint, now, b)).Some?
    ensures var mid, c := ExecAll(t, Published(fts, fingerprint, now, b)).value, PieceKey(fingerprint, Node(g), p);
            c in mid.chunks && OfChunk(c, mid.chunks[c]) == Node(g)
  {
    var published := Published(fts, fingerprint, now, b);
    var w := PutChunk(PieceKey(fingerprint, Node(g), p), StoredPiece(Node(g), p));
    BatchIsConsistent(fts, fingerprint, now, b);
    OwnPiece(fingerprint, b, g, p);
    GraphIsWritten(fts, fingerprint, now, b, t, g);
    PieceIsCompatible(fts, fingerprint, now, t, b, g, p);
    PublishedIsWritten(fts, fingerprint, now, b);
    PublishedRestores(fts, fingerprint, now, b, g, p);
    OwnChunkIsStored(t, published, w);
    OwnThrough(t, published, w);
  }

  lemma PublishedIsWritten(fts: bool, fingerprint: Fingerprint, now: string, b: Batch)
    ensures forall v | v in Published(fts, fingerprint, now, b) :: v in BatchWrites(fts, fingerprint, now, b)
  {
  }

  lemma GraphStays(fts: bool, fingerprint: Fingerprint, now: string, t: Tables, b: Batch, s: Tables, g: SyncGraph)
    requires WellFormed(fingerprint, b) && OwnPieces(b) && KeysAreOwn(fingerprint, t, b) && Covered(t, b) && g in b.graphs
    requires ExecAll(t, BatchWrites(fts, fingerprint, now, b)) == Some(s)
    ensures Node(g) in s.sources && forall p | p in g.chunks :: PieceKey(fingerprint, Node(g), p) in s.chunks
  {
    var published, closing := Published(fts, fingerprint, now, b), Reconciled(b) + Checkpoint(now, b);
    assert BatchWrites(fts, fingerprint, now, b) == published + closing;
    BatchIsConsistent(fts, fingerprint, now, b);
    ExecAllConcat(t, published, closing);
    var mid := ExecAll(t, published).value;
    NodeIsPublished(fts, fingerprint, now, t, b, g);
    CoveredIsUnclaimed(fts, fingerprint, now, t, b, mid, g);
    ClosingSpares(mid, closing, Node(g), g.record.row.kind);
    forall p | p in g.chunks ensures PieceKey(fingerprint, Node(g), p) in s.chunks {
      PieceIsPublished(fts, fingerprint, now, t, b, g, p);
    }
  }

  /** A well-formed batch whose keep lists cover its own children and whose chunk keys are its own survives itself;
      it replays exactly if and only if its replacing graphs want the keys of all their pieces. */
  lemma CoveredBatchReplays(fts: bool, fingerprint: Fingerprint, now: string, later: string, t: Tables, b: Batch, s: Tables)
    requires Referential(t) && WellFormed(fingerprint, b) && (later == now || ExplicitTimes(b)) && OwnPieces(b) && Names(fingerprint)
    requires KeysAreOwn(fingerprint, t, b) && Covered(t, b) && ExecAll(t, BatchWrites(fts, fingerprint, now, b)) == Some(s)
    ensures GraphsSurvived(fingerprint, b, s)
    ensures WantsItsKeys(fingerprint, b) ==> Committed(s, BatchWrites(fts, fingerprint, later, b)) == s
    ensures !WantsItsKeys(fingerprint, b) ==> ExecAll(s, BatchWrites(fts, fingerprint, later, b)) != Some(s)
  {
    forall g | g in b.graphs
      ensures Node(g) in s.sources && forall p | p in g.chunks :: PieceKey(fingerprint, Node(g), p) in s.chunks
    {
      GraphStays(fts, fingerprint, now, t, b, s, g);
    }
    if ExecAll(s, BatchWrites(fts, fingerprint, later, b)).Some? {
      OwnedBatchReplay(fts, fingerprint, now, later, t, b, s, ExecAll(s, BatchWrites(fts, fingerprint, later, b)).value);
    }
  }

  // ---- exactly which graphs a batch loses ----

  function Stale(t: Tables, r: Reconciliation): set<NodeKey> {
    StaleChildren(t, r.repo, r.parent, r.kind, Keep(r.keep))
  }

  /** The reconciliations, one after another. */
  function Reconcile(t: Tables, rs: seq<Reconciliation>): Tables
    decreases |rs|
  {
    if rs == [] then t else Reconcile(DeleteNodes(t, rs[0].repo, Stale(t, rs[0])), rs[1..])
  }

  /** Reconciliation j finds the link with its parent end. */
  predicate TakenAt(t: Tables, rs: seq<Reconciliation>, k: NodeKey, kind: string, j: nat, l: Link) {
    j < |rs| && l in t.links && Takes(rs[j], k, kind, l) && To(l) in Reconcile(t, rs[..j]).sources
  }

  lemma {:induction false} SourcesShrink(t: Tables, rs: seq<Reconciliation>)
    ensures Reconcile(t, rs).sources.Keys <= t.sources.Keys
    decreases |rs|
  {
    if rs != [] { SourcesShrink(DeleteNodes(t, rs[0].repo, Stale(t, rs[0])), rs[1..]); }
  }

  lemma StaleMeansTaken(t: Tables, r: Reconciliation, k: NodeKey)
    requires k in t.sources && LinksOwned(t.links, t.sources.Keys)
    ensures k in Stale(t, r) <==> exists l :: l in t.links && Takes(r, k, t.sources[k].kind, l) && To(l) in t.sources
  {
    if k in Stale(t, r) {
      var l :| l in t.links && l.repo == r.repo && l.target == r.parent && l.kind == "parent"
               && From(l) == k && t.sources[k].kind == r.kind && l.source !in Keep(r.keep);
      assert Takes(r, k, t.sources[k].kind, l);
    }
  }

  /** One reconciliation spares a source, and with it its links to sources that stay. */
  lemma SparedWithLinks(t: Tables, r: Reconciliation, k: NodeKey)
    requires k in t.sources && LinksOwned(t.links, t.sources.Keys) && k !in Stale(t, r)
    ensures var u := DeleteNodes(t, r.repo, Stale(t, r));
            && k in u.sources && u.sources[k] == t.sources[k] && LinksOwned(u.links, u.sources.Keys)
            && forall l | From(l) == k && To(l) in u.sources :: l in u.links <==> l in t.links
  {
  }

  lemma TakenLater(t: Tables, rs: seq<Reconciliation>, k: NodeKey, kind: string, j: nat, l: Link)
    requires rs != [] && k in t.sources && k !in Stale(t, rs[0]) && LinksOwned(t.links, t.sources.Keys)
    ensures TakenAt(DeleteNodes(t, rs[0].repo, Stale(t, rs[0])), rs[1..], k, kind, j, l) <==> TakenAt(t, rs, k, kind, j + 1, l)
  {
    var u := DeleteNodes(t, rs[0].repo, Stale(t, rs[0]));
    SparedWithLinks(t, rs[0], k);
    if j + 1 < |rs| {
      assert rs[..j + 1][0] == rs[0] && rs[..j + 1][1..] == rs[1..][..j];
      SourcesShrink(u, rs[1..][..j]);
      assert LinksOwned(u.links, u.sources.Keys);
    }
  }

  /** A source falls to the reconciliations exactly if at some turn it still carries a link to a parent that it is
      not kept for. */
  lemma {:induction false} LostExactly(t: Tables, rs: seq<Reconciliation>, k: NodeKey)
    requires k in t.sources && LinksOwned(t.links, t.sources.Keys)
    ensures k !in Reconcile(t, rs).sources <==> exists j: nat, l :: TakenAt(t, rs, k, t.sources[k].kind, j, l)
    decreases |rs|
  {
    var kind := t.sources[k].kind;
    if rs != [] {
      var u := DeleteNodes(t, rs[0].repo, Stale(t, rs[0]));
      StaleMeansTaken(t, rs[0], k);
      assert Reconcile(t, rs[..0]) == t;
      if k in Stale(t, rs[0]) {
        SourcesShrink(u, rs[1..]);
        var l :| l in t.links && Takes(rs[0], k, kind, l) && To(l) in t.sources;
        assert TakenAt(t, rs, k, kind, 0, l);
      } else {
        SparedWithLinks(t, rs[0], k);
        LostExactly(u, rs[1..], k);
        TakenInRest(t, rs, k, kind);
      }
    }
  }

  lemma TakenInRest(t: Tables, rs: seq<Reconciliation>, k: NodeKey, kind: string)
    requires rs != [] && k in t.sources && t.sources[k].kind == kind && LinksOwned(t.links, t.sources.Keys) && k !in Stale(t, rs[0])
    ensures var u := DeleteNodes(t, rs[0].repo, Stale(t, rs[0]));
            (exists j: nat, l :: TakenAt(u, rs[1..], k, kind, j, l)) <==> exists j: nat, l :: TakenAt(t, rs, k, kind, j, l)
  {
    var u := DeleteNodes(t, rs[0].repo, Stale(t, rs[0]));
    if j: nat, l :| TakenAt(u, rs[1..], k, kind, j, l) {
      TakenLater(t, rs, k, kind, j, l);
      assert TakenAt(t, rs, k, kind, j + 1, l);
    }
    StaleMeansTaken(t, rs[0], k);
    assert rs[..0] == [];
    if j: nat, l :| TakenAt(t, rs, k, kind, j, l) {
      if j == 0 {
        assert false;
      } else {
        TakenLater(t, rs, k, kind, j - 1, l);
      }
    }
  }

  function Drops(rs: seq<Reconciliation>): seq<Write> {
    Each((r: Reconciliation) => DropStaleChildren(r.repo, r.parent, r.kind, Keep(r.keep)), rs)
  }

  lemma DroppedOnce(t: Tables, r: Reconciliation)
    ensures Exec(t, DropStaleChildren(r.repo, r.parent, r.kind, Keep(r.keep))) == Some(DeleteNodes(t, r.repo, Stale(t, r)))
  {
  }

  lemma FirstDropped(t: Tables, rs: seq<Reconciliation>)
    requires rs != []
    ensures ExecAll(t, Drops(rs)) == ExecAll(DeleteNodes(t, rs[0].repo, Stale(t, rs[0])), Drops(rs[1..]))
  {
    var first := DropStaleChildren(rs[0].repo, rs[0].parent, rs[0].kind, Keep(rs[0].keep));
    assert Drops(rs)[0] == first && Drops(rs)[1..] == Drops(rs[1..]);
    DroppedOnce(t, rs[0]);
  }

  lemma {:induction false} ReconciledBy(t: Tables, rs: seq<Reconciliation>)
    ensures ExecAll(t, Drops(rs)) == Some(Reconcile(t, rs))
    decreases |rs|
  {
    if rs != [] {
      FirstDropped(t, rs);
      ReconciledBy(DeleteNodes(t, rs[0].repo, Stale(t, rs[0])), rs[1..]);
    }
  }

  lemma {:induction false} CheckpointsSpareSources(t: Tables, ws: seq<Write>)
    requires (forall w | w in ws :: Checkpointing(w)) && ExecAll(t, ws).Some?
    ensures ExecAll(t, ws).value.sources == t.sources
    decreases |ws|
  {
    if ws != [] {
      CheckpointFrame(t, ws[0]);
      CheckpointsSpareSources(Exec(t, ws[0]).value, ws[1..]);
    }
  }

  lemma CommittedPhases(fts: bool, fingerprint: Fingerprint, now: string, t: Tables, b: Batch, s: Tables) returns (mid: Tables)
    requires ExecAll(t, BatchWrites(fts, fingerprint, now, b)) == Some(s)
    ensures ExecAll(t, Published(fts, fingerprint, now, b)) == Some(mid) && ExecAll(mid, Reconciled(b) + Checkpoint(now, b)) == Some(s)
  {
    var published, closing := Published(fts, fingerprint, now, b), Reconciled(b) + Checkpoint(now, b);
    assert BatchWrites(fts, fingerprint, now, b) == published + closing;
    ExecAllConcat(t, published, closing);
    mid := ExecAll(t, published).value;
  }

  lemma CommittedSources(fts: bool, fingerprint: Fingerprint, now: string, t: Tables, b: Batch, s: Tables) returns (mid: Tables)
    requires ExecAll(t, BatchWrites(fts, fingerprint, now, b)) == Some(s)
    ensures ExecAll(t, Published(fts, fingerprint, now, b)) == Some(mid) && s.sources == Reconcile(mid, b.reconciled).sources
  {
    mid := CommittedPhases(fts, fingerprint, now, t, b, s);
    assert Reconciled(b) == Drops(b.reconciled);
    ReconciledBy(mid, b.reconciled);
    ExecAllConcat(mid, Reconciled(b), Checkpoint(now, b));
    CheckpointsSpareSources(Reconcile(mid, b.reconciled), Checkpoint(now, b));
  }

  /** A committed batch deletes the node of one of its own graphs exactly if some reconciliation that does not keep
      it finds its parent link, with the parent still there. */
  lemma ChildIsLostExactly(fts: bool, fingerprint: Fingerprint, now: string, t: Tables, b: Batch, s: Tables, g: SyncGraph)
    requires Referential(t) && WellFormed(fingerprint, b) && g in b.graphs
    requires ExecAll(t, BatchWrites(fts, fingerprint, now, b)) == Some(s) && ExecAll(t, Published(fts, fingerprint, now, b)).Some?
    ensures var mid := ExecAll(t, Published(fts, fingerprint, now, b)).value;
            Node(g) !in s.sources <==> exists j: nat, l :: TakenAt(mid, b.reconciled, Node(g), g.record.row.kind, j, l)
  {
    var mid := CommittedSources(fts, fingerprint, now, t, b, s);
    NodeIsPublished(fts, fingerprint, now, t, b, g);
    ExecAllKeepsReferences(t, Published(fts, fingerprint, now, b));
    LostExactly(mid, b.reconciled, Node(g));
  }

  lemma LinkAnchored(fts: bool, fingerprint: Fingerprint, g: SyncGraph, m: Link)
    requires m in g.links && GraphRepo(g) != ""
    ensures LinkWrite(Node(g), m) in GraphWrites(fts, fingerprint, g)
  {
    var i :| 0 <= i < |g.links| && g.links[i] == m;
    assert Each(l => LinkWrite(Node(g), l), g.links)[i] == LinkWrite(Node(g), m);
    assert LinkWrite(Node(g), m) in AttachmentWrites(g);
  }

  lemma LinkIsPublished(fts: bool, fingerprint: Fingerprint, now: string, t: Tables, b: Batch, g: SyncGraph, m: Link)
    requires WellFormed(fingerprint, b) && g in b.graphs && m in g.links
    requires ExecAll(t, BatchWrites(fts, fingerprint, now, b)).Some? && ExecAll(t, Published(fts, fingerprint, now, b)).Some?
    ensures LinkWrite(Node(g), m).link in ExecAll(t, Published(fts, fingerprint, now, b)).value.links
  {
    ReposAreNamed(fts, fingerprint, now, b, t, g);
    LinkAnchored(fts, fingerprint, g, m);
    GraphIsPublished(fts, fingerprint, now, b, g, LinkWrite(Node(g), m));
    BatchIsConsistent(fts, fingerprint, now, b);
    var published := Published(fts, fingerprint, now, b);
    assert forall w | w in published :: w in published + (Reconciled(b) + Checkpoint(now, b));
    AllHeld(t, published, LinkWrite(Node(g), m));
  }

  /** So the keep lists matter: a graph that brings a parent link, is not kept by a reconciliation of its kind, and
      whose parent is still there at that turn, does not survive its own batch. */
  lemma UncoveredChildIsLost(fts: bool, fingerprint: Fingerprint, now: string, t: Tables, b: Batch, s: Tables, g: SyncGraph, m: Link, j: nat)
    requires Referential(t) && WellFormed(fingerprint, b) && g in b.graphs && m in g.links && j < |b.reconciled|
    requires ExecAll(t, BatchWrites(fts, fingerprint, now, b)) == Some(s) && ExecAll(t, Published(fts, fingerprint, now, b)).Some?
    requires Takes(b.reconciled[j], Node(g), g.record.row.kind, LinkWrite(Node(g), m).link)
    requires To(LinkWrite(Node(g), m).link) in Reconcile(ExecAll(t, Published(fts, fingerprint, now, b)).value, b.reconciled[..j]).sources
    ensures !GraphsSurvived(fingerprint, b, s)
  {
    var mid, l := ExecAll(t, Published(fts, fingerprint, now, b)).value, LinkWrite(Node(g), m).link;
    LinkIsPublished(fts, fingerprint, now, t, b, g, m);
    assert TakenAt(mid, b.reconciled, Node(g), g.record.row.kind, j, l);
    ChildIsLostExactly(fts, fingerprint, now, t, b, s, g);
  }
}
