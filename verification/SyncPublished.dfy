/** What a published graph and a committed batch leave in the tables, in the terms of what the caller handed in. */
module SyncPublished {
  import opened Wrappers
  import opened Text
  import opened Records
  import opened RecordsContent
  import opened RecordsOutcomes
  import opened RecordsLasting
  import opened SyncBatch
  import opened SyncStatements

  // ---- one phase of a transaction ----

  lemma PhaseThere(t: Tables, a: seq<Write>, b: seq<Write>, c: seq<Write>, i: nat)
    requires ExecAll(t, a + b + c).Some? && i < |b| && Puts(b[i]) && NotErased(b[i], b) && NotErased(b[i], c)
    ensures There(ExecAll(t, a + b + c).value, b[i])
  {
    var before, after := a + b[..i], b[i + 1..] + c;
    assert a + b + c == before + ([b[i]] + after);
    ExecAllConcat(t, before, [b[i]] + after);
    var mid := ExecAll(t, before).value;
    assert ([b[i]] + after)[1..] == after;
    StandsNow(mid, b[i]);
    OriginStays(Exec(mid, b[i]).value, after, b[i]);
  }

  /** The last write of a key in its phase stands. */
  lemma PhaseStands(t: Tables, a: seq<Write>, b: seq<Write>, c: seq<Write>, i: nat)
    requires ExecAll(t, a + b + c).Some? && i < |b| && Puts(b[i]) && NotRewritten(b[i], b[i + 1..]) && NotRewritten(b[i], c)
    ensures Stands(ExecAll(t, a + b + c).value, b[i])
  {
    var ws := a + b + c;
    assert ws[|a| + i] == b[i] && ws[|a| + i + 1..] == b[i + 1..] + c;
    LastWriteStands(t, ws, |a| + i);
  }

  /** The first one dates it. */
  lemma PhaseDates(t: Tables, a: seq<Write>, b: seq<Write>, c: seq<Write>, i: nat)
    requires ExecAll(t, a + b + c).Some? && i < |b| && Puts(b[i]) && !b[i].PutLink?
    requires NotRewritten(b[i], a) && NotRewritten(b[i], b[..i])
    requires NotErased(b[i], a) && NotErased(b[i], b) && NotErased(b[i], c)
    ensures OriginOf(t, ExecAll(t, a + b + c).value, b[i])
  {
    var ws := a + b + c;
    assert ws[|a| + i] == b[i] && ws[..|a| + i] == a + b[..i];
    FirstWriteDates(t, ws, |a| + i);
  }

  // ---- what a graph hands in ----

  function RepoOf(g: SyncGraph): string { if AllSpace(g.repo) then g.record.repo else TrimSpace(g.repo) }

  function KeyOf(g: SyncGraph): NodeKey { NodeKey(RepoOf(g), g.record.id) }

  function FirstSeen(createdAt: string): string { if createdAt == "" then "1970-01-01T00:00:00Z" else createdAt }

  function LastSeen(createdAt: string, updatedAt: string): string { if updatedAt == "" then FirstSeen(createdAt) else updatedAt }

  function Otherwise(given: string, fallback: string): string { if given != "" then given else fallback }

  lemma NodeIsKey(g: SyncGraph)
    ensures Node(g) == KeyOf(g) && GraphRepo(g) == RepoOf(g)
  {
    BlankIsSpace(g.repo);
  }

  predicate SourceOfGraph(now: Source, g: SyncGraph) {
    var row := g.record.row;
    && now.kind == row.kind && now.path == row.path && now.title == row.title && now.body == row.body && now.status == row.status
    && now.labels == row.labels && now.hash == row.hash && now.provenance == (if g.provenance == Live then Live else Fixture)
    && now.updatedAt == LastSeen(row.createdAt, row.updatedAt)
  }

  predicate SearchOfGraph(now: Projection, g: SyncGraph) {
    now.path == g.record.row.path && now.title == g.record.row.title && now.body == g.record.row.body
  }

  predicate RecordOfGraph(now: Record, g: SyncGraph) {
    var row := g.record.row;
    && now.kind == row.kind && now.path == row.path && now.title == row.title && now.body == row.body && now.status == row.status
    && now.labels == row.labels && now.hash == row.hash && now.revision == row.revision
    && now.updatedAt == LastSeen(row.createdAt, row.updatedAt)
  }

  /** Where the record comes from: as it says, or as its graph says, or a fixture. */
  function GivenProvenance(g: SyncGraph): Provenance {
    if g.record.row.provenance != Unset then g.record.row.provenance else if g.provenance != Unset then g.provenance else Fixture
  }

  predicate ProviderGraph(g: SyncGraph) { GivenProvenance(g) == Remote || GivenProvenance(g) == Fixture || GivenProvenance(g) == Live }

  predicate NamedBy(now: Record, g: SyncGraph) {
    && now.provenance == GivenProvenance(g)
    && now.remoteType == g.record.row.remoteType && now.remoteId == g.record.row.remoteId
  }

  lemma RowsOfGraph(g: SyncGraph)
    ensures forall now: Source :: SourceShows(now, StoredSource(g)) <==> SourceOfGraph(now, g)
    ensures forall now: Record :: RecordShows(now, StoredRecord(g)) <==> RecordOfGraph(now, g)
    ensures forall now: Record :: IdentityShows(now, StoredRecord(g)) <==> NamedBy(now, g)
    ensures Speaks(StoredRecord(g)) <==> ProviderGraph(g)
    ensures StoredSource(g).createdAt == StoredRecord(g).createdAt == FirstSeen(g.record.row.createdAt)
  {
  }

  // ---- the node ----

  /** Source and record carry the graph's columns; a projection leaves a provider's record its identity; rows that were
      there keep their creation time. */
  ghost predicate NodeShown(t: Tables, u: Tables, g: SyncGraph) {
    var k := KeyOf(g);
    && k in u.sources && SourceOfGraph(u.sources[k], g)
    && u.sources[k].createdAt == (if k in t.sources then t.sources[k].createdAt else FirstSeen(g.record.row.createdAt))
    && k in u.records && RecordOfGraph(u.records[k], g)
    && u.records[k].createdAt == (if k in t.records then t.records[k].createdAt else FirstSeen(g.record.row.createdAt))
    && (if k in t.records && Speaks(t.records[k]) && !ProviderGraph(g) then IdentityShows(u.records[k], t.records[k])
        else NamedBy(u.records[k], g))
  }

  predicate SearchShown(u: Tables, g: SyncGraph) { KeyOf(g) in u.search && SearchOfGraph(u.search[KeyOf(g)], g) }

  /** The position of the record's statement among those of a node. */
  function RecordPosition(fts: bool): nat { if fts then 3 else 2 }

  lemma NodeWritesAre(fts: bool, g: SyncGraph)
    ensures var ws, n := NodeWrites(fts, g), RecordPosition(fts);
            && |ws| == n + 1 && ws[0] == RequireRepo(GraphRepo(g)) && ws[1] == PutSource(Node(g), StoredSource(g))
            && ws[n] == PutRecord(Node(g), StoredRecord(g))
            && (fts ==> ws[2].PutSearch? && ws[2].node == Node(g) && SearchOfGraph(ws[2].projection, g))
  {
  }

  /** A graph's other statements: attachments, then chunks. */
  function Rest(fingerprint: Fingerprint, g: SyncGraph): seq<Write> { AttachmentWrites(g) + ChunkWrites(fingerprint, g) }

  predicate OfNode(w: Write) { w.PutSource? || w.PutSearch? || w.PutRecord? }

  lemma RestIsElsewhere(fingerprint: Fingerprint, g: SyncGraph, v: Write)
    requires v in Rest(fingerprint, g)
    ensures !OfNode(v) && !v.DropStaleChildren? && !v.DropLive? && !v.ClearComments? && !v.DropLinks?
  {
    if v in AttachmentWrites(g) { assert v.PutComment? || v.PutIdentity? || v.PutLink? || v.PutRevision?; }
  }

  lemma NodeWritesDiffer(fts: bool, g: SyncGraph, i: nat)
    requires i < |NodeWrites(fts, g)|
    ensures var ws := NodeWrites(fts, g);
            NotRewritten(ws[i], ws[i + 1..]) && NotRewritten(ws[i], ws[..i]) && NotErased(ws[i], ws)
  {
    var ws := NodeWrites(fts, g);
    NodeWritesAre(fts, g);
    forall j | 0 <= j < |ws| ensures !Erases(ws[j], ws[i]) && (j != i ==> !SamePut(ws[j], ws[i])) {}
  }

  lemma RestSparesNode(fingerprint: Fingerprint, g: SyncGraph, w: Write)
    requires OfNode(w)
    ensures NotRewritten(w, Rest(fingerprint, g)) && NotErased(w, Rest(fingerprint, g))
  {
    forall v | v in Rest(fingerprint, g) ensures !SamePut(v, w) && !Erases(v, w) { RestIsElsewhere(fingerprint, g, v); }
  }

  lemma NodeOutcome(fts: bool, fingerprint: Fingerprint, t: Tables, g: SyncGraph, w: Write, i: nat)
    requires ExecAll(t, NodeWrites(fts, g) + Rest(fingerprint, g)).Some? && i < |NodeWrites(fts, g)| && w == NodeWrites(fts, g)[i] && OfNode(w)
    ensures var u := ExecAll(t, NodeWrites(fts, g) + Rest(fingerprint, g)).value; Stands(u, w) && OriginOf(t, u, w)
  {
    var ws, rest := NodeWrites(fts, g), Rest(fingerprint, g);
    NodeWritesDiffer(fts, g, i);
    RestSparesNode(fingerprint, g, w);
    SinglePhase(t, ws, rest, i);
  }

  /** A key that one phase writes once shows that statement's columns and origin. */
  lemma SinglePhase(t: Tables, ws: seq<Write>, rest: seq<Write>, i: nat)
    requires ExecAll(t, ws + rest).Some? && i < |ws| && Puts(ws[i]) && !ws[i].PutLink?
    requires NotRewritten(ws[i], ws[i + 1..]) && NotRewritten(ws[i], ws[..i]) && NotErased(ws[i], ws)
    requires NotRewritten(ws[i], rest) && NotErased(ws[i], rest)
    ensures var u := ExecAll(t, ws + rest).value; Stands(u, ws[i]) && OriginOf(t, u, ws[i])
  {
    assert [] + ws + rest == ws + rest;
    PhaseStands(t, [], ws, rest, i);
    PhaseDates(t, [], ws, rest, i);
  }

  lemma RecordOutcome(fts: bool, fingerprint: Fingerprint, t: Tables, g: SyncGraph, u: Tables)
    requires ExecAll(t, NodeWrites(fts, g) + Rest(fingerprint, g)) == Some(u)
    ensures var k := Node(g); k in u.records && IdentityKept(RecordOf(t, k), StoredRecord(g), u.records[k])
  {
    var ws, k, n := NodeWrites(fts, g) + Rest(fingerprint, g), Node(g), RecordPosition(fts);
    NodeWritesAre(fts, g);
    forall v | v in ws ensures !v.DropStaleChildren? && !v.DropLive? && (v.PutRecord? ==> v == PutRecord(k, StoredRecord(g))) {
      if v in Rest(fingerprint, g) { RestIsElsewhere(fingerprint, g, v); }
    }
    assert ws[n + 1..] == Rest(fingerprint, g);
    forall v | v in ws[n + 1..] ensures !v.PutRecord? { RestIsElsewhere(fingerprint, g, v); }
    if Speaks(StoredRecord(g)) {
      LastSpeakerStands(t, ws, n, k);
    } else if Spoken(t, k) {
      SpokenStays(t, ws, k);
    } else {
      LastProjectionStands(t, ws, n, k);
    }
  }

  lemma NodeIsShown(fts: bool, fingerprint: Fingerprint, t: Tables, g: SyncGraph, u: Tables)
    requires ExecAll(t, NodeWrites(fts, g) + Rest(fingerprint, g)) == Some(u)
    ensures NodeShown(t, u, g) && (fts ==> SearchShown(u, g))
  {
    NodeIsKey(g);
    NodeWritesAre(fts, g);
    RowsOfGraph(g);
    NodeOutcome(fts, fingerprint, t, g, PutSource(Node(g), StoredSource(g)), 1);
    NodeOutcome(fts, fingerprint, t, g, PutRecord(Node(g), StoredRecord(g)), RecordPosition(fts));
    RecordOutcome(fts, fingerprint, t, g, u);
    if fts { NodeOutcome(fts, fingerprint, t, g, NodeWrites(fts, g)[2], 2); }
  }

  // ---- comments, identities, links and revisions ----

  function CommentAt(g: SyncGraph, i: nat): CommentKey
    requires i < |g.comments|
  {
    var c := g.comments[i];
    CommentKey(Otherwise(c.repo, RepoOf(g)), Otherwise(c.record, g.record.id), c.id)
  }

  predicate CommentOf(now: Comment, c: Comment) {
    && now.author == c.author && now.body == c.body && now.hash == c.hash && now.revision == c.revision
    && now.updatedAt == LastSeen(c.createdAt, c.updatedAt)
  }

  /** Of equal ids the last comment shows and the first one dates the row; no other comment changes. */
  ghost predicate CommentsShown(t: Tables, u: Tables, g: SyncGraph) {
    && (forall i | 0 <= i < |g.comments| :: CommentAt(g, i) in u.comments)
    && (forall i | 0 <= i < |g.comments| && (forall j | i < j < |g.comments| :: CommentAt(g, j) != CommentAt(g, i)) ::
          CommentOf(u.comments[CommentAt(g, i)], g.comments[i].row))
    && (forall i | 0 <= i < |g.comments| && (forall j | 0 <= j < i :: CommentAt(g, j) != CommentAt(g, i)) ::
          u.comments[CommentAt(g, i)].createdAt ==
            if CommentAt(g, i) in t.comments then t.comments[CommentAt(g, i)].createdAt else FirstSeen(g.comments[i].row.createdAt))
    && (forall k: CommentKey | (forall i | 0 <= i < |g.comments| :: CommentAt(g, i) != k) ::
          (k in u.comments <==> k in t.comments) && (k in t.comments ==> u.comments[k] == t.comments[k]))
  }

  function AliasAt(g: SyncGraph, i: nat): AliasKey
    requires i < |g.identities|
  {
    AliasKey(Otherwise(g.identities[i].repo, RepoOf(g)), g.identities[i].aliasType, g.identities[i].alias)
  }

  /** Of equal aliases the last identity shows, under the graph's record unless it names another; no other one changes. */
  ghost predicate IdentitiesShown(t: Tables, u: Tables, g: SyncGraph) {
    && (forall i | 0 <= i < |g.identities| :: AliasAt(g, i) in u.identities)
    && (forall i | 0 <= i < |g.identities| && (forall j | i < j < |g.identities| :: AliasAt(g, j) != AliasAt(g, i)) ::
          var now, row := u.identities[AliasAt(g, i)], g.identities[i].row;
          now.source == Otherwise(row.source, g.record.id) && now.remoteType == row.remoteType && now.remoteId == row.remoteId)
    && (forall k: AliasKey | (forall i | 0 <= i < |g.identities| :: AliasAt(g, i) != k) ::
          (k in u.identities <==> k in t.identities) && (k in t.identities ==> u.identities[k] == t.identities[k]))
  }

  function LinkAt(g: SyncGraph, i: nat): Link
    requires i < |g.links|
  {
    var l := g.links[i];
    Link(Otherwise(l.repo, RepoOf(g)), Otherwise(l.source, g.record.id), l.target, l.kind, l.text)
  }

  /** The graph's links are added, and no others. */
  ghost predicate LinksShown(t: Tables, u: Tables, g: SyncGraph) {
    forall l: Link :: l in u.links <==> l in t.links || exists i | 0 <= i < |g.links| :: LinkAt(g, i) == l
  }

  function RevisionAt(g: SyncGraph, i: nat): NodeKey
    requires i < |g.revisions|
  {
    NodeKey(Otherwise(g.revisions[i].repo, RepoOf(g)), Otherwise(g.revisions[i].record, g.record.id))
  }

  /** Of the revisions of one node the last shows; no other node's revision changes. */
  ghost predicate RevisionsShown(t: Tables, u: Tables, g: SyncGraph) {
    && (forall i | 0 <= i < |g.revisions| :: RevisionAt(g, i) in u.revisions)
    && (forall i | 0 <= i < |g.revisions| && (forall j | i < j < |g.revisions| :: RevisionAt(g, j) != RevisionAt(g, i)) ::
          var now, row := u.revisions[RevisionAt(g, i)], g.revisions[i].row;
          && now.remoteType == row.remoteType && now.remoteId == row.remoteId && now.revision == row.revision
          && now.status == row.status && now.fetchedAt == FirstSeen(row.fetchedAt))
    && (forall k: NodeKey | (forall i | 0 <= i < |g.revisions| :: RevisionAt(g, i) != k) ::
          (k in u.revisions <==> k in t.revisions) && (k in t.revisions ==> u.revisions[k] == t.revisions[k]))
  }

  function CommentPuts(g: SyncGraph): seq<Write> { Each(c => CommentWrite(Node(g), c), g.comments) }
  function IdentityPuts(g: SyncGraph): seq<Write> { Each(i => IdentityWrite(Node(g), i), g.identities) }
  function LinkPuts(g: SyncGraph): seq<Write> { Each(l => LinkWrite(Node(g), l), g.links) }
  function RevisionPuts(g: SyncGraph): seq<Write> { Each(r => RevisionWrite(Node(g), r), g.revisions) }

  lemma PutsOfGraph(g: SyncGraph)
    ensures |CommentPuts(g)| == |g.comments| && |IdentityPuts(g)| == |g.identities|
    ensures |LinkPuts(g)| == |g.links| && |RevisionPuts(g)| == |g.revisions|
    ensures forall i | 0 <= i < |g.comments| :: CommentPuts(g)[i].PutComment? && CommentPuts(g)[i].comment == CommentAt(g, i)
    ensures forall i | 0 <= i < |g.identities| :: IdentityPuts(g)[i].PutIdentity? && IdentityPuts(g)[i].alias == AliasAt(g, i)
    ensures forall i | 0 <= i < |g.links| :: LinkPuts(g)[i] == PutLink(LinkAt(g, i))
    ensures forall i | 0 <= i < |g.revisions| :: RevisionPuts(g)[i].PutRevision? && RevisionPuts(g)[i].node == RevisionAt(g, i)
  {
    NodeIsKey(g);
  }

  lemma CommentPutShows(g: SyncGraph, i: nat, now: Comment)
    requires i < |g.comments|
    ensures CommentPuts(g)[i].PutComment?
    ensures CommentShows(now, CommentPuts(g)[i].remark) <==> CommentOf(now, g.comments[i].row)
    ensures CommentPuts(g)[i].remark.createdAt == FirstSeen(g.comments[i].row.createdAt)
  {
  }

  /** The kinds of statements in the parts of a graph. */
  lemma NodeKinds(fts: bool, g: SyncGraph)
    ensures forall v | v in NodeWrites(fts, g) :: OfNode(v) || v.RequireRepo?
  {
  }

  lemma PutKinds(g: SyncGraph)
    ensures (forall v | v in CommentPuts(g) :: v.PutComment?) && (forall v | v in IdentityPuts(g) :: v.PutIdentity?)
    ensures (forall v | v in LinkPuts(g) :: v.PutLink?) && (forall v | v in RevisionPuts(g) :: v.PutRevision?)
  {
    PutsOfGraph(g);
  }

  lemma ChunkKinds(fingerprint: Fingerprint, g: SyncGraph)
    ensures forall v | v in ChunkWrites(fingerprint, g) :: v.PutChunk? || v.TrimChunks?
  {
  }

  lemma RestInParts(fts: bool, fingerprint: Fingerprint, g: SyncGraph)
    ensures var n, cs, ids, ls, rs, ps := NodeWrites(fts, g), CommentPuts(g), IdentityPuts(g), LinkPuts(g), RevisionPuts(g), ChunkWrites(fingerprint, g);
            var all := n + Rest(fingerprint, g);
            && all == n + cs + (ids + ls + rs + ps) && all == (n + cs) + ids + (ls + rs + ps)
            && all == (n + cs + ids) + ls + (rs + ps) && all == (n + cs + ids + ls) + rs + ps
  {
    Regroup(NodeWrites(fts, g), CommentPuts(g), IdentityPuts(g), LinkPuts(g), RevisionPuts(g), ChunkWrites(fingerprint, g));
  }

  lemma Regroup<T>(n: seq<T>, a: seq<T>, b: seq<T>, c: seq<T>, d: seq<T>, p: seq<T>)
    ensures n + ((a + b + c + d) + p) == n + a + (b + c + d + p)
    ensures n + ((a + b + c + d) + p) == (n + a) + b + (c + d + p)
    ensures n + ((a + b + c + d) + p) == (n + a + b) + c + (d + p)
    ensures n + ((a + b + c + d) + p) == (n + a + b + c) + d + p
  {
  }

  lemma CommentsAround(fts: bool, fingerprint: Fingerprint, g: SyncGraph) returns (a: seq<Write>, c: seq<Write>)
    ensures a + CommentPuts(g) + c == NodeWrites(fts, g) + Rest(fingerprint, g)
    ensures forall v | v in a || v in c :: !v.PutComment? && !v.ClearComments? && !v.DropStaleChildren? && !v.DropLive?
  {
    a, c := NodeWrites(fts, g), IdentityPuts(g) + LinkPuts(g) + RevisionPuts(g) + ChunkWrites(fingerprint, g);
    NodeKinds(fts, g);
    PutKinds(g);
    ChunkKinds(fingerprint, g);
    RestInParts(fts, fingerprint, g);
  }

  lemma CommentIsShown(t: Tables, a: seq<Write>, c: seq<Write>, g: SyncGraph, u: Tables, i: nat)
    requires ExecAll(t, a + CommentPuts(g) + c) == Some(u) && i < |g.comments|
    requires forall v | v in c :: !v.PutComment? && !v.ClearComments? && !v.DropStaleChildren? && !v.DropLive?
    ensures CommentAt(g, i) in u.comments
    ensures (forall j | i < j < |g.comments| :: CommentAt(g, j) != CommentAt(g, i)) ==> CommentOf(u.comments[CommentAt(g, i)], g.comments[i].row)
  {
    var b := CommentPuts(g);
    PutsOfGraph(g);
    assert NotErased(b[i], b) && NotErased(b[i], c) && NotRewritten(b[i], c);
    PhaseThere(t, a, b, c, i);
    CommentPutShows(g, i, u.comments[CommentAt(g, i)]);
    if forall j | i < j < |g.comments| :: CommentAt(g, j) != CommentAt(g, i) {
      assert forall j | i < j < |b| :: !SamePut(b[j], b[i]);
      PhaseStands(t, a, b, c, i);
    }
  }

  lemma CommentIsDated(t: Tables, a: seq<Write>, c: seq<Write>, g: SyncGraph, u: Tables, i: nat)
    requires ExecAll(t, a + CommentPuts(g) + c) == Some(u) && i < |g.comments|
    requires forall v | v in a || v in c :: !v.PutComment? && !v.ClearComments? && !v.DropStaleChildren? && !v.DropLive?
    requires forall j | 0 <= j < i :: CommentAt(g, j) != CommentAt(g, i)
    ensures CommentAt(g, i) in u.comments
    ensures u.comments[CommentAt(g, i)].createdAt ==
              if CommentAt(g, i) in t.comments then t.comments[CommentAt(g, i)].createdAt else FirstSeen(g.comments[i].row.createdAt)
  {
    var b := CommentPuts(g);
    PutsOfGraph(g);
    assert NotErased(b[i], a) && NotErased(b[i], b) && NotErased(b[i], c) && NotRewritten(b[i], a);
    assert forall j | 0 <= j < i :: !SamePut(b[j], b[i]);
    PhaseDates(t, a, b, c, i);
    CommentPutShows(g, i, u.comments[CommentAt(g, i)]);
  }

  lemma CommentsElsewhere(t: Tables, a: seq<Write>, c: seq<Write>, g: SyncGraph, u: Tables, k: CommentKey)
    requires ExecAll(t, a + CommentPuts(g) + c) == Some(u) && forall i | 0 <= i < |g.comments| :: CommentAt(g, i) != k
    requires forall v | v in a || v in c :: !v.PutComment? && !v.ClearComments? && !v.DropStaleChildren? && !v.DropLive?
    ensures (k in u.comments <==> k in t.comments) && (k in t.comments ==> u.comments[k] == t.comments[k])
  {
    PutsOfGraph(g);
    var probe := PutComment(k, Comment("", "", "", "", "", ""));
    forall v | v in a + CommentPuts(g) + c ensures !SamePut(v, probe) && !Erases(v, probe) {}
    StaysAlike(t, a + CommentPuts(g) + c, probe);
  }

  /** A graph's comments, amid statements that leave comments alone. */
  lemma CommentsAmid(t: Tables, a: seq<Write>, c: seq<Write>, g: SyncGraph, u: Tables)
    requires ExecAll(t, a + CommentPuts(g) + c) == Some(u)
    requires forall v | v in a || v in c :: !v.PutComment? && !v.ClearComments? && !v.DropStaleChildren? && !v.DropLive?
    ensures CommentsShown(t, u, g)
  {
    forall i | 0 <= i < |g.comments|
      ensures CommentAt(g, i) in u.comments
      ensures (forall j | i < j < |g.comments| :: CommentAt(g, j) != CommentAt(g, i)) ==> CommentOf(u.comments[CommentAt(g, i)], g.comments[i].row)
      ensures (forall j | 0 <= j < i :: CommentAt(g, j) != CommentAt(g, i)) ==>
                u.comments[CommentAt(g, i)].createdAt ==
                  if CommentAt(g, i) in t.comments then t.comments[CommentAt(g, i)].createdAt else FirstSeen(g.comments[i].row.createdAt)
    {
      CommentIsShown(t, a, c, g, u, i);
      if forall j | 0 <= j < i :: CommentAt(g, j) != CommentAt(g, i) { CommentIsDated(t, a, c, g, u, i); }
    }
    forall k: CommentKey | (forall i | 0 <= i < |g.comments| :: CommentAt(g, i) != k)
      ensures (k in u.comments <==> k in t.comments) && (k in t.comments ==> u.comments[k] == t.comments[k])
    {
      CommentsElsewhere(t, a, c, g, u, k);
    }
  }

  lemma CommentsAreShown(fts: bool, fingerprint: Fingerprint, t: Tables, g: SyncGraph, u: Tables)
    requires ExecAll(t, NodeWrites(fts, g) + Rest(fingerprint, g)) == Some(u)
    ensures CommentsShown(t, u, g)
  {
    var a, c := CommentsAround(fts, fingerprint, g);
    CommentsAmid(t, a, c, g, u);
  }

  lemma IdentityOutcome(t: Tables, a: seq<Write>, c: seq<Write>, g: SyncGraph, u: Tables, i: nat)
    requires ExecAll(t, a + IdentityPuts(g) + c) == Some(u) && i < |g.identities|
    requires forall v | v in a || v in c :: !v.PutIdentity? && !v.DropStaleChildren? && !v.DropLive?
    ensures AliasAt(g, i) in u.identities
    ensures (forall j | i < j < |g.identities| :: AliasAt(g, j) != AliasAt(g, i)) ==>
              var now, row := u.identities[AliasAt(g, i)], g.identities[i].row;
              now.source == Otherwise(row.source, g.record.id) && now.remoteType == row.remoteType && now.remoteId == row.remoteId
  {
    var b := IdentityPuts(g);
    PutsOfGraph(g);
    assert NotErased(b[i], b) && NotErased(b[i], c) && NotRewritten(b[i], c);
    PhaseThere(t, a, b, c, i);
    if forall j | i < j < |g.identities| :: AliasAt(g, j) != AliasAt(g, i) {
      assert forall j | i < j < |b| :: !SamePut(b[j], b[i]);
      PhaseStands(t, a, b, c, i);
    }
  }

  lemma IdentitiesElsewhere(t: Tables, a: seq<Write>, c: seq<Write>, g: SyncGraph, u: Tables, k: AliasKey)
    requires ExecAll(t, a + IdentityPuts(g) + c) == Some(u) && forall i | 0 <= i < |g.identities| :: AliasAt(g, i) != k
    requires forall v | v in a || v in c :: !v.PutIdentity? && !v.DropStaleChildren? && !v.DropLive?
    ensures (k in u.identities <==> k in t.identities) && (k in t.identities ==> u.identities[k] == t.identities[k])
  {
    PutsOfGraph(g);
    var probe := PutIdentity(k, Identity("", "", ""));
    forall v | v in a + IdentityPuts(g) + c ensures !SamePut(v, probe) && !Erases(v, probe) {}
    StaysAlike(t, a + IdentityPuts(g) + c, probe);
  }

  lemma IdentitiesAround(fts: bool, fingerprint: Fingerprint, g: SyncGraph) returns (a: seq<Write>, c: seq<Write>)
    ensures a + IdentityPuts(g) + c == NodeWrites(fts, g) + Rest(fingerprint, g)
    ensures forall v | v in a || v in c :: !v.PutIdentity? && !v.DropStaleChildren? && !v.DropLive?
  {
    a, c := NodeWrites(fts, g) + CommentPuts(g), LinkPuts(g) + RevisionPuts(g) + ChunkWrites(fingerprint, g);
    NodeKinds(fts, g);
    PutKinds(g);
    ChunkKinds(fingerprint, g);
    RestInParts(fts, fingerprint, g);
  }

  lemma IdentitiesAmid(t: Tables, a: seq<Write>, c: seq<Write>, g: SyncGraph, u: Tables)
    requires ExecAll(t, a + IdentityPuts(g) + c) == Some(u)
    requires forall v | v in a || v in c :: !v.PutIdentity? && !v.DropStaleChildren? && !v.DropLive?
    ensures IdentitiesShown(t, u, g)
  {
    forall i | 0 <= i < |g.identities|
      ensures AliasAt(g, i) in u.identities
      ensures (forall j | i < j < |g.identities| :: AliasAt(g, j) != AliasAt(g, i)) ==>
                var now, row := u.identities[AliasAt(g, i)], g.identities[i].row;
                now.source == Otherwise(row.source, g.record.id) && now.remoteType == row.remoteType && now.remoteId == row.remoteId
    {
      IdentityOutcome(t, a, c, g, u, i);
    }
    forall k: AliasKey | (forall i | 0 <= i < |g.identities| :: AliasAt(g, i) != k)
      ensures (k in u.identities <==> k in t.identities) && (k in t.identities ==> u.identities[k] == t.identities[k])
    {
      IdentitiesElsewhere(t, a, c, g, u, k);
    }
  }

  lemma IdentitiesAreShown(fts: bool, fingerprint: Fingerprint, t: Tables, g: SyncGraph, u: Tables)
    requires ExecAll(t, NodeWrites(fts, g) + Rest(fingerprint, g)) == Some(u)
    ensures IdentitiesShown(t, u, g)
  {
    var a, c := IdentitiesAround(fts, fingerprint, g);
    IdentitiesAmid(t, a, c, g, u);
  }

  lemma RevisionOutcome(t: Tables, a: seq<Write>, c: seq<Write>, g: SyncGraph, u: Tables, i: nat)
    requires ExecAll(t, a + RevisionPuts(g) + c) == Some(u) && i < |g.revisions|
    requires forall v | v in a || v in c :: !v.PutRevision? && !v.DropStaleChildren? && !v.DropLive?
    ensures RevisionAt(g, i) in u.revisions
    ensures (forall j | i < j < |g.revisions| :: RevisionAt(g, j) != RevisionAt(g, i)) ==>
              var now, row := u.revisions[RevisionAt(g, i)], g.revisions[i].row;
              && now.remoteType == row.remoteType && now.remoteId == row.remoteId && now.revision == row.revision
              && now.status == row.status && now.fetchedAt == FirstSeen(row.fetchedAt)
  {
    var b := RevisionPuts(g);
    PutsOfGraph(g);
    assert NotErased(b[i], b) && NotErased(b[i], c) && NotRewritten(b[i], c);
    PhaseThere(t, a, b, c, i);
    if forall j | i < j < |g.revisions| :: RevisionAt(g, j) != RevisionAt(g, i) {
      assert forall j | i < j < |b| :: !SamePut(b[j], b[i]);
      PhaseStands(t, a, b, c, i);
    }
  }

  lemma RevisionsElsewhere(t: Tables, a: seq<Write>, c: seq<Write>, g: SyncGraph, u: Tables, k: NodeKey)
    requires ExecAll(t, a + RevisionPuts(g) + c) == Some(u) && forall i | 0 <= i < |g.revisions| :: RevisionAt(g, i) != k
    requires forall v | v in a || v in c :: !v.PutRevision? && !v.DropStaleChildren? && !v.DropLive?
    ensures (k in u.revisions <==> k in t.revisions) && (k in t.revisions ==> u.revisions[k] == t.revisions[k])
  {
    PutsOfGraph(g);
    var probe := PutRevision(k, Revision("", "", "", "", ""));
    forall v | v in a + RevisionPuts(g) + c ensures !SamePut(v, probe) && !Erases(v, probe) {}
    StaysAlike(t, a + RevisionPuts(g) + c, probe);
  }

  lemma RevisionsAround(fts: bool, fingerprint: Fingerprint, g: SyncGraph) returns (a: seq<Write>, c: seq<Write>)
    ensures a + RevisionPuts(g) + c == NodeWrites(fts, g) + Rest(fingerprint, g)
    ensures forall v | v in a || v in c :: !v.PutRevision? && !v.DropStaleChildren? && !v.DropLive?
  {
    a, c := NodeWrites(fts, g) + CommentPuts(g) + IdentityPuts(g) + LinkPuts(g), ChunkWrites(fingerprint, g);
    NodeKinds(fts, g);
    PutKinds(g);
    ChunkKinds(fingerprint, g);
    RestInParts(fts, fingerprint, g);
  }

  lemma RevisionsAmid(t: Tables, a: seq<Write>, c: seq<Write>, g: SyncGraph, u: Tables)
    requires ExecAll(t, a + RevisionPuts(g) + c) == Some(u)
    requires forall v | v in a || v in c :: !v.PutRevision? && !v.DropStaleChildren? && !v.DropLive?
    ensures RevisionsShown(t, u, g)
  {
    forall i | 0 <= i < |g.revisions|
      ensures RevisionAt(g, i) in u.revisions
      ensures (forall j | i < j < |g.revisions| :: RevisionAt(g, j) != RevisionAt(g, i)) ==>
                var now, row := u.revisions[RevisionAt(g, i)], g.revisions[i].row;
                && now.remoteType == row.remoteType && now.remoteId == row.remoteId && now.revision == row.revision
                && now.status == row.status && now.fetchedAt == FirstSeen(row.fetchedAt)
    {
      RevisionOutcome(t, a, c, g, u, i);
    }
    forall k: NodeKey | (forall i | 0 <= i < |g.revisions| :: RevisionAt(g, i) != k)
      ensures (k in u.revisions <==> k in t.revisions) && (k in t.revisions ==> u.revisions[k] == t.revisions[k])
    {
      RevisionsElsewhere(t, a, c, g, u, k);
    }
  }

  lemma RevisionsAreShown(fts: bool, fingerprint: Fingerprint, t: Tables, g: SyncGraph, u: Tables)
    requires ExecAll(t, NodeWrites(fts, g) + Rest(fingerprint, g)) == Some(u)
    ensures RevisionsShown(t, u, g)
  {
    var a, c := RevisionsAround(fts, fingerprint, g);
    RevisionsAmid(t, a, c, g, u);
  }

  // ---- links ----

  predicate LeavesLinks(v: Write) { !v.PutLink? && !v.DropLinks? && !v.DropStaleChildren? && !v.DropLive? }

  lemma LinkStep(t: Tables, v: Write, l: Link)
    requires Exec(t, v).Some? && (LeavesLinks(v) || v.PutLink?)
    ensures l in Exec(t, v).value.links <==> l in t.links || v == PutLink(l)
  {
    if !v.PutLink? { StatementLeavesLinks(t, v); }
  }

  lemma StatementLeavesLinks(t: Tables, v: Write)
    requires Exec(t, v).Some? && LeavesLinks(v)
    ensures Exec(t, v).value.links == t.links
  {
  }

  lemma {:induction false} LinksFollow(t: Tables, ws: seq<Write>, l: Link)
    requires ExecAll(t, ws).Some? && forall v | v in ws :: LeavesLinks(v) || v.PutLink?
    ensures l in ExecAll(t, ws).value.links <==> l in t.links || PutLink(l) in ws
    decreases |ws|
  {
    if ws != [] {
      LinkStep(t, ws[0], l);
      LinksFollow(Exec(t, ws[0]).value, ws[1..], l);
    }
  }

  lemma LinksAreShown(fts: bool, fingerprint: Fingerprint, t: Tables, g: SyncGraph, u: Tables)
    requires ExecAll(t, NodeWrites(fts, g) + Rest(fingerprint, g)) == Some(u)
    ensures LinksShown(t, u, g)
  {
    var ws := NodeWrites(fts, g) + Rest(fingerprint, g);
    NodeKinds(fts, g);
    PutKinds(g);
    ChunkKinds(fingerprint, g);
    RestInParts(fts, fingerprint, g);
    forall v | v in ws ensures (LeavesLinks(v) || v.PutLink?) && (v.PutLink? ==> v in LinkPuts(g)) {}
    PutsOfGraph(g);
    forall l: Link ensures l in u.links <==> l in t.links || exists i | 0 <= i < |g.links| :: LinkAt(g, i) == l {
      LinksFollow(t, ws, l);
      LinkAmongPuts(g, l);
    }
  }

  lemma LinkAmongPuts(g: SyncGraph, l: Link)
    ensures PutLink(l) in LinkPuts(g) <==> exists i | 0 <= i < |g.links| :: LinkAt(g, i) == l
  {
    PutsOfGraph(g);
    if i :| 0 <= i < |g.links| && LinkAt(g, i) == l { assert LinkPuts(g)[i] == PutLink(l); }
  }

  // ---- chunks ----

  function PieceAt(fingerprint: Fingerprint, g: SyncGraph, i: nat): ChunkKey
    requires i < |g.chunks|
  {
    var p := g.chunks[i];
    ChunkKey(Otherwise(p.repo, RepoOf(g)),
             if p.id != "" then p.id else fingerprint(Otherwise(p.row.source, g.record.id), p.row.hash, p.row.byteStart))
  }

  predicate PieceOf(now: Chunk, g: SyncGraph, row: Chunk) {
    && now.record == Otherwise(row.record, Otherwise(row.source, g.record.id)) && now.snapshot == row.snapshot
    && now.hash == row.hash && now.policy == Otherwise(row.policy, "heading") && now.detail == row.detail
  }

  /** The last piece with that id has that hash. */
  ghost predicate Asked(ps: seq<Piece>, id: string, hash: string) {
    exists i | 0 <= i < |ps| :: ps[i].id == id && ps[i].row.hash == hash && forall j | i < j < |ps| :: ps[j].id != id
  }

  /** A replacing graph drops this chunk first: its record owns it, and no piece asks for it as it is. */
  ghost predicate Trimmed(t: Tables, g: SyncGraph, k: ChunkKey) {
    && g.replaceChunks && k in t.chunks && k.repo == RepoOf(g) && t.chunks[k].source == g.record.id
    && !Asked(g.chunks, k.id, t.chunks[k].hash)
  }

  /** Of equal keys the last piece shows; a chunk that was kept stays in its place, another one gets the first piece's;
      no other chunk changes, or goes unless it is trimmed. */
  ghost predicate ChunksShown(fingerprint: Fingerprint, t: Tables, u: Tables, g: SyncGraph) {
    && (forall i | 0 <= i < |g.chunks| :: PieceAt(fingerprint, g, i) in u.chunks)
    && (forall i | 0 <= i < |g.chunks| && LastPiece(fingerprint, g, i) :: PieceOf(u.chunks[PieceAt(fingerprint, g, i)], g, g.chunks[i].row))
    && (forall i | 0 <= i < |g.chunks| && FirstPiece(fingerprint, g, i) ::
          PlacedBy(t, u.chunks[PieceAt(fingerprint, g, i)], PieceAt(fingerprint, g, i), g, g.chunks[i].row))
    && (forall k: ChunkKey | (forall i | 0 <= i < |g.chunks| :: PieceAt(fingerprint, g, i) != k) ::
          (k in u.chunks <==> k in t.chunks && !Trimmed(t, g, k)) && (k in u.chunks ==> u.chunks[k] == t.chunks[k]))
  }

  ghost predicate PlacedBy(t: Tables, now: Chunk, k: ChunkKey, g: SyncGraph, row: Chunk) {
    if k in t.chunks && !Trimmed(t, g, k) then now.source == t.chunks[k].source && now.byteStart == t.chunks[k].byteStart
    else now.source == Otherwise(row.source, g.record.id) && now.byteStart == row.byteStart
  }

  lemma {:induction false} WantedIsAsked(ps: seq<Piece>, id: string, hash: string)
    ensures id in Wanted(ps) && Wanted(ps)[id] == hash <==> Asked(ps, id, hash)
    ensures id in Wanted(ps) <==> exists i | 0 <= i < |ps| :: ps[i].id == id
    decreases |ps|
  {
    if ps != [] {
      WantedIsAsked(ps[1..], id, hash);
      assert forall i | 0 < i < |ps| :: ps[i] == ps[1..][i - 1];
      if i :| 0 <= i < |ps[1..]| && ps[1..][i].id == id { assert ps[i + 1].id == id; }
      if Asked(ps[1..], id, hash) {
        var i :| 0 <= i < |ps[1..]| && ps[1..][i].id == id && ps[1..][i].row.hash == hash && forall j | i < j < |ps[1..]| :: ps[1..][j].id != id;
        assert ps[i + 1].id == id && forall j | i + 1 < j < |ps| :: ps[j].id != id;
      }
    }
  }

  lemma StatementLeavesChunks(t: Tables, v: Write)
    requires Exec(t, v).Some? && !WritesContent(v)
    ensures Exec(t, v).value.chunks == t.chunks
  {
  }

  lemma SourceLeavesChunks(t: Tables, v: Write)
    requires Exec(t, v).Some? && v.PutSource?
    ensures Exec(t, v).value.chunks == t.chunks
  {
  }

  lemma {:induction false} RowsLeaveChunks(t: Tables, ws: seq<Write>)
    requires ExecAll(t, ws).Some? && forall v | v in ws :: v.PutSource? || !WritesContent(v)
    ensures ExecAll(t, ws).value.chunks == t.chunks
    decreases |ws|
  {
    if ws != [] {
      if ws[0].PutSource? { SourceLeavesChunks(t, ws[0]); } else { StatementLeavesChunks(t, ws[0]); }
      RowsLeaveChunks(Exec(t, ws[0]).value, ws[1..]);
    }
  }

  /** The chunks that the pieces are written over. */
  ghost predicate ChunksTrimmed(t: Tables, y: Tables, g: SyncGraph) {
    forall k: ChunkKey :: (k in y.chunks <==> k in t.chunks && !Trimmed(t, g, k)) && (k in y.chunks ==> y.chunks[k] == t.chunks[k])
  }

  lemma TrimmingTrims(t: Tables, x: Tables, g: SyncGraph)
    requires x.chunks == t.chunks && g.replaceChunks
    ensures var a := Exec(x, TrimChunks(Node(g), Wanted(g.chunks))); a.Some? && ChunksTrimmed(t, a.value, g)
  {
    NodeIsKey(g);
    TrimChunksIsExact(x, Node(g), Wanted(g.chunks));
    forall k: ChunkKey | k in t.chunks
      ensures Trimmed(t, g, k) <==> && k.repo == Node(g).repo && t.chunks[k].source == Node(g).id
                                    && (k.id !in Wanted(g.chunks) || Wanted(g.chunks)[k.id] != t.chunks[k].hash)
    {
      WantedIsAsked(g.chunks, k.id, t.chunks[k].hash);
    }
  }

  lemma PiecesOfGraph(fingerprint: Fingerprint, g: SyncGraph)
    ensures var ps := StorePieces(fingerprint, Node(g), g.chunks);
            && |ps| == |g.chunks|
            && forall i | 0 <= i < |ps| :: ps[i] == PutChunk(PieceAt(fingerprint, g, i), StoredPiece(Node(g), g.chunks[i]))
  {
    NodeIsKey(g);
  }

  lemma PieceShows(g: SyncGraph, p: Piece, now: Chunk)
    ensures ChunkShows(now, StoredPiece(Node(g), p)) <==> PieceOf(now, g, p.row)
    ensures StoredPiece(Node(g), p).source == Otherwise(p.row.source, g.record.id) && StoredPiece(Node(g), p).byteStart == p.row.byteStart
  {
  }

  /** Any run of chunk statements: the last one of a key shows. */
  lemma ChunkPutsOutcome(y: Tables, ps: seq<Write>, u: Tables, i: nat)
    requires ExecAll(y, ps) == Some(u) && i < |ps| && forall v | v in ps :: v.PutChunk?
    ensures ps[i].chunk in u.chunks
    ensures (forall j | i < j < |ps| :: ps[j].chunk != ps[i].chunk) ==> ChunkShows(u.chunks[ps[i].chunk], ps[i].piece)
  {
    assert [] + ps + [] == ps;
    forall v | v in ps ensures !Erases(v, ps[i]) { assert v.PutChunk?; }
    PhaseThere(y, [], ps, [], i);
    if forall j | i < j < |ps| :: ps[j].chunk != ps[i].chunk {
      forall j | i < j < |ps| ensures !SamePut(ps[j], ps[i]) { assert ps[j] in ps && ps[i] in ps; }
      PhaseStands(y, [], ps, [], i);
    }
  }

  /** And the first one places it. */
  lemma ChunkPutsPlace(y: Tables, ps: seq<Write>, u: Tables, i: nat)
    requires ExecAll(y, ps) == Some(u) && i < |ps| && forall v | v in ps :: v.PutChunk?
    requires forall j | 0 <= j < i :: ps[j].chunk != ps[i].chunk
    ensures ps[i].chunk in u.chunks
    ensures var place := PlaceOf(y, ps[i].chunk, ps[i].piece);
            u.chunks[ps[i].chunk].source == place.0 && u.chunks[ps[i].chunk].byteStart == place.1
  {
    assert [] + ps + [] == ps;
    forall v | v in ps ensures !Erases(v, ps[i]) { assert v.PutChunk?; }
    forall j | 0 <= j < i ensures !SamePut(ps[j], ps[i]) { assert ps[j] in ps && ps[i] in ps; }
    PhaseDates(y, [], ps, [], i);
  }

  predicate LastPiece(fingerprint: Fingerprint, g: SyncGraph, i: nat)
    requires i < |g.chunks|
  {
    forall j | i < j < |g.chunks| :: PieceAt(fingerprint, g, j) != PieceAt(fingerprint, g, i)
  }

  predicate FirstPiece(fingerprint: Fingerprint, g: SyncGraph, i: nat)
    requires i < |g.chunks|
  {
    forall j | 0 <= j < i :: PieceAt(fingerprint, g, j) != PieceAt(fingerprint, g, i)
  }

  lemma PlacedFrom(t: Tables, y: Tables, g: SyncGraph, k: ChunkKey, p: Piece, now: Chunk)
    requires ChunksTrimmed(t, y, g)
    requires var place := PlaceOf(y, k, StoredPiece(Node(g), p)); now.source == place.0 && now.byteStart == place.1
    ensures PlacedBy(t, now, k, g, p.row)
  {
    PieceShows(g, p, now);
  }

  lemma PieceIsShown(fingerprint: Fingerprint, y: Tables, g: SyncGraph, u: Tables, i: nat)
    requires ExecAll(y, StorePieces(fingerprint, Node(g), g.chunks)) == Some(u) && i < |g.chunks|
    ensures PieceAt(fingerprint, g, i) in u.chunks
    ensures LastPiece(fingerprint, g, i) ==> PieceOf(u.chunks[PieceAt(fingerprint, g, i)], g, g.chunks[i].row)
  {
    var ps := StorePieces(fingerprint, Node(g), g.chunks);
    PiecesOfGraph(fingerprint, g);
    ChunkPutsOutcome(y, ps, u, i);
    if LastPiece(fingerprint, g, i) { PieceShows(g, g.chunks[i], u.chunks[PieceAt(fingerprint, g, i)]); }
  }

  lemma PieceIsPlaced(fingerprint: Fingerprint, t: Tables, y: Tables, g: SyncGraph, u: Tables, i: nat)
    requires ExecAll(y, StorePieces(fingerprint, Node(g), g.chunks)) == Some(u) && i < |g.chunks| && ChunksTrimmed(t, y, g)
    requires FirstPiece(fingerprint, g, i)
    ensures PieceAt(fingerprint, g, i) in u.chunks
    ensures PlacedBy(t, u.chunks[PieceAt(fingerprint, g, i)], PieceAt(fingerprint, g, i), g, g.chunks[i].row)
  {
    var ps := StorePieces(fingerprint, Node(g), g.chunks);
    PiecesOfGraph(fingerprint, g);
    forall j | 0 <= j < i ensures ps[j].chunk != ps[i].chunk { assert PieceAt(fingerprint, g, j) != PieceAt(fingerprint, g, i); }
    ChunkPutsPlace(y, ps, u, i);
    PlacedFrom(t, y, g, PieceAt(fingerprint, g, i), g.chunks[i], u.chunks[PieceAt(fingerprint, g, i)]);
  }

  lemma PieceOutcome(fingerprint: Fingerprint, t: Tables, y: Tables, g: SyncGraph, u: Tables, i: nat)
    requires ExecAll(y, StorePieces(fingerprint, Node(g), g.chunks)) == Some(u) && i < |g.chunks| && ChunksTrimmed(t, y, g)
    ensures var k := PieceAt(fingerprint, g, i);
            && k in u.chunks
            && (LastPiece(fingerprint, g, i) ==> PieceOf(u.chunks[k], g, g.chunks[i].row))
            && (FirstPiece(fingerprint, g, i) ==> PlacedBy(t, u.chunks[k], k, g, g.chunks[i].row))
  {
    PieceIsShown(fingerprint, y, g, u, i);
    if FirstPiece(fingerprint, g, i) { PieceIsPlaced(fingerprint, t, y, g, u, i); }
  }

  lemma ChunkPutsSpare(y: Tables, ps: seq<Write>, u: Tables, k: ChunkKey)
    requires ExecAll(y, ps) == Some(u) && forall v | v in ps :: v.PutChunk? && v.chunk != k
    ensures (k in u.chunks <==> k in y.chunks) && (k in y.chunks ==> u.chunks[k] == y.chunks[k])
  {
    var probe := PutChunk(k, Chunk("", "", "", "", 0, "", ChunkDetail(0, 0, 0, [], "", "", map[], [], map[], "")));
    forall v | v in ps ensures !SamePut(v, probe) && !Erases(v, probe) {}
    StaysAlike(y, ps, probe);
  }

  lemma PiecesElsewhere(fingerprint: Fingerprint, y: Tables, g: SyncGraph, u: Tables, k: ChunkKey)
    requires ExecAll(y, StorePieces(fingerprint, Node(g), g.chunks)) == Some(u)
    requires forall i | 0 <= i < |g.chunks| :: PieceAt(fingerprint, g, i) != k
    ensures (k in u.chunks <==> k in y.chunks) && (k in y.chunks ==> u.chunks[k] == y.chunks[k])
  {
    PiecesOfGraph(fingerprint, g);
    ChunkPutsSpare(y, StorePieces(fingerprint, Node(g), g.chunks), u, k);
  }

  lemma TrimmedThenStored(fingerprint: Fingerprint, t: Tables, y: Tables, g: SyncGraph, u: Tables)
    requires ExecAll(y, StorePieces(fingerprint, Node(g), g.chunks)) == Some(u) && ChunksTrimmed(t, y, g)
    ensures ChunksShown(fingerprint, t, u, g)
  {
    forall i | 0 <= i < |g.chunks|
      ensures var k := PieceAt(fingerprint, g, i);
              && k in u.chunks
              && (LastPiece(fingerprint, g, i) ==> PieceOf(u.chunks[k], g, g.chunks[i].row))
              && (FirstPiece(fingerprint, g, i) ==> PlacedBy(t, u.chunks[k], k, g, g.chunks[i].row))
    {
      PieceOutcome(fingerprint, t, y, g, u, i);
    }
    forall k: ChunkKey | (forall i | 0 <= i < |g.chunks| :: PieceAt(fingerprint, g, i) != k)
      ensures (k in u.chunks <==> k in t.chunks && !Trimmed(t, g, k)) && (k in u.chunks ==> u.chunks[k] == t.chunks[k])
    {
      PiecesElsewhere(fingerprint, y, g, u, k);
    }
  }

  lemma RowKinds(fts: bool, g: SyncGraph)
    ensures forall v | v in NodeWrites(fts, g) + AttachmentWrites(g) :: v.PutSource? || !WritesContent(v)
  {
    NodeKinds(fts, g);
    PutKinds(g);
  }

  lemma ChunksFollowRows(fingerprint: Fingerprint, t: Tables, x: Tables, g: SyncGraph, u: Tables)
    requires x.chunks == t.chunks && ExecAll(x, ChunkWrites(fingerprint, g)) == Some(u)
    ensures ChunksShown(fingerprint, t, u, g)
  {
    var ps := StorePieces(fingerprint, Node(g), g.chunks);
    if g.replaceChunks {
      var trim := TrimChunks(Node(g), Wanted(g.chunks));
      assert ChunkWrites(fingerprint, g) == [trim] + ps && ([trim] + ps)[1..] == ps;
      TrimmingTrims(t, x, g);
      TrimmedThenStored(fingerprint, t, Exec(x, trim).value, g, u);
    } else {
      assert ChunkWrites(fingerprint, g) == ps;
      TrimmedThenStored(fingerprint, t, x, g, u);
    }
  }

  lemma ChunksAfterRows(fingerprint: Fingerprint, t: Tables, rows: seq<Write>, g: SyncGraph, u: Tables)
    requires ExecAll(t, rows + ChunkWrites(fingerprint, g)) == Some(u) && forall v | v in rows :: v.PutSource? || !WritesContent(v)
    ensures ChunksShown(fingerprint, t, u, g)
  {
    ExecAllConcat(t, rows, ChunkWrites(fingerprint, g));
    RowsLeaveChunks(t, rows);
    ChunksFollowRows(fingerprint, t, ExecAll(t, rows).value, g, u);
  }

  lemma ChunksAreShown(fts: bool, fingerprint: Fingerprint, t: Tables, g: SyncGraph, u: Tables)
    requires ExecAll(t, NodeWrites(fts, g) + Rest(fingerprint, g)) == Some(u)
    ensures ChunksShown(fingerprint, t, u, g)
  {
    var rows := NodeWrites(fts, g) + AttachmentWrites(g);
    assert NodeWrites(fts, g) + Rest(fingerprint, g) == rows + ChunkWrites(fingerprint, g);
    RowKinds(fts, g);
    ChunksAfterRows(fingerprint, t, rows, g, u);
  }

  // ---- the graph ----

  /** Everything a published graph leaves, table by table. */
  ghost predicate GraphShown(fts: bool, fingerprint: Fingerprint, t: Tables, u: Tables, g: SyncGraph) {
    && NodeShown(t, u, g) && (fts ==> SearchShown(u, g))
    && CommentsShown(t, u, g) && IdentitiesShown(t, u, g) && LinksShown(t, u, g) && RevisionsShown(t, u, g)
    && ChunksShown(fingerprint, t, u, g)
  }

  lemma NoRepositoryFails(fts: bool, fingerprint: Fingerprint, t: Tables, g: SyncGraph)
    requires GraphRepo(g) == ""
    ensures ExecAll(t, GraphWrites(fts, fingerprint, g)).None?
  {
  }

  lemma UnknownRepositoryFails(fts: bool, fingerprint: Fingerprint, t: Tables, g: SyncGraph)
    requires GraphRepo(g) !in t.repos
    ensures ExecAll(t, NodeWrites(fts, g) + Rest(fingerprint, g)).None?
  {
    NodeWritesAre(fts, g);
    assert (NodeWrites(fts, g) + Rest(fingerprint, g))[0] == RequireRepo(GraphRepo(g));
  }

  lemma GraphIsNodeAndRest(fts: bool, fingerprint: Fingerprint, g: SyncGraph)
    requires GraphRepo(g) != ""
    ensures GraphWrites(fts, fingerprint, g) == NodeWrites(fts, g) + Rest(fingerprint, g)
  {
  }

  /** A graph is published with all its columns, over whatever was there. */
  lemma PublishedGraphIsShown(fts: bool, fingerprint: Fingerprint, t: Tables, g: SyncGraph, u: Tables)
    requires ExecAll(t, GraphWrites(fts, fingerprint, g)) == Some(u)
    ensures RepoOf(g) != "" && RepoOf(g) in t.repos && GraphShown(fts, fingerprint, t, u, g)
  {
    NodeIsKey(g);
    if GraphRepo(g) == "" { NoRepositoryFails(fts, fingerprint, t, g); }
    GraphIsNodeAndRest(fts, fingerprint, g);
    if GraphRepo(g) !in t.repos { UnknownRepositoryFails(fts, fingerprint, t, g); }
    NodeIsShown(fts, fingerprint, t, g, u);
    CommentsAreShown(fts, fingerprint, t, g, u);
    IdentitiesAreShown(fts, fingerprint, t, g, u);
    LinksAreShown(fts, fingerprint, t, g, u);
    RevisionsAreShown(fts, fingerprint, t, g, u);
    ChunksAreShown(fts, fingerprint, t, g, u);
  }
}
