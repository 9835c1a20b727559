/** What a committed batch leaves of comments, aliases, revisions, chunks and comment syncs, in the terms of what the
    caller handed in. */
module SyncCommittedRows {
  import opened Wrappers
  import opened Records
  import opened RecordsContent
  import opened RecordsOutcomes
  import opened RecordsLasting
  import opened SyncBatch
  import opened SyncReplay
  import opened SyncStatements
  import opened SyncPublished
  import opened SyncCommitted

  // ---- replaced and cleared comments ----

  function ReplacedAt(r: CommentsReplacement, i: nat): CommentKey
    requires i < |r.comments|
  {
    CommentKey(r.node.repo, r.node.id, r.comments[i].id)
  }

  predicate LastOfId(r: CommentsReplacement, i: nat)
    requires i < |r.comments|
  {
    forall j | i < j < |r.comments| :: r.comments[j].id != r.comments[i].id
  }

  predicate FirstOfId(r: CommentsReplacement, i: nat)
    requires i < |r.comments|
  {
    forall j | 0 <= j < i :: r.comments[j].id != r.comments[i].id
  }

  /** The record has exactly the given comments; of equal ids the last shows and the first dates the row. */
  ghost predicate ReplacementShown(s: Tables, r: CommentsReplacement) {
    && (forall c: CommentKey | c.repo == r.node.repo && c.record == r.node.id ::
          c in s.comments <==> exists i | 0 <= i < |r.comments| :: r.comments[i].id == c.comment)
    && (forall i | 0 <= i < |r.comments| && LastOfId(r, i) ::
          ReplacedAt(r, i) in s.comments && CommentOf(s.comments[ReplacedAt(r, i)], r.comments[i].row))
    && (forall i | 0 <= i < |r.comments| && FirstOfId(r, i) ::
          ReplacedAt(r, i) in s.comments && s.comments[ReplacedAt(r, i)].createdAt == FirstSeen(r.comments[i].row.createdAt))
  }

  function ReplacementPuts(r: CommentsReplacement): seq<Write> {
    Each((c: CommentInput) => PutComment(CommentKey(r.node.repo, r.node.id, c.id), StoredComment(c.row)), r.comments)
  }

  lemma ReplacementPutsAre(r: CommentsReplacement)
    ensures |ReplacementPuts(r)| == |r.comments|
    ensures forall i | 0 <= i < |r.comments| :: ReplacementPuts(r)[i] == PutComment(ReplacedAt(r, i), StoredComment(r.comments[i].row))
    ensures ReplacementWrites(r) == [ClearComments(r.node)] + ReplacementPuts(r)
    ensures forall v | v in ReplacementPuts(r) :: v.PutComment?
  {
  }

  /** No comment of the record is there. */
  ghost predicate NoComments(t: Tables, k: NodeKey) { forall c: CommentKey | c.repo == k.repo && c.record == k.id :: c !in t.comments }

  /** Any run of comment statements: the last one of a key shows. */
  lemma CommentPutsShow(y: Tables, ps: seq<Write>, u: Tables, i: nat)
    requires ExecAll(y, ps) == Some(u) && i < |ps| && forall v | v in ps :: v.PutComment?
    ensures ps[i].comment in u.comments
    ensures (forall j | i < j < |ps| :: ps[j].comment != ps[i].comment) ==> CommentShows(u.comments[ps[i].comment], ps[i].remark)
  {
    assert [] + ps + [] == ps;
    forall v | v in ps ensures !Erases(v, ps[i]) { assert v.PutComment?; }
    PhaseThere(y, [], ps, [], i);
    if forall j | i < j < |ps| :: ps[j].comment != ps[i].comment {
      forall j | i < j < |ps| ensures !SamePut(ps[j], ps[i]) { assert ps[j] in ps && ps[i] in ps; }
      PhaseStands(y, [], ps, [], i);
    }
  }

  lemma ReplacedCommentShows(y: Tables, r: CommentsReplacement, u: Tables, i: nat)
    requires ExecAll(y, ReplacementPuts(r)) == Some(u) && i < |r.comments|
    ensures ReplacedAt(r, i) in u.comments
    ensures LastOfId(r, i) ==> CommentOf(u.comments[ReplacedAt(r, i)], r.comments[i].row)
  {
    var ps := ReplacementPuts(r);
    ReplacementPutsAre(r);
    assert forall j | 0 <= j < |ps| :: ps[j].comment == ReplacedAt(r, j);
    CommentPutsShow(y, ps, u, i);
  }

  /** Any run of comment statements: the first one of a key that was not there dates the row. */
  lemma CommentPutsDate(y: Tables, ps: seq<Write>, u: Tables, i: nat)
    requires ExecAll(y, ps) == Some(u) && i < |ps| && forall v | v in ps :: v.PutComment?
    requires ps[i].comment !in y.comments && forall j | 0 <= j < i :: ps[j].comment != ps[i].comment
    ensures ps[i].comment in u.comments && u.comments[ps[i].comment].createdAt == ps[i].remark.createdAt
  {
    assert [] + ps + [] == ps;
    forall v | v in ps ensures !Erases(v, ps[i]) { assert v.PutComment?; }
    forall j | 0 <= j < i ensures !SamePut(ps[j], ps[i]) { assert ps[j] in ps && ps[i] in ps; }
    PhaseDates(y, [], ps, [], i);
  }

  lemma ReplacedCommentIsDated(y: Tables, r: CommentsReplacement, u: Tables, i: nat)
    requires ExecAll(y, ReplacementPuts(r)) == Some(u) && NoComments(y, r.node) && i < |r.comments| && FirstOfId(r, i)
    ensures ReplacedAt(r, i) in u.comments && u.comments[ReplacedAt(r, i)].createdAt == FirstSeen(r.comments[i].row.createdAt)
  {
    var ps := ReplacementPuts(r);
    ReplacementPutsAre(r);
    assert forall j | 0 <= j < i :: ps[j].comment == ReplacedAt(r, j) != ReplacedAt(r, i);
    CommentPutsDate(y, ps, u, i);
  }

  function CommentProbe(c: CommentKey): Write { PutComment(c, Comment("", "", "", "", "", "")) }

  lemma {:induction false} StaysAbsent(t: Tables, vs: seq<Write>, w: Write)
    requires Puts(w) && !w.PutLink? && !There(t, w) && NotRewritten(w, vs) && ExecAll(t, vs).Some?
    ensures !There(ExecAll(t, vs).value, w)
    decreases |vs|
  {
    if vs != [] {
      NotYetThere(t, vs[0], w);
      StaysAbsent(Exec(t, vs[0]).value, vs[1..], w);
    }
  }

  lemma ReplacementNames(y: Tables, r: CommentsReplacement, u: Tables, c: CommentKey)
    requires ExecAll(y, ReplacementPuts(r)) == Some(u) && NoComments(y, r.node) && c.repo == r.node.repo && c.record == r.node.id
    ensures c in u.comments <==> exists i | 0 <= i < |r.comments| :: r.comments[i].id == c.comment
  {
    var ps := ReplacementPuts(r);
    ReplacementPutsAre(r);
    if i :| 0 <= i < |r.comments| && r.comments[i].id == c.comment {
      assert ReplacedAt(r, i) == c;
      ReplacedCommentShows(y, r, u, i);
    } else {
      assert forall j | 0 <= j < |ps| :: !SamePut(ps[j], CommentProbe(c));
      StaysAbsent(y, ps, CommentProbe(c));
    }
  }

  lemma ReplacementIsShown(x: Tables, r: CommentsReplacement, u: Tables)
    requires ExecAll(x, ReplacementWrites(r)) == Some(u)
    ensures ReplacementShown(u, r)
  {
    var clear := ClearComments(r.node);
    ReplacementPutsAre(r);
    assert ([clear] + ReplacementPuts(r))[1..] == ReplacementPuts(r);
    ClearCommentsIsExact(x, r.node);
    ClearedThenPut(Exec(x, clear).value, r, u);
  }

  lemma ClearedThenPut(y: Tables, r: CommentsReplacement, u: Tables)
    requires ExecAll(y, ReplacementPuts(r)) == Some(u) && NoComments(y, r.node)
    ensures ReplacementShown(u, r)
  {
    forall i | 0 <= i < |r.comments| && LastOfId(r, i)
      ensures ReplacedAt(r, i) in u.comments && CommentOf(u.comments[ReplacedAt(r, i)], r.comments[i].row)
    {
      ReplacedCommentShows(y, r, u, i);
    }
    forall i | 0 <= i < |r.comments| && FirstOfId(r, i)
      ensures ReplacedAt(r, i) in u.comments && u.comments[ReplacedAt(r, i)].createdAt == FirstSeen(r.comments[i].row.createdAt)
    {
      ReplacedCommentIsDated(y, r, u, i);
    }
    forall c: CommentKey | c.repo == r.node.repo && c.record == r.node.id
      ensures c in u.comments <==> exists i | 0 <= i < |r.comments| :: r.comments[i].id == c.comment
    {
      ReplacementNames(y, r, u, c);
    }
  }

  // ---- comments until the end of the batch ----

  /** The record's comments are the same. */
  ghost predicate SameComments(t: Tables, u: Tables, k: NodeKey) {
    forall c: CommentKey | c.repo == k.repo && c.record == k.id ::
      (c in u.comments <==> c in t.comments) && (c in t.comments ==> u.comments[c] == t.comments[c])
  }

  lemma CommentsStay(t: Tables, vs: seq<Write>, k: NodeKey)
    requires ExecAll(t, vs).Some?
    requires forall v | v in vs :: (v.PutComment? ==> OfComment(v.comment) != k) && v != ClearComments(k) && !v.DropStaleChildren? && !v.DropLive?
    ensures SameComments(t, ExecAll(t, vs).value, k)
  {
    forall c: CommentKey | c.repo == k.repo && c.record == k.id
      ensures var u := ExecAll(t, vs).value; (c in u.comments <==> c in t.comments) && (c in t.comments ==> u.comments[c] == t.comments[c])
    {
      assert OfComment(c) == k;
      StaysAlike(t, vs, CommentProbe(c));
    }
  }

  lemma ClosingSparesComments(t: Tables, v: Write, k: NodeKey)
    requires Closing(v) && Exec(t, v).Some? && k in Exec(t, v).value.records
    ensures k in t.records && SameComments(t, Exec(t, v).value, k)
  {
    if v.DropStaleChildren? {
      DeleteNodesIsExact(t, v.repo, StaleChildren(t, v.repo, v.parent, v.kind, v.keep));
    } else {
      CheckpointFrame(t, v);
      SameTablesSameComments(t, Exec(t, v).value, k);
    }
  }

  lemma SameTablesSameComments(t: Tables, u: Tables, k: NodeKey)
    requires SameCore(t, u) && SameLoose(t, u)
    ensures SameComments(t, u, k) && u.records == t.records
  {
  }

  /** Closing takes a record's comments only along with the record. */
  lemma {:induction false} ClosingKeepsComments(t: Tables, vs: seq<Write>, k: NodeKey)
    requires AllClosing(vs) && ExecAll(t, vs).Some? && k in ExecAll(t, vs).value.records
    ensures k in t.records && SameComments(t, ExecAll(t, vs).value, k)
    decreases |vs|
  {
    if vs != [] {
      var u := Exec(t, vs[0]).value;
      ClosingKeepsComments(u, vs[1..], k);
      ClosingSparesComments(t, vs[0], k);
    }
  }

  lemma ShownStays(p: Tables, s: Tables, r: CommentsReplacement)
    requires ReplacementShown(p, r) && SameComments(p, s, r.node)
    ensures ReplacementShown(s, r)
  {
  }

  function Replacements(b: Batch): seq<seq<Write>> { Each(r => ReplacementWrites(r), b.replaced) }

  function Foregoing(fts: bool, fingerprint: Fingerprint, now: string, b: Batch): seq<Write> {
    Concat(Parts(fts, fingerprint, b)) + Each(i => CommentSyncWrite(now, i), b.commentSyncs) + Each(k => ClearComments(k), b.cleared)
  }

  lemma LaterReplacements(b: Batch, i: nat, v: Write)
    requires i <= |b.replaced| && v in Concat(Replacements(b)[i..])
    ensures exists j | i <= j < |b.replaced| :: v in ReplacementWrites(b.replaced[j])
  {
    var j := InConcat(Replacements(b)[i..], v);
    assert v in ReplacementWrites(b.replaced[i + j]);
  }

  lemma OtherRecordsComments(b: Batch, i: nat, k: NodeKey)
    requires i <= |b.replaced| && forall j | i <= j < |b.replaced| :: b.replaced[j].node != k
    ensures forall v | v in Concat(Replacements(b)[i..]) ::
              (v.PutComment? ==> OfComment(v.comment) != k) && v != ClearComments(k) && !v.DropStaleChildren? && !v.DropLive?
  {
    forall v | v in Concat(Replacements(b)[i..])
      ensures (v.PutComment? ==> OfComment(v.comment) != k) && v != ClearComments(k) && !v.DropStaleChildren? && !v.DropLive?
    {
      LaterReplacements(b, i, v);
      var j :| i <= j < |b.replaced| && v in ReplacementWrites(b.replaced[j]);
      ReplacementPutsAre(b.replaced[j]);
    }
  }

  lemma PublishedAroundReplacement(fts: bool, fingerprint: Fingerprint, now: string, b: Batch, i: nat)
    requires i < |b.replaced|
    ensures Published(fts, fingerprint, now, b)
         == (Foregoing(fts, fingerprint, now, b) + Concat(Replacements(b)[..i])) + ReplacementWrites(b.replaced[i])
            + Concat(Replacements(b)[i + 1..])
  {
    ConcatAround(Replacements(b), i);
    Reassociate(Foregoing(fts, fingerprint, now, b), Concat(Replacements(b)[..i]), ReplacementWrites(b.replaced[i]), Concat(Replacements(b)[i + 1..]));
  }

  lemma Reassociate<T>(a: seq<T>, x: seq<T>, y: seq<T>, z: seq<T>)
    ensures a + (x + y + z) == (a + x) + y + z
  {
  }

  lemma PublishedReplacement(fts: bool, fingerprint: Fingerprint, now: string, t: Tables, b: Batch, p: Tables, i: nat)
    requires ExecAll(t, Published(fts, fingerprint, now, b)) == Some(p) && i < |b.replaced|
    requires forall j | i < j < |b.replaced| :: b.replaced[j].node != b.replaced[i].node
    ensures ReplacementShown(p, b.replaced[i])
  {
    var a, r, c := Foregoing(fts, fingerprint, now, b) + Concat(Replacements(b)[..i]), b.replaced[i], Concat(Replacements(b)[i + 1..]);
    PublishedAroundReplacement(fts, fingerprint, now, b, i);
    ExecAllConcat(t, a + ReplacementWrites(r), c);
    ExecAllConcat(t, a, ReplacementWrites(r));
    var y := ExecAll(t, a + ReplacementWrites(r)).value;
    ReplacementIsShown(ExecAll(t, a).value, r, y);
    OtherRecordsComments(b, i + 1, r.node);
    CommentsStay(y, c, r.node);
    ShownStays(y, p, r);
  }

  /** The state between publishing and closing: closing changes no comment of a record that it leaves there. */
  lemma CommentsAfter(fts: bool, fingerprint: Fingerprint, now: string, t: Tables, b: Batch, s: Tables, k: NodeKey) returns (p: Tables)
    requires ExecAll(t, BatchWrites(fts, fingerprint, now, b)) == Some(s) && k in s.records
    ensures ExecAll(t, Published(fts, fingerprint, now, b)) == Some(p) && SameComments(p, s, k)
  {
    var published, closing := Published(fts, fingerprint, now, b), Reconciled(b) + Checkpoint(now, b);
    assert BatchWrites(fts, fingerprint, now, b) == published + closing;
    ExecAllConcat(t, published, closing);
    p := ExecAll(t, published).value;
    ClosingIsConsistent(now, b);
    ClosingKeepsComments(p, closing, k);
  }

  /** A record whose comments a committed batch replaces has the comments of its last replacement, while it is there. */
  lemma CommittedReplacement(fts: bool, fingerprint: Fingerprint, now: string, t: Tables, b: Batch, s: Tables, i: nat)
    requires ExecAll(t, BatchWrites(fts, fingerprint, now, b)) == Some(s) && i < |b.replaced| && b.replaced[i].node in s.records
    requires forall j | i < j < |b.replaced| :: b.replaced[j].node != b.replaced[i].node
    ensures ReplacementShown(s, b.replaced[i])
  {
    var p := CommentsAfter(fts, fingerprint, now, t, b, s, b.replaced[i].node);
    PublishedReplacement(fts, fingerprint, now, t, b, p, i);
    ShownStays(p, s, b.replaced[i]);
  }

  /** A record whose comments are cleared and not replaced has none. */
  lemma CommittedClearing(fts: bool, fingerprint: Fingerprint, now: string, t: Tables, b: Batch, s: Tables, i: nat)
    requires ExecAll(t, BatchWrites(fts, fingerprint, now, b)) == Some(s) && i < |b.cleared| && b.cleared[i] in s.records
    requires forall j | 0 <= j < |b.replaced| :: b.replaced[j].node != b.cleared[i]
    ensures NoComments(s, b.cleared[i])
  {
    var p := CommentsAfter(fts, fingerprint, now, t, b, s, b.cleared[i]);
    PublishedClearing(fts, fingerprint, now, t, b, p, i);
  }

  function Clearings(b: Batch): seq<Write> { Each(k => ClearComments(k), b.cleared) }

  lemma PublishedAroundClearing(fts: bool, fingerprint: Fingerprint, now: string, b: Batch, i: nat)
    requires i < |b.cleared|
    ensures var a := Concat(Parts(fts, fingerprint, b)) + Each(x => CommentSyncWrite(now, x), b.commentSyncs) + Clearings(b)[..i];
            Published(fts, fingerprint, now, b) == a + ([ClearComments(b.cleared[i])] + (Clearings(b)[i + 1..] + Concat(Replacements(b))))
  {
    var cs := Clearings(b);
    assert cs[i] == ClearComments(b.cleared[i]) && cs == cs[..i] + [cs[i]] + cs[i + 1..];
    Regroup5(Concat(Parts(fts, fingerprint, b)), Each(x => CommentSyncWrite(now, x), b.commentSyncs), cs[..i], [cs[i]], cs[i + 1..], Concat(Replacements(b)));
  }

  lemma Regroup5<T>(g: seq<T>, x: seq<T>, a: seq<T>, w: seq<T>, c: seq<T>, z: seq<T>)
    ensures g + x + (a + w + c) + z == (g + x + a) + (w + (c + z))
  {
  }

  lemma PublishedClearing(fts: bool, fingerprint: Fingerprint, now: string, t: Tables, b: Batch, p: Tables, i: nat)
    requires ExecAll(t, Published(fts, fingerprint, now, b)) == Some(p) && i < |b.cleared|
    requires forall j | 0 <= j < |b.replaced| :: b.replaced[j].node != b.cleared[i]
    ensures NoComments(p, b.cleared[i])
  {
    var k := b.cleared[i];
    var a, c := Concat(Parts(fts, fingerprint, b)) + Each(x => CommentSyncWrite(now, x), b.commentSyncs) + Clearings(b)[..i],
                Clearings(b)[i + 1..] + Concat(Replacements(b));
    PublishedAroundClearing(fts, fingerprint, now, b, i);
    ExecAllConcat(t, a, [ClearComments(k)] + c);
    assert ([ClearComments(k)] + c)[1..] == c;
    var x := ExecAll(t, a).value;
    ClearCommentsIsExact(x, k);
    OtherRecordsComments(b, 0, k);
    assert Replacements(b)[0..] == Replacements(b);
    AbsentAfterClearing(Exec(x, ClearComments(k)).value, c, k);
  }

  lemma AbsentAfterClearing(y: Tables, vs: seq<Write>, k: NodeKey)
    requires NoComments(y, k) && ExecAll(y, vs).Some? && forall v | v in vs && v.PutComment? :: OfComment(v.comment) != k
    ensures NoComments(ExecAll(y, vs).value, k)
  {
    forall c: CommentKey | c.repo == k.repo && c.record == k.id ensures c !in ExecAll(y, vs).value.comments {
      assert OfComment(c) == k;
      StaysAbsent(y, vs, CommentProbe(c));
    }
  }

  // ---- rows that one graph is the last to write ----

  /** What follows graph l in the batch, to its end. */
  function Following(fts: bool, fingerprint: Fingerprint, now: string, b: Batch, l: nat): seq<Write>
    requires l < |b.graphs|
  {
    After(fts, fingerprint, now, b, l) + (Reconciled(b) + Checkpoint(now, b))
  }

  lemma GraphThenFollowing(fts: bool, fingerprint: Fingerprint, now: string, t: Tables, b: Batch, s: Tables, l: nat) returns (x: Tables, y: Tables)
    requires ExecAll(t, BatchWrites(fts, fingerprint, now, b)) == Some(s) && l < |b.graphs|
    ensures ExecAll(x, GraphWrites(fts, fingerprint, b.graphs[l])) == Some(y)
    ensures ExecAll(y, Following(fts, fingerprint, now, b, l)) == Some(s)
  {
    var published, closing := Published(fts, fingerprint, now, b), Reconciled(b) + Checkpoint(now, b);
    assert BatchWrites(fts, fingerprint, now, b) == published + closing;
    ExecAllConcat(t, published, closing);
    var p := ExecAll(t, published).value;
    x, y := StatesAround(fts, fingerprint, now, t, b, p, l);
    ExecAllConcat(y, After(fts, fingerprint, now, b, l), closing);
  }

  /** A later chunk is a later graph's. */
  lemma FollowingKinds(fts: bool, fingerprint: Fingerprint, now: string, b: Batch, l: nat, v: Write)
    requires l < |b.graphs| && v in Following(fts, fingerprint, now, b, l)
    requires v.PutChunk?
    ensures FromGraphs(fts, fingerprint, b.graphs[l + 1..], v)
  {
    ClosingIsConsistent(now, b);
    if v in After(fts, fingerprint, now, b, l) { AfterIsFromGraphs(fts, fingerprint, now, b, l, v); }
  }

  /** No graph after l has a piece under the key. */
  predicate LastForChunk(fingerprint: Fingerprint, b: Batch, l: nat, k: ChunkKey) {
    forall h, i | l < h < |b.graphs| && 0 <= i < |b.graphs[h].chunks| :: PieceAt(fingerprint, b.graphs[h], i) != k
  }

  lemma GraphPiece(fts: bool, fingerprint: Fingerprint, g: SyncGraph, v: Write) returns (i: nat)
    requires v in GraphWrites(fts, fingerprint, g) && v.PutChunk?
    ensures i < |g.chunks| && v.chunk == PieceAt(fingerprint, g, i)
  {
    GraphWritesOf(fts, fingerprint, g, v);
    var p :| p in g.chunks && v == PutChunk(PieceKey(fingerprint, Node(g), p), StoredPiece(Node(g), p));
    i :| 0 <= i < |g.chunks| && g.chunks[i] == p;
    PiecesOfGraph(fingerprint, g);
  }

  lemma LaterChunkDiffers(fts: bool, fingerprint: Fingerprint, now: string, b: Batch, l: nat, v: Write, k: ChunkKey)
    requires l < |b.graphs| && v in Following(fts, fingerprint, now, b, l) && v.PutChunk? && LastForChunk(fingerprint, b, l, k)
    ensures v.chunk != k
  {
    FollowingKinds(fts, fingerprint, now, b, l, v);
    var j :| 0 <= j < |b.graphs[l + 1..]| && v in GraphWrites(fts, fingerprint, b.graphs[l + 1..][j]);
    assert b.graphs[l + 1..][j] == b.graphs[l + 1 + j];
    var i := GraphPiece(fts, fingerprint, b.graphs[l + 1 + j], v);
  }

  lemma ChunkNotRewritten(fts: bool, fingerprint: Fingerprint, now: string, b: Batch, l: nat, w: Write)
    requires l < |b.graphs| && w.PutChunk? && LastForChunk(fingerprint, b, l, w.chunk)
    ensures NotRewritten(w, Following(fts, fingerprint, now, b, l))
  {
    forall v | v in Following(fts, fingerprint, now, b, l) ensures !SamePut(v, w) {
      if v.PutChunk? { LaterChunkDiffers(fts, fingerprint, now, b, l, v, w.chunk); }
    }
  }

  lemma ShownPieceStands(y: Tables, g: SyncGraph, p: Piece, k: ChunkKey, vs: seq<Write>, s: Tables)
    requires k in y.chunks && PieceOf(y.chunks[k], g, p.row) && ExecAll(y, vs) == Some(s)
    requires NotRewritten(PutChunk(k, StoredPiece(Node(g), p)), vs)
    ensures k in s.chunks ==> PieceOf(s.chunks[k], g, p.row)
  {
    PieceShows(g, p, y.chunks[k]);
    StandsThrough(y, PutChunk(k, StoredPiece(Node(g), p)), vs);
    if k in s.chunks { PieceShows(g, p, s.chunks[k]); }
  }

  /** A chunk shows the last piece of its key, while it is there. */
  lemma CommittedChunk(fts: bool, fingerprint: Fingerprint, now: string, t: Tables, b: Batch, s: Tables, l: nat, i: nat)
    requires ExecAll(t, BatchWrites(fts, fingerprint, now, b)) == Some(s) && l < |b.graphs| && i < |b.graphs[l].chunks|
    requires LastPiece(fingerprint, b.graphs[l], i) && LastForChunk(fingerprint, b, l, PieceAt(fingerprint, b.graphs[l], i))
    ensures var k := PieceAt(fingerprint, b.graphs[l], i); k in s.chunks ==> PieceOf(s.chunks[k], b.graphs[l], b.graphs[l].chunks[i].row)
  {
    var g, k := b.graphs[l], PieceAt(fingerprint, b.graphs[l], i);
    var x, y := GraphThenFollowing(fts, fingerprint, now, t, b, s, l);
    PublishedGraphIsShown(fts, fingerprint, x, g, y);
    ChunkNotRewritten(fts, fingerprint, now, b, l, PutChunk(k, StoredPiece(Node(g), g.chunks[i])));
    ShownPieceStands(y, g, g.chunks[i], k, Following(fts, fingerprint, now, b, l), s);
  }

  // ---- comment syncs ----

  predicate SyncShown(now: string, row: CommentSync, given: CommentSync) {
    && row.number == given.number && row.remoteId == given.remoteId && row.providerId == given.providerId
    && row.revision == given.revision && row.expected == given.expected && row.status == given.status
    && row.attempts == given.attempts && row.errorClass == given.errorClass && row.retryAfter == given.retryAfter
    && row.lastAttemptAt == given.lastAttemptAt && row.updatedAt == Otherwise(given.updatedAt, now)
  }

  function SyncPuts(now: string, b: Batch): seq<Write> { Each(i => CommentSyncWrite(now, i), b.commentSyncs) }

  lemma SyncsAround(fts: bool, fingerprint: Fingerprint, now: string, b: Batch)
    ensures BatchWrites(fts, fingerprint, now, b)
         == Concat(Parts(fts, fingerprint, b)) + SyncPuts(now, b) + ((Clearings(b) + Concat(Replacements(b))) + (Reconciled(b) + Checkpoint(now, b)))
  {
    Regroup6(Concat(Parts(fts, fingerprint, b)), SyncPuts(now, b), Clearings(b), Concat(Replacements(b)), Reconciled(b), Checkpoint(now, b));
  }

  lemma Regroup6<T>(g: seq<T>, x: seq<T>, c: seq<T>, z: seq<T>, r: seq<T>, k: seq<T>)
    ensures (g + x + c + z) + r + k == g + x + ((c + z) + (r + k))
  {
  }

  lemma NoSyncAfter(now: string, b: Batch)
    ensures forall v | v in (Clearings(b) + Concat(Replacements(b))) + (Reconciled(b) + Checkpoint(now, b)) :: !v.PutCommentSync?
  {
    ClosingIsConsistent(now, b);
    forall v | v in Concat(Replacements(b)) ensures !v.PutCommentSync? {
      assert Replacements(b)[0..] == Replacements(b);
      LaterReplacements(b, 0, v);
      var j :| 0 <= j < |b.replaced| && v in ReplacementWrites(b.replaced[j]);
      ReplacementPutsAre(b.replaced[j]);
    }
  }

  lemma LastSyncStands(fts: bool, fingerprint: Fingerprint, now: string, t: Tables, b: Batch, s: Tables, i: nat)
    requires ExecAll(t, BatchWrites(fts, fingerprint, now, b)) == Some(s) && i < |b.commentSyncs|
    requires forall j | i < j < |b.commentSyncs| :: b.commentSyncs[j].node != b.commentSyncs[i].node
    ensures Stands(s, CommentSyncWrite(now, b.commentSyncs[i]))
  {
    var a, ps := Concat(Parts(fts, fingerprint, b)), SyncPuts(now, b);
    var c := (Clearings(b) + Concat(Replacements(b))) + (Reconciled(b) + Checkpoint(now, b));
    SyncsAround(fts, fingerprint, now, b);
    NoSyncAfter(now, b);
    assert forall j | 0 <= j < |ps| :: ps[j] == CommentSyncWrite(now, b.commentSyncs[j]);
    forall j | i < j < |ps| ensures !SamePut(ps[j], ps[i]) {}
    PhaseStands(t, a, ps, c, i);
  }

  /** The comment sync of a node shows the last one handed in, while the node is there. */
  lemma CommittedSync(fts: bool, fingerprint: Fingerprint, now: string, t: Tables, b: Batch, s: Tables, i: nat)
    requires ExecAll(t, BatchWrites(fts, fingerprint, now, b)) == Some(s) && i < |b.commentSyncs|
    requires forall j | i < j < |b.commentSyncs| :: b.commentSyncs[j].node != b.commentSyncs[i].node
    ensures var k := b.commentSyncs[i].node; k in s.commentSyncs ==> SyncShown(now, s.commentSyncs[k], b.commentSyncs[i].row)
  {
    LastSyncStands(fts, fingerprint, now, t, b, s, i);
    SyncStands(now, s, b.commentSyncs[i]);
  }

  lemma SyncStands(now: string, s: Tables, i: CommentSyncInput)
    requires Stands(s, CommentSyncWrite(now, i))
    ensures i.node in s.commentSyncs ==> SyncShown(now, s.commentSyncs[i.node], i.row)
  {
  }
}
