/** What a committed batch leaves of the nodes its graphs name, in the terms of what the caller handed in. */
module SyncCommitted {
  import opened Wrappers
  import opened Collections
  import opened Text
  import opened Records
  import opened RecordsContent
  import opened RecordsOutcomes
  import opened RecordsLasting
  import opened SyncBatch
  import opened SyncReplay
  import opened SyncRows
  import opened SyncStatements
  import opened SyncPublished

  // ---- the statements of a batch around those of one graph ----

  function Parts(fts: bool, fingerprint: Fingerprint, b: Batch): seq<seq<Write>> {
    Each(g => GraphWrites(fts, fingerprint, g), b.graphs)
  }

  /** What a batch publishes after its graphs: comment syncs and comments. */
  function Remarks(now: string, b: Batch): seq<Write> {
    Each(i => CommentSyncWrite(now, i), b.commentSyncs) + Each(k => ClearComments(k), b.cleared)
    + Concat(Each(r => ReplacementWrites(r), b.replaced))
  }

  lemma {:induction false} ConcatAround<T>(xss: seq<seq<T>>, i: nat)
    requires i < |xss|
    ensures Concat(xss) == Concat(xss[..i]) + xss[i] + Concat(xss[i + 1..])
    decreases i
  {
    if i == 0 {
      assert xss[..0] == [];
    } else {
      ConcatAround(xss[1..], i - 1);
      assert xss[1..][..i - 1] == xss[..i][1..] && xss[1..][i..] == xss[i + 1..];
    }
  }

  /** The statements before and after those of graph i. */
  function Before(fts: bool, fingerprint: Fingerprint, b: Batch, i: nat): seq<Write>
    requires i < |b.graphs|
  {
    Concat(Parts(fts, fingerprint, b)[..i])
  }

  function After(fts: bool, fingerprint: Fingerprint, now: string, b: Batch, i: nat): seq<Write>
    requires i < |b.graphs|
  {
    Concat(Parts(fts, fingerprint, b)[i + 1..]) + Remarks(now, b)
  }

  lemma PublishedAround(fts: bool, fingerprint: Fingerprint, now: string, b: Batch, i: nat)
    requires i < |b.graphs|
    ensures Published(fts, fingerprint, now, b)
         == Before(fts, fingerprint, b, i) + GraphWrites(fts, fingerprint, b.graphs[i]) + After(fts, fingerprint, now, b, i)
  {
    ConcatAround(Parts(fts, fingerprint, b), i);
    Regather(Before(fts, fingerprint, b, i), GraphWrites(fts, fingerprint, b.graphs[i]), Concat(Parts(fts, fingerprint, b)[i + 1..]),
             Each(i => CommentSyncWrite(now, i), b.commentSyncs), Each(k => ClearComments(k), b.cleared),
             Concat(Each(r => ReplacementWrites(r), b.replaced)));
  }

  lemma Regather<T>(a: seq<T>, g: seq<T>, c: seq<T>, x: seq<T>, y: seq<T>, z: seq<T>)
    ensures (a + g + c) + x + y + z == a + g + (c + (x + y + z))
  {
  }

  /** The graphs of one part of a batch. */
  ghost predicate FromGraphs(fts: bool, fingerprint: Fingerprint, gs: seq<SyncGraph>, w: Write) {
    exists j | 0 <= j < |gs| :: w in GraphWrites(fts, fingerprint, gs[j])
  }

  lemma BeforeIsFromGraphs(fts: bool, fingerprint: Fingerprint, b: Batch, i: nat, w: Write)
    requires i < |b.graphs| && w in Before(fts, fingerprint, b, i)
    ensures FromGraphs(fts, fingerprint, b.graphs[..i], w)
  {
    var j := InConcat(Parts(fts, fingerprint, b)[..i], w);
    assert w in GraphWrites(fts, fingerprint, b.graphs[..i][j]);
  }

  lemma AfterIsFromGraphs(fts: bool, fingerprint: Fingerprint, now: string, b: Batch, i: nat, w: Write)
    requires i < |b.graphs| && w in After(fts, fingerprint, now, b, i)
    ensures FromGraphs(fts, fingerprint, b.graphs[i + 1..], w) || w.PutCommentSync? || w.ClearComments? || w.PutComment?
  {
    if w in Concat(Parts(fts, fingerprint, b)[i + 1..]) {
      var j := InConcat(Parts(fts, fingerprint, b)[i + 1..], w);
      assert w in GraphWrites(fts, fingerprint, b.graphs[i + 1..][j]);
    } else if w in Concat(Each(r => ReplacementWrites(r), b.replaced)) {
      var j := InConcat(Each(r => ReplacementWrites(r), b.replaced), w);
      assert w in ReplacementWrites(b.replaced[j]);
    }
  }

  /** A statement that is no graph's of the node k, and deletes no node. */
  predicate Aside(v: Write, k: NodeKey) { !v.DropStaleChildren? && !v.DropLive? && !(OfNode(v) && v.node == k) }

  lemma GraphAside(fts: bool, fingerprint: Fingerprint, gs: seq<SyncGraph>, k: NodeKey, v: Write)
    requires FromGraphs(fts, fingerprint, gs, v) && forall j | 0 <= j < |gs| :: KeyOf(gs[j]) != k
    ensures Aside(v, k)
  {
    var j :| 0 <= j < |gs| && v in GraphWrites(fts, fingerprint, gs[j]);
    NodeIsKey(gs[j]);
    GraphWritesOf(fts, fingerprint, gs[j], v);
  }

  /** A published statement deletes no node, and names a provider's record only if a graph does. */
  lemma GraphSpeaks(fts: bool, fingerprint: Fingerprint, gs: seq<SyncGraph>, k: NodeKey, v: Write)
    requires FromGraphs(fts, fingerprint, gs, v)
    ensures !v.DropStaleChildren? && !v.DropLive?
    ensures SpeaksOf(v, k) ==> exists j | 0 <= j < |gs| :: KeyOf(gs[j]) == k && ProviderGraph(gs[j])
  {
    var j :| 0 <= j < |gs| && v in GraphWrites(fts, fingerprint, gs[j]);
    NodeIsKey(gs[j]);
    GraphWritesOf(fts, fingerprint, gs[j], v);
    RowsOfGraph(gs[j]);
  }

  // ---- a node's rows through the statements around its graph ----

  function SourceProbe(k: NodeKey): Write { PutSource(k, Source("", "", "", "", "", [], "", Unset, "", "")) }
  function SearchProbe(k: NodeKey): Write { PutSearch(k, Projection("", "", "")) }
  function RecordProbe(k: NodeKey): Write { PutRecord(k, Record("", "", "", "", "", [], "", Unset, "", "", "", "", "")) }

  /** Source, search row and record of a node are the same. */
  predicate SameNode(t: Tables, u: Tables, k: NodeKey) {
    && (k in u.sources <==> k in t.sources) && (k in t.sources ==> u.sources[k] == t.sources[k])
    && (k in u.search <==> k in t.search) && (k in t.search ==> u.search[k] == t.search[k])
    && (k in u.records <==> k in t.records) && (k in t.records ==> u.records[k] == t.records[k])
  }

  lemma AsideSparesNode(t: Tables, vs: seq<Write>, k: NodeKey)
    requires ExecAll(t, vs).Some? && forall v | v in vs :: Aside(v, k)
    ensures SameNode(t, ExecAll(t, vs).value, k)
  {
    StaysAlike(t, vs, SourceProbe(k));
    StaysAlike(t, vs, SearchProbe(k));
    StaysAlike(t, vs, RecordProbe(k));
  }

  /** No graph before f and none after l names the node. */
  ghost predicate Spans(b: Batch, k: NodeKey, f: nat, l: nat) {
    && f <= l < |b.graphs| && KeyOf(b.graphs[f]) == k && KeyOf(b.graphs[l]) == k
    && (forall j | 0 <= j < f :: KeyOf(b.graphs[j]) != k) && (forall j | l < j < |b.graphs| :: KeyOf(b.graphs[j]) != k)
  }

  lemma {:induction false} DatesStay(t: Tables, vs: seq<Write>, k: NodeKey)
    requires ExecAll(t, vs).Some? && forall v | v in vs :: !v.DropStaleChildren? && !v.DropLive?
    ensures var u := ExecAll(t, vs).value;
            && (k in t.sources ==> k in u.sources && u.sources[k].createdAt == t.sources[k].createdAt)
            && (k in t.records ==> k in u.records && u.records[k].createdAt == t.records[k].createdAt)
  {
    if k in t.sources { OriginStays(t, vs, SourceProbe(k)); }
    if k in t.records { OriginStays(t, vs, RecordProbe(k)); }
  }

  lemma NoNodeDeleted(fts: bool, fingerprint: Fingerprint, now: string, b: Batch, i: nat)
    requires i < |b.graphs|
    ensures forall v | v in Before(fts, fingerprint, b, i) :: !v.DropStaleChildren? && !v.DropLive?
    ensures forall v | v in After(fts, fingerprint, now, b, i) :: !v.DropStaleChildren? && !v.DropLive?
    ensures forall v | v in GraphWrites(fts, fingerprint, b.graphs[i]) :: !v.DropStaleChildren? && !v.DropLive?
  {
    var k := NodeKey("", "");
    forall v | v in Before(fts, fingerprint, b, i) ensures !v.DropStaleChildren? && !v.DropLive? {
      BeforeIsFromGraphs(fts, fingerprint, b, i, v);
      GraphSpeaks(fts, fingerprint, b.graphs[..i], k, v);
    }
    forall v | v in After(fts, fingerprint, now, b, i) ensures !v.DropStaleChildren? && !v.DropLive? {
      AfterIsFromGraphs(fts, fingerprint, now, b, i, v);
      if FromGraphs(fts, fingerprint, b.graphs[i + 1..], v) { GraphSpeaks(fts, fingerprint, b.graphs[i + 1..], k, v); }
    }
    forall v | v in GraphWrites(fts, fingerprint, b.graphs[i]) ensures !v.DropStaleChildren? && !v.DropLive? {
      GraphWritesOf(fts, fingerprint, b.graphs[i], v);
    }
  }

  /** The states around graph i when a batch is published. */
  lemma StatesAround(fts: bool, fingerprint: Fingerprint, now: string, t: Tables, b: Batch, p: Tables, i: nat) returns (x: Tables, y: Tables)
    requires i < |b.graphs| && ExecAll(t, Published(fts, fingerprint, now, b)) == Some(p)
    ensures ExecAll(t, Before(fts, fingerprint, b, i)) == Some(x)
    ensures ExecAll(x, GraphWrites(fts, fingerprint, b.graphs[i])) == Some(y)
    ensures ExecAll(y, After(fts, fingerprint, now, b, i)) == Some(p)
  {
    PublishedAround(fts, fingerprint, now, b, i);
    var a, g, c := Before(fts, fingerprint, b, i), GraphWrites(fts, fingerprint, b.graphs[i]), After(fts, fingerprint, now, b, i);
    ExecAllConcat(t, a + g, c);
    ExecAllConcat(t, a, g);
    x := ExecAll(t, a).value;
    y := ExecAll(x, g).value;
  }

  // ---- columns, creation times and identity after publication ----

  predicate ColumnsOf(fts: bool, p: Tables, k: NodeKey, g: SyncGraph) {
    && k in p.sources && SourceOfGraph(p.sources[k], g) && k in p.records && RecordOfGraph(p.records[k], g)
    && (fts ==> k in p.search && SearchOfGraph(p.search[k], g))
  }

  predicate DatedBy(t: Tables, p: Tables, k: NodeKey, g: SyncGraph) {
    && k in p.sources && k in p.records
    && p.sources[k].createdAt == (if k in t.sources then t.sources[k].createdAt else FirstSeen(g.record.row.createdAt))
    && p.records[k].createdAt == (if k in t.records then t.records[k].createdAt else FirstSeen(g.record.row.createdAt))
  }

  /** The last provider that speaks of the node names the record; if none does, a provider's record keeps its identity,
      and any other gets the last graph's. */
  ghost predicate NamedIn(t: Tables, p: Tables, b: Batch, k: NodeKey, l: nat)
    requires l < |b.graphs| && k in p.records
  {
    && (forall i | 0 <= i < |b.graphs| && KeyOf(b.graphs[i]) == k && ProviderGraph(b.graphs[i])
                   && (forall j | i < j < |b.graphs| && KeyOf(b.graphs[j]) == k :: !ProviderGraph(b.graphs[j])) ::
          NamedBy(p.records[k], b.graphs[i]))
    && ((forall i | 0 <= i < |b.graphs| && KeyOf(b.graphs[i]) == k :: !ProviderGraph(b.graphs[i])) ==>
          if k in t.records && Speaks(t.records[k]) then IdentityShows(p.records[k], t.records[k]) else NamedBy(p.records[k], b.graphs[l]))
  }

  lemma LastGraphShows(fts: bool, fingerprint: Fingerprint, now: string, t: Tables, b: Batch, p: Tables, k: NodeKey, f: nat, l: nat)
    requires Spans(b, k, f, l) && ExecAll(t, Published(fts, fingerprint, now, b)) == Some(p)
    ensures ColumnsOf(fts, p, k, b.graphs[l])
  {
    var x, y := StatesAround(fts, fingerprint, now, t, b, p, l);
    PublishedGraphIsShown(fts, fingerprint, x, b.graphs[l], y);
    LaterAside(fts, fingerprint, now, b, k, f, l);
    AsideSparesNode(y, After(fts, fingerprint, now, b, l), k);
  }

  lemma LaterAside(fts: bool, fingerprint: Fingerprint, now: string, b: Batch, k: NodeKey, f: nat, l: nat)
    requires Spans(b, k, f, l)
    ensures forall v | v in After(fts, fingerprint, now, b, l) :: Aside(v, k)
  {
    forall v | v in After(fts, fingerprint, now, b, l) ensures Aside(v, k) {
      AfterIsFromGraphs(fts, fingerprint, now, b, l, v);
      if FromGraphs(fts, fingerprint, b.graphs[l + 1..], v) { GraphAside(fts, fingerprint, b.graphs[l + 1..], k, v); }
    }
  }

  lemma EarlierAside(fts: bool, fingerprint: Fingerprint, b: Batch, k: NodeKey, f: nat, l: nat)
    requires Spans(b, k, f, l)
    ensures forall v | v in Before(fts, fingerprint, b, f) :: Aside(v, k)
  {
    forall v | v in Before(fts, fingerprint, b, f) ensures Aside(v, k) {
      BeforeIsFromGraphs(fts, fingerprint, b, f, v);
      GraphAside(fts, fingerprint, b.graphs[..f], k, v);
    }
  }

  lemma FirstGraphDates(fts: bool, fingerprint: Fingerprint, now: string, t: Tables, b: Batch, p: Tables, k: NodeKey, f: nat, l: nat)
    requires Spans(b, k, f, l) && ExecAll(t, Published(fts, fingerprint, now, b)) == Some(p)
    ensures DatedBy(t, p, k, b.graphs[f])
  {
    var x, y := StatesAround(fts, fingerprint, now, t, b, p, f);
    EarlierAside(fts, fingerprint, b, k, f, l);
    AsideSparesNode(t, Before(fts, fingerprint, b, f), k);
    PublishedGraphIsShown(fts, fingerprint, x, b.graphs[f], y);
    NoNodeDeleted(fts, fingerprint, now, b, f);
    DatesStay(y, After(fts, fingerprint, now, b, f), k);
  }

  lemma AfterIsSilent(fts: bool, fingerprint: Fingerprint, now: string, b: Batch, k: NodeKey, i: nat)
    requires i < |b.graphs| && forall j | i < j < |b.graphs| && KeyOf(b.graphs[j]) == k :: !ProviderGraph(b.graphs[j])
    ensures Silent(After(fts, fingerprint, now, b, i), k)
  {
    forall v | v in After(fts, fingerprint, now, b, i) ensures !SpeaksOf(v, k) {
      AfterIsFromGraphs(fts, fingerprint, now, b, i, v);
      if FromGraphs(fts, fingerprint, b.graphs[i + 1..], v) { GraphSpeaks(fts, fingerprint, b.graphs[i + 1..], k, v); }
    }
  }

  lemma ProviderNames(fts: bool, fingerprint: Fingerprint, now: string, t: Tables, b: Batch, p: Tables, k: NodeKey, i: nat)
    requires ExecAll(t, Published(fts, fingerprint, now, b)) == Some(p)
    requires i < |b.graphs| && KeyOf(b.graphs[i]) == k && ProviderGraph(b.graphs[i])
    requires forall j | i < j < |b.graphs| && KeyOf(b.graphs[j]) == k :: !ProviderGraph(b.graphs[j])
    ensures k in p.records && NamedBy(p.records[k], b.graphs[i])
  {
    var x, y := StatesAround(fts, fingerprint, now, t, b, p, i);
    PublishedGraphIsShown(fts, fingerprint, x, b.graphs[i], y);
    NoNodeDeleted(fts, fingerprint, now, b, i);
    AfterIsSilent(fts, fingerprint, now, b, k, i);
    SpokenStays(y, After(fts, fingerprint, now, b, i), k);
  }

  /** Where no graph of the node comes from a provider, nothing before its last graph speaks for one either. */
  lemma BeforeIsSilent(fts: bool, fingerprint: Fingerprint, b: Batch, k: NodeKey, l: nat)
    requires l < |b.graphs| && forall i | 0 <= i < |b.graphs| && KeyOf(b.graphs[i]) == k :: !ProviderGraph(b.graphs[i])
    ensures Silent(Before(fts, fingerprint, b, l), k) && DeletesNoRecord(Before(fts, fingerprint, b, l))
  {
    forall v | v in Before(fts, fingerprint, b, l) ensures !SpeaksOf(v, k) && !v.DropStaleChildren? && !v.DropLive? {
      BeforeIsFromGraphs(fts, fingerprint, b, l, v);
      GraphSpeaks(fts, fingerprint, b.graphs[..l], k, v);
    }
  }

  lemma {:induction false} UnspokenStays(t: Tables, vs: seq<Write>, k: NodeKey)
    requires !Spoken(t, k) && Silent(vs, k) && DeletesNoRecord(vs) && ExecAll(t, vs).Some?
    ensures !Spoken(ExecAll(t, vs).value, k)
    decreases |vs|
  {
    if vs != [] {
      UnspokenStep(t, vs[0], k);
      UnspokenStays(Exec(t, vs[0]).value, vs[1..], k);
    }
  }

  lemma NobodyNames(fts: bool, fingerprint: Fingerprint, now: string, t: Tables, b: Batch, p: Tables, k: NodeKey, f: nat, l: nat)
    requires Spans(b, k, f, l) && ExecAll(t, Published(fts, fingerprint, now, b)) == Some(p)
    requires forall i | 0 <= i < |b.graphs| && KeyOf(b.graphs[i]) == k :: !ProviderGraph(b.graphs[i])
    ensures k in p.records
    ensures if k in t.records && Speaks(t.records[k]) then IdentityShows(p.records[k], t.records[k]) else NamedBy(p.records[k], b.graphs[l])
  {
    var x, y := StatesAround(fts, fingerprint, now, t, b, p, l);
    BeforeIsSilent(fts, fingerprint, b, k, l);
    if Spoken(t, k) {
      SpokenStays(t, Before(fts, fingerprint, b, l), k);
    } else {
      UnspokenStays(t, Before(fts, fingerprint, b, l), k);
    }
    PublishedGraphIsShown(fts, fingerprint, x, b.graphs[l], y);
    LaterAside(fts, fingerprint, now, b, k, f, l);
    AsideSparesNode(y, After(fts, fingerprint, now, b, l), k);
  }

  lemma PublishedNode(fts: bool, fingerprint: Fingerprint, now: string, t: Tables, b: Batch, p: Tables, k: NodeKey, f: nat, l: nat)
    requires Spans(b, k, f, l) && ExecAll(t, Published(fts, fingerprint, now, b)) == Some(p)
    ensures ColumnsOf(fts, p, k, b.graphs[l]) && DatedBy(t, p, k, b.graphs[f]) && NamedIn(t, p, b, k, l)
  {
    LastGraphShows(fts, fingerprint, now, t, b, p, k, f, l);
    FirstGraphDates(fts, fingerprint, now, t, b, p, k, f, l);
    forall i | 0 <= i < |b.graphs| && KeyOf(b.graphs[i]) == k && ProviderGraph(b.graphs[i])
               && (forall j | i < j < |b.graphs| && KeyOf(b.graphs[j]) == k :: !ProviderGraph(b.graphs[j]))
      ensures NamedBy(p.records[k], b.graphs[i])
    {
      ProviderNames(fts, fingerprint, now, t, b, p, k, i);
    }
    if forall i | 0 <= i < |b.graphs| && KeyOf(b.graphs[i]) == k :: !ProviderGraph(b.graphs[i]) {
      NobodyNames(fts, fingerprint, now, t, b, p, k, f, l);
    }
  }

  // ---- the committed batch ----

  lemma OutlastedNode(p: Tables, s: Tables, k: NodeKey)
    requires Outlasts(p, s, k) && k in s.sources
    ensures SameNode(p, s, k)
  {
    assert k in p.sources <==> Get(p.sources, k).Some?;
    assert k in p.search <==> Get(p.search, k).Some?;
    assert k in p.records <==> Get(p.records, k).Some?;
  }

  /** The state between publishing and closing: closing changes no node that it leaves there. */
  lemma ClosesAfter(t: Tables, published: seq<Write>, closing: seq<Write>, s: Tables, k: NodeKey) returns (p: Tables)
    requires ExecAll(t, published + closing) == Some(s) && AllClosing(closing) && k in s.sources
    ensures ExecAll(t, published) == Some(p) && SameNode(p, s, k)
  {
    ExecAllConcat(t, published, closing);
    p := ExecAll(t, published).value;
    AllClosingOutlasts(p, closing, k);
    OutlastedNode(p, s, k);
  }

  lemma CommittedAfter(fts: bool, fingerprint: Fingerprint, now: string, t: Tables, b: Batch, s: Tables, k: NodeKey) returns (p: Tables)
    requires ExecAll(t, BatchWrites(fts, fingerprint, now, b)) == Some(s) && k in s.sources
    ensures ExecAll(t, Published(fts, fingerprint, now, b)) == Some(p) && SameNode(p, s, k)
  {
    var published, closing := Published(fts, fingerprint, now, b), Reconciled(b) + Checkpoint(now, b);
    assert BatchWrites(fts, fingerprint, now, b) == published + closing;
    ClosingIsConsistent(now, b);
    p := ClosesAfter(t, published, closing, s, k);
  }

  /** A node that a committed batch names and leaves there carries the columns of the last graph for it, the creation
      time it had or else the first graph's, and the identity of the last provider. */
  lemma CommittedNode(fts: bool, fingerprint: Fingerprint, now: string, t: Tables, b: Batch, s: Tables, k: NodeKey, f: nat, l: nat)
    requires ExecAll(t, BatchWrites(fts, fingerprint, now, b)) == Some(s) && Spans(b, k, f, l) && k in s.sources
    ensures ColumnsOf(fts, s, k, b.graphs[l]) && DatedBy(t, s, k, b.graphs[f]) && NamedIn(t, s, b, k, l)
  {
    var p := CommittedAfter(fts, fingerprint, now, t, b, s, k);
    PublishedNode(fts, fingerprint, now, t, b, p, k, f, l);
    SameRows(fts, t, b, p, s, k, f, l);
  }

  lemma SameRows(fts: bool, t: Tables, b: Batch, p: Tables, s: Tables, k: NodeKey, f: nat, l: nat)
    requires Spans(b, k, f, l) && k in s.sources && SameNode(p, s, k)
    requires ColumnsOf(fts, p, k, b.graphs[l]) && DatedBy(t, p, k, b.graphs[f]) && NamedIn(t, p, b, k, l)
    ensures ColumnsOf(fts, s, k, b.graphs[l]) && DatedBy(t, s, k, b.graphs[f]) && NamedIn(t, s, b, k, l)
  {
  }

  /** A node that no graph names is as it was, unless it is gone. */
  lemma UnnamedNode(fts: bool, fingerprint: Fingerprint, now: string, t: Tables, b: Batch, s: Tables, k: NodeKey)
    requires ExecAll(t, BatchWrites(fts, fingerprint, now, b)) == Some(s)
    requires (forall j | 0 <= j < |b.graphs| :: KeyOf(b.graphs[j]) != k) && k in s.sources
    ensures SameNode(t, s, k)
  {
    var p := CommittedAfter(fts, fingerprint, now, t, b, s, k);
    forall v | v in Published(fts, fingerprint, now, b) ensures Aside(v, k) { PublishedAside(fts, fingerprint, now, b, k, v); }
    AsideSparesNode(t, Published(fts, fingerprint, now, b), k);
  }

  lemma PublishedAside(fts: bool, fingerprint: Fingerprint, now: string, b: Batch, k: NodeKey, v: Write)
    requires v in Published(fts, fingerprint, now, b) && forall j | 0 <= j < |b.graphs| :: KeyOf(b.graphs[j]) != k
    ensures Aside(v, k)
  {
    if v in Concat(Parts(fts, fingerprint, b)) {
      var j := InConcat(Parts(fts, fingerprint, b), v);
      assert v in GraphWrites(fts, fingerprint, b.graphs[j]);
      GraphAside(fts, fingerprint, b.graphs, k, v);
    } else if v in Concat(Each(r => ReplacementWrites(r), b.replaced)) {
      var j := InConcat(Each(r => ReplacementWrites(r), b.replaced), v);
      assert v in ReplacementWrites(b.replaced[j]);
    }
  }

  // ---- the closing statements ----

  /** Frontier, maintenance and receipt rows as handed in; a time that is left out is the epoch or the run's. */
  ghost predicate CheckpointsShown(now: string, t: Tables, s: Tables, b: Batch) {
    && (b.frontier.Some? ==> FrontierShown(s, b.frontier.value))
    && (b.maintenance.Some? ==> MaintenanceShown(now, t, s, b.maintenance.value))
    && (b.receipt.Some? ==> ReceiptShown(now, s, b.receipt.value))
  }

  predicate FrontierShown(s: Tables, f: FrontierInput) {
    && f.key in s.frontiers
    && var row := s.frontiers[f.key];
       && row.status == f.row.status && row.highUpdatedAt == f.row.highUpdatedAt && row.highRemoteId == f.row.highRemoteId
       && row.highNumber == f.row.highNumber && row.stopReason == f.row.stopReason && row.pages == f.row.pages
       && row.records == f.row.records && row.updatedAt == FirstSeen(f.row.updatedAt)
  }

  /** A success is dated by itself, or by the update if the lane did not degrade or err; else the last one stays. */
  predicate MaintenanceShown(now: string, t: Tables, s: Tables, m: MaintenanceInput) {
    && m.key in s.maintenance
    && var row, updated := s.maintenance[m.key], Otherwise(m.row.updatedAt, now);
       && row.status == m.row.status && row.highUpdatedAt == m.row.highUpdatedAt && row.highRemoteId == m.row.highRemoteId
       && row.highNumber == m.row.highNumber && row.stopReason == m.row.stopReason && row.pages == m.row.pages
       && row.records == m.row.records && row.checkpoint == m.row.checkpoint && row.errorClass == m.row.errorClass
       && row.updatedAt == updated
       && row.lastSuccessAt ==
            (if m.row.lastSuccessAt != "" then m.row.lastSuccessAt
             else if m.row.errorClass == "" && m.row.status != "degraded" && updated != "" then updated
             else if m.key in t.maintenance then t.maintenance[m.key].lastSuccessAt else "")
  }

  predicate ReceiptShown(now: string, s: Tables, r: ReceiptInput) {
    && r.stage in s.receipts
    && var row := s.receipts[r.stage];
       && row.checksum == r.row.checksum && row.repo == r.row.repo && row.collection == r.row.collection
       && row.committedAt == Otherwise(r.row.committedAt, now)
  }

  /** The last statements of a batch, at most one of each kind. */
  lemma CheckpointsAreShown(now: string, x: Tables, b: Batch, s: Tables)
    requires ExecAll(x, Checkpoint(now, b)) == Some(s)
    ensures CheckpointsShown(now, x, s, b)
  {
    if b.frontier.Some? { FrontierIsShown(now, x, b, s); }
    if b.maintenance.Some? { MaintenanceIsShown(now, x, b, s); }
    if b.receipt.Some? { ReceiptIsShown(now, x, b, s); }
  }

  function FrontierPut(b: Batch): seq<Write> {
    match b.frontier case None => [] case Some(f) => [PutFrontier(f.key, f.row.(updatedAt := Or(f.row.updatedAt, EPOCH)))]
  }

  function MaintenancePut(now: string, b: Batch): seq<Write> {
    match b.maintenance case None => [] case Some(m) => [PutMaintenance(m.key, StoredMaintenance(now, m.row))]
  }

  function ReceiptPut(now: string, b: Batch): seq<Write> {
    match b.receipt case None => [] case Some(r) => [PutReceipt(r.stage, r.row.(committedAt := Or(r.row.committedAt, now)))]
  }

  /** One statement, and none of its key after it. */
  lemma LonePut(t: Tables, a: seq<Write>, w: Write, c: seq<Write>, u: Tables)
    requires ExecAll(t, a + [w] + c) == Some(u) && Puts(w) && NotRewritten(w, c) && NotErased(w, c)
    ensures There(u, w) && Shows(u, w)
  {
    assert NotErased(w, [w]);
    PhaseThere(t, a, [w], c, 0);
    PhaseStands(t, a, [w], c, 0);
  }

  lemma CheckpointKinds(now: string, b: Batch)
    ensures Checkpoint(now, b) == FrontierPut(b) + MaintenancePut(now, b) + ReceiptPut(now, b)
    ensures (forall v | v in FrontierPut(b) :: v.PutFrontier?) && (forall v | v in MaintenancePut(now, b) :: v.PutMaintenance?)
    ensures forall v | v in ReceiptPut(now, b) :: v.PutReceipt?
  {
  }

  lemma LoneFrontier(x: Tables, put: Write, c: seq<Write>, s: Tables)
    requires ExecAll(x, [put] + c) == Some(s) && put.PutFrontier? && forall v | v in c :: v.PutMaintenance? || v.PutReceipt?
    ensures There(s, put) && Shows(s, put)
  {
    assert [] + [put] + c == [put] + c;
    forall v | v in c ensures !SamePut(v, put) && !Erases(v, put) {}
    LonePut(x, [], put, c, s);
  }

  lemma FrontierIsShown(now: string, x: Tables, b: Batch, s: Tables)
    requires ExecAll(x, Checkpoint(now, b)) == Some(s) && b.frontier.Some?
    ensures FrontierShown(s, b.frontier.value)
  {
    var f, c := b.frontier.value, MaintenancePut(now, b) + ReceiptPut(now, b);
    var put := PutFrontier(f.key, f.row.(updatedAt := Or(f.row.updatedAt, EPOCH)));
    CheckpointKinds(now, b);
    assert FrontierPut(b) == [put] && Checkpoint(now, b) == [put] + c;
    LoneFrontier(x, put, c, s);
    FrontierMeans(s, f, put);
  }

  lemma FrontierMeans(s: Tables, f: FrontierInput, put: Write)
    requires put == PutFrontier(f.key, f.row.(updatedAt := Or(f.row.updatedAt, EPOCH))) && There(s, put) && Shows(s, put)
    ensures FrontierShown(s, f)
  {
  }

  lemma ReceiptIsShown(now: string, x: Tables, b: Batch, s: Tables)
    requires ExecAll(x, Checkpoint(now, b)) == Some(s) && b.receipt.Some?
    ensures ReceiptShown(now, s, b.receipt.value)
  {
    var r := b.receipt.value;
    var a, put := FrontierPut(b) + MaintenancePut(now, b), PutReceipt(r.stage, r.row.(committedAt := Or(r.row.committedAt, now)));
    CheckpointKinds(now, b);
    assert Checkpoint(now, b) == a + [put] + [];
    LonePut(x, a, put, [], s);
    ReceiptMeans(now, s, r, put);
  }

  lemma ReceiptMeans(now: string, s: Tables, r: ReceiptInput, put: Write)
    requires put == PutReceipt(r.stage, r.row.(committedAt := Or(r.row.committedAt, now))) && There(s, put) && Shows(s, put)
    ensures ReceiptShown(now, s, r)
  {
  }

  lemma MaintenanceIsShown(now: string, x: Tables, b: Batch, s: Tables)
    requires ExecAll(x, Checkpoint(now, b)) == Some(s) && b.maintenance.Some?
    ensures MaintenanceShown(now, x, s, b.maintenance.value)
  {
    var m := b.maintenance.value;
    var put := PutMaintenance(m.key, StoredMaintenance(now, m.row));
    CheckpointKinds(now, b);
    assert Checkpoint(now, b) == FrontierPut(b) + ([put] + ReceiptPut(now, b));
    ExecAllConcat(x, FrontierPut(b), [put] + ReceiptPut(now, b));
    MaintenanceUntouched(x, FrontierPut(b));
    var y := ExecAll(x, FrontierPut(b)).value;
    assert ([put] + ReceiptPut(now, b))[1..] == ReceiptPut(now, b);
    PutMaintenanceIsExact(y, m.key, StoredMaintenance(now, m.row));
    MaintenanceUntouched(Exec(y, put).value, ReceiptPut(now, b));
  }

  /** No source of a reconciled kind points to the parent, unless it is kept by name. */
  ghost predicate ChildrenReconciled(s: Tables, r: Reconciliation) {
    forall k: NodeKey, text: string | k in s.sources && s.sources[k].kind == r.kind && k.repo == r.repo
                                      && Link(r.repo, k.id, r.parent, "parent", text) in s.links ::
      k.id in r.keep && k.id != ""
  }

  lemma SettledMeansReconciled(s: Tables, r: Reconciliation)
    requires Settled(s, DropStaleChildren(r.repo, r.parent, r.kind, Keep(r.keep)))
    ensures ChildrenReconciled(s, r)
  {
    forall k: NodeKey, text: string | k in s.sources && s.sources[k].kind == r.kind && k.repo == r.repo
                                      && Link(r.repo, k.id, r.parent, "parent", text) in s.links
      ensures k.id in r.keep && k.id != ""
    {
      var l := Link(r.repo, k.id, r.parent, "parent", text);
      assert From(l) == k;
      assert k.id !in Keep(r.keep) ==> k in StaleChildren(s, r.repo, r.parent, r.kind, Keep(r.keep));
    }
  }

  /** A committed batch leaves its checkpoints as handed in, and of every reconciled kind and parent only kept children. */
  lemma CommittedCheckpoints(fts: bool, fingerprint: Fingerprint, now: string, t: Tables, b: Batch, s: Tables)
    requires ExecAll(t, BatchWrites(fts, fingerprint, now, b)) == Some(s)
    ensures CheckpointsShown(now, t, s, b) && forall r | r in b.reconciled :: ChildrenReconciled(s, r)
  {
    var body, last := Published(fts, fingerprint, now, b) + Reconciled(b), Checkpoint(now, b);
    assert BatchWrites(fts, fingerprint, now, b) == body + last;
    ExecAllConcat(t, body, last);
    BodyLeavesMaintenance(fts, fingerprint, now, t, b);
    CheckpointsAreShown(now, ExecAll(t, body).value, b, s);
    forall r | r in b.reconciled ensures ChildrenReconciled(s, r) { CommittedReconciliation(fts, fingerprint, now, t, b, s, r); }
  }

  lemma CommittedReconciliation(fts: bool, fingerprint: Fingerprint, now: string, t: Tables, b: Batch, s: Tables, r: Reconciliation)
    requires ExecAll(t, BatchWrites(fts, fingerprint, now, b)) == Some(s) && r in b.reconciled
    ensures ChildrenReconciled(s, r)
  {
    var published, closing := Published(fts, fingerprint, now, b), Reconciled(b) + Checkpoint(now, b);
    assert BatchWrites(fts, fingerprint, now, b) == published + closing;
    ExecAllConcat(t, published, closing);
    ClosingIsConsistent(now, b);
    var i :| 0 <= i < |b.reconciled| && b.reconciled[i] == r;
    var w := DropStaleChildren(r.repo, r.parent, r.kind, Keep(r.keep));
    assert Reconciled(b)[i] == w && w in closing;
    AllKept(ExecAll(t, published).value, closing, w);
    SettledMeansReconciled(s, r);
  }

  predicate LeavesMaintenance(w: Write) { Publishing(w) || w.DropStaleChildren? || w.PutFrontier? || w.PutReceipt? }

  lemma {:induction false} MaintenanceUntouched(t: Tables, ws: seq<Write>)
    requires ExecAll(t, ws).Some? && forall w | w in ws :: LeavesMaintenance(w)
    ensures ExecAll(t, ws).value.maintenance == t.maintenance
    decreases |ws|
  {
    if ws != [] {
      StatementLeavesMaintenance(t, ws[0]);
      MaintenanceUntouched(Exec(t, ws[0]).value, ws[1..]);
    }
  }

  lemma RowLeavesMaintenance(t: Tables, w: Write)
    requires Exec(t, w).Some? && WritesRows(w)
    ensures Exec(t, w).value.maintenance == t.maintenance
  {
  }

  lemma AttachmentLeavesMaintenance(t: Tables, w: Write)
    requires Exec(t, w).Some? && Attaches(w)
    ensures Exec(t, w).value.maintenance == t.maintenance
  {
  }

  lemma StatementLeavesMaintenance(t: Tables, w: Write)
    requires Exec(t, w).Some? && LeavesMaintenance(w)
    ensures Exec(t, w).value.maintenance == t.maintenance
  {
    if WritesRows(w) {
      RowLeavesMaintenance(t, w);
    } else if Attaches(w) {
      AttachmentLeavesMaintenance(t, w);
    } else if w.DropStaleChildren? { DeleteNodesIsExact(t, w.repo, StaleChildren(t, w.repo, w.parent, w.kind, w.keep)); }
  }

  lemma BodyLeavesMaintenance(fts: bool, fingerprint: Fingerprint, now: string, t: Tables, b: Batch)
    requires ExecAll(t, Published(fts, fingerprint, now, b) + Reconciled(b)).Some?
    ensures ExecAll(t, Published(fts, fingerprint, now, b) + Reconciled(b)).value.maintenance == t.maintenance
  {
    var ws := Published(fts, fingerprint, now, b) + Reconciled(b);
    forall w | w in ws ensures LeavesMaintenance(w) {
      if w in Published(fts, fingerprint, now, b) {
        var g := PublishedOf(fts, fingerprint, now, b, w);
        if g.Some? { GraphWritesOf(fts, fingerprint, g.value, w); }
      }
    }
    MaintenanceUntouched(t, ws);
  }

  // ---- the batch as a whole ----

  /** Every node that a graph names and that is still there shows its graphs; every other one is as it was; the
      checkpoints and the reconciled children are as handed in. */
  ghost predicate BatchShown(fts: bool, now: string, t: Tables, s: Tables, b: Batch) {
    && (forall k: NodeKey, f: nat, l: nat | Spans(b, k, f, l) && k in s.sources ::
          ColumnsOf(fts, s, k, b.graphs[l]) && DatedBy(t, s, k, b.graphs[f]) && NamedIn(t, s, b, k, l))
    && (forall k: NodeKey | (forall j | 0 <= j < |b.graphs| :: KeyOf(b.graphs[j]) != k) && k in s.sources :: SameNode(t, s, k))
    && CheckpointsShown(now, t, s, b) && (forall r | r in b.reconciled :: ChildrenReconciled(s, r))
  }

  lemma CommittedBatchIsShown(fts: bool, fingerprint: Fingerprint, now: string, t: Tables, b: Batch, s: Tables)
    requires ExecAll(t, BatchWrites(fts, fingerprint, now, b)) == Some(s)
    ensures BatchShown(fts, now, t, s, b)
  {
    forall k: NodeKey, f: nat, l: nat | Spans(b, k, f, l) && k in s.sources
      ensures ColumnsOf(fts, s, k, b.graphs[l]) && DatedBy(t, s, k, b.graphs[f]) && NamedIn(t, s, b, k, l)
    {
      CommittedNode(fts, fingerprint, now, t, b, s, k, f, l);
    }
    forall k: NodeKey | (forall j | 0 <= j < |b.graphs| :: KeyOf(b.graphs[j]) != k) && k in s.sources ensures SameNode(t, s, k) {
      UnnamedNode(fts, fingerprint, now, t, b, s, k);
    }
    CommittedCheckpoints(fts, fingerprint, now, t, b, s);
  }
}
