/** What publishing makes of a source, search row or record, however often a batch writes it, and why the same
    statements leave it as it is the second time. */
module SyncRows {
  import opened Wrappers
  import opened Collections
  import opened Records
  import opened RecordsContent
  import opened SyncReplay

  /** A row written over what was there; writes that merge associatively add up. */
  function Over<V>(merge: (V, V) -> V, was: Option<V>, row: Option<V>): Option<V> {
    if row.None? then was else if was.None? then row else Some(merge(was.value, row.value))
  }

  ghost predicate Associates<V>(merge: (V, V) -> V, a: Option<V>, b: Option<V>, c: Option<V>) {
    a.Some? && b.Some? && c.Some? ==> merge(merge(a.value, b.value), c.value) == merge(a.value, merge(b.value, c.value))
  }

  lemma OverAssociates<V>(merge: (V, V) -> V, a: Option<V>, b: Option<V>, c: Option<V>)
    requires Associates(merge, a, b, c)
    ensures Over(merge, Over(merge, a, b), c) == Over(merge, a, Over(merge, b, c))
  {
  }

  /** Which record's provider identity survives does not depend on how three writes are grouped. */
  lemma RecordsAssociate(a: Record, b: Record, c: Record)
    ensures MergeRecord(MergeRecord(a, b), c) == MergeRecord(a, MergeRecord(b, c))
  {
  }

  function Replace(was: Projection, row: Projection): Projection { row }

  function SourceAt(w: Write, k: NodeKey): Option<Source> { if w.PutSource? && w.node == k then Some(w.source) else None }
  function SearchAt(w: Write, k: NodeKey): Option<Projection> { if w.PutSearch? && w.node == k then Some(w.projection) else None }
  function RecordAt(w: Write, k: NodeKey): Option<Record> { if w.PutRecord? && w.node == k then Some(w.record) else None }

  function SourceTotal(ws: seq<Write>, k: NodeKey): Option<Source> {
    if ws == [] then None else Over(MergeSource, SourceAt(ws[0], k), SourceTotal(ws[1..], k))
  }

  function SearchTotal(ws: seq<Write>, k: NodeKey): Option<Projection> {
    if ws == [] then None else Over(Replace, SearchAt(ws[0], k), SearchTotal(ws[1..], k))
  }

  function RecordTotal(ws: seq<Write>, k: NodeKey): Option<Record> {
    if ws == [] then None else Over(MergeRecord, RecordAt(ws[0], k), RecordTotal(ws[1..], k))
  }

  lemma {:induction false} TotalsComeFromWrites(ws: seq<Write>, k: NodeKey)
    ensures SourceTotal(ws, k).Some? ==> exists w :: w in ws && w.PutSource? && w.node == k
    ensures SearchTotal(ws, k).Some? ==> exists w :: w in ws && w.PutSearch? && w.node == k
    ensures RecordTotal(ws, k).Some? ==> exists w :: w in ws && w.PutRecord? && w.node == k
    decreases |ws|
  {
    if ws != [] {
      TotalsComeFromWrites(ws[1..], k);
      assert ws[0] in ws && forall w | w in ws[1..] :: w in ws;
    }
  }

  lemma SourceStep(t: Tables, w: Write, k: NodeKey)
    requires w.PutSource? && Exec(t, w).Some?
    ensures Get(Exec(t, w).value.sources, k) == Over(MergeSource, Get(t.sources, k), SourceAt(w, k))
  {
  }

  lemma SearchStep(t: Tables, w: Write, k: NodeKey)
    requires w.PutSearch? && Exec(t, w).Some?
    ensures Get(Exec(t, w).value.search, k) == Over(Replace, Get(t.search, k), SearchAt(w, k))
  {
  }

  lemma RecordStep(t: Tables, w: Write, k: NodeKey)
    requires w.PutRecord? && Exec(t, w).Some?
    ensures Get(Exec(t, w).value.records, k) == Over(MergeRecord, Get(t.records, k), RecordAt(w, k))
  {
  }

  lemma RowStep(t: Tables, w: Write, k: NodeKey)
    requires Publishing(w) && Exec(t, w).Some?
    ensures var u := Exec(t, w).value;
            && Get(u.sources, k) == Over(MergeSource, Get(t.sources, k), SourceAt(w, k))
            && Get(u.search, k) == Over(Replace, Get(t.search, k), SearchAt(w, k))
            && Get(u.records, k) == Over(MergeRecord, Get(t.records, k), RecordAt(w, k))
  {
    PublishingFrame(t, w);
    if w.PutSource? {
      SourceStep(t, w, k);
    } else if w.PutSearch? {
      SearchStep(t, w, k);
    } else if w.PutRecord? {
      RecordStep(t, w, k);
    }
  }

  /** Publishing puts the sum of its writes over each row. */
  lemma {:induction false} RowsFollow(t: Tables, ws: seq<Write>, k: NodeKey)
    requires AllPublishing(ws) && ExecAll(t, ws).Some?
    ensures var u := ExecAll(t, ws).value;
            && Get(u.sources, k) == Over(MergeSource, Get(t.sources, k), SourceTotal(ws, k))
            && Get(u.search, k) == Over(Replace, Get(t.search, k), SearchTotal(ws, k))
            && Get(u.records, k) == Over(MergeRecord, Get(t.records, k), RecordTotal(ws, k))
    decreases |ws|
  {
    if ws != [] {
      RowStep(t, ws[0], k);
      RowsFollow(Exec(t, ws[0]).value, ws[1..], k);
      OverAssociates(MergeSource, Get(t.sources, k), SourceAt(ws[0], k), SourceTotal(ws[1..], k));
      OverAssociates(Replace, Get(t.search, k), SearchAt(ws[0], k), SearchTotal(ws[1..], k));
      RecordsOver(Get(t.records, k), RecordAt(ws[0], k), RecordTotal(ws[1..], k));
    }
  }

  lemma RecordsOver(a: Option<Record>, b: Option<Record>, c: Option<Record>)
    ensures Over(MergeRecord, Over(MergeRecord, a, b), c) == Over(MergeRecord, a, Over(MergeRecord, b, c))
  {
    if a.Some? && b.Some? && c.Some? { RecordsAssociate(a.value, b.value, c.value); }
    OverAssociates(MergeRecord, a, b, c);
  }

  lemma OverTwice(source: Option<Source>, s: Option<Source>, search: Option<Projection>, p: Option<Projection>, record: Option<Record>, r: Option<Record>)
    ensures Over(MergeSource, Over(MergeSource, source, s), s) == Over(MergeSource, source, s)
    ensures Over(Replace, Over(Replace, search, p), p) == Over(Replace, search, p)
    ensures Over(MergeRecord, Over(MergeRecord, record, r), r) == Over(MergeRecord, record, r)
  {
  }

  // ---- reconciling children deletes rows, and changes none ----

  ghost predicate Outlasts(t: Tables, u: Tables, k: NodeKey) {
    k in u.sources ==> Get(u.sources, k) == Get(t.sources, k) && Get(u.search, k) == Get(t.search, k) && Get(u.records, k) == Get(t.records, k)
  }

  lemma DeletionOutlasts(t: Tables, repo: string, gone: set<NodeKey>, k: NodeKey)
    ensures Outlasts(t, DeleteNodes(t, repo, gone), k) && DeleteNodes(t, repo, gone).sources.Keys <= t.sources.Keys
  {
  }

  lemma ReconciliationOutlasts(t: Tables, w: Write, k: NodeKey)
    requires w.DropStaleChildren?
    ensures Outlasts(t, Exec(t, w).value, k) && Exec(t, w).value.sources.Keys <= t.sources.Keys
  {
    DeletionOutlasts(t, w.repo, StaleChildren(t, w.repo, w.parent, w.kind, w.keep), k);
  }

  lemma CoreOutlasts(t: Tables, u: Tables, k: NodeKey)
    requires SameCore(t, u)
    ensures Outlasts(t, u, k) && u.sources.Keys <= t.sources.Keys
  {
  }

  lemma ClosingOutlasts(t: Tables, w: Write, k: NodeKey)
    requires Closing(w) && Exec(t, w).Some?
    ensures Outlasts(t, Exec(t, w).value, k) && Exec(t, w).value.sources.Keys <= t.sources.Keys
  {
    if Checkpointing(w) {
      CheckpointFrame(t, w);
      CoreOutlasts(t, Exec(t, w).value, k);
    } else {
      ReconciliationOutlasts(t, w, k);
    }
  }

  lemma {:induction false} AllClosingOutlasts(t: Tables, ws: seq<Write>, k: NodeKey)
    requires AllClosing(ws) && ExecAll(t, ws).Some?
    ensures Outlasts(t, ExecAll(t, ws).value, k) && ExecAll(t, ws).value.sources.Keys <= t.sources.Keys
    decreases |ws|
  {
    if ws != [] {
      ClosingOutlasts(t, ws[0], k);
      AllClosingOutlasts(Exec(t, ws[0]).value, ws[1..], k);
    }
  }

  /** Publishing over what is left of its own result changes no row of a source that is still there. */
  lemma RowAgain(t: Tables, published: seq<Write>, closing: seq<Write>, s: Tables, k: NodeKey)
    requires AllPublishing(published) && AllClosing(closing) && ExecAll(t, published).Some?
    requires ExecAll(ExecAll(t, published).value, closing) == Some(s) && ExecAll(s, published).Some? && k in s.sources
    ensures var x := ExecAll(s, published).value;
            Get(x.sources, k) == Get(s.sources, k) && Get(x.search, k) == Get(s.search, k) && Get(x.records, k) == Get(s.records, k)
  {
    RowsFollow(t, published, k);
    AllClosingOutlasts(ExecAll(t, published).value, closing, k);
    RowsFollow(s, published, k);
    OverTwice(Get(t.sources, k), SourceTotal(published, k), Get(t.search, k), SearchTotal(published, k), Get(t.records, k), RecordTotal(published, k));
  }

  /** So it changes none at all if every node that it writes is still there. */
  lemma RowsAgain(t: Tables, published: seq<Write>, closing: seq<Write>, s: Tables)
    requires AllPublishing(published) && AllClosing(closing) && ExecAll(t, published).Some?
    requires ExecAll(ExecAll(t, published).value, closing) == Some(s) && ExecAll(s, published).Some?
    requires forall w | w in published && (w.PutSource? || w.PutSearch? || w.PutRecord?) :: w.node in s.sources
    ensures var x := ExecAll(s, published).value; x.sources == s.sources && x.search == s.search && x.records == s.records
  {
    var x := ExecAll(s, published).value;
    forall k ensures Get(x.sources, k) == Get(s.sources, k) && Get(x.search, k) == Get(s.search, k) && Get(x.records, k) == Get(s.records, k) {
      if k in s.sources {
        RowAgain(t, published, closing, s, k);
      } else {
        TotalsComeFromWrites(published, k);
        RowsFollow(s, published, k);
      }
    }
    GetDecides(x.sources, s.sources);
    GetDecides(x.search, s.search);
    GetDecides(x.records, s.records);
  }
}
