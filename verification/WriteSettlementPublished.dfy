/** What a published record graph leaves in the tables, in the terms of what the caller handed in. */
module WriteSettlementPublished {
  import opened Wrappers
  import opened Text
  import opened Records
  import opened RecordsOutcomes
  import opened RecordsLasting
  import opened SyncBatch
  import opened SyncStatements
  import opened SyncPublished
  import opened SyncCommitted
  import opened WriteSettlement
  import opened WriteSettlementOutcomes
  import opened WriteSettlementSafety
  import opened WriteSettlementGraphs

  // ---- the records of a graph ----

  /** The graph's own record and the related ones. */
  function All(g: RecordGraph): seq<RecordInput> { [g.record] + g.related }

  function NodeAt(g: RecordGraph, i: nat): NodeKey
    requires i < |All(g)|
  {
    NodeKey(All(g)[i].repo, All(g)[i].id)
  }

  /** Where a record comes from: as it says, or from a remote. */
  function Given(r: RecordInput): Provenance { if r.row.provenance != Unset then r.row.provenance else Remote }

  predicate FromProvider(r: RecordInput) { Given(r) == Remote || Given(r) == Fixture || Given(r) == Live }

  /** A source is live if its graph says so, or leaves it to a record that says so. */
  predicate LiveOrigin(g: RecordGraph, r: RecordInput) {
    g.origin == Live || (g.origin == Unset && r.row.provenance == Live)
  }

  predicate SourceOfRecord(now: Source, g: RecordGraph, r: RecordInput) {
    && now.kind == r.row.kind && now.path == r.row.path && now.title == r.row.title && now.body == r.row.body
    && now.status == r.row.status && now.labels == r.row.labels && now.hash == r.row.hash
    && now.provenance == (if LiveOrigin(g, r) then Live else Fixture)
    && now.updatedAt == LastSeen(r.row.createdAt, r.row.updatedAt)
  }

  predicate RecordOfInput(now: Record, r: RecordInput) {
    && now.kind == r.row.kind && now.path == r.row.path && now.title == r.row.title && now.body == r.row.body
    && now.status == r.row.status && now.labels == r.row.labels && now.hash == r.row.hash && now.revision == r.row.revision
    && now.updatedAt == LastSeen(r.row.createdAt, r.row.updatedAt)
  }

  predicate NamedAs(now: Record, r: RecordInput) {
    now.provenance == Given(r) && now.remoteType == r.row.remoteType && now.remoteId == r.row.remoteId
  }

  function SourcePut(r: RecordInput, origin: Provenance): Write {
    PutSource(NodeKey(r.repo, r.id), SourceOf(StoredRow(r.row), if origin.Unset? then r.row.provenance else origin))
  }

  function RecordPut(r: RecordInput): Write { PutRecord(NodeKey(r.repo, r.id), StoredRow(r.row)) }

  lemma RecordWritesAre(setup: Setup, r: RecordInput, origin: Provenance)
    ensures var ws, n := RecordWrites(setup, r, origin), if setup.useFts then 2 else 1;
            && |ws| == n + 1 && ws[0] == SourcePut(r, origin) && ws[n] == RecordPut(r)
            && (setup.useFts ==> ws[1] == PutSearch(NodeKey(r.repo, r.id), Projection(r.row.path, r.row.title, r.row.body)))
  {
  }

  lemma RowsOfInput(g: RecordGraph, r: RecordInput)
    ensures SourcePut(r, g.origin).PutSource? && RecordPut(r).PutRecord?
    ensures forall now: Source :: SourceShows(now, SourcePut(r, g.origin).source) <==> SourceOfRecord(now, g, r)
    ensures forall now: Record :: RecordShows(now, RecordPut(r).record) <==> RecordOfInput(now, r)
    ensures forall now: Record :: IdentityShows(now, RecordPut(r).record) <==> NamedAs(now, r)
    ensures Speaks(RecordPut(r).record) <==> FromProvider(r)
    ensures SourcePut(r, g.origin).source.createdAt == RecordPut(r).record.createdAt == FirstSeen(r.row.createdAt)
  {
  }

  /** The last record of a node gives its rows, the first one dates them, the last provider names the record; if none
      speaks, a provider's record keeps its name, and any other gets the last one's. */
  ghost predicate RecordsShown(setup: Setup, t: Tables, u: Tables, g: RecordGraph) {
    forall i | 0 <= i < |All(g)| ::
      && NodeAt(g, i) in u.sources && NodeAt(g, i) in u.records
      && (LastOf(g, i) ==> RowsShown(setup, u, g, i))
      && (FirstOf(g, i) ==> RowsDated(t, u, g, i))
      && (LastSpeaker(g, i) ==> NamedAs(u.records[NodeAt(g, i)], All(g)[i]))
      && (LastOf(g, i) && NoSpeaker(g, NodeAt(g, i)) ==>
            if NodeAt(g, i) in t.records && Speaks(t.records[NodeAt(g, i)]) then IdentityShows(u.records[NodeAt(g, i)], t.records[NodeAt(g, i)])
            else NamedAs(u.records[NodeAt(g, i)], All(g)[i]))
  }

  predicate LastOf(g: RecordGraph, i: nat)
    requires i < |All(g)|
  {
    forall j | i < j < |All(g)| :: NodeAt(g, j) != NodeAt(g, i)
  }

  predicate FirstOf(g: RecordGraph, i: nat)
    requires i < |All(g)|
  {
    forall j | 0 <= j < i :: NodeAt(g, j) != NodeAt(g, i)
  }

  predicate LastSpeaker(g: RecordGraph, i: nat)
    requires i < |All(g)|
  {
    FromProvider(All(g)[i]) && forall j | i < j < |All(g)| && NodeAt(g, j) == NodeAt(g, i) :: !FromProvider(All(g)[j])
  }

  predicate NoSpeaker(g: RecordGraph, k: NodeKey) { forall j | 0 <= j < |All(g)| && NodeAt(g, j) == k :: !FromProvider(All(g)[j]) }

  predicate RowsShown(setup: Setup, u: Tables, g: RecordGraph, i: nat)
    requires i < |All(g)| && NodeAt(g, i) in u.sources && NodeAt(g, i) in u.records
  {
    var k, row := NodeAt(g, i), All(g)[i].row;
    && SourceOfRecord(u.sources[k], g, All(g)[i]) && RecordOfInput(u.records[k], All(g)[i])
    && (setup.useFts ==> k in u.search && u.search[k].path == row.path && u.search[k].title == row.title && u.search[k].body == row.body)
  }

  predicate RowsDated(t: Tables, u: Tables, g: RecordGraph, i: nat)
    requires i < |All(g)| && NodeAt(g, i) in u.sources && NodeAt(g, i) in u.records
  {
    var k, first := NodeAt(g, i), FirstSeen(All(g)[i].row.createdAt);
    && u.sources[k].createdAt == (if k in t.sources then t.sources[k].createdAt else first)
    && u.records[k].createdAt == (if k in t.records then t.records[k].createdAt else first)
  }

  // ---- the statements around those of one record ----

  /** The statement is one of record j's. */
  predicate WritesRecord(setup: Setup, g: RecordGraph, j: nat, v: Write)
    requires j < |All(g)|
  {
    v in RecordWrites(setup, All(g)[j], g.origin)
  }

  predicate LeavesNodes(v: Write) { !OfNode(v) && !v.DropStaleChildren? && !v.DropLive? }

  function Tail(g: RecordGraph): seq<Write> {
    var k := NodeKey(g.record.repo, g.record.id);
    Each(c => CommentWrite(k, c), g.comments) + Each(i => IdentityWrite(k, i), g.identities)
    + LinkKindWrites(k, g.replaceLinkKinds) + Each(l => LinkWrite(k, l), g.links) + Each(r => RevisionWrite(k, r), g.revisions)
  }

  function ConfirmationPuts(setup: Setup, g: RecordGraph): seq<Write> {
    Each(c => ConfirmationWrite(setup, NodeKey(g.record.repo, g.record.id), c), g.confirmations)
  }

  function RelatedParts(setup: Setup, g: RecordGraph): seq<seq<Write>> { Each(r => RecordWrites(setup, r, g.origin), g.related) }

  lemma GraphIsParts(setup: Setup, g: RecordGraph)
    ensures RecordGraphWrites(setup, g)
         == RecordWrites(setup, g.record, g.origin) + ConfirmationPuts(setup, g) + Concat(RelatedParts(setup, g)) + Tail(g)
  {
    var k := NodeKey(g.record.repo, g.record.id);
    Regroup8(RecordWrites(setup, g.record, g.origin), ConfirmationPuts(setup, g), Concat(RelatedParts(setup, g)),
             Each(c => CommentWrite(k, c), g.comments), Each(i => IdentityWrite(k, i), g.identities),
             LinkKindWrites(k, g.replaceLinkKinds), Each(l => LinkWrite(k, l), g.links), Each(r => RevisionWrite(k, r), g.revisions));
  }

  lemma Regroup8<T>(a: seq<T>, b: seq<T>, c: seq<T>, d: seq<T>, e: seq<T>, f: seq<T>, g: seq<T>, h: seq<T>)
    ensures a + b + c + d + e + f + g + h == a + b + c + (d + e + f + g + h)
  {
  }

  lemma TailLeavesNodes(g: RecordGraph)
    ensures forall v | v in Tail(g) :: LeavesNodes(v)
  {
    LinkKindsOf(NodeKey(g.record.repo, g.record.id), g.replaceLinkKinds);
  }

  lemma ConfirmationsLeaveNodes(setup: Setup, g: RecordGraph)
    ensures forall v | v in ConfirmationPuts(setup, g) :: v == Reject || v.PutConfirmation?
  {
  }

  lemma RelatedPart(setup: Setup, g: RecordGraph, j: nat)
    requires j < |g.related|
    ensures |RelatedParts(setup, g)| == |g.related| && |All(g)| == |g.related| + 1
    ensures RelatedParts(setup, g)[j] == RecordWrites(setup, All(g)[j + 1], g.origin)
  {
  }

  lemma InLaterPart<T>(xss: seq<seq<T>>, i: nat, x: T) returns (j: nat)
    requires i <= |xss| && x in Concat(xss[i..])
    ensures i <= j < |xss| && x in xss[j]
  {
    var n := InConcat(xss[i..], x);
    j := i + n;
  }

  lemma RelatedBefore(setup: Setup, g: RecordGraph, i: nat, v: Write)
    requires i <= |g.related| && v in Concat(RelatedParts(setup, g)[..i])
    ensures exists j | 1 <= j < i + 1 :: WritesRecord(setup, g, j, v)
  {
    var j := InConcat(RelatedParts(setup, g)[..i], v);
    RelatedPart(setup, g, j);
    assert WritesRecord(setup, g, j + 1, v);
  }

  lemma RelatedAfter(setup: Setup, g: RecordGraph, i: nat, v: Write)
    requires i <= |g.related| && v in Concat(RelatedParts(setup, g)[i..])
    ensures exists j | i + 1 <= j < |All(g)| :: WritesRecord(setup, g, j, v)
  {
    var j := InLaterPart(RelatedParts(setup, g), i, v);
    RelatedPart(setup, g, j);
    assert WritesRecord(setup, g, j + 1, v);
  }

  /** Statements of records before i, and others that leave nodes alone. */
  ghost predicate Precedes(setup: Setup, g: RecordGraph, i: nat, vs: seq<Write>)
    requires i < |All(g)|
  {
    forall v | v in vs :: LeavesNodes(v) || exists j | 0 <= j < i :: WritesRecord(setup, g, j, v)
  }

  ghost predicate Follows(setup: Setup, g: RecordGraph, i: nat, vs: seq<Write>)
    requires i < |All(g)|
  {
    forall v | v in vs :: LeavesNodes(v) || exists j | i < j < |All(g)| :: WritesRecord(setup, g, j, v)
  }

  lemma FirstAround(setup: Setup, g: RecordGraph) returns (a: seq<Write>, c: seq<Write>)
    ensures RecordGraphWrites(setup, g) == a + RecordWrites(setup, All(g)[0], g.origin) + c
    ensures Precedes(setup, g, 0, a) && Follows(setup, g, 0, c)
  {
    a, c := [], ConfirmationPuts(setup, g) + Concat(RelatedParts(setup, g)) + Tail(g);
    GraphIsParts(setup, g);
    ConfirmationsLeaveNodes(setup, g);
    TailLeavesNodes(g);
    assert RelatedParts(setup, g)[0..] == RelatedParts(setup, g);
    forall v | v in Concat(RelatedParts(setup, g)) ensures exists j | 0 < j < |All(g)| :: WritesRecord(setup, g, j, v) {
      RelatedAfter(setup, g, 0, v);
    }
    Regroup4(RecordWrites(setup, g.record, g.origin), ConfirmationPuts(setup, g), Concat(RelatedParts(setup, g)), Tail(g));
  }

  lemma Regroup4<T>(a: seq<T>, b: seq<T>, c: seq<T>, d: seq<T>)
    ensures a + b + c + d == [] + a + (b + c + d)
  {
  }

  lemma RelatedAround(setup: Setup, g: RecordGraph, i: nat) returns (a: seq<Write>, c: seq<Write>)
    requires 1 <= i < |All(g)|
    ensures RecordGraphWrites(setup, g) == a + RecordWrites(setup, All(g)[i], g.origin) + c
    ensures Precedes(setup, g, i, a) && Follows(setup, g, i, c)
  {
    var parts, own, confirmed := RelatedParts(setup, g), RecordWrites(setup, g.record, g.origin), ConfirmationPuts(setup, g);
    a, c := own + confirmed + Concat(parts[..i - 1]), Concat(parts[i..]) + Tail(g);
    GraphIsParts(setup, g);
    ConcatAround(parts, i - 1);
    Regroup5(own, confirmed, Concat(parts[..i - 1]), parts[i - 1], Concat(parts[i..]), Tail(g));
    ConfirmationsLeaveNodes(setup, g);
    TailLeavesNodes(g);
    forall v | v in a ensures LeavesNodes(v) || exists j | 0 <= j < i :: WritesRecord(setup, g, j, v) {
      if v in own { assert WritesRecord(setup, g, 0, v); }
      if v in Concat(parts[..i - 1]) { RelatedBefore(setup, g, i - 1, v); }
    }
    forall v | v in Concat(parts[i..]) ensures exists j | i < j < |All(g)| :: WritesRecord(setup, g, j, v) { RelatedAfter(setup, g, i, v); }
  }

  lemma Regroup5<T>(o: seq<T>, f: seq<T>, x: seq<T>, y: seq<T>, z: seq<T>, w: seq<T>)
    ensures o + f + (x + y + z) + w == (o + f + x) + y + (z + w)
  {
  }

  lemma Around(setup: Setup, g: RecordGraph, i: nat) returns (a: seq<Write>, c: seq<Write>)
    requires i < |All(g)|
    ensures RecordGraphWrites(setup, g) == a + RecordWrites(setup, All(g)[i], g.origin) + c
    ensures Precedes(setup, g, i, a) && Follows(setup, g, i, c)
  {
    if i == 0 { a, c := FirstAround(setup, g); } else { a, c := RelatedAround(setup, g, i); }
  }

  // ---- one record's rows ----

  lemma RecordStatement(setup: Setup, g: RecordGraph, j: nat, v: Write)
    requires j < |All(g)| && WritesRecord(setup, g, j, v)
    ensures OfNode(v) && v.node == NodeAt(g, j) && (v.PutRecord? ==> v == RecordPut(All(g)[j]))
  {
    RecordWritesAre(setup, All(g)[j], g.origin);
  }

  predicate RowWrite(setup: Setup, g: RecordGraph, i: nat, w: Write)
    requires i < |All(g)|
  {
    OfNode(w) && w.node == NodeAt(g, i) && w in RecordWrites(setup, All(g)[i], g.origin)
  }

  lemma FollowersSpare(setup: Setup, g: RecordGraph, i: nat, c: seq<Write>, w: Write)
    requires i < |All(g)| && Follows(setup, g, i, c) && OfNode(w) && w.node == NodeAt(g, i)
    ensures NotErased(w, c) && (LastOf(g, i) ==> NotRewritten(w, c))
  {
    forall v | v in c ensures !Erases(v, w) && (LastOf(g, i) ==> !SamePut(v, w)) {
      if !LeavesNodes(v) {
        var j :| i < j < |All(g)| && WritesRecord(setup, g, j, v);
        RecordStatement(setup, g, j, v);
      }
    }
  }

  lemma PredecessorsSpare(setup: Setup, g: RecordGraph, i: nat, a: seq<Write>, w: Write)
    requires i < |All(g)| && Precedes(setup, g, i, a) && OfNode(w) && w.node == NodeAt(g, i)
    ensures NotErased(w, a) && (FirstOf(g, i) ==> NotRewritten(w, a))
  {
    forall v | v in a ensures !Erases(v, w) && (FirstOf(g, i) ==> !SamePut(v, w)) {
      if !LeavesNodes(v) {
        var j :| 0 <= j < i && WritesRecord(setup, g, j, v);
        RecordStatement(setup, g, j, v);
      }
    }
  }

  lemma OwnStatementsDiffer(setup: Setup, r: RecordInput, origin: Provenance, n: nat)
    requires n < |RecordWrites(setup, r, origin)|
    ensures var ws := RecordWrites(setup, r, origin);
            OfNode(ws[n]) && NotRewritten(ws[n], ws[n + 1..]) && NotRewritten(ws[n], ws[..n]) && NotErased(ws[n], ws)
  {
    var ws := RecordWrites(setup, r, origin);
    RecordWritesAre(setup, r, origin);
    forall j | 0 <= j < |ws| ensures !Erases(ws[j], ws[n]) && (j != n ==> !SamePut(ws[j], ws[n])) {}
  }

  lemma RowOutcome(setup: Setup, t: Tables, g: RecordGraph, u: Tables, i: nat, n: nat, w: Write)
    requires ExecAll(t, RecordGraphWrites(setup, g)) == Some(u) && i < |All(g)| && n < |RecordWrites(setup, All(g)[i], g.origin)|
    requires w == RecordWrites(setup, All(g)[i], g.origin)[n] && OfNode(w) && w.node == NodeAt(g, i)
    ensures There(u, w) && (LastOf(g, i) ==> Shows(u, w)) && (FirstOf(g, i) ==> OriginOf(t, u, w))
  {
    var a, c := Around(setup, g, i);
    var b := RecordWrites(setup, All(g)[i], g.origin);
    OwnStatementsDiffer(setup, All(g)[i], g.origin, n);
    FollowersSpare(setup, g, i, c, w);
    PredecessorsSpare(setup, g, i, a, w);
    PhaseThere(t, a, b, c, n);
    if LastOf(g, i) { PhaseStands(t, a, b, c, n); }
    if FirstOf(g, i) { PhaseDates(t, a, b, c, n); }
  }

  lemma RecordIsShown(setup: Setup, t: Tables, g: RecordGraph, u: Tables, i: nat)
    requires ExecAll(t, RecordGraphWrites(setup, g)) == Some(u) && i < |All(g)|
    ensures NodeAt(g, i) in u.sources && NodeAt(g, i) in u.records
    ensures (LastOf(g, i) ==> RowsShown(setup, u, g, i)) && (FirstOf(g, i) ==> RowsDated(t, u, g, i))
  {
    var r := All(g)[i];
    RecordWritesAre(setup, r, g.origin);
    RowsOfInput(g, r);
    RowOutcome(setup, t, g, u, i, 0, SourcePut(r, g.origin));
    RowOutcome(setup, t, g, u, i, if setup.useFts then 2 else 1, RecordPut(r));
    if setup.useFts { RowOutcome(setup, t, g, u, i, 1, PutSearch(NodeAt(g, i), Projection(r.row.path, r.row.title, r.row.body))); }
  }

  // ---- who the record is ----

  lemma FollowersAreSilent(setup: Setup, g: RecordGraph, i: nat, c: seq<Write>)
    requires i < |All(g)| && Follows(setup, g, i, c)
    ensures DeletesNoRecord(c)
    ensures LastSpeaker(g, i) || NoSpeaker(g, NodeAt(g, i)) ==> Silent(c, NodeAt(g, i))
    ensures LastOf(g, i) ==> forall v | v in c :: !(v.PutRecord? && v.node == NodeAt(g, i))
  {
    forall v | v in c
      ensures !v.DropStaleChildren? && !v.DropLive?
      ensures LastSpeaker(g, i) || NoSpeaker(g, NodeAt(g, i)) ==> !SpeaksOf(v, NodeAt(g, i))
      ensures LastOf(g, i) ==> !(v.PutRecord? && v.node == NodeAt(g, i))
    {
      if !LeavesNodes(v) {
        var j :| i < j < |All(g)| && WritesRecord(setup, g, j, v);
        RecordStatement(setup, g, j, v);
        RowsOfInput(g, All(g)[j]);
      }
    }
  }

  lemma PredecessorsAreSilent(setup: Setup, g: RecordGraph, i: nat, a: seq<Write>)
    requires i < |All(g)| && Precedes(setup, g, i, a)
    ensures DeletesNoRecord(a) && (NoSpeaker(g, NodeAt(g, i)) ==> Silent(a, NodeAt(g, i)))
  {
    forall v | v in a
      ensures !v.DropStaleChildren? && !v.DropLive? && (NoSpeaker(g, NodeAt(g, i)) ==> !SpeaksOf(v, NodeAt(g, i)))
    {
      if !LeavesNodes(v) {
        var j :| 0 <= j < i && WritesRecord(setup, g, j, v);
        RecordStatement(setup, g, j, v);
        RowsOfInput(g, All(g)[j]);
      }
    }
  }

  lemma OwnIsSilent(setup: Setup, g: RecordGraph, i: nat)
    requires i < |All(g)|
    ensures var b := RecordWrites(setup, All(g)[i], g.origin); DeletesNoRecord(b) && (NoSpeaker(g, NodeAt(g, i)) ==> Silent(b, NodeAt(g, i)))
  {
    RowsOfInput(g, All(g)[i]);
    forall v | v in RecordWrites(setup, All(g)[i], g.origin)
      ensures !v.DropStaleChildren? && !v.DropLive? && (NoSpeaker(g, NodeAt(g, i)) ==> !SpeaksOf(v, NodeAt(g, i)))
    {
      RecordStatement(setup, g, i, v);
    }
  }

  /** The record statement of record i among all statements. */
  lemma RecordAmong(setup: Setup, g: RecordGraph, i: nat) returns (n: nat)
    requires i < |All(g)|
    ensures var ws := RecordGraphWrites(setup, g);
            && n < |ws| && ws[n] == RecordPut(All(g)[i]) && DeletesNoRecord(ws)
            && (LastSpeaker(g, i) || NoSpeaker(g, NodeAt(g, i)) ==> Silent(ws[n + 1..], NodeAt(g, i)))
            && (LastOf(g, i) ==> forall v | v in ws[n + 1..] :: !(v.PutRecord? && v.node == NodeAt(g, i)))
            && (NoSpeaker(g, NodeAt(g, i)) ==> Silent(ws, NodeAt(g, i)))
  {
    var a, c := Around(setup, g, i);
    var b, m := RecordWrites(setup, All(g)[i], g.origin), if setup.useFts then 2 else 1;
    RecordWritesAre(setup, All(g)[i], g.origin);
    OwnIsSilent(setup, g, i);
    FollowersAreSilent(setup, g, i, c);
    PredecessorsAreSilent(setup, g, i, a);
    n := |a| + m;
    assert (a + b + c)[n + 1..] == c;
  }

  lemma RecordIsNamed(setup: Setup, t: Tables, g: RecordGraph, u: Tables, i: nat)
    requires ExecAll(t, RecordGraphWrites(setup, g)) == Some(u) && i < |All(g)| && NodeAt(g, i) in u.records
    ensures LastSpeaker(g, i) ==> NamedAs(u.records[NodeAt(g, i)], All(g)[i])
    ensures LastOf(g, i) && NoSpeaker(g, NodeAt(g, i)) ==>
              if NodeAt(g, i) in t.records && Speaks(t.records[NodeAt(g, i)]) then IdentityShows(u.records[NodeAt(g, i)], t.records[NodeAt(g, i)])
              else NamedAs(u.records[NodeAt(g, i)], All(g)[i])
  {
    var ws, k := RecordGraphWrites(setup, g), NodeAt(g, i);
    var n := RecordAmong(setup, g, i);
    RowsOfInput(g, All(g)[i]);
    if LastSpeaker(g, i) {
      LastSpeakerStands(t, ws, n, k);
    } else if LastOf(g, i) && NoSpeaker(g, k) {
      if Spoken(t, k) { SpokenStays(t, ws, k); } else { LastProjectionStands(t, ws, n, k); }
    }
  }

  lemma RecordsAreShown(setup: Setup, t: Tables, g: RecordGraph, u: Tables)
    requires ExecAll(t, RecordGraphWrites(setup, g)) == Some(u)
    ensures RecordsShown(setup, t, u, g)
  {
    forall i | 0 <= i < |All(g)|
      ensures NodeAt(g, i) in u.sources && NodeAt(g, i) in u.records
      ensures (LastOf(g, i) ==> RowsShown(setup, u, g, i)) && (FirstOf(g, i) ==> RowsDated(t, u, g, i))
      ensures LastSpeaker(g, i) ==> NamedAs(u.records[NodeAt(g, i)], All(g)[i])
      ensures LastOf(g, i) && NoSpeaker(g, NodeAt(g, i)) ==>
                if NodeAt(g, i) in t.records && Speaks(t.records[NodeAt(g, i)]) then IdentityShows(u.records[NodeAt(g, i)], t.records[NodeAt(g, i)])
                else NamedAs(u.records[NodeAt(g, i)], All(g)[i])
    {
      RecordIsShown(setup, t, g, u, i);
      RecordIsNamed(setup, t, g, u, i);
    }
  }

  // ---- what is attached to the record ----

  /** The same attachments, as a sync graph of the record would bring them. */
  function Attached(g: RecordGraph): SyncGraph {
    SyncGraph("", Unset, g.record, g.comments, g.identities, g.links, g.revisions, false, [])
  }

  lemma AttachedNode(g: RecordGraph)
    ensures Node(Attached(g)) == NodeKey(g.record.repo, g.record.id) == KeyOf(Attached(g))
  {
    NodeIsKey(Attached(g));
    assert AllSpace("");
  }

  lemma TailIsPuts(g: RecordGraph)
    ensures var k, h := NodeKey(g.record.repo, g.record.id), Attached(g);
            Tail(g) == CommentPuts(h) + IdentityPuts(h) + LinkKindWrites(k, g.replaceLinkKinds) + LinkPuts(h) + RevisionPuts(h)
  {
    AttachedNode(g);
  }

  /** Everything before the attachments. */
  function Head(setup: Setup, g: RecordGraph): seq<Write> {
    RecordWrites(setup, g.record, g.origin) + ConfirmationPuts(setup, g) + Concat(RelatedParts(setup, g))
  }

  predicate HeadKind(v: Write) { OfNode(v) || v == Reject || v.PutConfirmation? }

  lemma HeadKinds(setup: Setup, g: RecordGraph)
    ensures forall v | v in Head(setup, g) :: HeadKind(v)
  {
    ConfirmationsLeaveNodes(setup, g);
    RecordsOfNodes(setup, g);
  }

  lemma TailParts<T>(h: seq<T>, a: seq<T>, b: seq<T>, c: seq<T>, d: seq<T>, e: seq<T>)
    ensures h + (a + b + c + d + e) == h + a + (b + c + d + e)
    ensures h + (a + b + c + d + e) == (h + a) + b + (c + d + e)
    ensures h + (a + b + c + d + e) == (h + a + b) + c + (d + e)
    ensures h + (a + b + c + d + e) == (h + a + b + c + d) + e + []
  {
  }

  lemma AttachedKinds(g: RecordGraph)
    ensures var h := Attached(g);
            && (forall v | v in CommentPuts(h) :: v.PutComment?) && (forall v | v in IdentityPuts(h) :: v.PutIdentity?)
            && (forall v | v in LinkPuts(h) :: v.PutLink?) && (forall v | v in RevisionPuts(h) :: v.PutRevision?)
            && (forall v | v in LinkKindWrites(NodeKey(g.record.repo, g.record.id), g.replaceLinkKinds) :: v.DropLinks?)
  {
    PutKinds(Attached(g));
    LinkKindsOf(NodeKey(g.record.repo, g.record.id), g.replaceLinkKinds);
  }

  /** The kinds of a graph's statements after its records: comments, identities, link drops, links and revisions. */
  predicate OfKinds(n: seq<Write>, cs: seq<Write>, ids: seq<Write>, ds: seq<Write>, ls: seq<Write>, rs: seq<Write>) {
    && (forall v | v in n :: HeadKind(v)) && (forall v | v in cs :: v.PutComment?) && (forall v | v in ids :: v.PutIdentity?)
    && (forall v | v in ds :: v.DropLinks?) && (forall v | v in ls :: v.PutLink?) && (forall v | v in rs :: v.PutRevision?)
  }

  lemma CommentsInTail(t: Tables, h: SyncGraph, n: seq<Write>, ids: seq<Write>, ds: seq<Write>, ls: seq<Write>, rs: seq<Write>, u: Tables)
    requires OfKinds(n, CommentPuts(h), ids, ds, ls, rs) && ExecAll(t, n + (CommentPuts(h) + ids + ds + ls + rs)) == Some(u)
    ensures CommentsShown(t, u, h)
  {
    TailParts(n, CommentPuts(h), ids, ds, ls, rs);
    CommentsAmid(t, n, ids + ds + ls + rs, h, u);
  }

  lemma IdentitiesInTail(t: Tables, h: SyncGraph, n: seq<Write>, cs: seq<Write>, ds: seq<Write>, ls: seq<Write>, rs: seq<Write>, u: Tables)
    requires OfKinds(n, cs, IdentityPuts(h), ds, ls, rs) && ExecAll(t, n + (cs + IdentityPuts(h) + ds + ls + rs)) == Some(u)
    ensures IdentitiesShown(t, u, h)
  {
    TailParts(n, cs, IdentityPuts(h), ds, ls, rs);
    IdentitiesAmid(t, n + cs, ds + ls + rs, h, u);
  }

  lemma RevisionsInTail(t: Tables, h: SyncGraph, n: seq<Write>, cs: seq<Write>, ids: seq<Write>, ds: seq<Write>, ls: seq<Write>, u: Tables)
    requires OfKinds(n, cs, ids, ds, ls, RevisionPuts(h)) && ExecAll(t, n + (cs + ids + ds + ls + RevisionPuts(h))) == Some(u)
    ensures RevisionsShown(t, u, h)
  {
    TailParts(n, cs, ids, ds, ls, RevisionPuts(h));
    RevisionsAmid(t, n + cs + ids + ds + ls, [], h, u);
  }

  lemma GraphOfKinds(setup: Setup, g: RecordGraph)
    ensures var h, ds := Attached(g), LinkKindWrites(NodeKey(g.record.repo, g.record.id), g.replaceLinkKinds);
            && OfKinds(Head(setup, g), CommentPuts(h), IdentityPuts(h), ds, LinkPuts(h), RevisionPuts(h))
            && RecordGraphWrites(setup, g) == Head(setup, g) + (CommentPuts(h) + IdentityPuts(h) + ds + LinkPuts(h) + RevisionPuts(h))
  {
    GraphIsParts(setup, g);
    TailIsPuts(g);
    HeadKinds(setup, g);
    AttachedKinds(g);
  }

  lemma AttachmentsAreShown(setup: Setup, t: Tables, g: RecordGraph, u: Tables)
    requires ExecAll(t, RecordGraphWrites(setup, g)) == Some(u)
    ensures CommentsShown(t, u, Attached(g)) && IdentitiesShown(t, u, Attached(g)) && RevisionsShown(t, u, Attached(g))
  {
    var h, n, ds := Attached(g), Head(setup, g), LinkKindWrites(NodeKey(g.record.repo, g.record.id), g.replaceLinkKinds);
    GraphOfKinds(setup, g);
    CommentsInTail(t, h, n, IdentityPuts(h), ds, LinkPuts(h), RevisionPuts(h), u);
    IdentitiesInTail(t, h, n, CommentPuts(h), ds, LinkPuts(h), RevisionPuts(h), u);
    RevisionsInTail(t, h, n, CommentPuts(h), IdentityPuts(h), ds, LinkPuts(h), u);
  }

  // ---- links ----

  /** Of the kinds it replaces the record keeps none of its links; the graph's are added, and nothing else changes. */
  ghost predicate LinksReplaced(t: Tables, u: Tables, g: RecordGraph) {
    forall l: Link :: l in u.links <==>
      || (exists i | 0 <= i < |g.links| :: LinkAt(Attached(g), i) == l)
      || (l in t.links && !(l.repo == g.record.repo && l.source == g.record.id && KindReplaced(g, l.kind)))
  }

  /** One of the kinds to replace, without the space around it; blank ones replace nothing. */
  ghost predicate KindReplaced(g: RecordGraph, kind: string) {
    exists i | 0 <= i < |g.replaceLinkKinds| :: !AllSpace(g.replaceLinkKinds[i]) && TrimSpace(g.replaceLinkKinds[i]) == kind
  }

  lemma {:induction false} LinkDrops(k: NodeKey, kinds: seq<string>, kind: string)
    ensures DropLinks(k, kind) in LinkKindWrites(k, kinds) <==> exists i | 0 <= i < |kinds| :: !AllSpace(kinds[i]) && TrimSpace(kinds[i]) == kind
    decreases |kinds|
  {
    if kinds != [] {
      LinkDrops(k, kinds[1..], kind);
      BlankIsSpace(kinds[0]);
      assert forall i | 0 < i < |kinds| :: kinds[i] == kinds[1..][i - 1];
      if i :| 0 <= i < |kinds[1..]| && !AllSpace(kinds[1..][i]) && TrimSpace(kinds[1..][i]) == kind {
        assert !AllSpace(kinds[i + 1]) && TrimSpace(kinds[i + 1]) == kind;
      }
    }
  }

  lemma {:induction false} LinksAfterDrops(t: Tables, k: NodeKey, ws: seq<Write>, l: Link)
    requires (forall v | v in ws :: v.DropLinks? && v.node == k) && ExecAll(t, ws).Some?
    ensures l in ExecAll(t, ws).value.links <==> l in t.links && !(l.repo == k.repo && l.source == k.id && DropLinks(k, l.kind) in ws)
    decreases |ws|
  {
    if ws != [] {
      DropLinksIsExact(t, k, ws[0].kind);
      assert ws[0] == DropLinks(k, ws[0].kind);
      LinksAfterDrops(Exec(t, ws[0]).value, k, ws[1..], l);
    }
  }

  lemma LinkInTail(t: Tables, h: SyncGraph, n: seq<Write>, cs: seq<Write>, ids: seq<Write>, ds: seq<Write>, rs: seq<Write>, k: NodeKey, u: Tables, l: Link)
    requires OfKinds(n, cs, ids, ds, LinkPuts(h), rs) && ExecAll(t, n + (cs + ids + ds + LinkPuts(h) + rs)) == Some(u)
    requires forall v | v in ds :: v.DropLinks? && v.node == k
    ensures l in u.links <==>
              || (exists i | 0 <= i < |h.links| :: LinkAt(h, i) == l)
              || (l in t.links && !(l.repo == k.repo && l.source == k.id && DropLinks(k, l.kind) in ds))
  {
    var ls := LinkPuts(h);
    Regroup6(n, cs, ids, ds, ls, rs);
    LinkThroughParts(t, n + cs + ids, ds, ls + rs, k, u, l);
    LinkAmongPuts(h, l);
  }

  lemma Regroup6<T>(n: seq<T>, a: seq<T>, b: seq<T>, c: seq<T>, d: seq<T>, e: seq<T>)
    ensures n + (a + b + c + d + e) == (n + a + b) + c + (d + e)
  {
  }

  lemma LinksAreReplaced(setup: Setup, t: Tables, g: RecordGraph, u: Tables)
    requires ExecAll(t, RecordGraphWrites(setup, g)) == Some(u)
    ensures LinksReplaced(t, u, g)
  {
    var h, k := Attached(g), NodeKey(g.record.repo, g.record.id);
    GraphOfKinds(setup, g);
    LinkKindsOf(k, g.replaceLinkKinds);
    forall l: Link
      ensures l in u.links <==>
        || (exists i | 0 <= i < |g.links| :: LinkAt(h, i) == l)
        || (l in t.links && !(l.repo == k.repo && l.source == k.id && KindReplaced(g, l.kind)))
    {
      LinkInTail(t, h, Head(setup, g), CommentPuts(h), IdentityPuts(h), LinkKindWrites(k, g.replaceLinkKinds), RevisionPuts(h), k, u, l);
      LinkDrops(k, g.replaceLinkKinds, l.kind);
    }
  }

  lemma LinkThroughParts(t: Tables, a: seq<Write>, ds: seq<Write>, c: seq<Write>, k: NodeKey, u: Tables, l: Link)
    requires ExecAll(t, a + ds + c) == Some(u)
    requires (forall v | v in a :: LeavesLinks(v)) && (forall v | v in ds :: v.DropLinks? && v.node == k)
    requires forall v | v in c :: v.PutLink? || v.PutRevision?
    ensures l in u.links <==> PutLink(l) in c || (l in t.links && !(l.repo == k.repo && l.source == k.id && DropLinks(k, l.kind) in ds))
  {
    ExecAllConcat(t, a + ds, c);
    ExecAllConcat(t, a, ds);
    var x := ExecAll(t, a).value;
    LinksFollow(t, a, l);
    LinksAfterDrops(x, k, ds, l);
    LinksFollow(ExecAll(x, ds).value, c, l);
  }

  // ---- confirmations ----

  predicate Complete(g: RecordGraph, c: ConfirmationInput) {
    && c.repo == g.record.repo && c.row.record == g.record.id
    && !AllSpace(c.repo) && !AllSpace(c.row.record) && !AllSpace(c.row.remoteType) && !AllSpace(c.row.remoteId) && !AllSpace(c.idempotency)
  }

  predicate ConfirmationOf(setup: Setup, now: Confirmation, c: ConfirmationInput) {
    && now.id == (if c.row.id != "" then c.row.id else setup.confirmationId(c.repo, c.idempotency))
    && now.command == c.row.command && now.record == c.row.record && now.recordType == c.row.recordType
    && now.remoteType == c.row.remoteType && now.remoteId == c.row.remoteId && now.status == c.row.status
    && now.fingerprint == c.row.fingerprint && now.createdAt == FirstSeen(c.row.createdAt)
  }

  function ConfirmedAt(g: RecordGraph, i: nat): ConfirmationKey
    requires i < |g.confirmations|
  {
    ConfirmationKey(g.confirmations[i].repo, g.confirmations[i].idempotency)
  }

  /** Every confirmation is complete and for the graph's record; of equal keys the last shows; no other one changes. */
  ghost predicate ConfirmationsShown(setup: Setup, t: Tables, u: Tables, g: RecordGraph) {
    && (forall i | 0 <= i < |g.confirmations| :: Complete(g, g.confirmations[i]) && ConfirmedAt(g, i) in u.confirmations)
    && (forall i | 0 <= i < |g.confirmations| && (forall j | i < j < |g.confirmations| :: ConfirmedAt(g, j) != ConfirmedAt(g, i)) ::
          ConfirmationOf(setup, u.confirmations[ConfirmedAt(g, i)], g.confirmations[i]))
    && (forall k: ConfirmationKey | (forall i | 0 <= i < |g.confirmations| :: ConfirmedAt(g, i) != k) ::
          (k in u.confirmations <==> k in t.confirmations) && (k in t.confirmations ==> u.confirmations[k] == t.confirmations[k]))
  }

  lemma ConfirmationWriteIs(setup: Setup, g: RecordGraph, c: ConfirmationInput)
    ensures var w := ConfirmationWrite(setup, NodeKey(g.record.repo, g.record.id), c);
            if Complete(g, c) then w.PutConfirmation? && w.confirmation == ConfirmationKey(c.repo, c.idempotency) && ConfirmationOf(setup, w.receiptRow, c)
            else w == Reject
  {
    BlankIsSpace(c.repo);
    BlankIsSpace(c.row.record);
    BlankIsSpace(c.row.remoteType);
    BlankIsSpace(c.row.remoteId);
    BlankIsSpace(c.idempotency);
  }

  lemma RecordsOfNodes(setup: Setup, g: RecordGraph)
    ensures (forall v | v in RecordWrites(setup, g.record, g.origin) :: OfNode(v)) && forall v | v in Concat(RelatedParts(setup, g)) :: OfNode(v)
  {
    assert All(g)[0] == g.record;
    forall v | v in RecordWrites(setup, g.record, g.origin) ensures OfNode(v) { RecordStatement(setup, g, 0, v); }
    assert RelatedParts(setup, g)[0..] == RelatedParts(setup, g);
    forall v | v in Concat(RelatedParts(setup, g)) ensures OfNode(v) {
      RelatedAfter(setup, g, 0, v);
      var j :| 1 <= j < |All(g)| && WritesRecord(setup, g, j, v);
      RecordStatement(setup, g, j, v);
    }
  }

  lemma TailKinds(g: RecordGraph)
    ensures forall v | v in Tail(g) :: v.PutComment? || v.PutIdentity? || v.DropLinks? || v.PutLink? || v.PutRevision?
  {
    TailIsPuts(g);
    AttachedKinds(g);
  }

  lemma ConfirmationsAround(setup: Setup, g: RecordGraph) returns (a: seq<Write>, c: seq<Write>)
    ensures a + ConfirmationPuts(setup, g) + c == RecordGraphWrites(setup, g)
    ensures forall v | v in a || v in c :: !v.PutConfirmation? && !v.DropStaleChildren? && !v.DropLive?
  {
    a, c := RecordWrites(setup, g.record, g.origin), Concat(RelatedParts(setup, g)) + Tail(g);
    GraphIsParts(setup, g);
    Regroup3(a, ConfirmationPuts(setup, g), Concat(RelatedParts(setup, g)), Tail(g));
    RecordsOfNodes(setup, g);
    TailKinds(g);
  }

  lemma Regroup3<T>(a: seq<T>, b: seq<T>, c: seq<T>, d: seq<T>)
    ensures a + b + c + d == a + b + (c + d)
  {
  }

  lemma ConfirmationsAreComplete(setup: Setup, t: Tables, g: RecordGraph, i: nat)
    requires ExecAll(t, RecordGraphWrites(setup, g)).Some? && i < |g.confirmations|
    ensures Complete(g, g.confirmations[i])
  {
    ConfirmationWriteIs(setup, g, g.confirmations[i]);
    if !Complete(g, g.confirmations[i]) {
      GraphIsParts(setup, g);
      assert ConfirmationPuts(setup, g)[i] == Reject;
      RejectFails(t, RecordGraphWrites(setup, g));
    }
  }

  lemma ConfirmationOutcome(setup: Setup, t: Tables, a: seq<Write>, c: seq<Write>, g: RecordGraph, u: Tables, i: nat)
    requires ExecAll(t, a + ConfirmationPuts(setup, g) + c) == Some(u) && i < |g.confirmations|
    requires forall j | 0 <= j < |g.confirmations| :: Complete(g, g.confirmations[j])
    requires forall v | v in a || v in c :: !v.PutConfirmation? && !v.DropStaleChildren? && !v.DropLive?
    ensures ConfirmedAt(g, i) in u.confirmations
    ensures (forall j | i < j < |g.confirmations| :: ConfirmedAt(g, j) != ConfirmedAt(g, i)) ==>
              ConfirmationOf(setup, u.confirmations[ConfirmedAt(g, i)], g.confirmations[i])
  {
    var b := ConfirmationPuts(setup, g);
    PutsOfConfirmations(setup, g);
    forall v | v in b ensures !Erases(v, b[i]) {}
    PhaseThere(t, a, b, c, i);
    ConfirmationWriteIs(setup, g, g.confirmations[i]);
    if forall j | i < j < |g.confirmations| :: ConfirmedAt(g, j) != ConfirmedAt(g, i) {
      forall j | i < j < |b| ensures !SamePut(b[j], b[i]) {}
      PhaseStands(t, a, b, c, i);
    }
  }

  lemma PutsOfConfirmations(setup: Setup, g: RecordGraph)
    requires forall j | 0 <= j < |g.confirmations| :: Complete(g, g.confirmations[j])
    ensures var b := ConfirmationPuts(setup, g);
            && |b| == |g.confirmations| && (forall v | v in b :: v.PutConfirmation?)
            && forall j | 0 <= j < |b| :: b[j].PutConfirmation? && b[j].confirmation == ConfirmedAt(g, j)
                 && b[j] == ConfirmationWrite(setup, NodeKey(g.record.repo, g.record.id), g.confirmations[j])
  {
    forall j | 0 <= j < |g.confirmations|
      ensures ConfirmationPuts(setup, g)[j].PutConfirmation? && ConfirmationPuts(setup, g)[j].confirmation == ConfirmedAt(g, j)
    {
      ConfirmationWriteIs(setup, g, g.confirmations[j]);
    }
  }

  lemma ConfirmationsElsewhere(setup: Setup, t: Tables, a: seq<Write>, c: seq<Write>, g: RecordGraph, u: Tables, k: ConfirmationKey)
    requires ExecAll(t, a + ConfirmationPuts(setup, g) + c) == Some(u)
    requires (forall j | 0 <= j < |g.confirmations| :: Complete(g, g.confirmations[j])) && forall i | 0 <= i < |g.confirmations| :: ConfirmedAt(g, i) != k
    requires forall v | v in a || v in c :: !v.PutConfirmation? && !v.DropStaleChildren? && !v.DropLive?
    ensures (k in u.confirmations <==> k in t.confirmations) && (k in t.confirmations ==> u.confirmations[k] == t.confirmations[k])
  {
    PutsOfConfirmations(setup, g);
    var probe := PutConfirmation(k, Confirmation("", "", "", "", "", "", "", "", ""));
    forall v | v in a + ConfirmationPuts(setup, g) + c ensures !SamePut(v, probe) && !Erases(v, probe) {}
    StaysAlike(t, a + ConfirmationPuts(setup, g) + c, probe);
  }

  lemma ConfirmationsAreShown(setup: Setup, t: Tables, g: RecordGraph, u: Tables)
    requires ExecAll(t, RecordGraphWrites(setup, g)) == Some(u)
    ensures ConfirmationsShown(setup, t, u, g)
  {
    var a, c := ConfirmationsAround(setup, g);
    forall i | 0 <= i < |g.confirmations| ensures Complete(g, g.confirmations[i]) { ConfirmationsAreComplete(setup, t, g, i); }
    forall i | 0 <= i < |g.confirmations|
      ensures ConfirmedAt(g, i) in u.confirmations
      ensures (forall j | i < j < |g.confirmations| :: ConfirmedAt(g, j) != ConfirmedAt(g, i)) ==>
                ConfirmationOf(setup, u.confirmations[ConfirmedAt(g, i)], g.confirmations[i])
    {
      ConfirmationOutcome(setup, t, a, c, g, u, i);
    }
    forall k: ConfirmationKey | (forall i | 0 <= i < |g.confirmations| :: ConfirmedAt(g, i) != k)
      ensures (k in u.confirmations <==> k in t.confirmations) && (k in t.confirmations ==> u.confirmations[k] == t.confirmations[k])
    {
      ConfirmationsElsewhere(setup, t, a, c, g, u, k);
    }
  }

  // ---- the whole graph ----

  /** Everything a published record graph leaves, table by table. */
  ghost predicate RecordGraphShown(setup: Setup, t: Tables, u: Tables, g: RecordGraph) {
    && RecordsShown(setup, t, u, g) && ConfirmationsShown(setup, t, u, g)
    && CommentsShown(t, u, Attached(g)) && IdentitiesShown(t, u, Attached(g)) && RevisionsShown(t, u, Attached(g))
    && LinksReplaced(t, u, g)
  }

  /** A record graph is published with all its columns, over whatever was there. */
  lemma PublishedRecordGraphIsShown(setup: Setup, t: Tables, g: RecordGraph, u: Tables)
    requires ExecAll(t, RecordGraphWrites(setup, g)) == Some(u)
    ensures RecordGraphShown(setup, t, u, g)
  {
    RecordsAreShown(setup, t, g, u);
    ConfirmationsAreShown(setup, t, g, u);
    AttachmentsAreShown(setup, t, g, u);
    LinksAreReplaced(setup, t, g, u);
  }

  lemma ReceiptsAside(setup: Setup, t: Tables, audit: map<NodeKey, AuditRow>, u: Tables, g: RecordGraph)
    requires RecordGraphShown(setup, t.(audit := audit), u, g)
    ensures RecordGraphShown(setup, t, u, g)
  {
    RecordsBeside(setup, t, t.(audit := audit), u, g);
    AttachmentsBeside(t, t.(audit := audit), u, g);
    ConfirmationsBeside(setup, t, t.(audit := audit), u, g);
  }

  lemma RecordsBeside(setup: Setup, t: Tables, x: Tables, u: Tables, g: RecordGraph)
    requires x.sources == t.sources && x.records == t.records && RecordsShown(setup, x, u, g)
    ensures RecordsShown(setup, t, u, g)
  {
  }

  lemma AttachmentsBeside(t: Tables, x: Tables, u: Tables, g: RecordGraph)
    requires x.comments == t.comments && x.identities == t.identities && x.revisions == t.revisions
    ensures CommentsShown(x, u, Attached(g)) ==> CommentsShown(t, u, Attached(g))
    ensures IdentitiesShown(x, u, Attached(g)) ==> IdentitiesShown(t, u, Attached(g))
    ensures RevisionsShown(x, u, Attached(g)) ==> RevisionsShown(t, u, Attached(g))
  {
  }

  lemma ConfirmationsBeside(setup: Setup, t: Tables, x: Tables, u: Tables, g: RecordGraph)
    requires x.confirmations == t.confirmations && x.links == t.links
    ensures ConfirmationsShown(setup, x, u, g) ==> ConfirmationsShown(setup, t, u, g)
    ensures LinksReplaced(x, u, g) ==> LinksReplaced(t, u, g)
  {
  }

  /** So is the graph of a settlement that wins. */
  lemma SettledGraphIsShown(setup: Setup, t: Tables, g: RecordGraph, complete: Entry, pending: Entry, generation: string, u: Tables)
    requires Settle(setup, t, g, complete, pending, generation) == Done(true, u)
    ensures RecordGraphShown(setup, t, u, g)
  {
    SettlementIsAtomic(setup, t, g, complete, pending, generation);
    PublishedRecordGraphIsShown(setup, t.(audit := u.audit), g, u);
    ReceiptsAside(setup, t, u.audit, u, g);
  }
}
