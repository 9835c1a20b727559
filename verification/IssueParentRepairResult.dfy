/** What a whole repair does, whatever the order of its merges. */
module IssueParentRepairResult {
  import opened Wrappers
  import opened Collections
  import opened Text
  import opened Records
  import opened RecordsContent
  import opened IssueParentRepair

  type Canon = map<NodeKey, NodeKey>

  // ---- placeholders and canonicals ----

  /** A placeholder has one canonical issue. */
  lemma OneCanonical(t: Tables, k: NodeKey, canonical: NodeKey)
    requires Candidate(t, k, canonical)
    ensures canonical == Canonical(t, k) && k in Placeholders(t, k.repo)
  {
  }

  lemma ProviderIsNotIssue()
    ensures PROVIDER_ALIAS != ISSUE
  {
    assert |PROVIDER_ALIAS| == 16 && |ISSUE| == 5;
  }

  /** A canonical issue carries a provider alias, so it is never itself a placeholder. */
  lemma CanonicalIsNoPlaceholder(t: Tables, k: NodeKey, canonical: NodeKey)
    requires Candidate(t, k, canonical)
    ensures forall other :: !Candidate(t, canonical, other)
  {
    ProviderIsNotIssue();
    assert OwnAlias(t, canonical, ProviderAlias(k.repo, t.records[k].remoteId));
  }

  /** The merges to be made: distinct placeholders, each with a canonical that is not one of them. */
  ghost predicate Plan(t: Tables, ps: seq<NodeKey>, canon: Canon) {
    && (forall i, j | 0 <= i < j < |ps| :: ps[i] != ps[j])
    && forall p | p in ps :: p in canon && canon[p].repo == p.repo && canon[p] in t.records && canon[p] in t.sources && canon[p] !in ps
  }

  function CanonOf(t: Tables, repo: string): Canon {
    map p | p in Placeholders(t, repo) :: Canonical(t, p)
  }

  lemma PlaceholdersArePlanned(t: Tables, repo: string, ps: seq<NodeKey>)
    requires Referential(t)
    requires forall i, j | 0 <= i < j < |ps| :: ps[i] != ps[j]
    requires forall p | p in ps :: p in Placeholders(t, repo)
    ensures Plan(t, ps, CanonOf(t, repo))
  {
    forall p | p in ps
      ensures var c := Canonical(t, p); c.repo == p.repo && c in t.records && c in t.sources && c !in ps
    {
      var c := Canonical(t, p);
      CanonicalIsNoPlaceholder(t, p, c);
      assert OwnAlias(t, c, ProviderAlias(p.repo, t.records[p].remoteId));
    }
  }

  // ---- one merge, table by table ----

  lemma MergeRows(sql: Sql, t: Tables, p: NodeKey, c: NodeKey)
    requires c in t.records
    ensures var u := Merge(sql, t, p, c);
            && u.records == t.records - {p} && u.sources == t.sources - {p}
            && u.identities == WithoutIdentities(t.identities, {p})
            && u.links == WithoutLinks(MergedLinks(t.links, p, c), {p})
            && u.audit == MergedAudit(t.audit, p, c)
            && u.confirmations == WithoutConfirmations(MergedConfirmations(t.confirmations, p, c), {p})
            && u.comments == WithoutComments(MergedComments(sql, t.comments, p, c), {p})
  {
  }

  lemma MergeSyncs(sql: Sql, t: Tables, p: NodeKey, c: NodeKey)
    requires c in t.records
    ensures Merge(sql, t, p, c).commentSyncs
            == Requeued(sql, t.commentSyncs, c, t.records[c], FirstAlias(t, c), |CommentsOf(MergedComments(sql, t.comments, p, c), c)|) - {p}
  {
  }

  lemma PlanGoesOn(sql: Sql, t: Tables, ps: seq<NodeKey>, canon: Canon)
    requires ps != [] && Plan(t, ps, canon)
    ensures Plan(Merge(sql, t, ps[0], canon[ps[0]]), ps[1..], canon)
  {
    MergeRows(sql, t, ps[0], canon[ps[0]]);
    assert forall p | p in ps[1..] :: p in ps && canon[p] !in ps;
  }

  ghost function Repair(sql: Sql, t: Tables, ps: seq<NodeKey>, canon: Canon): Tables
    requires Plan(t, ps, canon)
    decreases |ps|
  {
    if ps == [] then t
    else
      PlanGoesOn(sql, t, ps, canon);
      Repair(sql, Merge(sql, t, ps[0], canon[ps[0]]), ps[1..], canon)
  }

  function Nodes(ps: seq<NodeKey>): set<NodeKey> { set p | p in ps }

  lemma NodesSplit(ps: seq<NodeKey>)
    requires ps != []
    ensures Nodes(ps) == {ps[0]} + Nodes(ps[1..])
  {
    assert forall p :: p in ps <==> p == ps[0] || p in ps[1..];
  }

  // ---- records, sources and identities ----

  /** A repair removes the placeholders, their aliases, and no other record, source or alias. */
  lemma {:induction false} RepairedNodes(sql: Sql, t: Tables, ps: seq<NodeKey>, canon: Canon)
    requires Plan(t, ps, canon)
    ensures var u := Repair(sql, t, ps, canon);
            && u.records == t.records - Nodes(ps) && u.sources == t.sources - Nodes(ps)
            && u.identities == WithoutIdentities(t.identities, Nodes(ps))
    decreases |ps|
  {
    if ps == [] {
      MinusNothing(t.records);
      MinusNothing(t.sources);
      NothingWithout(t.identities);
    } else {
      var mid := Merge(sql, t, ps[0], canon[ps[0]]);
      PlanGoesOn(sql, t, ps, canon);
      MergeRows(sql, t, ps[0], canon[ps[0]]);
      RepairedNodes(sql, mid, ps[1..], canon);
      NodesSplit(ps);
      MinusTwice(t.records, {ps[0]}, Nodes(ps[1..]));
      MinusTwice(t.sources, {ps[0]}, Nodes(ps[1..]));
      IdentitiesTwice(t.identities, {ps[0]}, Nodes(ps[1..]));
    }
  }

  lemma IdentitiesTwice(m: map<AliasKey, Identity>, a: set<NodeKey>, b: set<NodeKey>)
    ensures WithoutIdentities(WithoutIdentities(m, a), b) == WithoutIdentities(m, a + b)
  {
  }

  lemma NothingWithout(m: map<AliasKey, Identity>)
    ensures WithoutIdentities(m, {}) == m
  {
  }

  lemma CandidatesOnlyShrink(t: Tables, u: Tables, gone: set<NodeKey>, k: NodeKey, canonical: NodeKey)
    requires u.records == t.records - gone && u.identities == WithoutIdentities(t.identities, gone)
    requires Candidate(u, k, canonical)
    ensures Candidate(t, k, canonical) && k !in gone
  {
    assert k !in gone && canonical !in gone;
    assert forall a :: OwnAlias(u, k, a) <==> OwnAlias(t, k, a);
  }

  /** A second repair finds nothing. */
  lemma SecondRepairFindsNothing(sql: Sql, t: Tables, repo: string, ps: seq<NodeKey>)
    requires Nodes(ps) == Placeholders(t, repo) && Plan(t, ps, CanonOf(t, repo))
    ensures Placeholders(Repair(sql, t, ps, CanonOf(t, repo)), repo) == {}
  {
    var u := Repair(sql, t, ps, CanonOf(t, repo));
    RepairedNodes(sql, t, ps, CanonOf(t, repo));
    if k :| k in Placeholders(u, repo) {
      CandidatesOnlyShrink(t, u, Nodes(ps), k, Canonical(u, k));
      OneCanonical(t, k, Canonical(u, k));
      assert false;
    }
  }

  // ---- links ----

  function Place(repo: string, node: string, gone: set<NodeKey>, canon: Canon): string {
    var k := NodeKey(repo, node);
    if k in gone && k in canon then canon[k].id else node
  }

  function Replaced(l: Link, gone: set<NodeKey>, canon: Canon): Link {
    l.(source := Place(l.repo, l.source, gone, canon), target := Place(l.repo, l.target, gone, canon))
  }

  /** The image of the links under the substitution, without the placeholders' self-links. */
  function Image(links: set<Link>, gone: set<NodeKey>, canon: Canon): set<Link> {
    set l | l in links && !(From(l) == To(l) && From(l) in gone) :: Replaced(l, gone, canon)
  }

  lemma MergedLinksAreImage(links: set<Link>, p: NodeKey, canon: Canon)
    requires p in canon && canon[p].repo == p.repo && canon[p] != p
    ensures WithoutLinks(MergedLinks(links, p, canon[p]), {p}) == Image(links, {p}, canon)
  {
    var c := canon[p];
    var first := RelinkedFrom(links, p, c);
    var second := RelinkedTo(first, p, c);
    forall l | l in Image(links, {p}, canon) ensures l in WithoutLinks(second, {p}) {
      var m :| m in links && !(From(m) == To(m) && From(m) in {p}) && l == Replaced(m, {p}, canon);
      var half := if From(m) == p then m.(source := c.id) else m;
      assert half in first;
      assert l == if To(half) == p then half.(target := c.id) else half;
    }
    forall l | l in WithoutLinks(second, {p}) ensures l in Image(links, {p}, canon) {
      var half :| half in first && l == if To(half) == p then half.(target := c.id) else half;
      if half in links {
        assert l == Replaced(half, {p}, canon);
      } else {
        var m :| m in links && From(m) == p && To(m) != p && half == m.(source := c.id);
        assert l == Replaced(m, {p}, canon);
      }
    }
  }

  lemma ReplacedTwice(l: Link, p: NodeKey, rest: set<NodeKey>, canon: Canon)
    requires p in canon && canon[p].repo == p.repo && p !in rest && canon[p] !in rest
    ensures Replaced(Replaced(l, {p}, canon), rest, canon) == Replaced(l, {p} + rest, canon)
  {
  }

  lemma ImagesCompose(links: set<Link>, p: NodeKey, rest: set<NodeKey>, canon: Canon)
    requires p in canon && canon[p].repo == p.repo && p !in rest && canon[p] !in rest && rest <= canon.Keys
    ensures Image(Image(links, {p}, canon), rest, canon) == Image(links, {p} + rest, canon)
  {
    forall l | l in links ensures Replaced(Replaced(l, {p}, canon), rest, canon) == Replaced(l, {p} + rest, canon) {
      ReplacedTwice(l, p, rest, canon);
    }
    forall l | l in Image(Image(links, {p}, canon), rest, canon) ensures l in Image(links, {p} + rest, canon) {
      var h :| h in Image(links, {p}, canon) && !(From(h) == To(h) && From(h) in rest) && l == Replaced(h, rest, canon);
      var m :| m in links && !(From(m) == To(m) && From(m) in {p}) && h == Replaced(m, {p}, canon);
      assert l == Replaced(m, {p} + rest, canon);
    }
    forall l | l in Image(links, {p} + rest, canon) ensures l in Image(Image(links, {p}, canon), rest, canon) {
      var m :| m in links && !(From(m) == To(m) && From(m) in {p} + rest) && l == Replaced(m, {p} + rest, canon);
      var h := Replaced(m, {p}, canon);
      assert h in Image(links, {p}, canon);
    }
  }

  lemma ImageOfNone(links: set<Link>, canon: Canon)
    ensures Image(links, {}, canon) == links
  {
    forall l ensures l in links <==> l in Image(links, {}, canon) {
      assert Replaced(l, {}, canon) == l;
    }
  }

  lemma FirstLinks(sql: Sql, t: Tables, ps: seq<NodeKey>, canon: Canon) returns (mid: Tables)
    requires ps != [] && Plan(t, ps, canon)
    ensures Plan(mid, ps[1..], canon) && Repair(sql, t, ps, canon) == Repair(sql, mid, ps[1..], canon)
    ensures mid.links == Image(t.links, {ps[0]}, canon)
  {
    PlanGoesOn(sql, t, ps, canon);
    MergeRows(sql, t, ps[0], canon[ps[0]]);
    MergedLinksAreImage(t.links, ps[0], canon);
    mid := Merge(sql, t, ps[0], canon[ps[0]]);
  }

  /** Links are rewritten exactly by the substitution of canonicals for placeholders. */
  lemma {:induction false} RepairedLinks(sql: Sql, t: Tables, ps: seq<NodeKey>, canon: Canon)
    requires Plan(t, ps, canon)
    ensures Repair(sql, t, ps, canon).links == Image(t.links, Nodes(ps), canon)
    decreases |ps|
  {
    if ps == [] {
      assert Nodes(ps) == {};
      ImageOfNone(t.links, canon);
    } else {
      var mid := FirstLinks(sql, t, ps, canon);
      RepairedLinks(sql, mid, ps[1..], canon);
      NodesSplit(ps);
      ImagesCompose(t.links, ps[0], Nodes(ps[1..]), canon);
    }
  }

  /** So the result is the same for every order of merges. */
  lemma MergeOrderIsIrrelevant(sql: Sql, t: Tables, ps: seq<NodeKey>, qs: seq<NodeKey>, canon: Canon)
    requires Plan(t, ps, canon) && Plan(t, qs, canon) && Nodes(ps) == Nodes(qs)
    ensures var u, v := Repair(sql, t, ps, canon), Repair(sql, t, qs, canon);
            u.links == v.links && u.records == v.records && u.sources == v.sources && u.identities == v.identities
  {
    RepairedLinks(sql, t, ps, canon);
    RepairedLinks(sql, t, qs, canon);
    RepairedNodes(sql, t, ps, canon);
    RepairedNodes(sql, t, qs, canon);
  }

  // ---- audit rows and confirmations ----

  function AuditImage(audit: map<NodeKey, AuditRow>, gone: set<NodeKey>, canon: Canon): map<NodeKey, AuditRow> {
    map k | k in audit :: audit[k].(record := Place(k.repo, audit[k].record, gone, canon))
  }

  function ConfirmationImage(m: map<ConfirmationKey, Confirmation>, gone: set<NodeKey>, canon: Canon): map<ConfirmationKey, Confirmation> {
    map k | k in m :: m[k].(record := Place(k.repo, m[k].record, gone, canon))
  }

  lemma ReceiptsOfOneMerge(t: Tables, p: NodeKey, canon: Canon)
    requires p in canon && canon[p].repo == p.repo && canon[p] != p
    ensures MergedAudit(t.audit, p, canon[p]) == AuditImage(t.audit, {p}, canon)
    ensures WithoutConfirmations(MergedConfirmations(t.confirmations, p, canon[p]), {p}) == ConfirmationImage(t.confirmations, {p}, canon)
  {
  }

  lemma ReceiptsOfNone(t: Tables, canon: Canon)
    ensures AuditImage(t.audit, {}, canon) == t.audit && ConfirmationImage(t.confirmations, {}, canon) == t.confirmations
  {
  }

  lemma AuditImagesCompose(audit: map<NodeKey, AuditRow>, p: NodeKey, rest: set<NodeKey>, canon: Canon)
    requires p in canon && canon[p].repo == p.repo && p !in rest && canon[p] !in rest
    ensures AuditImage(AuditImage(audit, {p}, canon), rest, canon) == AuditImage(audit, {p} + rest, canon)
  {
  }

  lemma ConfirmationImagesCompose(m: map<ConfirmationKey, Confirmation>, p: NodeKey, rest: set<NodeKey>, canon: Canon)
    requires p in canon && canon[p].repo == p.repo && p !in rest && canon[p] !in rest
    ensures ConfirmationImage(ConfirmationImage(m, {p}, canon), rest, canon) == ConfirmationImage(m, {p} + rest, canon)
  {
  }

  lemma FirstReceipts(sql: Sql, t: Tables, ps: seq<NodeKey>, canon: Canon) returns (mid: Tables)
    requires ps != [] && Plan(t, ps, canon)
    ensures Plan(mid, ps[1..], canon) && Repair(sql, t, ps, canon) == Repair(sql, mid, ps[1..], canon)
    ensures mid.audit == AuditImage(t.audit, {ps[0]}, canon) && mid.confirmations == ConfirmationImage(t.confirmations, {ps[0]}, canon)
  {
    PlanGoesOn(sql, t, ps, canon);
    MergeRows(sql, t, ps[0], canon[ps[0]]);
    ReceiptsOfOneMerge(t, ps[0], canon);
    mid := Merge(sql, t, ps[0], canon[ps[0]]);
  }

  lemma FirstOfPlan(t: Tables, ps: seq<NodeKey>, canon: Canon)
    requires ps != [] && Plan(t, ps, canon)
    ensures ps[0] in canon && canon[ps[0]].repo == ps[0].repo
    ensures ps[0] !in Nodes(ps[1..]) && canon[ps[0]] !in Nodes(ps[1..]) && Nodes(ps) == {ps[0]} + Nodes(ps[1..])
  {
    NodesSplit(ps);
    assert ps[0] in ps;
  }

  /** Every audit row is kept, and names the canonical issue instead of the placeholder. */
  lemma {:induction false} RepairedAudit(sql: Sql, t: Tables, ps: seq<NodeKey>, canon: Canon)
    requires Plan(t, ps, canon)
    ensures Repair(sql, t, ps, canon).audit == AuditImage(t.audit, Nodes(ps), canon)
    decreases |ps|
  {
    if ps == [] {
      assert Nodes(ps) == {};
      ReceiptsOfNone(t, canon);
    } else {
      var mid := FirstReceipts(sql, t, ps, canon);
      RepairedAudit(sql, mid, ps[1..], canon);
      FirstOfPlan(t, ps, canon);
      AuditImagesCompose(t.audit, ps[0], Nodes(ps[1..]), canon);
    }
  }

  /** So is every cache confirmation, although the placeholder's deletion cascades to confirmations. */
  lemma {:induction false} RepairedConfirmations(sql: Sql, t: Tables, ps: seq<NodeKey>, canon: Canon)
    requires Plan(t, ps, canon)
    ensures Repair(sql, t, ps, canon).confirmations == ConfirmationImage(t.confirmations, Nodes(ps), canon)
    decreases |ps|
  {
    if ps == [] {
      assert Nodes(ps) == {};
      ReceiptsOfNone(t, canon);
    } else {
      var mid := FirstReceipts(sql, t, ps, canon);
      RepairedConfirmations(sql, mid, ps[1..], canon);
      FirstOfPlan(t, ps, canon);
      ConfirmationImagesCompose(t.confirmations, ps[0], Nodes(ps[1..]), canon);
    }
  }

  // ---- foreign keys ----

  lemma MergedLinksAreOwned(links: set<Link>, sources: set<NodeKey>, p: NodeKey, canon: Canon)
    requires LinksOwned(links, sources) && p in canon && canon[p].repo == p.repo && canon[p] != p && canon[p] in sources
    ensures LinksOwned(Image(links, {p}, canon), sources - {p})
  {
  }

  lemma MergedCommentsAreOwned(sql: Sql, comments: map<CommentKey, Comment>, records: set<NodeKey>, p: NodeKey, c: NodeKey)
    requires CommentsOwned(comments, records) && c in records && c != p
    ensures CommentsOwned(WithoutComments(MergedComments(sql, comments, p, c), {p}), records - {p})
  {
  }

  lemma MergedConfirmationsAreOwned(m: map<ConfirmationKey, Confirmation>, records: set<NodeKey>, p: NodeKey, c: NodeKey)
    requires ConfirmationsOwned(m, records) && c in records && c != p && c.repo == p.repo
    ensures ConfirmationsOwned(WithoutConfirmations(MergedConfirmations(m, p, c), {p}), records - {p})
  {
  }

  lemma RemovedPiecesAreOwned(t: Tables, p: NodeKey)
    requires Referential(t)
    ensures ChunksOwned(t.chunks - ChunksOf(t, {p}), t.sources.Keys - {p})
    ensures EmbeddingsOwned(WithoutEmbeddings(t.embeddings, ChunksOf(t, {p})), t.chunks.Keys - ChunksOf(t, {p}))
  {
  }

  lemma MergePieces(sql: Sql, t: Tables, p: NodeKey, c: NodeKey)
    requires c in t.records
    ensures var u := Merge(sql, t, p, c);
            && u.repos == t.repos && u.chunks == t.chunks - ChunksOf(t, {p})
            && u.embeddings == WithoutEmbeddings(t.embeddings, ChunksOf(t, {p})) && u.revisions == t.revisions - {p}
            && u.generations == Bump(t.generations, p.repo, Firings(t, {p}))
  {
  }

  lemma MergeKeepsReferences(sql: Sql, t: Tables, p: NodeKey, canon: Canon)
    requires Referential(t) && p in canon && canon[p].repo == p.repo && canon[p] != p && canon[p] in t.records && canon[p] in t.sources
    ensures Referential(Merge(sql, t, p, canon[p]))
  {
    var u := Merge(sql, t, p, canon[p]);
    MergeRows(sql, t, p, canon[p]);
    MergeSyncs(sql, t, p, canon[p]);
    MergePieces(sql, t, p, canon[p]);
    MergedLinksAreImage(t.links, p, canon);
    ReferencesAfterMerge(sql, t, u, p, canon);
  }

  lemma ReferencesAfterMerge(sql: Sql, t: Tables, u: Tables, p: NodeKey, canon: Canon)
    requires Referential(t) && p in canon && canon[p].repo == p.repo && canon[p] != p && canon[p] in t.records && canon[p] in t.sources
    requires u.repos == t.repos && u.records == t.records - {p} && u.sources == t.sources - {p}
    requires u.links == Image(t.links, {p}, canon) && u.identities == WithoutIdentities(t.identities, {p})
    requires u.comments == WithoutComments(MergedComments(sql, t.comments, p, canon[p]), {p})
    requires u.confirmations == WithoutConfirmations(MergedConfirmations(t.confirmations, p, canon[p]), {p})
    requires u.chunks == t.chunks - ChunksOf(t, {p}) && u.embeddings == WithoutEmbeddings(t.embeddings, ChunksOf(t, {p}))
    requires u.revisions == t.revisions - {p} && u.commentSyncs.Keys == t.commentSyncs.Keys + {canon[p]} - {p}
    ensures Referential(u)
  {
    assert u.records.Keys == t.records.Keys - {p} && u.sources.Keys == t.sources.Keys - {p};
    assert u.chunks.Keys == t.chunks.Keys - ChunksOf(t, {p});
    MergedLinksAreOwned(t.links, t.sources.Keys, p, canon);
    MergedCommentsAreOwned(sql, t.comments, t.records.Keys, p, canon[p]);
    MergedConfirmationsAreOwned(t.confirmations, t.records.Keys, p, canon[p]);
    RemovedPiecesAreOwned(t, p);
  }

  /** A repair never breaks a foreign key, so none of its statements fails. */
  lemma {:induction false} RepairKeepsReferences(sql: Sql, t: Tables, ps: seq<NodeKey>, canon: Canon)
    requires Referential(t) && Plan(t, ps, canon)
    ensures Referential(Repair(sql, t, ps, canon))
    decreases |ps|
  {
    if ps != [] {
      assert ps[0] in ps;
      PlanGoesOn(sql, t, ps, canon);
      MergeKeepsReferences(sql, t, ps[0], canon);
      RepairKeepsReferences(sql, Merge(sql, t, ps[0], canon[ps[0]]), ps[1..], canon);
    }
  }

  lemma MergeStampsContent(sql: Sql, t: Tables, p: NodeKey, c: NodeKey, repo: string)
    requires c in t.records
    ensures Stamped(t, Merge(sql, t, p, c), repo)
  {
    MergeRows(sql, t, p, c);
    MergePieces(sql, t, p, c);
    RemovalFires(t, {p});
    RemovalStamps(t, Merge(sql, t, p, c), p.repo, {p}, ChunksOf(t, {p}), Firings(t, {p}), repo);
  }

  /** The deletions of a repair move the content generation like any other. */
  lemma {:induction false} RepairStampsContent(sql: Sql, t: Tables, ps: seq<NodeKey>, canon: Canon, repo: string)
    requires Plan(t, ps, canon)
    ensures Stamped(t, Repair(sql, t, ps, canon), repo)
    decreases |ps|
  {
    if ps != [] {
      var u := Merge(sql, t, ps[0], canon[ps[0]]);
      PlanGoesOn(sql, t, ps, canon);
      MergeStampsContent(sql, t, ps[0], canon[ps[0]], repo);
      RepairStampsContent(sql, u, ps[1..], canon, repo);
      StampedTransitive(t, u, Repair(sql, u, ps[1..], canon), repo);
    }
  }
}
