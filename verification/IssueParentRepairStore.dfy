/** The repair as the store runs it. */
module IssueParentRepairStore {
  import opened Wrappers
  import opened Text
  import opened Ordering
  import opened Records
  import opened SyncReplay
  import opened RecordsStore
  import opened IssueParentRepair
  import opened IssueParentRepairResult
  import opened IssueParentRepairOutcomes

  predicate ById(a: NodeKey, b: NodeKey) { Less(a.id, b.id) }

  lemma IdsAreOrdered(ks: set<NodeKey>, repo: string)
    requires forall k | k in ks :: k.repo == repo
    ensures StrictOrderOn(ById, ks)
  {
    forall a, b | a in ks && b in ks && ById(a, b) ensures !ById(b, a) { LessIsAsymmetric(a.id, b.id); }
    forall a, b | a in ks && b in ks && a != b ensures ById(a, b) || ById(b, a) { LessIsTotal(a.id, b.id); }
    forall a, b, c | a in ks && b in ks && c in ks && ById(a, b) && ById(b, c) ensures ById(a, c) { LessIsTransitive(a.id, b.id, c.id); }
  }

  /** The canonical issue of every placeholder, in the placeholders' order. */
  function Canons(ps: seq<NodeKey>, canon: Canon): seq<NodeKey> {
    if ps == [] then [] else [if ps[0] in canon then canon[ps[0]] else ps[0]] + Canons(ps[1..], canon)
  }

  lemma CanonsOnward(done: seq<NodeKey>, rest: seq<NodeKey>, canon: Canon)
    requires rest != [] && rest[0] in canon
    ensures done + Canons(rest, canon) == done + [canon[rest[0]]] + Canons(rest[1..], canon)
  {
  }

  // ---- the statements of one merge add up to it ----

  lemma RewrittenContent(sql: Sql, t: Tables, p: NodeKey, c: NodeKey, provider: string)
    requires c in t.records
    ensures var u := Rewritten(sql, t, p, c, provider);
            && u.repos == t.repos && u.sources == t.sources && u.search == t.search && u.records == t.records
            && u.chunks == t.chunks && u.embeddings == t.embeddings && u.identities == t.identities
            && u.revisions == t.revisions && u.generations == t.generations && SameCheckpoints(t, u)
            && ChunksOf(u, {p}) == ChunksOf(t, {p}) && Firings(u, {p}) == Firings(t, {p})
  {
  }

  lemma MinusAgain<R>(m: map<NodeKey, R>, p: NodeKey)
    ensures m - {p} - {p} == m - {p}
  {
  }

  lemma DeletedSyncs(sql: Sql, t: Tables, p: NodeKey, c: NodeKey)
    requires c in t.records
    ensures Rewritten(sql, t, p, c, FirstAlias(t, c)).commentSyncs - {p} == Merge(sql, t, p, c).commentSyncs
  {
    MinusAgain(Requeued(sql, t.commentSyncs, c, t.records[c], FirstAlias(t, c), |CommentsOf(MergedComments(sql, t.comments, p, c), c)|), p);
  }

  lemma StatementsMerge(sql: Sql, t: Tables, p: NodeKey, c: NodeKey)
    requires c in t.records
    ensures DeleteNodes(Rewritten(sql, t, p, c, FirstAlias(t, c)), p.repo, {p}) == Merge(sql, t, p, c)
  {
    var mid := Rewritten(sql, t, p, c, FirstAlias(t, c));
    var u, v := DeleteNodes(mid, p.repo, {p}), Merge(sql, t, p, c);
    DeletionOf(mid, p.repo, {p});
    RewrittenContent(sql, t, p, c, FirstAlias(t, c));
    DeletedSyncs(sql, t, p, c);
    assert SameCore(u, v);
    assert SameLoose(u, v) && SameCheckpoints(u, v);
    SameTables(u, v);
  }

  class RepairStore {
    const sql: Sql
    const store: SqlStore

    constructor (sql: Sql, store: SqlStore)
      ensures this.sql == sql && this.store == store
    {
      this.sql, this.store := sql, store;
    }

    /** ORDER BY alias LIMIT 1. */
    method ProviderOf(c: NodeKey) returns (provider: string)
      ensures provider == FirstAlias(store.tables, c)
    {
      var aliases := Aliases(store.tables, c);
      if aliases == {} { return ""; }
      provider :| provider in aliases;
      var rest := aliases - {provider};
      while rest != {}
        invariant rest <= aliases && provider in aliases - rest
        invariant forall b | b in aliases - rest :: provider == b || Less(provider, b)
      {
        var a :| a in rest;
        LessIsTotal(provider, a);
        if Less(a, provider) {
          forall b | b in aliases - rest && b != provider ensures Less(a, b) { LessIsTransitive(a, provider, b); }
          provider := a;
        }
        rest := rest - {a};
      }
      LeastIsUnique(aliases, provider, FirstAlias(store.tables, c));
    }

    /** Moves comments, links, receipts and the queue entry to the canonical issue, then deletes the placeholder. */
    method MergePlaceholder(p: NodeKey, c: NodeKey)
      requires c in store.tables.records
      modifies store
      ensures store.tables == Merge(sql, old(store.tables), p, c)
      ensures p != c && c.repo == p.repo ==> WaitsAgain(sql, old(store.tables), store.tables, c)
    {
      if p != c && c.repo == p.repo { MergeWaits(sql, store.tables, p, c); }
      var t := store.tables;
      var comments := MergedComments(sql, t.comments, p, c);
      var links := RelinkedFrom(t.links, p, c);
      links := RelinkedTo(links, p, c);
      links := WithoutLinks(links, {p});
      var audit := MergedAudit(t.audit, p, c);
      var confirmations := MergedConfirmations(t.confirmations, p, c);
      var provider := ProviderOf(c);
      var syncs := Requeued(sql, t.commentSyncs, c, t.records[c], provider, |CommentsOf(comments, c)|);
      syncs := syncs - {p};
      store.tables := t.(comments := comments, links := links, audit := audit, confirmations := confirmations, commentSyncs := syncs);
      assert store.tables == Rewritten(sql, t, p, c, provider);
      StatementsMerge(sql, t, p, c);
      store.tables := DeleteNodes(store.tables, p.repo, {p});
    }

    method MergeNext(rest: seq<NodeKey>, canon: Canon)
      requires rest != [] && Plan(store.tables, rest, canon)
      modifies store
      ensures Plan(store.tables, rest[1..], canon)
      ensures Repair(sql, old(store.tables), rest, canon) == Repair(sql, store.tables, rest[1..], canon)
    {
      PlanGoesOn(sql, store.tables, rest, canon);
      MergePlaceholder(rest[0], canon[rest[0]]);
    }

    method MergeAll(candidates: seq<NodeKey>, canon: Canon) returns (repaired: seq<NodeKey>)
      requires Plan(store.tables, candidates, canon)
      modifies store
      ensures store.tables == Repair(sql, old(store.tables), candidates, canon)
      ensures repaired == Canons(candidates, canon)
    {
      repaired := [];
      var rest := candidates;
      while rest != []
        invariant repaired + Canons(rest, canon) == Canons(candidates, canon)
        invariant Plan(store.tables, rest, canon)
        invariant Repair(sql, old(store.tables), candidates, canon) == Repair(sql, store.tables, rest, canon)
        decreases |rest|
      {
        CanonsOnward(repaired, rest, canon);
        MergeNext(rest, canon);
        repaired := repaired + [canon[rest[0]]];
        rest := rest[1..];
      }
    }

    /** Lists the placeholders first, in the order of their ids, then merges them one after another. */
    method RepairIssueProviderPlaceholders(repo: string) returns (repaired: seq<NodeKey>, ghost placeholders: seq<NodeKey>)
      requires Referential(store.tables)
      modifies store
      ensures Enumerates(placeholders, Placeholders(old(store.tables), repo)) && Sorted(ById, placeholders)
      ensures Plan(old(store.tables), placeholders, CanonOf(old(store.tables), repo))
      ensures store.tables == Repair(sql, old(store.tables), placeholders, CanonOf(old(store.tables), repo))
      ensures repaired == Canons(placeholders, CanonOf(old(store.tables), repo))
      ensures forall k, c: NodeKey | k in placeholders && StandsIn(old(store.tables), k, c) ::
                c in old(store.tables).records && WaitsAgain(sql, old(store.tables), store.tables, c)
    {
      var canon := CanonOf(store.tables, repo);
      var ids := Placeholders(store.tables, repo);
      IdsAreOrdered(ids, repo);
      var candidates := OrderBy(ids, ById);
      placeholders := candidates;
      PlaceholdersArePlanned(store.tables, repo, candidates);
      repaired := MergeAll(candidates, canon);
      PlaceholdersAreExact(old(store.tables), repo);
      forall k, c: NodeKey | k in placeholders && StandsIn(old(store.tables), k, c)
        ensures c in old(store.tables).records && WaitsAgain(sql, old(store.tables), store.tables, c)
      {
        RepairedQueue(sql, old(store.tables), placeholders, canon, k);
      }
    }
  }
}
