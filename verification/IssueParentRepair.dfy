/** Merging mistaken issue nodes into their canonical issues (internal/cache/issue_parent_repair.go). */
module IssueParentRepair {
  import opened Wrappers
  import opened Text
  import opened Records

  /** Conversions of SQLite that stay uninterpreted: julianday, None where it yields NULL, and CAST AS INTEGER. */
  datatype Sql = Sql(julianday: string -> Option<int>, castInteger: string -> int)

  const ISSUE := "issue"
  const PROVIDER_ALIAS := "gitcode_issue_id"

  // ---- which records are placeholders ----

  /** SQL trim() removes spaces only. */
  predicate OnlySpaces(s: string) { forall i | 0 <= i < |s| :: s[i] == ' ' }

  function ProviderAlias(repo: string, remoteId: string): AliasKey { AliasKey(repo, PROVIDER_ALIAS, remoteId) }

  predicate OwnAlias(t: Tables, k: NodeKey, a: AliasKey) { a in t.identities && OfIdentity(a, t.identities[a]) == k }

  /** An empty generic issue without aliases. */
  predicate Generic(t: Tables, k: NodeKey, r: Record) {
    && r.title == "Issue " + r.remoteId && OnlySpaces(r.body)
    && !exists a | a in t.identities :: OwnAlias(t, k, a)
  }

  /** A copy of the canonical issue whose one alias is the mistaken one. */
  predicate Copy(t: Tables, k: NodeKey, r: Record, canonical: Record) {
    && r.title == canonical.title && r.body == canonical.body
    && OwnAlias(t, k, AliasKey(k.repo, ISSUE, r.remoteId))
    && forall a | a in t.identities && OwnAlias(t, k, a) :: a == AliasKey(k.repo, ISSUE, r.remoteId)
  }

  /** The provider id of record k is already the provider alias of record canonical. */
  predicate Mistaken(t: Tables, k: NodeKey, canonical: NodeKey) {
    && k in t.records && canonical in t.records && k != canonical && k.repo == canonical.repo
    && var r := t.records[k];
       && r.kind == ISSUE && r.remoteType == ISSUE && k.id == "ISSUE-" + r.remoteId
       && OwnAlias(t, canonical, ProviderAlias(k.repo, r.remoteId))
  }

  predicate Candidate(t: Tables, k: NodeKey, canonical: NodeKey) {
    && Mistaken(t, k, canonical)
    && (Generic(t, k, t.records[k]) || Copy(t, k, t.records[k], t.records[canonical]))
  }

  /** The node that the record's provider id is an alias of. */
  function Canonical(t: Tables, k: NodeKey): NodeKey {
    if k in t.records && ProviderAlias(k.repo, t.records[k].remoteId) in t.identities then
      OfIdentity(ProviderAlias(k.repo, t.records[k].remoteId), t.identities[ProviderAlias(k.repo, t.records[k].remoteId)])
    else k
  }

  function Placeholders(t: Tables, repo: string): set<NodeKey> {
    set k | k in t.records && k.repo == repo && Candidate(t, k, Canonical(t, k))
  }

  // ---- merging one placeholder ----

  predicate Later(sql: Sql, a: Comment, b: Comment) {
    var x, y := sql.julianday(a.updatedAt), sql.julianday(b.updatedAt);
    x.Some? && y.Some? && x.value > y.value
  }

  function Moved(comments: map<CommentKey, Comment>, p: NodeKey, c: NodeKey): set<CommentKey> {
    set k | k in comments && OfComment(k) == p :: CommentKey(c.repo, c.id, k.comment)
  }

  /** INSERT .. SELECT .. ON CONFLICT DO UPDATE .. WHERE the moved comment is the later one. */
  function MergedComments(sql: Sql, comments: map<CommentKey, Comment>, p: NodeKey, c: NodeKey): map<CommentKey, Comment> {
    map k | k in comments.Keys + Moved(comments, p, c) ::
      var from := CommentKey(p.repo, p.id, k.comment);
      if k in Moved(comments, p, c) && (k !in comments || Later(sql, comments[from], comments[k])) then comments[from] else comments[k]
  }

  function Substituted(node: string, p: NodeKey, c: NodeKey): string {
    if node == p.id then c.id else node
  }

  /** Two INSERT OR IGNORE and one DELETE. */
  function RelinkedFrom(links: set<Link>, p: NodeKey, c: NodeKey): set<Link> {
    links + set l | l in links && From(l) == p && To(l) != p :: l.(source := c.id)
  }

  function RelinkedTo(links: set<Link>, p: NodeKey, c: NodeKey): set<Link> {
    links + set l | l in links && To(l) == p && From(l) != p :: l.(target := c.id)
  }

  function MergedLinks(links: set<Link>, p: NodeKey, c: NodeKey): set<Link> {
    WithoutLinks(RelinkedTo(RelinkedFrom(links, p, c), p, c), {p})
  }

  function MergedAudit(audit: map<NodeKey, AuditRow>, p: NodeKey, c: NodeKey): map<NodeKey, AuditRow> {
    map k | k in audit :: if k.repo == p.repo && audit[k].record == p.id then audit[k].(record := c.id) else audit[k]
  }

  function MergedConfirmations(m: map<ConfirmationKey, Confirmation>, p: NodeKey, c: NodeKey): map<ConfirmationKey, Confirmation> {
    map k | k in m :: if OfConfirmation(k, m[k]) == p then m[k].(record := c.id) else m[k]
  }

  lemma LeastIsThere(s: set<string>)
    requires s != {}
    ensures exists a :: IsLeast(a, s)
  {
    var a := LeastExists(s);
  }

  predicate IsLeast(a: string, s: set<string>) { a in s && forall b | b in s :: a == b || Less(a, b) }

  lemma LesserIsLeast(s: set<string>, x: string, y: string)
    requires x in s && IsLeast(y, s - {x})
    ensures IsLeast(if Less(x, y) then x else y, s)
  {
    LessIsTotal(x, y);
    if Less(x, y) {
      forall b | b in s ensures x == b || Less(x, b) {
        if b != x && b != y { LessIsTransitive(x, y, b); }
      }
    }
  }

  lemma {:induction false} LeastExists(s: set<string>) returns (a: string)
    requires s != {}
    ensures IsLeast(a, s)
  {
    var x :| x in s;
    if s == {x} {
      a := x;
    } else {
      var y := LeastExists(s - {x});
      LesserIsLeast(s, x, y);
      a := if Less(x, y) then x else y;
    }
  }

  lemma LeastIsUnique(s: set<string>, a: string, b: string)
    requires IsLeast(a, s) && IsLeast(b, s)
    ensures a == b
  {
    if a != b { LessIsAsymmetric(a, b); }
  }

  function Aliases(t: Tables, k: NodeKey): set<string> {
    set a | a in t.identities && a.aliasType == PROVIDER_ALIAS && OwnAlias(t, k, a) :: a.alias
  }

  /** SELECT alias .. ORDER BY alias LIMIT 1, or the empty string. */
  ghost function FirstAlias(t: Tables, k: NodeKey): (alias: string)
    ensures if Aliases(t, k) == {} then alias == "" else IsLeast(alias, Aliases(t, k))
  {
    if Aliases(t, k) == {} then ""
    else
      LeastIsThere(Aliases(t, k));
      var a :| IsLeast(a, Aliases(t, k));
      a
  }

  function CommentsOf(comments: map<CommentKey, Comment>, k: NodeKey): set<CommentKey> {
    set c | c in comments && OfComment(c) == k
  }

  /** The canonical issue goes back into the comment queue, with an expected count that never falls. */
  function Requeued(sql: Sql, syncs: map<NodeKey, CommentSync>, k: NodeKey, r: Record, provider: string, count: int): map<NodeKey, CommentSync> {
    syncs[k :=
      if k in syncs then
        syncs[k].(number := sql.castInteger(r.remoteId), remoteId := r.remoteId,
                  providerId := if provider != "" then provider else syncs[k].providerId,
                  revision := r.revision, expected := if count > syncs[k].expected then count else syncs[k].expected,
                  status := Pending, errorClass := "", retryAfter := "", updatedAt := r.updatedAt)
      else
        CommentSync(sql.castInteger(r.remoteId), r.remoteId, provider, r.revision, count, Pending, 0, "", "", "", r.updatedAt)]
  }

  /** The tables just before the placeholder itself is deleted. */
  function Rewritten(sql: Sql, t: Tables, p: NodeKey, c: NodeKey, provider: string): Tables
    requires c in t.records
  {
    var comments := MergedComments(sql, t.comments, p, c);
    t.(comments := comments,
       links := MergedLinks(t.links, p, c),
       audit := MergedAudit(t.audit, p, c),
       confirmations := MergedConfirmations(t.confirmations, p, c),
       commentSyncs := Requeued(sql, t.commentSyncs, c, t.records[c], provider, |CommentsOf(comments, c)|) - {p})
  }

  /** Everything rewritten, and the placeholder deleted with its cascades. */
  ghost function Merge(sql: Sql, t: Tables, p: NodeKey, c: NodeKey): Tables
    requires c in t.records
  {
    var comments := MergedComments(sql, t.comments, p, c);
    t.(comments := WithoutComments(comments, {p}),
       links := WithoutLinks(MergedLinks(t.links, p, c), {p}),
       audit := MergedAudit(t.audit, p, c),
       confirmations := WithoutConfirmations(MergedConfirmations(t.confirmations, p, c), {p}),
       commentSyncs := Requeued(sql, t.commentSyncs, c, t.records[c], FirstAlias(t, c), |CommentsOf(comments, c)|) - {p},
       sources := t.sources - {p}, search := t.search - {p}, records := t.records - {p},
       identities := WithoutIdentities(t.identities, {p}), revisions := t.revisions - {p},
       chunks := t.chunks - ChunksOf(t, {p}), embeddings := WithoutEmbeddings(t.embeddings, ChunksOf(t, {p})),
       generations := Bump(t.generations, p.repo, Firings(t, {p})))
  }
}
