/** Replacing the chunks of a source: what stays, what is stored, and which embeddings survive. */
module RecordsChunks {
  import opened Wrappers
  import opened Collections
  import opened Records
  import opened RecordsContent

  /** The upserts that follow the trimming. */
  function StoreAll(fingerprint: Fingerprint, t: Tables, k: NodeKey, ps: seq<Piece>): Option<Tables>
    decreases |ps|
  {
    if ps == [] then Some(t)
    else match UpsertChunk(t, PieceKey(fingerprint, k, ps[0]), StoredPiece(k, ps[0]))
      case None => None
      case Some(u) => StoreAll(fingerprint, u, k, ps[1..])
  }

  lemma {:induction false} StoreAllIsExecAll(fingerprint: Fingerprint, t: Tables, k: NodeKey, ps: seq<Piece>)
    ensures ExecAll(t, StorePieces(fingerprint, k, ps)) == StoreAll(fingerprint, t, k, ps)
    decreases |ps|
  {
    if ps != [] {
      var ws := StorePieces(fingerprint, k, ps);
      assert ws[0] == PutChunk(PieceKey(fingerprint, k, ps[0]), StoredPiece(k, ps[0]));
      assert ws[1..] == StorePieces(fingerprint, k, ps[1..]);
      if UpsertChunk(t, PieceKey(fingerprint, k, ps[0]), StoredPiece(k, ps[0])).Some? {
        StoreAllIsExecAll(fingerprint, UpsertChunk(t, PieceKey(fingerprint, k, ps[0]), StoredPiece(k, ps[0])).value, k, ps[1..]);
      }
    }
  }

  /** Key to content hash; of equal keys the last one counts. */
  function Hashes(fingerprint: Fingerprint, k: NodeKey, ps: seq<Piece>): map<ChunkKey, string> {
    if ps == [] then map[] else map[PieceKey(fingerprint, k, ps[0]) := ps[0].row.hash] + Hashes(fingerprint, k, ps[1..])
  }

  /** Key to source; of equal keys the first one counts. */
  function Owners(fingerprint: Fingerprint, k: NodeKey, ps: seq<Piece>): map<ChunkKey, string> {
    if ps == [] then map[] else Owners(fingerprint, k, ps[1..]) + map[PieceKey(fingerprint, k, ps[0]) := StoredPiece(k, ps[0]).source]
  }

  /** u is t with chunks of these hashes stored over it, the new ones for these sources. */
  ghost predicate PiecesStored(t: map<ChunkKey, Chunk>, hashes: map<ChunkKey, string>, owners: map<ChunkKey, string>, u: map<ChunkKey, Chunk>)
    requires hashes.Keys == owners.Keys
  {
    && (forall c :: c in u <==> c in t || c in hashes)
    && (forall c | c in u :: u[c].source == if c in t then t[c].source else owners[c])
    && (forall c | c in u :: u[c].hash == if c in hashes then hashes[c] else t[c].hash)
  }

  lemma PieceStored(t: map<ChunkKey, Chunk>, c: ChunkKey, row: Chunk)
    ensures PiecesStored(t, map[c := row.hash], map[c := row.source], t[c := if c in t then MergeChunk(t[c], row) else row])
  {
  }

  lemma PiecesCompose(t: map<ChunkKey, Chunk>, a: map<ChunkKey, string>, first: map<ChunkKey, string>, u: map<ChunkKey, Chunk>,
                      b: map<ChunkKey, string>, second: map<ChunkKey, string>, v: map<ChunkKey, Chunk>)
    requires a.Keys == first.Keys && b.Keys == second.Keys
    requires PiecesStored(t, a, first, u) && PiecesStored(u, b, second, v)
    ensures (a + b).Keys == (second + first).Keys && PiecesStored(t, a + b, second + first, v)
  {
  }

  /** One more piece in front. */
  lemma PieceBefore(t: map<ChunkKey, Chunk>, c: ChunkKey, row: Chunk, u: map<ChunkKey, Chunk>, hashes: map<ChunkKey, string>,
                    owners: map<ChunkKey, string>, v: map<ChunkKey, Chunk>)
    requires u == t[c := if c in t then MergeChunk(t[c], row) else row]
    requires hashes.Keys == owners.Keys && PiecesStored(u, hashes, owners, v)
    ensures (map[c := row.hash] + hashes).Keys == (owners + map[c := row.source]).Keys
    ensures PiecesStored(t, map[c := row.hash] + hashes, owners + map[c := row.source], v)
  {
    PieceStored(t, c, row);
    PiecesCompose(t, map[c := row.hash], map[c := row.source], u, hashes, owners, v);
  }

  lemma ChunkUpserted(t: Tables, c: ChunkKey, row: Chunk)
    requires UpsertChunk(t, c, row).Some?
    ensures var u := UpsertChunk(t, c, row).value;
            u.chunks == t.chunks[c := if c in t.chunks then MergeChunk(t.chunks[c], row) else row] && u.embeddings == t.embeddings
  {
  }

  lemma {:induction false} SameKeys(fingerprint: Fingerprint, k: NodeKey, ps: seq<Piece>)
    ensures Hashes(fingerprint, k, ps).Keys == Owners(fingerprint, k, ps).Keys
    ensures forall c :: c in Hashes(fingerprint, k, ps) <==> exists p :: p in ps && PieceKey(fingerprint, k, p) == c
    decreases |ps|
  {
    if ps != [] {
      SameKeys(fingerprint, k, ps[1..]);
      assert forall p :: p in ps <==> p == ps[0] || p in ps[1..];
    }
  }

  lemma {:induction false} PiecesAreStored(fingerprint: Fingerprint, t: Tables, k: NodeKey, ps: seq<Piece>)
    requires StoreAll(fingerprint, t, k, ps).Some?
    ensures Hashes(fingerprint, k, ps).Keys == Owners(fingerprint, k, ps).Keys
    ensures PiecesStored(t.chunks, Hashes(fingerprint, k, ps), Owners(fingerprint, k, ps), StoreAll(fingerprint, t, k, ps).value.chunks)
    ensures StoreAll(fingerprint, t, k, ps).value.embeddings == t.embeddings
    decreases |ps|
  {
    if ps != [] {
      var c, row := PieceKey(fingerprint, k, ps[0]), StoredPiece(k, ps[0]);
      var next := UpsertChunk(t, c, row).value;
      ChunkUpserted(t, c, row);
      PiecesAreStored(fingerprint, next, k, ps[1..]);
      PieceBefore(t.chunks, c, row, next.chunks, Hashes(fingerprint, k, ps[1..]), Owners(fingerprint, k, ps[1..]),
                  StoreAll(fingerprint, next, k, ps[1..]).value.chunks);
    }
  }

  /** The replacement of k's chunks does not delete chunk c. */
  predicate Retained(t: Tables, k: NodeKey, wanted: map<string, string>, c: ChunkKey)
    requires c in t.chunks
  {
    OfChunk(c, t.chunks[c]) == k ==> c.id in wanted && wanted[c.id] == t.chunks[c].hash
  }

  predicate Stays(t: Tables, k: NodeKey, wanted: map<string, string>, c: ChunkKey) {
    c in t.chunks && Retained(t, k, wanted, c)
  }

  ghost predicate ReplacesChunks(t: Tables, k: NodeKey, wanted: map<string, string>, hashes: map<ChunkKey, string>,
                                 owners: map<ChunkKey, string>, u: Tables)
    requires hashes.Keys == owners.Keys
  {
    && (forall c :: c in u.chunks <==> Stays(t, k, wanted, c) || c in hashes)
    && (forall c | c in u.chunks :: u.chunks[c].source == if Stays(t, k, wanted, c) then t.chunks[c].source else owners[c])
    && (forall c | c in u.chunks :: u.chunks[c].hash == if c in hashes then hashes[c] else t.chunks[c].hash)
    && (forall e | e in t.embeddings && Embedded(e) in t.chunks :: e in u.embeddings <==> Retained(t, k, wanted, Embedded(e)))
    && u.embeddings.Keys <= t.embeddings.Keys
  }

  lemma TrimThenStore(t: Tables, k: NodeKey, wanted: map<string, string>, hashes: map<ChunkKey, string>, owners: map<ChunkKey, string>, u: Tables)
    requires hashes.Keys == owners.Keys
    requires PiecesStored(t.chunks - StaleChunks(t, k, wanted), hashes, owners, u.chunks)
    requires u.embeddings == WithoutEmbeddings(t.embeddings, StaleChunks(t, k, wanted))
    ensures ReplacesChunks(t, k, wanted, hashes, owners, u)
  {
    var gone := StaleChunks(t, k, wanted);
    assert forall c | c in t.chunks :: c in gone <==> !Retained(t, k, wanted, c);
    assert forall c :: c in t.chunks - gone <==> Stays(t, k, wanted, c);
  }

  /** A replacement leaves the chunks that it retains, with their sources, and those that it stores: each piece under
      its own id or its fingerprint, with the hash of the last piece of that key and, if the chunk was not retained,
      the source that the first one names. An embedding survives if and only if its chunk is retained, that is,
      another source's or wanted under its stored id with its content hash. */
  lemma ReplacementIsExact(fingerprint: Fingerprint, t: Tables, k: NodeKey, ps: seq<Piece>, u: Tables)
    requires ExecAll(t, [TrimChunks(k, Wanted(ps))] + StorePieces(fingerprint, k, ps)) == Some(u)
    ensures Hashes(fingerprint, k, ps).Keys == Owners(fingerprint, k, ps).Keys
    ensures ReplacesChunks(t, k, Wanted(ps), Hashes(fingerprint, k, ps), Owners(fingerprint, k, ps), u)
  {
    var ws := StorePieces(fingerprint, k, ps);
    var trimmed := DeleteChunks(t, k.repo, StaleChunks(t, k, Wanted(ps)));
    assert ([TrimChunks(k, Wanted(ps))] + ws)[1..] == ws;
    StoreAllIsExecAll(fingerprint, trimmed, k, ps);
    PiecesAreStored(fingerprint, trimmed, k, ps);
    TrimThenStore(t, k, Wanted(ps), Hashes(fingerprint, k, ps), Owners(fingerprint, k, ps), u);
  }

  lemma NamedPiece(fingerprint: Fingerprint, k: NodeKey, p: Piece)
    requires Belong([p], k)
    ensures PieceKey(fingerprint, k, p) == ChunkKey(k.repo, p.id) && StoredPiece(k, p).source == k.id
  {
    assert [p][0] == p;
  }

  lemma {:induction false} NamedHashes(fingerprint: Fingerprint, k: NodeKey, ps: seq<Piece>)
    requires Belong(ps, k)
    ensures forall c :: c in Hashes(fingerprint, k, ps) <==> c.repo == k.repo && c.id in Wanted(ps)
    ensures forall c | c in Hashes(fingerprint, k, ps) :: Hashes(fingerprint, k, ps)[c] == Wanted(ps)[c.id]
    decreases |ps|
  {
    if ps != [] {
      NamedPiece(fingerprint, k, ps[0]);
      NamedHashes(fingerprint, k, ps[1..]);
    }
  }

  lemma {:induction false} NamedOwners(fingerprint: Fingerprint, k: NodeKey, ps: seq<Piece>)
    requires Belong(ps, k)
    ensures forall c | c in Owners(fingerprint, k, ps) :: Owners(fingerprint, k, ps)[c] == k.id
    decreases |ps|
  {
    if ps != [] {
      NamedPiece(fingerprint, k, ps[0]);
      NamedOwners(fingerprint, k, ps[1..]);
    }
  }

  /** If the pieces are the source's own and carry ids, then after the replacement it owns exactly the replacement
      chunks that no other source owned before, and each of them has the replacement's hash. */
  lemma NamedReplacement(fingerprint: Fingerprint, t: Tables, k: NodeKey, ps: seq<Piece>, u: Tables, c: ChunkKey)
    requires Belong(ps, k) && ExecAll(t, [TrimChunks(k, Wanted(ps))] + StorePieces(fingerprint, k, ps)) == Some(u)
    requires c.repo == k.repo
    ensures c in u.chunks && u.chunks[c].source == k.id <==> c.id in Wanted(ps) && (c in t.chunks ==> t.chunks[c].source == k.id)
    ensures c.id in Wanted(ps) ==> c in u.chunks && u.chunks[c].hash == Wanted(ps)[c.id]
  {
    ReplacementIsExact(fingerprint, t, k, ps, u);
    NamedHashes(fingerprint, k, ps);
    NamedOwners(fingerprint, k, ps);
  }

  /** The key that the piece is stored under is not wanted with its content hash. */
  predicate Unwanted(fingerprint: Fingerprint, k: NodeKey, ps: seq<Piece>, p: Piece) {
    var c := PieceKey(fingerprint, k, p);
    !(c.id in Wanted(ps) && Wanted(ps)[c.id] == p.row.hash)
  }

  /** The piece is there, owned by k and with its content hash. */
  predicate Stored(fingerprint: Fingerprint, t: Tables, k: NodeKey, p: Piece) {
    var c := PieceKey(fingerprint, k, p);
    c in t.chunks && OfChunk(c, t.chunks[c]) == k && t.chunks[c].hash == p.row.hash
  }

  lemma TrimRaises(t: Tables, k: NodeKey, wanted: map<string, string>, c: ChunkKey)
    requires c in StaleChunks(t, k, wanted)
    ensures Generation(t, k.repo) < Generation(DeleteChunks(t, k.repo, StaleChunks(t, k, wanted)), k.repo)
  {
    var pieces := StaleChunks(t, k, wanted);
    MembersCount(pieces);
    BumpGrows(t.generations, k.repo, |pieces|, k.repo);
  }

  lemma TrimmingRaises(t: Tables, k: NodeKey, wanted: map<string, string>, rest: seq<Write>, u: Tables, c: ChunkKey)
    requires ExecAll(t, [TrimChunks(k, wanted)] + rest) == Some(u) && c in StaleChunks(t, k, wanted)
    ensures Generation(t, k.repo) < Generation(u, k.repo)
  {
    assert ([TrimChunks(k, wanted)] + rest)[1..] == rest;
    TrimRaises(t, k, wanted, c);
    ExecAllStamps(DeleteChunks(t, k.repo, StaleChunks(t, k, wanted)), rest, k.repo);
  }

  /** A piece without an id is wanted under "", but stored under its fingerprint. Unless that happens to be wanted
      too, a replacement by the very same piece deletes the chunk with its embeddings, stores it again and raises
      the generation. */
  lemma UnnamedReplacement(fingerprint: Fingerprint, t: Tables, k: NodeKey, ps: seq<Piece>, u: Tables, p: Piece, e: EmbeddingKey)
    requires ExecAll(t, [TrimChunks(k, Wanted(ps))] + StorePieces(fingerprint, k, ps)) == Some(u)
    requires p in ps && Unwanted(fingerprint, k, ps, p) && Embedded(e) == PieceKey(fingerprint, k, p) && e in t.embeddings
    requires Stored(fingerprint, t, k, p)
    ensures PieceKey(fingerprint, k, p) in u.chunks && e !in u.embeddings
    ensures Generation(t, k.repo) < Generation(u, k.repo)
  {
    ReplacementIsExact(fingerprint, t, k, ps, u);
    SameKeys(fingerprint, k, ps);
    TrimmingRaises(t, k, Wanted(ps), StorePieces(fingerprint, k, ps), u, PieceKey(fingerprint, k, p));
  }
}
