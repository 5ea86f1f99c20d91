/** `VectorDB` (vector_db.py): a faiss `IndexFlatL2` kept beside the list of chunk
    texts it was built from. Label i of the index is meant to be chunk i. The
    embedding service and faiss's nearest-neighbour search are outside the model:
    the first is an `EmbeddingClient` whose answers come from a fixed oracle, the
    second a function passed to `Search`. */
module VectorStore {
  import opened Outcomes
  import opened ChunkFile
  import opened Storage

  /** `get_embedding`: a remote call. Every request is logged, so that the order and
      number of calls can be stated; `None` stands for a failed call. */
  class EmbeddingClient {
    const oracle: string -> Option<Vector>
    var requests: seq<string>

    constructor (oracle: string -> Option<Vector>)
      ensures this.oracle == oracle && requests == []
    {
      this.oracle := oracle;
      requests := [];
    }

    method Embed(text: string) returns (v: Option<Vector>)
      modifies this
      ensures v == oracle(text)
      ensures requests == old(requests) + [text]
    {
      v := oracle(text);
      requests := requests + [text];
    }
  }

  // ---------------------------------------------------------------------------
  // Building: `[get_embedding(t) for t in texts]`, then numpy and faiss.

  /** The embeddings of `texts` in order, or `None` when some call fails. */
  function EmbedAll(texts: seq<string>, oracle: string -> Option<Vector>): Option<seq<Vector>>
  {
    if texts == [] then Some([])
    else match EmbedAll(texts[..|texts| - 1], oracle)
      case None => None
      case Some(vs) =>
        match oracle(texts[|texts| - 1])
        case None => None
        case Some(v) => Some(vs + [v])
  }

  /** The texts the comprehension sends to the service: all of them, or those up to
      and including the first whose call fails. */
  function EmbedCalls(texts: seq<string>, oracle: string -> Option<Vector>): seq<string>
  {
    if texts == [] then []
    else if EmbedAll(texts[..|texts| - 1], oracle).None? then EmbedCalls(texts[..|texts| - 1], oracle)
    else texts
  }

  predicate SameLength(vs: seq<Vector>)
  {
    forall i :: 0 <= i < |vs| ==> |vs[i]| == |vs[0]|
  }

  /** What `build_index` ends with: the new index, or the exception it raises.
      `np.array([]).shape[1]` raises IndexError; ragged rows make numpy raise ValueError. */
  function BuildOutcome(texts: seq<string>, oracle: string -> Option<Vector>): Result<FlatIndex>
  {
    match EmbedAll(texts, oracle)
    case None => Failure(EmbeddingError)
    case Some(vs) =>
      if vs == [] then Failure(IndexError)
      else if !SameLength(vs) then Failure(ValueError("inhomogeneous embedding shape"))
      else Success(FlatIndex(|vs[0]|, vs))
  }

  /** Embedding succeeds exactly when every call does, and then vector i is the
      embedding of text i. */
  lemma {:induction false} EmbedAllAligned(texts: seq<string>, oracle: string -> Option<Vector>)
    ensures EmbedAll(texts, oracle).Some? <==> forall i :: 0 <= i < |texts| ==> oracle(texts[i]).Some?
    ensures EmbedAll(texts, oracle).Some? ==>
      var vs := EmbedAll(texts, oracle).value;
      |vs| == |texts| && forall i :: 0 <= i < |texts| ==> oracle(texts[i]) == Some(vs[i])
  {
    if texts != [] {
      var front := texts[..|texts| - 1];
      EmbedAllAligned(front, oracle);
      assert forall i :: 0 <= i < |front| ==> front[i] == texts[i];
    }
  }

  /** The service sees a prefix of `texts`, in order: all of it when every call
      succeeds, otherwise exactly the texts up to the first failing one. */
  lemma {:induction false} EmbedCallsInOrder(texts: seq<string>, oracle: string -> Option<Vector>)
    ensures var calls := EmbedCalls(texts, oracle);
      |calls| <= |texts| && calls == texts[..|calls|]
    ensures EmbedAll(texts, oracle).Some? ==> EmbedCalls(texts, oracle) == texts
    ensures EmbedAll(texts, oracle).None? ==>
      var calls := EmbedCalls(texts, oracle);
      && calls != []
      && oracle(calls[|calls| - 1]).None?
      && forall i :: 0 <= i < |calls| - 1 ==> oracle(calls[i]).Some?
  {
    if texts != [] {
      var front := texts[..|texts| - 1];
      EmbedCallsInOrder(front, oracle);
      EmbedAllAligned(front, oracle);
      if EmbedAll(front, oracle).None? {
        var calls := EmbedCalls(front, oracle);
        assert calls == texts[..|calls|];
      } else {
        assert texts[..|texts|] == texts;
        if EmbedAll(texts, oracle).None? {
          assert forall i :: 0 <= i < |texts| - 1 ==> texts[i] == front[i];
        }
      }
    }
  }

  /** The first failing call ends the comprehension at that text. */
  lemma {:induction false} EmbedFailureStops(texts: seq<string>, i: nat, oracle: string -> Option<Vector>)
    requires i < |texts|
    requires EmbedAll(texts[..i], oracle).Some? && oracle(texts[i]).None?
    ensures EmbedAll(texts, oracle).None?
    ensures EmbedCalls(texts, oracle) == texts[..i + 1]
    decreases |texts|
  {
    var front := texts[..|texts| - 1];
    if |texts| == i + 1 {
      assert front == texts[..i];
      assert texts[..i + 1] == texts;
    } else {
      assert front[..i] == texts[..i];
      EmbedFailureStops(front, i, oracle);
      assert front[..i + 1] == texts[..i + 1];
    }
  }

  /** The central invariant at build time: a built index holds one vector per chunk,
      vector i is the embedding of chunk i, and all share the recorded dimension.
      Building succeeds exactly when there is a chunk, every call succeeds and all
      embeddings have one length. */
  lemma BuildOutcomeAligned(texts: seq<string>, oracle: string -> Option<Vector>)
    ensures BuildOutcome(texts, oracle).Success? <==>
      && texts != []
      && (forall i :: 0 <= i < |texts| ==> oracle(texts[i]).Some?)
      && (forall i :: 0 <= i < |texts| ==> |oracle(texts[i]).value| == |oracle(texts[0]).value|)
    ensures BuildOutcome(texts, oracle).Success? ==>
      var ix := BuildOutcome(texts, oracle).value;
      && |ix.vectors| == |texts|
      && (forall i :: 0 <= i < |texts| ==> oracle(texts[i]) == Some(ix.vectors[i]))
      && (forall i :: 0 <= i < |texts| ==> |ix.vectors[i]| == ix.d)
  {
    EmbedAllAligned(texts, oracle);
  }

  // ---------------------------------------------------------------------------
  // Searching: pairing faiss's labels with the chunk list.

  /** One row of `index.search`: a distance and a label, -1 for padding. */
  datatype Hit = Hit(distance: real, idx: int)

  /** One element of `search`'s result: `(dist, self.text_chunks[idx])`. */
  datatype Scored = Scored(distance: real, chunk: string)

  /** Python list indexing `xs[i]`, negative indices counting from the end. */
  function PyGet(xs: seq<string>, i: int): (r: Option<string>)
    ensures r.Some? <==> -|xs| <= i < |xs|
  {
    if 0 <= i < |xs| then Some(xs[i])
    else if -|xs| <= i < 0 then Some(xs[|xs| + i])
    else None
  }

  /** The loop of `search` as written: a hit is kept when `idx < len(text_chunks)`,
      and paired with `text_chunks[idx]`. */
  function PairHits(hits: seq<Hit>, chunks: seq<string>): Result<seq<Scored>>
  {
    if hits == [] then Success([])
    else match PairHits(hits[..|hits| - 1], chunks)
      case Failure(e) => Failure(e)
      case Success(rs) =>
        var h := hits[|hits| - 1];
        if h.idx < |chunks| then
          match PyGet(chunks, h.idx)
          case None => Failure(IndexError)
          case Some(c) => Success(rs + [Scored(h.distance, c)])
        else Success(rs)
  }

  /** The hits whose label passes the guard, in faiss's order. */
  function Kept(hits: seq<Hit>, n: int): (r: seq<Hit>)
    ensures |r| <= |hits|
  {
    if hits == [] then []
    else Kept(hits[..|hits| - 1], n) + (if hits[|hits| - 1].idx < n then [hits[|hits| - 1]] else [])
  }

  /** With no padding labels, `search` keeps the hits whose label is below the chunk
      count, in faiss's order, and pairs each distance with the chunk at that label. */
  lemma {:induction false} PairHitsKeepsOrder(hits: seq<Hit>, chunks: seq<string>)
    requires forall k :: 0 <= k < |hits| ==> 0 <= hits[k].idx
    ensures PairHits(hits, chunks).Success?
    ensures var rs := PairHits(hits, chunks).value; var kept := Kept(hits, |chunks|);
      && |rs| == |kept| <= |hits|
      && forall j :: 0 <= j < |rs| ==> 0 <= kept[j].idx < |chunks| && rs[j] == Scored(kept[j].distance, chunks[kept[j].idx])
  {
    if hits != [] {
      PairHitsKeepsOrder(hits[..|hits| - 1], chunks);
    }
  }

  /** The positional link: when every label names a stored chunk, result j is hit j's
      distance paired with the chunk at hit j's label. */
  lemma PairHitsPositional(hits: seq<Hit>, chunks: seq<string>)
    requires forall k :: 0 <= k < |hits| ==> 0 <= hits[k].idx < |chunks|
    ensures PairHits(hits, chunks).Success?
    ensures var rs := PairHits(hits, chunks).value;
      && |rs| == |hits|
      && forall j :: 0 <= j < |hits| ==> rs[j] == Scored(hits[j].distance, chunks[hits[j].idx])
  {
    PairHitsKeepsOrder(hits, chunks);
    KeptAll(hits, |chunks|);
  }

  lemma {:induction false} KeptAll(hits: seq<Hit>, n: int)
    requires forall k :: 0 <= k < |hits| ==> hits[k].idx < n
    ensures Kept(hits, n) == hits
  {
    if hits != [] {
      KeptAll(hits[..|hits| - 1], n);
    }
  }

  /** faiss's search contract: a query for `k` neighbours gets at most `k` rows
      (exactly `k`, padded with label -1, for a flat index). */
  ghost predicate AnswersAtMost(knn: (FlatIndex, Vector, int) -> seq<Hit>, k: int)
  {
    forall ix: FlatIndex, v: Vector :: |knn(ix, v, k)| <= k
  }

  /** `search` never returns more pairs than faiss returned rows. */
  lemma {:induction false} PairHitsBounded(hits: seq<Hit>, chunks: seq<string>)
    ensures PairHits(hits, chunks).Success? ==> |PairHits(hits, chunks).value| <= |hits|
  {
    if hits != [] {
      PairHitsBounded(hits[..|hits| - 1], chunks);
    }
  }

  /** faiss pads with label -1 when fewer vectors than `top_k` are stored. Such a row
      passes `idx < len(text_chunks)` and `text_chunks[-1]` is the LAST chunk, so
      padding shows up as a copy of the last chunk; with no chunks it raises IndexError. */
  lemma PaddingRowAsWritten(hits: seq<Hit>, chunks: seq<string>, d: real)
    requires PairHits(hits, chunks).Success?
    ensures chunks != [] ==>
      PairHits(hits + [Hit(d, -1)], chunks) == Success(PairHits(hits, chunks).value + [Scored(d, chunks[|chunks| - 1])])
    ensures chunks == [] ==> PairHits(hits + [Hit(d, -1)], chunks) == Failure(IndexError)
  {
    assert (hits + [Hit(d, -1)])[..|hits|] == hits;
  }

  /** Two stored chunks, `top_k = 3`: faiss answers labels 0, 1 and a padding -1,
      and the second chunk is returned twice. */
  lemma PaddingDuplicatesLastChunk()
    ensures PairHits([Hit(0.0, 0), Hit(1.0, 1), Hit(9.0, -1)], ["x", "y"])
         == Success([Scored(0.0, "x"), Scored(1.0, "y"), Scored(9.0, "y")])
  {
    var chunks := ["x", "y"];
    var h1 := [Hit(0.0, 0)];
    var h2 := h1 + [Hit(1.0, 1)];
    var h3 := h2 + [Hit(9.0, -1)];
    assert h1[..0] == [];
    assert PairHits([], chunks) == Success([]);
    assert [] + [Scored(0.0, "x")] == [Scored(0.0, "x")];
    assert PairHits(h1, chunks) == Success([Scored(0.0, "x")]);
    assert h2[..1] == h1;
    assert [Scored(0.0, "x")] + [Scored(1.0, "y")] == [Scored(0.0, "x"), Scored(1.0, "y")];
    assert PairHits(h2, chunks) == Success([Scored(0.0, "x"), Scored(1.0, "y")]);
    assert h3[..2] == h2;
    assert [Scored(0.0, "x"), Scored(1.0, "y")] + [Scored(9.0, "y")] == [Scored(0.0, "x"), Scored(1.0, "y"), Scored(9.0, "y")];
    assert h3 == [Hit(0.0, 0), Hit(1.0, 1), Hit(9.0, -1)];
  }

  /** The evidently intended guard `0 <= idx < len(text_chunks)`. */
  function PairHitsGuarded(hits: seq<Hit>, chunks: seq<string>): seq<Scored>
  {
    if hits == [] then []
    else
      var h := hits[|hits| - 1];
      PairHitsGuarded(hits[..|hits| - 1], chunks)
        + (if 0 <= h.idx < |chunks| then [Scored(h.distance, chunks[h.idx])] else [])
  }

  /** With the guard, every result is a real hit paired with the chunk at its label,
      in faiss's order; padding rows contribute nothing. */
  lemma {:induction false} PairHitsGuardedSound(hits: seq<Hit>, chunks: seq<string>)
    ensures var rs := PairHitsGuarded(hits, chunks);
      && |rs| <= |hits|
      && forall j :: 0 <= j < |rs| ==>
           (exists k :: 0 <= k < |hits| && 0 <= hits[k].idx < |chunks| && rs[j] == Scored(hits[k].distance, chunks[hits[k].idx]))
  {
    if hits != [] {
      var front := hits[..|hits| - 1];
      var h := hits[|hits| - 1];
      PairHitsGuardedSound(front, chunks);
      var before := PairHitsGuarded(front, chunks);
      var rs := PairHitsGuarded(hits, chunks);
      assert rs == before + (if 0 <= h.idx < |chunks| then [Scored(h.distance, chunks[h.idx])] else []);
      forall j | 0 <= j < |rs|
        ensures exists k :: 0 <= k < |hits| && 0 <= hits[k].idx < |chunks| && rs[j] == Scored(hits[k].distance, chunks[hits[k].idx])
      {
        if j < |before| {
          var k :| 0 <= k < |front| && 0 <= front[k].idx < |chunks| && before[j] == Scored(front[k].distance, chunks[front[k].idx]);
          assert hits[k] == front[k];
        } else {
          assert rs[j] == Scored(h.distance, chunks[h.idx]);
        }
      }
    }
  }

  /** On inputs without padding, the guarded loop agrees with the loop as written. */
  lemma {:induction false} PairHitsGuardedAgrees(hits: seq<Hit>, chunks: seq<string>)
    requires forall k :: 0 <= k < |hits| ==> 0 <= hits[k].idx
    ensures PairHits(hits, chunks) == Success(PairHitsGuarded(hits, chunks))
  {
    if hits != [] {
      var front := hits[..|hits| - 1];
      assert forall k :: 0 <= k < |front| ==> front[k] == hits[k];
      PairHitsGuardedAgrees(front, chunks);
      var h := hits[|hits| - 1];
      var before := PairHitsGuarded(front, chunks);
      if h.idx < |chunks| {
        assert PyGet(chunks, h.idx) == Some(chunks[h.idx]);
        assert PairHits(hits, chunks) == Success(before + [Scored(h.distance, chunks[h.idx])]);
        assert PairHitsGuarded(hits, chunks) == before + [Scored(h.distance, chunks[h.idx])];
      } else {
        assert PairHits(hits, chunks) == Success(before);
        assert before + [] == before;
      }
    }
  }

  /** With the guard a padding row is dropped. */
  lemma PaddingRowGuarded(hits: seq<Hit>, chunks: seq<string>, d: real)
    ensures PairHitsGuarded(hits + [Hit(d, -1)], chunks) == PairHitsGuarded(hits, chunks)
  {
    assert (hits + [Hit(d, -1)])[..|hits|] == hits;
  }

  /** A failure part-way through the loop is the loop's result. */
  lemma {:induction false} PairHitsFailureSticks(hits: seq<Hit>, j: nat, chunks: seq<string>)
    requires j <= |hits| && PairHits(hits[..j], chunks).Failure?
    ensures PairHits(hits, chunks) == Failure(IndexError)
    decreases |hits| - j
  {
    if j == |hits| {
      assert hits[..j] == hits;
      PairHitsOnlyIndexError(hits, chunks);
    } else {
      assert hits[..j + 1][..j] == hits[..j];
      PairHitsFailureSticks(hits, j + 1, chunks);
    }
  }

  lemma {:induction false} PairHitsOnlyIndexError(hits: seq<Hit>, chunks: seq<string>)
    ensures PairHits(hits, chunks).Failure? ==> PairHits(hits, chunks) == Failure(IndexError)
  {
    if hits != [] {
      PairHitsOnlyIndexError(hits[..|hits| - 1], chunks);
    }
  }

  // ---------------------------------------------------------------------------

  /** The store's `text_chunks` after `load_index` found an index file: the chunk
      file's lines when it exists, otherwise the list the store already held. It
      agrees with the agent's `load_chunks` exactly when the chunk file exists or the
      store held no chunks. */
  function StoreChunksAfterLoad(chunksFile: Option<string>, held: seq<string>): (chunks: seq<string>)
    ensures chunksFile.Some? ==> chunks == LoadChunks(chunksFile)
    ensures chunks == LoadChunks(chunksFile) <==> chunksFile.Some? || held == []
  {
    if chunksFile.Some? then ParseChunkFile(chunksFile.value) else held
  }

  class VectorDB {
    const disk: Disk
    var index: Option<FlatIndex>
    var textChunks: seq<string>
    var dimension: int

    /** Label i of the index is chunk i: as many vectors as chunks. */
    ghost predicate Aligned()
      reads this
    {
      index.Some? ==> |index.value.vectors| == |textChunks|
    }

    constructor (disk: Disk)
      ensures this.disk == disk
      ensures index == None && textChunks == [] && dimension == 0
    {
      this.disk := disk;
      index := None;
      textChunks := [];
      dimension := 0;
    }

    /** `build_index`: `text_chunks` is set first, then every chunk is embedded in
        order; on success the dimension and index are set and both artifacts are
        saved. A failure leaves `index`, `dimension` and the disk as they were but
        `text_chunks` already replaced. */
    method BuildIndex(texts: seq<string>, embedder: EmbeddingClient) returns (r: Outcome)
      modifies this, disk, embedder
      ensures textChunks == texts
      ensures embedder.requests == old(embedder.requests) + EmbedCalls(texts, embedder.oracle)
      ensures BuildOutcome(texts, embedder.oracle).Failure? ==>
        && r == Fail(BuildOutcome(texts, embedder.oracle).error)
        && index == old(index) && dimension == old(dimension)
        && unchanged(disk)
      ensures BuildOutcome(texts, embedder.oracle).Success? ==>
        var ix := BuildOutcome(texts, embedder.oracle).value;
        && r == Pass
        && index == Some(ix) && dimension == ix.d
        && disk.indexFile == Some(ix) && disk.chunksFile == Some(Serialize(texts))
        && disk.ledgerFile == old(disk.ledgerFile)
        && disk.writes == old(disk.writes) + [IndexFile, ChunksFile]
      ensures r == Pass ==> Aligned()
    {
      textChunks := texts;
      var embeddings: seq<Vector> := [];
      var i := 0;
      while i < |texts|
        modifies embedder
        invariant 0 <= i <= |texts|
        invariant EmbedAll(texts[..i], embedder.oracle) == Some(embeddings)
        invariant embedder.requests == old(embedder.requests) + texts[..i]
      {
        var v := embedder.Embed(texts[i]);
        if v.None? {
          EmbedFailureStops(texts, i, embedder.oracle);
          return Fail(EmbeddingError);
        }
        assert texts[..i + 1][..i] == texts[..i];
        embeddings := embeddings + [v.value];
        i := i + 1;
      }
      assert texts[..|texts|] == texts;
      EmbedCallsInOrder(texts, embedder.oracle);
      if embeddings == [] {
        return Fail(IndexError);
      }
      if !SameLength(embeddings) {
        return Fail(ValueError("inhomogeneous embedding shape"));
      }
      dimension := |embeddings[0]|;
      index := Some(FlatIndex(|embeddings[0]|, embeddings));
      EmbedAllAligned(texts, embedder.oracle);
      r := SaveIndex();
    }

    /** `save_index`: the index file, then the chunk file, one line per chunk. Its
        only caller, `build_index`, sets the index right before the call. */
    method SaveIndex() returns (r: Outcome)
      requires index.Some?
      modifies disk
      ensures r == Pass
      ensures disk.indexFile == index && disk.chunksFile == Some(Serialize(textChunks))
      ensures disk.ledgerFile == old(disk.ledgerFile)
      ensures disk.writes == old(disk.writes) + [IndexFile, ChunksFile]
    {
      disk.WriteIndex(index.value);
      WriteChunkFile(disk, textChunks);
      r := Pass;
    }

    /** `load_index`: false and nothing changed when there is no index file. Otherwise
        true, with the stored index and its dimension; `text_chunks` is replaced only
        when the chunk file exists, and the vector count is never compared with the
        chunk count. */
    method LoadIndex() returns (loaded: bool)
      modifies this
      ensures loaded == old(disk.indexFile).Some?
      ensures !loaded ==> unchanged(this)
      ensures loaded ==>
        && index == disk.indexFile && dimension == disk.indexFile.value.d
        && textChunks == StoreChunksAfterLoad(disk.chunksFile, old(textChunks))
    {
      if disk.indexFile.None? {
        return false;
      }
      index := disk.indexFile;
      dimension := index.value.d;
      if disk.chunksFile.Some? {
        textChunks := ParseChunkFile(disk.chunksFile.value);
      }
      return true;
    }

    /** `search`: RuntimeError without an index; otherwise the query is embedded once,
        faiss (`knn`) answers `top_k` rows and the rows are paired with chunks by
        the loop as written. Since faiss answers at most `top_k` rows, at most
        `top_k` pairs come back. faiss rejects a `top_k` below 1, and the program
        always passes the default 5, so `top_k` is positive here. */
    method Search(query: string, topK: int, embedder: EmbeddingClient,
                  knn: (FlatIndex, Vector, int) -> seq<Hit>) returns (r: Result<seq<Scored>>)
      requires topK > 0 && AnswersAtMost(knn, topK)
      modifies embedder
      ensures r.Success? ==> |r.value| <= topK
      ensures index.None? ==> r == Failure(RuntimeError("Index not loaded")) && embedder.requests == old(embedder.requests)
      ensures index.Some? ==>
        && embedder.requests == old(embedder.requests) + [query]
        && r == match embedder.oracle(query)
                case None => Failure(EmbeddingError)
                case Some(q) => PairHits(knn(index.value, q, topK), textChunks)
    {
      if index.None? {
        return Failure(RuntimeError("Index not loaded"));
      }
      var q := embedder.Embed(query);
      if q.None? {
        return Failure(EmbeddingError);
      }
      var hits := knn(index.value, q.value, topK);
      var results: seq<Scored> := [];
      for j := 0 to |hits|
        invariant PairHits(hits[..j], textChunks) == Success(results)
      {
        assert hits[..j + 1][..j] == hits[..j];
        var h := hits[j];
        if h.idx < |textChunks| {
          var c := PyGet(textChunks, h.idx);
          if c.None? {
            PairHitsFailureSticks(hits, j + 1, textChunks);
            return Failure(IndexError);
          }
          results := results + [Scored(h.distance, c.value)];
        }
      }
      assert hits[..|hits|] == hits;
      PairHitsBounded(hits, textChunks);
      r := Success(results);
    }
  }
}
