/** The standalone builder (index_builder.py `build_index`). It runs the same change
    detection as the agent but rebuilds the index from the queued files' chunks
    only: chunks of files indexed earlier are not carried over. */
module IndexBuilder {
  import opened Outcomes
  import opened ChunkFile
  import opened Storage
  import opened Hashing
  import opened ChangeDetection
  import opened VectorStore

  /** The processing loop: the queued files' chunks in queue order, and the ledger
      with every queued file's digest recorded. */
  method ProcessQueue(queue: seq<Pending>, ledger: Ledger, env: Collaborators)
    returns (chunks: seq<string>, recorded: Ledger)
    ensures chunks == QueueChunks(queue, env)
    ensures recorded == RecordDigests(ledger, queue)
  {
    chunks := [];
    recorded := ledger;
    for i := 0 to |queue|
      invariant chunks == QueueChunks(queue[..i], env)
      invariant recorded == RecordDigests(ledger, queue[..i])
    {
      assert queue[..i + 1][..i] == queue[..i];
      var p := queue[i];
      chunks := chunks + env.chunkText(env.extractText(p.content));
      recorded := recorded[p.name := p.digest];
    }
    assert queue[..|queue|] == queue;
  }

  /** `build_index`. Nothing queued: nothing is embedded or written. Queued files
      that yield no chunks: ValueError before anything is written. Otherwise a fresh
      vector store embeds exactly the queued chunks and saves the index and the
      chunk file, the chunk file is written again, and the ledger (loaded, plus the
      queued digests) is saved last. */
  method BuildIndex(disk: Disk, folder: seq<DirEntry>, env: Collaborators, embedder: EmbeddingClient)
    returns (r: Outcome)
    modifies disk, embedder
    ensures var queue := Queued(folder, LoadLedger(old(disk.ledgerFile)), env.sha256);
      queue == [] ==> r == Pass && unchanged(disk) && unchanged(embedder)
    ensures var queue := Queued(folder, LoadLedger(old(disk.ledgerFile)), env.sha256);
      queue != [] && QueueChunks(queue, env) == [] ==>
        r == Fail(ValueError(NoChunksMessage)) && unchanged(disk) && unchanged(embedder)
    ensures var queue := Queued(folder, LoadLedger(old(disk.ledgerFile)), env.sha256);
      var all := QueueChunks(queue, env);
      all != [] ==>
        && embedder.requests == old(embedder.requests) + EmbedCalls(all, embedder.oracle)
        && (BuildOutcome(all, embedder.oracle).Failure? ==>
              r == Fail(BuildOutcome(all, embedder.oracle).error) && unchanged(disk))
        && (BuildOutcome(all, embedder.oracle).Success? ==>
              && r == Pass
              && disk.indexFile == Some(BuildOutcome(all, embedder.oracle).value)
              && disk.chunksFile == Some(Serialize(all))
              && disk.ledgerFile == Some(RecordDigests(LoadLedger(old(disk.ledgerFile)), queue))
              && disk.writes == old(disk.writes) + [IndexFile, ChunksFile, ChunksFile, LedgerFile])
  {
    var vectorDb := new VectorDB(disk);
    var processedHashes := LoadLedger(disk.ledgerFile);
    var queue := FindChangedFiles(folder, processedHashes, env.sha256);
    if queue == [] {
      return Pass;
    }
    var allChunks, recorded := ProcessQueue(queue, processedHashes, env);
    if allChunks == [] {
      return Fail(ValueError(NoChunksMessage));
    }
    r := vectorDb.BuildIndex(allChunks, embedder);
    if r.Fail? {
      return;
    }
    WriteChunkFile(disk, allChunks);
    disk.WriteLedger(recorded);
    r := Pass;
  }

  /** After a run that saved its ledger, running the builder again over the same
      unchanged listing queues nothing, so it returns without building or writing. */
  lemma SecondBuildSkips(folder: seq<DirEntry>, ledgerFile: Option<Ledger>, sha256: seq<byte> -> string)
    requires DistinctNames(folder)
    ensures var ledger := LoadLedger(ledgerFile);
      var saved := RecordDigests(ledger, Queued(folder, ledger, sha256));
      Queued(folder, LoadLedger(Some(saved)), sha256) == []
  {
    RerunQueuesNothing(folder, LoadLedger(ledgerFile), sha256);
  }
}
