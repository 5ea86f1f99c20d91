/** The three persisted artifacts the indexing core reads and writes: the faiss
    index file at `faiss_path`, the chunk file `faiss_path + "_chunks.txt"` and the
    ledger of processed file hashes. The paths are the configured ones
    (config.py), so each artifact is one slot of a `Disk`. */
module Storage {
  import opened Outcomes
  import opened ChunkFile

  type Vector = seq<real>

  /** A faiss `IndexFlatL2`: its dimension `d` and the vectors added to it, in
      insertion order, so that vector i has label i. */
  datatype FlatIndex = FlatIndex(d: nat, vectors: seq<Vector>)

  /** `processed_hashes`: file name to SHA-256 hex digest. */
  type Ledger = map<string, string>

  /** Which artifact a write went to; `Disk.writes` records the order of writes. */
  datatype Artifact = IndexFile | ChunksFile | LedgerFile

  class Disk {
    var indexFile: Option<FlatIndex>
    var chunksFile: Option<string>
    var ledgerFile: Option<Ledger>
    var writes: seq<Artifact>

    constructor (indexFile: Option<FlatIndex>, chunksFile: Option<string>, ledgerFile: Option<Ledger>)
      ensures this.indexFile == indexFile && this.chunksFile == chunksFile && this.ledgerFile == ledgerFile
      ensures writes == []
    {
      this.indexFile := indexFile;
      this.chunksFile := chunksFile;
      this.ledgerFile := ledgerFile;
      writes := [];
    }

    /** `faiss.write_index(index, faiss_path)`. */
    method WriteIndex(ix: FlatIndex)
      modifies this
      ensures indexFile == Some(ix)
      ensures chunksFile == old(chunksFile) && ledgerFile == old(ledgerFile)
      ensures writes == old(writes) + [IndexFile]
    {
      indexFile := Some(ix);
      writes := writes + [IndexFile];
    }

    /** `open(chunks_path, "w")`: creates or truncates the chunk file. */
    method OpenChunksForWriting()
      modifies this
      ensures chunksFile == Some("")
      ensures indexFile == old(indexFile) && ledgerFile == old(ledgerFile)
      ensures writes == old(writes) + [ChunksFile]
    {
      chunksFile := Some("");
      writes := writes + [ChunksFile];
    }

    /** `f.write(text)` on the open chunk file. */
    method AppendToChunks(text: string)
      requires chunksFile.Some?
      modifies this
      ensures chunksFile == Some(old(chunksFile).value + text)
      ensures indexFile == old(indexFile) && ledgerFile == old(ledgerFile) && writes == old(writes)
    {
      chunksFile := Some(chunksFile.value + text);
    }

    /** `json.dump(hashes, f)` into the ledger file. */
    method WriteLedger(ledger: Ledger)
      modifies this
      ensures ledgerFile == Some(ledger)
      ensures indexFile == old(indexFile) && chunksFile == old(chunksFile)
      ensures writes == old(writes) + [LedgerFile]
    {
      ledgerFile := Some(ledger);
      writes := writes + [LedgerFile];
    }
  }

  /** The chunk-writing loop: open the chunk file for writing, then write each chunk
      as one line. Afterwards the file holds exactly `Serialize(chunks)` and no other
      artifact was touched. */
  method WriteChunkFile(disk: Disk, chunks: seq<string>)
    modifies disk
    ensures disk.chunksFile == Some(Serialize(chunks))
    ensures disk.indexFile == old(disk.indexFile) && disk.ledgerFile == old(disk.ledgerFile)
    ensures disk.writes == old(disk.writes) + [ChunksFile]
  {
    disk.OpenChunksForWriting();
    for i := 0 to |chunks|
      invariant disk.chunksFile == Some(Serialize(chunks[..i]))
      invariant disk.indexFile == old(disk.indexFile) && disk.ledgerFile == old(disk.ledgerFile)
      invariant disk.writes == old(disk.writes) + [ChunksFile]
    {
      disk.AppendToChunks(EncodeLine(chunks[i]));
      SerializeSnoc(chunks[..i], chunks[i]);
      assert chunks[..i + 1] == chunks[..i] + [chunks[i]];
    }
    assert chunks[..|chunks|] == chunks;
  }

  /** `load_processed_hashes`: the stored ledger, or an empty one when the file is missing. */
  function LoadLedger(file: Option<Ledger>): (ledger: Ledger)
    ensures file.None? ==> ledger == map[]
    ensures forall saved :: file == Some(saved) ==> ledger == saved
  {
    if file.Some? then file.value else map[]
  }

  /** `ReportAgent.load_chunks`: the stripped lines of the chunk file, or `[]` when it is missing. */
  function LoadChunks(file: Option<string>): (chunks: seq<string>)
    ensures file.None? ==> chunks == []
  {
    if file.Some? then ParseChunkFile(file.value) else []
  }

  /** Chunks saved by any of the three writers come back from `load_chunks` one per
      chunk and in order, for chunks without carriage returns. */
  lemma LoadChunksAfterWrite(chunks: seq<string>)
    requires NoCarriageReturn(chunks)
    ensures |LoadChunks(Some(Serialize(chunks)))| == |chunks|
    ensures forall i :: 0 <= i < |chunks| ==> LoadChunks(Some(Serialize(chunks)))[i] == Persisted(chunks[i])
  {
    ReloadAfterSave(chunks);
  }
}
