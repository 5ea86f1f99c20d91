/** `ReportAgent` (agent.py): the API-side orchestrator. It owns a `VectorDB` over the
    same files, the in-memory chunk list and the ledger of indexed files
    (`processed_hashes`, file name to hex SHA-256). `build_or_load_index` keeps every
    previously persisted chunk and appends the chunks of new or changed files, then
    re-embeds the whole list; `ask_question` wraps the retrieved chunks in a fixed
    prompt. */
module Agent {
  import opened Outcomes
  import opened PyText
  import opened ChunkFile
  import opened Storage
  import opened ChangeDetection
  import opened VectorStore

  /** The chunks a rebuild starts from: the persisted chunk file when an index file
      exists (`load_chunks`), nothing otherwise. */
  function PriorChunks(indexFile: Option<FlatIndex>, chunksFile: Option<string>): (prior: seq<string>)
    ensures indexFile.None? || chunksFile.None? ==> prior == []
    ensures indexFile.Some? ==> prior == LoadChunks(chunksFile)
  {
    if indexFile.Some? then LoadChunks(chunksFile) else []
  }

  class ReportAgent {
    const disk: Disk
    const vectorDb: VectorDB
    var textChunks: seq<string>
    var processedHashes: Ledger

    /** The agent and its vector store read and write the same files. */
    ghost predicate Valid()
    {
      vectorDb.disk == disk
    }

    /** `__init__`: a fresh `VectorDB` over the same files, no chunks, and the ledger
        read from its file, or empty when there is none. */
    constructor (disk: Disk)
      ensures Valid() && this.disk == disk && fresh(vectorDb)
      ensures vectorDb.index == None && vectorDb.textChunks == [] && vectorDb.dimension == 0
      ensures textChunks == []
      ensures processedHashes == LoadLedger(disk.ledgerFile)
    {
      this.disk := disk;
      vectorDb := new VectorDB(disk);
      textChunks := [];
      processedHashes := LoadLedger(disk.ledgerFile);
    }

    /** `save_processed_hashes`: the ledger file is replaced by the in-memory ledger. */
    method SaveProcessedHashes()
      modifies disk
      ensures disk.ledgerFile == Some(processedHashes)
      ensures disk.indexFile == old(disk.indexFile) && disk.chunksFile == old(disk.chunksFile)
      ensures disk.writes == old(disk.writes) + [LedgerFile]
    {
      disk.WriteLedger(processedHashes);
    }

    /** `save_chunks`: the chunk file is rewritten with one line per chunk. */
    method SaveChunks(chunks: seq<string>)
      modifies disk
      ensures disk.chunksFile == Some(Serialize(chunks))
      ensures disk.indexFile == old(disk.indexFile) && disk.ledgerFile == old(disk.ledgerFile)
      ensures disk.writes == old(disk.writes) + [ChunksFile]
    {
      WriteChunkFile(disk, chunks);
    }

    /** `load_index`: loads the vector store; when that succeeds the agent's own chunk
        list is read from the chunk file (`load_chunks`). */
    method LoadIndex() returns (loaded: bool)
      requires Valid()
      modifies this, vectorDb
      ensures loaded == old(disk.indexFile).Some?
      ensures processedHashes == old(processedHashes)
      ensures textChunks == if loaded then LoadChunks(disk.chunksFile) else old(textChunks)
      ensures !loaded ==> unchanged(vectorDb)
      ensures loaded ==>
        && vectorDb.index == disk.indexFile && vectorDb.dimension == disk.indexFile.value.d
        && vectorDb.textChunks == StoreChunksAfterLoad(disk.chunksFile, old(vectorDb.textChunks))
    {
      loaded := vectorDb.LoadIndex();
      if loaded {
        textChunks := LoadChunks(disk.chunksFile);
      }
    }

    /** The processing loop of `build_or_load_index`: appends each queued file's
        chunks to `prior` in queue order and records each queued file's digest. */
    method CollectChunks(queue: seq<Pending>, prior: seq<string>, env: Collaborators)
      returns (all: seq<string>)
      modifies this
      ensures all == prior + QueueChunks(queue, env)
      ensures processedHashes == RecordDigests(old(processedHashes), queue)
      ensures textChunks == old(textChunks)
    {
      all := prior;
      for i := 0 to |queue|
        modifies this
        invariant all == prior + QueueChunks(queue[..i], env)
        invariant processedHashes == RecordDigests(old(processedHashes), queue[..i])
        invariant textChunks == old(textChunks)
      {
        assert queue[..i + 1][..i] == queue[..i];
        var p := queue[i];
        var chunks := env.chunkText(env.extractText(p.content));
        all := all + chunks;
        processedHashes := processedHashes[p.name := p.digest];
      }
      assert queue[..|queue|] == queue;
    }

    /** The rebuild branch of `build_or_load_index` (from the second `load_index` on):
        the chunks are the persisted ones when an index file exists, followed by the
        queued files' chunks; the ledger records every queued digest even when the
        rebuild then fails. No chunks at all raises ValueError before anything is
        written. Otherwise the vector store embeds the whole list and saves the index
        and the chunk file, the agent writes the chunk file again, and the ledger is
        written last. */
    method Rebuild(queue: seq<Pending>, env: Collaborators, embedder: EmbeddingClient)
      returns (r: Outcome)
      requires Valid()
      modifies this, vectorDb, disk, embedder
      ensures processedHashes == RecordDigests(old(processedHashes), queue)
      ensures var all := PriorChunks(old(disk.indexFile), old(disk.chunksFile)) + QueueChunks(queue, env);
        all == [] ==>
          && r == Fail(ValueError(NoChunksMessage))
          && unchanged(disk) && unchanged(embedder)
          && textChunks == (if old(disk.indexFile).Some? then LoadChunks(old(disk.chunksFile)) else old(textChunks))
          && vectorDb.textChunks == (if old(disk.indexFile).Some? then StoreChunksAfterLoad(old(disk.chunksFile), old(vectorDb.textChunks))
                                     else old(vectorDb.textChunks))
      ensures var all := PriorChunks(old(disk.indexFile), old(disk.chunksFile)) + QueueChunks(queue, env);
        (all == [] || BuildOutcome(all, embedder.oracle).Failure?) ==>
          && vectorDb.index == (if old(disk.indexFile).Some? then old(disk.indexFile) else old(vectorDb.index))
          && vectorDb.dimension == (if old(disk.indexFile).Some? then old(disk.indexFile).value.d else old(vectorDb.dimension))
      ensures var all := PriorChunks(old(disk.indexFile), old(disk.chunksFile)) + QueueChunks(queue, env);
        all != [] ==>
          && textChunks == all && vectorDb.textChunks == all
          && embedder.requests == old(embedder.requests) + EmbedCalls(all, embedder.oracle)
      ensures var all := PriorChunks(old(disk.indexFile), old(disk.chunksFile)) + QueueChunks(queue, env);
        all != [] && BuildOutcome(all, embedder.oracle).Failure? ==>
          && r == Fail(BuildOutcome(all, embedder.oracle).error)
          && unchanged(disk)
      ensures var all := PriorChunks(old(disk.indexFile), old(disk.chunksFile)) + QueueChunks(queue, env);
        all != [] && BuildOutcome(all, embedder.oracle).Success? ==>
          && r == Pass
          && vectorDb.index == Some(BuildOutcome(all, embedder.oracle).value)
          && vectorDb.dimension == BuildOutcome(all, embedder.oracle).value.d
          && disk.indexFile == vectorDb.index
          && disk.chunksFile == Some(Serialize(all))
          && disk.ledgerFile == Some(processedHashes)
          && disk.writes == old(disk.writes) + [IndexFile, ChunksFile, ChunksFile, LedgerFile]
    {
      var prior: seq<string> := [];
      var reloaded := LoadIndex();
      if reloaded {
        prior := prior + textChunks;
      }
      assert prior == PriorChunks(old(disk.indexFile), old(disk.chunksFile));
      var allChunks := CollectChunks(queue, prior, env);
      if allChunks == [] {
        return Fail(ValueError(NoChunksMessage));
      }
      textChunks := allChunks;
      r := vectorDb.BuildIndex(allChunks, embedder);
      if r.Fail? {
        return;
      }
      SaveChunks(allChunks);
      SaveProcessedHashes();
      r := Pass;
    }

    /** `build_or_load_index`. With nothing queued and an index file present, the
        stored chunks are loaded and nothing else happens: no embedding call, no
        write, the ledger as it was. In every other case (`and` does not
        short-circuit the second `load_index`, so an empty queue without an index
        file ends in the rebuild branch too) the result is that of `Rebuild` on the
        queue. */
    method BuildOrLoadIndex(folder: seq<DirEntry>, env: Collaborators, embedder: EmbeddingClient)
      returns (r: Outcome)
      requires Valid()
      modifies this, vectorDb, disk, embedder
      ensures var queue := Queued(folder, old(processedHashes), env.sha256);
        queue == [] && old(disk.indexFile).Some? ==>
          && r == Pass
          && textChunks == LoadChunks(disk.chunksFile)
          && processedHashes == old(processedHashes)
          && vectorDb.index == disk.indexFile && vectorDb.dimension == old(disk.indexFile).value.d
          && vectorDb.textChunks == StoreChunksAfterLoad(disk.chunksFile, old(vectorDb.textChunks))
          && unchanged(disk) && unchanged(embedder)
      ensures var queue := Queued(folder, old(processedHashes), env.sha256);
        var all := PriorChunks(old(disk.indexFile), old(disk.chunksFile)) + QueueChunks(queue, env);
        !(queue == [] && old(disk.indexFile).Some?) ==>
          && processedHashes == RecordDigests(old(processedHashes), queue)
          && (all == [] ==>
                && r == Fail(ValueError(NoChunksMessage))
                && unchanged(disk) && unchanged(embedder)
                && textChunks == (if old(disk.indexFile).Some? then LoadChunks(old(disk.chunksFile)) else old(textChunks))
                && vectorDb.textChunks == (if old(disk.indexFile).Some? then StoreChunksAfterLoad(old(disk.chunksFile), old(vectorDb.textChunks))
                                           else old(vectorDb.textChunks)))
          && ((all == [] || BuildOutcome(all, embedder.oracle).Failure?) ==>
                && vectorDb.index == (if old(disk.indexFile).Some? then old(disk.indexFile) else old(vectorDb.index))
                && vectorDb.dimension == (if old(disk.indexFile).Some? then old(disk.indexFile).value.d else old(vectorDb.dimension)))
          && (all != [] ==>
                && textChunks == all && vectorDb.textChunks == all
                && embedder.requests == old(embedder.requests) + EmbedCalls(all, embedder.oracle))
          && (all != [] && BuildOutcome(all, embedder.oracle).Failure? ==>
                && r == Fail(BuildOutcome(all, embedder.oracle).error)
                && unchanged(disk))
          && (all != [] && BuildOutcome(all, embedder.oracle).Success? ==>
                && r == Pass
                && vectorDb.index == Some(BuildOutcome(all, embedder.oracle).value)
                && vectorDb.dimension == BuildOutcome(all, embedder.oracle).value.d
                && disk.indexFile == vectorDb.index
                && disk.chunksFile == Some(Serialize(all))
                && disk.ledgerFile == Some(processedHashes)
                && disk.writes == old(disk.writes) + [IndexFile, ChunksFile, ChunksFile, LedgerFile])
    {
      var queue := FindChangedFiles(folder, processedHashes, env.sha256);
      if queue == [] {
        var loaded := vectorDb.LoadIndex();
        if loaded {
          textChunks := LoadChunks(disk.chunksFile);
          return Pass;
        }
      }
      r := Rebuild(queue, env, embedder);
    }

    /** `ask_question`: retrieval failures propagate; otherwise the language model
        (`complete`, outside this model) is asked the prompt built from the question
        and the retrieved chunks in the order `search` returned them. `top_k` is
        positive, as `search` requires. */
    method AskQuestion(question: string, topK: int, embedder: EmbeddingClient,
                       knn: (FlatIndex, Vector, int) -> seq<Hit>, complete: string -> string)
      returns (r: Result<string>)
      requires topK > 0 && AnswersAtMost(knn, topK)
      modifies embedder
      ensures vectorDb.index.None? ==>
        r == Failure(RuntimeError("Index not loaded")) && embedder.requests == old(embedder.requests)
      ensures vectorDb.index.Some? ==>
        && embedder.requests == old(embedder.requests) + [question]
        && r == match embedder.oracle(question)
                case None => Failure(EmbeddingError)
                case Some(q) =>
                  match PairHits(knn(vectorDb.index.value, q, topK), vectorDb.textChunks)
                  case Failure(e) => Failure(e)
                  case Success(results) => Success(complete(BuildPrompt(question, Excerpts(results))))
    {
      var found := vectorDb.Search(question, topK, embedder, knn);
      if found.Failure? {
        return Failure(found.error);
      }
      var prompt := BuildPrompt(question, Excerpts(found.value));
      r := Success(complete(prompt));
    }
  }

  // ---------------------------------------------------------------------------
  // Prompt assembly.

  /** `[chunk for _, chunk in results]`. */
  function Excerpts(results: seq<Scored>): (chunks: seq<string>)
    ensures |chunks| == |results|
    ensures forall i :: 0 <= i < |results| ==> chunks[i] == results[i].chunk
  {
    if results == [] then [] else [results[0].chunk] + Excerpts(results[1..])
  }

  const Separator: string := "\n\n"

  /** `"\n\n".join(chunks)`. */
  function Join(chunks: seq<string>): string
  {
    if chunks == [] then ""
    else if |chunks| == 1 then chunks[0]
    else chunks[0] + Separator + Join(chunks[1..])
  }

  /** Where chunk i starts in `Join(chunks)`: after the chunks before it, each
      followed by a separator. */
  function JoinOffset(chunks: seq<string>, i: nat): nat
    requires i <= |chunks|
  {
    if i == 0 then 0 else |chunks[0]| + |Separator| + JoinOffset(chunks[1..], i - 1)
  }

  /** Every chunk appears whole in the joined text at its offset, chunks appear in
      list order, and separators add exactly two characters between neighbours. */
  lemma {:induction false} JoinAt(chunks: seq<string>)
    ensures chunks != [] ==> |Join(chunks)| == JoinOffset(chunks, |chunks| - 1) + |chunks[|chunks| - 1]|
    ensures forall i :: 0 <= i < |chunks| ==>
      && JoinOffset(chunks, i) + |chunks[i]| <= |Join(chunks)|
      && Join(chunks)[JoinOffset(chunks, i)..JoinOffset(chunks, i) + |chunks[i]|] == chunks[i]
  {
    if chunks != [] {
      JoinLength(chunks);
    }
    forall i | 0 <= i < |chunks|
      ensures JoinOffset(chunks, i) + |chunks[i]| <= |Join(chunks)|
      ensures Join(chunks)[JoinOffset(chunks, i)..JoinOffset(chunks, i) + |chunks[i]|] == chunks[i]
    {
      JoinAtIndex(chunks, i);
    }
  }

  /** The joined text ends with the last chunk. */
  lemma {:induction false} JoinLength(chunks: seq<string>)
    requires chunks != []
    ensures |Join(chunks)| == JoinOffset(chunks, |chunks| - 1) + |chunks[|chunks| - 1]|
  {
    if |chunks| > 1 {
      var rest := chunks[1..];
      JoinLength(rest);
      assert Join(chunks) == chunks[0] + Separator + Join(rest);
      assert JoinOffset(chunks, |chunks| - 1) == |chunks[0]| + |Separator| + JoinOffset(rest, |rest| - 1);
      assert chunks[|chunks| - 1] == rest[|rest| - 1];
    }
  }

  /** Chunk i appears whole in the joined text at its offset. */
  lemma {:induction false} JoinAtIndex(chunks: seq<string>, i: nat)
    requires i < |chunks|
    ensures JoinOffset(chunks, i) + |chunks[i]| <= |Join(chunks)|
    ensures Join(chunks)[JoinOffset(chunks, i)..JoinOffset(chunks, i) + |chunks[i]|] == chunks[i]
  {
    if |chunks| == 1 {
      assert Join(chunks) == chunks[0];
    } else {
      var rest := chunks[1..];
      var head := chunks[0] + Separator;
      assert Join(chunks) == head + Join(rest);
      if i == 0 {
        assert Join(chunks)[..|chunks[0]|] == chunks[0];
      } else {
        JoinAtIndex(rest, i - 1);
        assert chunks[i] == rest[i - 1];
        assert JoinOffset(chunks, i) == |head| + JoinOffset(rest, i - 1);
        FramedSlice(head, Join(rest), "", JoinOffset(rest, i - 1), JoinOffset(rest, i - 1) + |rest[i - 1]|);
        assert head + Join(rest) + "" == Join(chunks);
      }
    }
  }

  /** Chunk i and chunk i + 1 are separated by exactly "\n\n". */
  lemma {:induction false} JoinSeparator(chunks: seq<string>, i: nat)
    requires i + 1 < |chunks|
    ensures JoinOffset(chunks, i + 1) == JoinOffset(chunks, i) + |chunks[i]| + |Separator|
    ensures JoinOffset(chunks, i + 1) <= |Join(chunks)|
    ensures Join(chunks)[JoinOffset(chunks, i) + |chunks[i]|..JoinOffset(chunks, i + 1)] == Separator
  {
    var rest := chunks[1..];
    var head := chunks[0] + Separator;
    assert Join(chunks) == head + Join(rest);
    if i == 0 {
      assert JoinOffset(chunks, 1) == |head|;
      JoinAt(rest);
    } else {
      JoinSeparator(rest, i - 1);
      assert chunks[i] == rest[i - 1];
      assert JoinOffset(chunks, i) == |head| + JoinOffset(rest, i - 1);
      assert JoinOffset(chunks, i + 1) == |head| + JoinOffset(rest, i);
      FramedSlice(head, Join(rest), "", JoinOffset(rest, i - 1) + |rest[i - 1]|, JoinOffset(rest, i));
      assert head + Join(rest) + "" == Join(chunks);
    }
  }

  const Preamble: string :=
    "You are a skilled financial data analyst. Using the following excerpts from financial reports, "
    + "carefully analyze the information and provide a clear, concise, and insightful answer to the question below.\n\n"
  const QuestionLabel: string := "Question: "
  const ExcerptsLabel: string := "\n\nReport excerpts:\n"
  const Closing: string :=
    "\n\nPlease base your response strictly on the data provided and highlight key insights, trends, or anomalies relevant to the question."

  /** The prompt of `ask_question`. */
  function BuildPrompt(question: string, chunks: seq<string>): string
  {
    Preamble + QuestionLabel + question + ExcerptsLabel + Join(chunks) + Closing
  }

  /** Offset of the excerpt block in the prompt for a given question. */
  function ExcerptsStart(question: string): nat
  {
    |Preamble| + |QuestionLabel| + |question| + |ExcerptsLabel|
  }

  /** A slice of the middle part of `front + mid + back`, read at the middle's offset. */
  lemma FramedSlice(front: string, mid: string, back: string, a: nat, b: nat)
    requires a <= b <= |mid|
    ensures (front + mid + back)[|front| + a..|front| + b] == mid[a..b]
  {
    var s := front + mid + back;
    assert forall k :: |front| + a <= k < |front| + b ==> s[k] == mid[k - |front|];
  }

  /** The ends of a prompt in general: `opening + question + heading + body + closing`
      starts with `opening`, carries `question` right after it and ends with
      `closing`. */
  lemma FramedEnds(opening: string, question: string, heading: string, body: string, closing: string)
    ensures var prompt := opening + question + heading + body + closing;
      && StartsWith(prompt, opening)
      && EndsWith(prompt, closing)
      && prompt[|opening|..|opening| + |question|] == question
  {
    var prompt := opening + question + heading + body + closing;
    FramedSlice(opening, question, heading + body + closing, 0, |question|);
    assert opening + question + (heading + body + closing) == prompt;
    assert prompt[..|opening|] == opening;
    assert prompt[|prompt| - |closing|..] == closing;
  }

  /** Chunk i sits at its join offset inside `front + Join(chunks) + closing`. */
  lemma FramedExcerpts(front: string, chunks: seq<string>, closing: string)
    ensures forall i :: 0 <= i < |chunks| ==>
      && |front| + JoinOffset(chunks, i) + |chunks[i]| <= |front + Join(chunks) + closing|
      && (front + Join(chunks) + closing)[|front| + JoinOffset(chunks, i)..|front| + JoinOffset(chunks, i) + |chunks[i]|] == chunks[i]
  {
    forall i | 0 <= i < |chunks|
      ensures |front| + JoinOffset(chunks, i) + |chunks[i]| <= |front + Join(chunks) + closing|
      ensures (front + Join(chunks) + closing)[|front| + JoinOffset(chunks, i)..|front| + JoinOffset(chunks, i) + |chunks[i]|] == chunks[i]
    {
      FramedExcerptAt(front, chunks, closing, i);
    }
  }

  /** One chunk of `FramedExcerpts`. */
  lemma FramedExcerptAt(front: string, chunks: seq<string>, closing: string, i: nat)
    requires i < |chunks|
    ensures |front| + JoinOffset(chunks, i) + |chunks[i]| <= |front + Join(chunks) + closing|
    ensures (front + Join(chunks) + closing)[|front| + JoinOffset(chunks, i)..|front| + JoinOffset(chunks, i) + |chunks[i]|] == chunks[i]
  {
    var body := Join(chunks);
    var a := JoinOffset(chunks, i);
    var b := a + |chunks[i]|;
    JoinAtIndex(chunks, i);
    FramedSlice(front, body, closing, a, b);
  }

  /** The general prompt `opening + question + heading + Join(chunks) + closing`: it
      starts with `opening`, carries `question` right after it, carries every chunk
      at its join offset after `heading`, and ends with `closing`. */
  lemma FramedPrompt(opening: string, question: string, heading: string, chunks: seq<string>, closing: string)
    ensures var prompt := opening + question + heading + Join(chunks) + closing;
      && StartsWith(prompt, opening)
      && EndsWith(prompt, closing)
      && prompt[|opening|..|opening| + |question|] == question
      && (forall i :: 0 <= i < |chunks| ==>
            var at := |opening| + |question| + |heading| + JoinOffset(chunks, i);
            && at + |chunks[i]| <= |prompt|
            && prompt[at..at + |chunks[i]|] == chunks[i])
  {
    var front := opening + question + heading;
    FramedEnds(opening, question, heading, Join(chunks), closing);
    FramedExcerpts(front, chunks, closing);
  }

  /** The prompt opens with the fixed instructions and "Question: ", carries the
      question verbatim right after them, carries every retrieved chunk verbatim at
      its place in the "\n\n"-joined excerpt block (so in the order `search` gave),
      and ends with the fixed closing instruction. */
  lemma PromptContents(question: string, chunks: seq<string>)
    ensures var prompt := BuildPrompt(question, chunks);
      && StartsWith(prompt, Preamble + QuestionLabel)
      && EndsWith(prompt, Closing)
      && prompt[|Preamble + QuestionLabel|..|Preamble + QuestionLabel| + |question|] == question
      && (forall i :: 0 <= i < |chunks| ==>
            var at := ExcerptsStart(question) + JoinOffset(chunks, i);
            && at + |chunks[i]| <= |prompt|
            && prompt[at..at + |chunks[i]|] == chunks[i])
  {
    FramedPrompt(Preamble + QuestionLabel, question, ExcerptsLabel, chunks, Closing);
  }
}
