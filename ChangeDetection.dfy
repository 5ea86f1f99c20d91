/** Change detection and the per-file bookkeeping of a rebuild, written twice in
    the source (agent.py `build_or_load_index` and index_builder.py `build_index`)
    with the same loop: every listed `.pdf` whose current SHA-256 differs from the
    ledger entry, or has none, is queued; each queued file is then extracted,
    chunked and recorded in the ledger. */
module ChangeDetection {
  import opened PyText
  import opened Hashing
  import opened Storage

  /** One name returned by `os.listdir(pdf_folder)`, with the bytes of that file. */
  datatype DirEntry = DirEntry(name: string, content: seq<byte>)

  /** `(filename, full_path, current_hash)`; the path is represented by the file's bytes. */
  datatype Pending = Pending(name: string, content: seq<byte>, digest: string)

  /** The collaborators the loop calls: SHA-256 (`hexdigest`), `extract_text_from_pdf`
      and `chunk_text` from the utils module, which is not part of this model. */
  datatype Collaborators = Collaborators(
    sha256: seq<byte> -> string,
    extractText: seq<byte> -> string,
    chunkText: string -> seq<string>)

  /** `filename.lower().endswith(".pdf")`. */
  predicate IsPdfName(name: string)
  {
    EndsWith(Lower(name), ".pdf")
  }

  /** The queueing test of the listing loop. */
  predicate NeedsIndexing(e: DirEntry, ledger: Ledger, sha256: seq<byte> -> string)
  {
    IsPdfName(e.name) && (e.name !in ledger || ledger[e.name] != sha256(e.content))
  }

  function PendingOf(e: DirEntry, sha256: seq<byte> -> string): Pending
  {
    Pending(e.name, e.content, sha256(e.content))
  }

  /** `new_or_updated_files` after the listing loop. */
  function Queued(folder: seq<DirEntry>, ledger: Ledger, sha256: seq<byte> -> string): seq<Pending>
  {
    if folder == [] then []
    else
      var e := folder[|folder| - 1];
      Queued(folder[..|folder| - 1], ledger, sha256)
        + (if NeedsIndexing(e, ledger, sha256) then [PendingOf(e, sha256)] else [])
  }

  /** The listing loop: hashes every `.pdf` in listing order and queues the new or
      changed ones. */
  method FindChangedFiles(folder: seq<DirEntry>, ledger: Ledger, sha256: seq<byte> -> string)
    returns (queue: seq<Pending>)
    ensures queue == Queued(folder, ledger, sha256)
  {
    queue := [];
    for i := 0 to |folder|
      invariant queue == Queued(folder[..i], ledger, sha256)
    {
      assert folder[..i + 1][..i] == folder[..i];
      var e := folder[i];
      if IsPdfName(e.name) {
        var currentHash, _ := FileHash(e.content, sha256);
        if e.name !in ledger || ledger[e.name] != currentHash {
          queue := queue + [Pending(e.name, e.content, currentHash)];
        }
      }
    }
    assert folder[..|folder|] == folder;
  }

  /** A file is queued exactly when its lower-cased name ends in ".pdf" and the ledger
      has no entry for it or a different digest; the queued record carries the
      current digest. */
  lemma {:induction false} QueuedMembers(folder: seq<DirEntry>, ledger: Ledger, sha256: seq<byte> -> string)
    ensures forall i :: 0 <= i < |folder| && NeedsIndexing(folder[i], ledger, sha256) ==>
      PendingOf(folder[i], sha256) in Queued(folder, ledger, sha256)
    ensures forall p :: p in Queued(folder, ledger, sha256) ==>
      exists i :: 0 <= i < |folder| && NeedsIndexing(folder[i], ledger, sha256) && p == PendingOf(folder[i], sha256)
  {
    if folder != [] {
      var front := folder[..|folder| - 1];
      QueuedMembers(front, ledger, sha256);
      assert forall i :: 0 <= i < |front| ==> front[i] == folder[i];
    }
  }

  /** The queue follows the listing order: listing `a` then `b` queues `a`'s files first. */
  lemma {:induction false} QueuedAppend(a: seq<DirEntry>, b: seq<DirEntry>, ledger: Ledger, sha256: seq<byte> -> string)
    ensures Queued(a + b, ledger, sha256) == Queued(a, ledger, sha256) + Queued(b, ledger, sha256)
  {
    if b == [] {
      assert a + b == a;
    } else {
      assert (a + b)[..|a + b| - 1] == a + b[..|b| - 1];
      QueuedAppend(a, b[..|b| - 1], ledger, sha256);
    }
  }

  /** No entry needs indexing: nothing is queued. */
  lemma {:induction false} NothingQueued(folder: seq<DirEntry>, ledger: Ledger, sha256: seq<byte> -> string)
    requires forall i :: 0 <= i < |folder| ==> !NeedsIndexing(folder[i], ledger, sha256)
    ensures Queued(folder, ledger, sha256) == []
  {
    if folder != [] {
      NothingQueued(folder[..|folder| - 1], ledger, sha256);
    }
  }

  // ---------------------------------------------------------------------------
  // The processing loop: chunks and ledger updates.

  /** `chunk_text(extract_text_from_pdf(full_path))` for one queued file. */
  function ChunksOf(p: Pending, env: Collaborators): seq<string>
  {
    env.chunkText(env.extractText(p.content))
  }

  /** The chunks the processing loop appends, queue order, each file's chunks in order. */
  function QueueChunks(queue: seq<Pending>, env: Collaborators): seq<string>
  {
    if queue == [] then []
    else QueueChunks(queue[..|queue| - 1], env) + ChunksOf(queue[|queue| - 1], env)
  }

  /** Chunk lists concatenate along the queue: processing `a` then `b` yields `a`'s
      chunks followed by `b`'s. */
  lemma {:induction false} QueueChunksAppend(a: seq<Pending>, b: seq<Pending>, env: Collaborators)
    ensures QueueChunks(a + b, env) == QueueChunks(a, env) + QueueChunks(b, env)
  {
    if b == [] {
      assert a + b == a;
    } else {
      assert (a + b)[..|a + b| - 1] == a + b[..|b| - 1];
      QueueChunksAppend(a, b[..|b| - 1], env);
    }
  }

  /** Queued file k's chunks sit, in their own order, as one contiguous block right
      after the chunks of the files queued before it. */
  lemma QueueChunksBlock(queue: seq<Pending>, k: nat, env: Collaborators)
    requires k < |queue|
    ensures var off := |QueueChunks(queue[..k], env)|;
      && off + |ChunksOf(queue[k], env)| <= |QueueChunks(queue, env)|
      && QueueChunks(queue, env)[off..off + |ChunksOf(queue[k], env)|] == ChunksOf(queue[k], env)
  {
    assert queue == queue[..k] + [queue[k]] + queue[k + 1..];
    QueueChunksAppend(queue[..k] + [queue[k]], queue[k + 1..], env);
    assert (queue[..k] + [queue[k]])[..k] == queue[..k];
  }

  /** `processed_hashes[filename] = filehash` for every queued file, in order. */
  function RecordDigests(ledger: Ledger, queue: seq<Pending>): Ledger
  {
    if queue == [] then ledger
    else RecordDigests(ledger, queue[..|queue| - 1])[queue[|queue| - 1].name := queue[|queue| - 1].digest]
  }

  function Names(queue: seq<Pending>): set<string>
  {
    set k | 0 <= k < |queue| :: queue[k].name
  }

  predicate DistinctNames(folder: seq<DirEntry>)
  {
    forall i, j :: 0 <= i < j < |folder| ==> folder[i].name != folder[j].name
  }

  /** The ledger after the loop: it gains or overwrites entries for queued names only,
      every other entry is unchanged, and each queued name maps to the digest of a
      queued record with that name. */
  lemma {:induction false} RecordDigestsEffect(ledger: Ledger, queue: seq<Pending>)
    ensures RecordDigests(ledger, queue).Keys == ledger.Keys + Names(queue)
    ensures forall n :: n in ledger && n !in Names(queue) ==> RecordDigests(ledger, queue)[n] == ledger[n]
    ensures forall n :: n in Names(queue) ==>
      exists k :: 0 <= k < |queue| && queue[k].name == n && RecordDigests(ledger, queue)[n] == queue[k].digest
  {
    if queue != [] {
      var front := queue[..|queue| - 1];
      var last := queue[|queue| - 1];
      RecordDigestsEffect(ledger, front);
      assert Names(queue) == Names(front) + {last.name} by {
        assert forall k :: 0 <= k < |front| ==> front[k] == queue[k];
      }
      forall n | n in Names(queue)
        ensures exists k :: 0 <= k < |queue| && queue[k].name == n && RecordDigests(ledger, queue)[n] == queue[k].digest
      {
        if n == last.name {
          assert queue[|queue| - 1].name == n;
        } else {
          var k :| 0 <= k < |front| && front[k].name == n && RecordDigests(ledger, front)[n] == front[k].digest;
          assert queue[k] == front[k];
        }
      }
    }
  }

  /** One listing step of the ledger after a run: the last entry's name is
      overwritten with its digest when it is queued, and nothing changes otherwise. */
  lemma LedgerStep(folder: seq<DirEntry>, ledger: Ledger, sha256: seq<byte> -> string)
    requires folder != []
    ensures var e := folder[|folder| - 1];
      var before := RecordDigests(ledger, Queued(folder[..|folder| - 1], ledger, sha256));
      RecordDigests(ledger, Queued(folder, ledger, sha256))
        == if NeedsIndexing(e, ledger, sha256) then before[e.name := sha256(e.content)] else before
  {
    var e := folder[|folder| - 1];
    var q := Queued(folder[..|folder| - 1], ledger, sha256);
    if NeedsIndexing(e, ledger, sha256) {
      var p := PendingOf(e, sha256);
      assert (q + [p])[..|q + [p]| - 1] == q;
    } else {
      assert q + [] == q;
    }
  }

  /** After a run over a listing with distinct names, every `.pdf` in the listing is
      recorded with its current digest: queued files get it written, unchanged files
      already had it. */
  lemma {:induction false} LedgerRecordsListing(folder: seq<DirEntry>, ledger: Ledger, sha256: seq<byte> -> string)
    requires DistinctNames(folder)
    ensures var after := RecordDigests(ledger, Queued(folder, ledger, sha256));
      forall i :: 0 <= i < |folder| && IsPdfName(folder[i].name) ==>
        folder[i].name in after && after[folder[i].name] == sha256(folder[i].content)
  {
    if folder != [] {
      var front := folder[..|folder| - 1];
      var e := folder[|folder| - 1];
      LedgerRecordsListing(front, ledger, sha256);
      LedgerKeepsUnlisted(front, ledger, sha256);
      LedgerStep(folder, ledger, sha256);
      var before := RecordDigests(ledger, Queued(front, ledger, sha256));
      var after := RecordDigests(ledger, Queued(folder, ledger, sha256));
      forall i | 0 <= i < |folder| && IsPdfName(folder[i].name)
        ensures folder[i].name in after && after[folder[i].name] == sha256(folder[i].content)
      {
        if i < |front| {
          assert folder[i] == front[i];
          assert folder[i].name != e.name;
        } else if !NeedsIndexing(e, ledger, sha256) {
          assert forall j :: 0 <= j < |front| ==> front[j].name != e.name;
        }
      }
    }
  }

  /** A run leaves the ledger entries of names that are not in the listing untouched. */
  lemma {:induction false} LedgerKeepsUnlisted(folder: seq<DirEntry>, ledger: Ledger, sha256: seq<byte> -> string)
    ensures var after := RecordDigests(ledger, Queued(folder, ledger, sha256));
      forall n :: n in ledger && (forall i :: 0 <= i < |folder| ==> folder[i].name != n) ==>
        n in after && after[n] == ledger[n]
  {
    if folder != [] {
      var front := folder[..|folder| - 1];
      LedgerKeepsUnlisted(front, ledger, sha256);
      LedgerStep(folder, ledger, sha256);
      forall n | n in ledger && (forall i :: 0 <= i < |folder| ==> folder[i].name != n)
        ensures forall i :: 0 <= i < |front| ==> front[i].name != n
      {
        forall i | 0 <= i < |front| ensures front[i].name != n {
          assert front[i] == folder[i];
        }
      }
    }
  }

  /** Running change detection again over the same unchanged listing, with the
      ledger the first run recorded, queues nothing: the no-op rebuild avoidance. */
  lemma RerunQueuesNothing(folder: seq<DirEntry>, ledger: Ledger, sha256: seq<byte> -> string)
    requires DistinctNames(folder)
    ensures Queued(folder, RecordDigests(ledger, Queued(folder, ledger, sha256)), sha256) == []
  {
    LedgerRecordsListing(folder, ledger, sha256);
    NothingQueued(folder, RecordDigests(ledger, Queued(folder, ledger, sha256)), sha256);
  }
}
