/** The `<faiss_path>_chunks.txt` file: one chunk per line, written with every
    "\n" inside a chunk replaced by a space and read back in text mode with
    `readlines()` and `strip()` on every line. Written identically by
    `ReportAgent.save_chunks`, `VectorDB.save_index` and the standalone builder. */
module ChunkFile {
  import opened PyText

  /** `chunk.replace("\n", " ") + "\n"`: what one chunk contributes to the file. */
  function EncodeLine(chunk: string): string
  {
    ReplaceChar(chunk, '\n', ' ') + "\n"
  }

  /** The file contents after writing every chunk, in order. */
  function Serialize(chunks: seq<string>): string
  {
    if chunks == [] then "" else EncodeLine(chunks[0]) + Serialize(chunks[1..])
  }

  /** Writing one more chunk appends exactly its line (used by the write loop). */
  lemma {:induction false} SerializeSnoc(chunks: seq<string>, c: string)
    ensures Serialize(chunks + [c]) == Serialize(chunks) + EncodeLine(c)
  {
    if chunks != [] {
      assert (chunks + [c])[1..] == chunks[1..] + [c];
      SerializeSnoc(chunks[1..], c);
    }
  }

  /** Text-mode reading with universal newlines: "\r\n" and a lone "\r" both read as "\n". */
  function TranslateNewlines(s: string): string
    decreases |s|
  {
    if s == [] then []
    else if s[0] == '\r' then
      if |s| > 1 && s[1] == '\n' then "\n" + TranslateNewlines(s[2..])
      else "\n" + TranslateNewlines(s[1..])
    else [s[0]] + TranslateNewlines(s[1..])
  }

  /** The length of the first line of `s`, its terminating "\n" included. */
  function LineLength(s: string): (n: nat)
    requires s != []
    ensures 0 < n <= |s|
    ensures forall i :: 0 <= i < n - 1 ==> s[i] != '\n'
    ensures n < |s| ==> s[n - 1] == '\n'
  {
    if s[0] == '\n' || |s| == 1 then 1 else LineLength(s[1..]) + 1
  }

  /** `f.readlines()` on already translated text: every line keeps its "\n";
      a last line without one is kept as it is. */
  function ReadLines(s: string): seq<string>
    decreases |s|
  {
    if s == [] then [] else
    var n := LineLength(s);
    [s[..n]] + ReadLines(s[n..])
  }

  function StripEach(lines: seq<string>): (r: seq<string>)
    ensures |r| == |lines|
  {
    seq(|lines|, i requires 0 <= i < |lines| => Strip(lines[i]))
  }

  /** `[line.strip() for line in f.readlines()]` over the file contents. */
  function ParseChunkFile(text: string): seq<string>
  {
    StripEach(ReadLines(TranslateNewlines(text)))
  }

  /** What a chunk reads back as after one save and one load. */
  function Persisted(chunk: string): string
  {
    Strip(ReplaceChar(chunk, '\n', ' '))
  }

  predicate NoCarriageReturn(chunks: seq<string>)
  {
    forall i :: 0 <= i < |chunks| ==> '\r' !in chunks[i]
  }

  // ---------------------------------------------------------------------------
  // The round trip, stated over plain newline-terminated lines first.

  /** Every line followed by "\n". */
  function Terminated(lines: seq<string>): string
  {
    if lines == [] then "" else lines[0] + "\n" + Terminated(lines[1..])
  }

  predicate PlainLines(lines: seq<string>)
  {
    forall i :: 0 <= i < |lines| ==> '\n' !in lines[i] && '\r' !in lines[i]
  }

  lemma {:induction false} TranslateIdentity(s: string)
    requires '\r' !in s
    ensures TranslateNewlines(s) == s
  {
    if s != [] {
      TranslateIdentity(s[1..]);
      assert s == [s[0]] + s[1..];
    }
  }

  lemma {:induction false} TerminatedHasNoCarriageReturn(lines: seq<string>)
    requires PlainLines(lines)
    ensures '\r' !in Terminated(lines)
  {
    if lines != [] {
      TerminatedHasNoCarriageReturn(lines[1..]);
    }
  }

  lemma ReadFirstLine(line: string, rest: string)
    requires '\n' !in line
    ensures ReadLines(line + "\n" + rest) == [line + "\n"] + ReadLines(rest)
  {
    var s := line + "\n" + rest;
    var n := LineLength(s);
    forall i | 0 <= i < |line|
      ensures s[i] == line[i] && s[i] != '\n'
    {
    }
    assert s[|line|] == '\n';
    assert n - 1 == |line|;
    assert s[..n] == line + "\n";
    assert s[n..] == rest;
  }

  lemma {:induction false} ReadTerminated(lines: seq<string>)
    requires PlainLines(lines)
    ensures ReadLines(Terminated(lines)) == seq(|lines|, i requires 0 <= i < |lines| => lines[i] + "\n")
  {
    if lines != [] {
      ReadFirstLine(lines[0], Terminated(lines[1..]));
      ReadTerminated(lines[1..]);
    }
  }

  /** Reading back newline-terminated lines that hold no line break yields the
      stripped lines, one per line written. */
  lemma ParseTerminated(lines: seq<string>)
    requires PlainLines(lines)
    ensures ParseChunkFile(Terminated(lines)) == StripEach(lines)
  {
    TerminatedHasNoCarriageReturn(lines);
    TranslateIdentity(Terminated(lines));
    ReadTerminated(lines);
    forall i | 0 <= i < |lines|
      ensures Strip(lines[i] + "\n") == Strip(lines[i])
    {
      StripDropsTrailingSpace(lines[i], '\n');
    }
  }

  function ReplaceNewlinesEach(chunks: seq<string>): (r: seq<string>)
    ensures |r| == |chunks|
  {
    seq(|chunks|, i requires 0 <= i < |chunks| => ReplaceChar(chunks[i], '\n', ' '))
  }

  lemma {:induction false} SerializeIsTerminated(chunks: seq<string>)
    ensures Serialize(chunks) == Terminated(ReplaceNewlinesEach(chunks))
  {
    if chunks != [] {
      SerializeIsTerminated(chunks[1..]);
      assert ReplaceNewlinesEach(chunks)[1..] == ReplaceNewlinesEach(chunks[1..]);
    }
  }

  /** Save then load: for chunks without carriage returns, the file holds exactly
      one line per chunk, and line i reads back as chunk i with its newlines turned
      into spaces and its surrounding whitespace stripped. */
  lemma ReloadAfterSave(chunks: seq<string>)
    requires NoCarriageReturn(chunks)
    ensures |ParseChunkFile(Serialize(chunks))| == |chunks|
    ensures forall i :: 0 <= i < |chunks| ==> ParseChunkFile(Serialize(chunks))[i] == Persisted(chunks[i])
  {
    var lines := ReplaceNewlinesEach(chunks);
    forall i | 0 <= i < |lines|
      ensures '\n' !in lines[i] && '\r' !in lines[i]
    {
      ReplaceCharRemoves(chunks[i], '\n', ' ');
    }
    SerializeIsTerminated(chunks);
    ParseTerminated(lines);
  }

  /** A persisted chunk is a fixed point: saving and loading it again changes nothing,
      so chunks carried over from an earlier index keep their text across rebuilds. */
  lemma PersistedIsStable(chunk: string)
    ensures Persisted(Persisted(chunk)) == Persisted(chunk)
  {
    var replaced := ReplaceChar(chunk, '\n', ' ');
    ReplaceCharRemoves(chunk, '\n', ' ');
    StripShape(replaced);
    var p := Strip(replaced);
    assert '\n' !in p;
    ReplaceCharAbsent(p, '\n', ' ');
    StripIdempotent(replaced);
  }

  /** Saving the loaded chunks and loading them again reproduces them exactly. */
  lemma ReloadIsStable(chunks: seq<string>)
    requires NoCarriageReturn(chunks)
    ensures ParseChunkFile(Serialize(ParseChunkFile(Serialize(chunks)))) == ParseChunkFile(Serialize(chunks))
  {
    ReloadAfterSave(chunks);
    var once := ParseChunkFile(Serialize(chunks));
    forall i | 0 <= i < |once|
      ensures '\r' !in once[i]
    {
      StripShape(ReplaceChar(chunks[i], '\n', ' '));
    }
    ReloadAfterSave(once);
    forall i | 0 <= i < |once|
      ensures Persisted(once[i]) == once[i]
    {
      PersistedIsStable(chunks[i]);
    }
  }

  // ---------------------------------------------------------------------------
  // Carriage returns: only "\n" is replaced when writing, but reading translates
  // a lone "\r" into a line break, so one chunk can come back as two lines.

  /** A single chunk "a\rb" is written as one line and read back as two. */
  lemma CarriageReturnSplitsChunk()
    ensures ParseChunkFile(Serialize(["a\rb"])) == ["a", "b"]
  {
    SerializeSplitExample();
    TranslateSplitExample();
    ReadSplitExample();
    StripEachSplitExample();
  }

  lemma SerializeSplitExample()
    ensures Serialize(["a\rb"]) == "a\rb\n"
  {
    assert ReplaceChar("a\rb", '\n', ' ') == "a\rb";
    assert Serialize([]) == [];
    assert (["a\rb"])[1..] == [];
  }

  lemma StripEachSplitExample()
    ensures StripEach(["a\n", "b\n"]) == ["a", "b"]
  {
    StripLineExample('a');
    StripLineExample('b');
    assert "a\n" == ['a', '\n'] && "b\n" == ['b', '\n'];
  }

  lemma TranslateSplitExample()
    ensures TranslateNewlines("a\rb\n") == "a\nb\n"
  {
    assert TranslateNewlines("\n") == "\n";
    assert TranslateNewlines("b\n") == "b\n";
    assert "a\rb\n"[1..] == "\rb\n";
    assert "\rb\n"[1..] == "b\n";
    assert TranslateNewlines("\rb\n") == "\nb\n";
  }

  lemma ReadSplitExample()
    ensures ReadLines("a\nb\n") == ["a\n", "b\n"]
  {
    var a, b, nl := "a", "b", "\n";
    ReadFirstLine(a, b + nl);
    ReadFirstLine(b, []);
    assert ReadLines([]) == [];
    assert b + nl + [] == b + nl == "b\n";
    assert a + nl + (b + nl) == "a\nb\n";
    assert a + nl == "a\n";
  }

  lemma StripLineExample(c: char)
    requires !IsSpace(c)
    ensures Strip([c, '\n']) == [c]
  {
    assert LStrip([c, '\n']) == [c, '\n'];
    assert [c, '\n'][..1] == [c];
  }

  /** The line encoding that keeps one line per chunk: every "\n" and every "\r"
      becomes a space. */
  function EncodeLineFixed(chunk: string): string
  {
    ReplaceChar(ReplaceChar(chunk, '\n', ' '), '\r', ' ') + "\n"
  }

  function SerializeFixed(chunks: seq<string>): string
  {
    if chunks == [] then "" else EncodeLineFixed(chunks[0]) + SerializeFixed(chunks[1..])
  }

  function FlattenBreaksEach(chunks: seq<string>): (r: seq<string>)
    ensures |r| == |chunks|
  {
    seq(|chunks|, i requires 0 <= i < |chunks| => ReplaceChar(ReplaceChar(chunks[i], '\n', ' '), '\r', ' '))
  }

  lemma {:induction false} SerializeFixedIsTerminated(chunks: seq<string>)
    ensures SerializeFixed(chunks) == Terminated(FlattenBreaksEach(chunks))
  {
    if chunks != [] {
      SerializeFixedIsTerminated(chunks[1..]);
      assert FlattenBreaksEach(chunks)[1..] == FlattenBreaksEach(chunks[1..]);
    }
  }

  /** With the fixed encoding the line count equals the chunk count for every input,
      carriage returns included. */
  lemma ReloadAfterSaveFixed(chunks: seq<string>)
    ensures |ParseChunkFile(SerializeFixed(chunks))| == |chunks|
    ensures forall i :: 0 <= i < |chunks| ==>
      ParseChunkFile(SerializeFixed(chunks))[i] == Strip(ReplaceChar(ReplaceChar(chunks[i], '\n', ' '), '\r', ' '))
  {
    var lines := FlattenBreaksEach(chunks);
    forall i | 0 <= i < |lines|
      ensures '\n' !in lines[i] && '\r' !in lines[i]
    {
      var once := ReplaceChar(chunks[i], '\n', ' ');
      ReplaceCharRemoves(chunks[i], '\n', ' ');
      ReplaceCharRemoves(once, '\r', ' ');
    }
    SerializeFixedIsTerminated(chunks);
    ParseTerminated(lines);
  }
}
