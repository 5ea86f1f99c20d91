/** `file_hash` (index_builder.py, and the identical `ReportAgent.file_hash` in
    agent.py): the file is read in blocks of at most 8192 bytes and every block is
    fed to a SHA-256 hasher. The digest function itself is not modelled; it is the
    hasher's `digestOf`. */
module Hashing {

  newtype byte = b: int | 0 <= b < 256

  const BlockSize: nat := 8192

  /** The bytes of `blocks`, in order. */
  function Concat(blocks: seq<seq<byte>>): seq<byte>
  {
    if blocks == [] then [] else Concat(blocks[..|blocks| - 1]) + blocks[|blocks| - 1]
  }

  /** `hashlib.sha256()`: it remembers every `update`; the digest is a function of
      everything fed to it, in order. */
  class Sha256 {
    const digestOf: seq<byte> -> string
    var updates: seq<seq<byte>>

    constructor (digestOf: seq<byte> -> string)
      ensures this.digestOf == digestOf && updates == []
    {
      this.digestOf := digestOf;
      updates := [];
    }

    method Update(block: seq<byte>)
      modifies this
      ensures updates == old(updates) + [block]
    {
      updates := updates + [block];
    }

    function HexDigest(): string
      reads this
    {
      digestOf(Concat(updates))
    }
  }

  /** `f.read(8192)` with the file positioned at `pos`: at most 8192 bytes, empty at the end. */
  function ReadBlock(content: seq<byte>, pos: nat): (block: seq<byte>)
    requires pos <= |content|
    ensures |block| <= BlockSize && pos + |block| <= |content| && block == content[pos..pos + |block|]
    ensures block == [] <==> pos == |content|
    ensures pos + BlockSize <= |content| ==> |block| == BlockSize
    ensures pos + BlockSize > |content| ==> pos + |block| == |content|
  {
    if pos + BlockSize <= |content| then content[pos..pos + BlockSize] else content[pos..]
  }

  /** Blocks as `read(8192)` hands them out: non-empty, at most 8192 bytes, and all
      but the last exactly 8192. */
  predicate WellBlocked(blocks: seq<seq<byte>>)
  {
    && (forall k :: 0 <= k < |blocks| ==> 0 < |blocks[k]| <= BlockSize)
    && (forall k :: 0 <= k < |blocks| - 1 ==> |blocks[k]| == BlockSize)
  }

  lemma WellBlockedSnoc(blocks: seq<seq<byte>>, b: seq<byte>)
    requires WellBlocked(blocks) && 0 < |b| <= BlockSize
    requires blocks != [] ==> |blocks[|blocks| - 1]| == BlockSize
    ensures WellBlocked(blocks + [b])
  {
  }

  lemma ConcatSnoc(blocks: seq<seq<byte>>, b: seq<byte>)
    ensures Concat(blocks + [b]) == Concat(blocks) + b
  {
    assert (blocks + [b])[..|blocks|] == blocks;
  }

  /** The state of the read loop after reading the first `pos` bytes as `fed`. */
  predicate ReadSoFar(content: seq<byte>, pos: nat, fed: seq<seq<byte>>)
  {
    && pos <= |content|
    && Concat(fed) == content[..pos]
    && WellBlocked(fed)
    && (fed != [] && |fed[|fed| - 1]| < BlockSize ==> pos == |content|)
  }

  /** One more `read(8192)` before the end of the file keeps the loop state. */
  lemma ReadStep(content: seq<byte>, pos: nat, fed: seq<seq<byte>>)
    requires ReadSoFar(content, pos, fed) && pos < |content|
    ensures ReadSoFar(content, pos + |ReadBlock(content, pos)|, fed + [ReadBlock(content, pos)])
  {
    var block := ReadBlock(content, pos);
    WellBlockedSnoc(fed, block);
    ConcatSnoc(fed, block);
    assert content[..pos + |block|] == content[..pos] + block;
  }

  /** `file_hash`: the hasher it creates has been fed the file in the blocks
      `read(8192)` hands out (non-empty, at most 8192 bytes, all but the last exactly
      8192, together the file's bytes in order), and the result is its digest. */
  method FileHash(content: seq<byte>, digestOf: seq<byte> -> string) returns (digest: string, hasher: Sha256)
    ensures fresh(hasher) && hasher.digestOf == digestOf
    ensures Concat(hasher.updates) == content && WellBlocked(hasher.updates)
    ensures digest == hasher.HexDigest() && digest == digestOf(content)
  {
    hasher := new Sha256(digestOf);
    var pos := 0;
    var block := ReadBlock(content, pos);
    var fed: seq<seq<byte>> := [];
    while block != []
      modifies hasher
      invariant ReadSoFar(content, pos, fed) && block == ReadBlock(content, pos)
      invariant hasher.digestOf == digestOf && hasher.updates == fed
      decreases |content| - pos
    {
      hasher.Update(block);
      ReadStep(content, pos, fed);
      fed := fed + [block];
      pos := pos + |block|;
      block := ReadBlock(content, pos);
    }
    assert content[..pos] == content;
    digest := hasher.HexDigest();
  }
}
