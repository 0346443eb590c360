// A file's bytes cut into chunks of FrontendChunkSize, as clients upload them.
module Pieces {
  import opened Rows
  import ChunkCount

  function Cut(content: Bytes): seq<Bytes> {
    if content == [] then []
    else if |content| <= ChunkCount.CHUNK_SIZE then [content]
    else [content[..ChunkCount.CHUNK_SIZE]] + Cut(content[ChunkCount.CHUNK_SIZE..])
  }

  function Glue(pieces: seq<Bytes>): Bytes {
    if pieces == [] then [] else pieces[0] + Glue(pieces[1..])
  }

  lemma {:induction false} GlueCut(content: Bytes)
    ensures Glue(Cut(content)) == content
  {
    if |content| > ChunkCount.CHUNK_SIZE {
      var rest := content[ChunkCount.CHUNK_SIZE..];
      GlueCut(rest);
      assert Cut(content)[1..] == Cut(rest);
    }
  }

  // The number of pieces is the ceiling that CalculateChunks is meant to be.
  lemma {:induction false} CutCount(content: Bytes)
    ensures ChunkCount.IsCeiling(|Cut(content)|, |content|)
  {
    if |content| > ChunkCount.CHUNK_SIZE {
      CutCount(content[ChunkCount.CHUNK_SIZE..]);
    }
  }

  // Piece k is the k-th stretch of 4 MiB; only the last may be shorter.
  lemma {:induction false} CutIs(content: Bytes, k: nat)
    requires k < |Cut(content)|
    ensures k * ChunkCount.CHUNK_SIZE < |content|
    ensures var from := k * ChunkCount.CHUNK_SIZE;
      Cut(content)[k] ==
        if from + ChunkCount.CHUNK_SIZE <= |content| then content[from..from + ChunkCount.CHUNK_SIZE]
        else content[from..]
  {
    if |content| > ChunkCount.CHUNK_SIZE && k > 0 {
      var rest := content[ChunkCount.CHUNK_SIZE..];
      CutIs(rest, k - 1);
      assert Cut(content)[k] == Cut(rest)[k - 1];
      assert (k - 1) * ChunkCount.CHUNK_SIZE + ChunkCount.CHUNK_SIZE == k * ChunkCount.CHUNK_SIZE;
    }
  }

  // Different contents with equally many pieces differ in a piece.
  lemma DifferentPiece(a: Bytes, b: Bytes) returns (k: nat)
    requires a != b && |Cut(a)| == |Cut(b)|
    ensures k < |Cut(a)| && Cut(a)[k] != Cut(b)[k]
  {
    GlueCut(a);
    GlueCut(b);
    assert Cut(a) != Cut(b);
    k :| k < |Cut(a)| && Cut(a)[k] != Cut(b)[k];
  }

  lemma {:induction false} GlueAppend(pieces: seq<Bytes>, last: Bytes)
    ensures Glue(pieces + [last]) == Glue(pieces) + last
  {
    if pieces == [] {
      assert (pieces + [last])[1..] == [];
    } else {
      assert (pieces + [last])[1..] == pieces[1..] + [last];
      GlueAppend(pieces[1..], last);
    }
  }
}
