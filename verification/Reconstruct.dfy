// RestOfChunks, ReconstructChunks and Validate
// (core/supervisors/metadata.changelog.go).
module Reconstruct {
  import opened Rows
  import opened Text
  import opened Grouping

  type Chunks = map<string, FilesWithChunks>

  // The predecessor's chunks that the new version did not upload.
  function RestOf(own: Chunks, prev: Chunks): Chunks {
    map key | key in prev && key !in own :: prev[key]
  }

  function Reconstructed(own: Chunks, prev: Chunks): Chunks {
    own + RestOf(own, prev)
  }

  // ---- The code ----

  method RestOfChunks(thisFile: FileInfoResponse, prevFile: FileInfoResponse) returns (matched: Chunks)
    ensures matched == RestOf(thisFile.chunks, prevFile.chunks)
  {
    matched := map[];
    var todo := prevFile.chunks.Keys;
    while todo != {}
      invariant todo <= prevFile.chunks.Keys
      invariant matched.Keys == (prevFile.chunks.Keys - todo) - thisFile.chunks.Keys
      invariant forall key :: key in matched ==> matched[key] == prevFile.chunks[key]
    {
      var key :| key in todo;
      todo := todo - {key};
      if key !in thisFile.chunks {
        matched := matched[key := prevFile.chunks[key]];
      }
    }
  }

  method ReconstructChunks(thisFile: FileInfoResponse, prevFile: FileInfoResponse)
    modifies thisFile`chunks
    ensures thisFile.chunks == Reconstructed(old(thisFile.chunks), old(prevFile.chunks))
  {
    var missing := RestOfChunks(thisFile, prevFile);
    var todo := missing.Keys;
    ghost var before := thisFile.chunks;
    while todo != {}
      invariant todo <= missing.Keys
      invariant thisFile.chunks.Keys == before.Keys + (missing.Keys - todo)
      invariant forall key :: key in before ==> thisFile.chunks[key] == before[key]
      invariant forall key :: key in missing.Keys - todo ==> thisFile.chunks[key] == missing[key]
    {
      var key :| key in todo;
      todo := todo - {key};
      thisFile.chunks := thisFile.chunks[key := missing[key]];
    }
  }

  // Every link of `prev` is set, and every link of `rebuilt` is set and is the
  // one `prev` has for that chunk.
  predicate LinksMatch(rebuilt: FileView, prev: FileView) {
    rebuilt.header.nChunks == prev.header.nChunks &&
    AllLinked(prev.chunks) && AllLinked(rebuilt.chunks) && Follows(rebuilt.chunks, prev.chunks)
  }

  predicate AllLinked(chunks: Chunks) {
    forall key :: key in chunks ==> chunks[key].chunk.nextChunkId.Some?
  }

  predicate Follows(chunks: Chunks, prev: Chunks) {
    forall key :: key in chunks ==> key in prev && chunks[key].chunk.nextChunkId == prev[key].chunk.nextChunkId
  }

  // The successor of a chunk as the code compares it: printed, or "" if absent.
  function Printed(chunks: Chunks, key: string): string
    requires AllLinked(chunks)
  {
    if key in chunks then Decimal(chunks[key].chunk.nextChunkId.value) else ""
  }

  lemma PrintedEqual(chunks: Chunks, key: string, next: int)
    requires AllLinked(chunks)
    ensures Printed(chunks, key) == Decimal(next) <==> key in chunks && chunks[key].chunk.nextChunkId == Some(next)
  {
    DecimalNonEmpty(next);
    if key in chunks && Printed(chunks, key) == Decimal(next) {
      DecimalInjective(chunks[key].chunk.nextChunkId.value, next);
    }
  }

  method Validate(rebuilt: FileInfoResponse, prev: FileInfoResponse) returns (valid: bool)
    ensures valid <==> LinksMatch(rebuilt.View(), prev.View())
  {
    if prev.header.nChunks != rebuilt.header.nChunks {
      return false;
    }
    var chain: map<string, string> := map[];
    var todo := prev.chunks.Keys;
    while todo != {}
      invariant todo <= prev.chunks.Keys
      invariant chain.Keys == prev.chunks.Keys - todo
      invariant forall key :: key in chain ==>
        prev.chunks[key].chunk.nextChunkId.Some? && chain[key] == Decimal(prev.chunks[key].chunk.nextChunkId.value)
    {
      var key :| key in todo;
      todo := todo - {key};
      match prev.chunks[key].chunk.nextChunkId
      case None => return false;
      case Some(next) => chain := chain[key := Decimal(next)];
    }
    assert AllLinked(prev.chunks);
    todo := rebuilt.chunks.Keys;
    while todo != {}
      invariant todo <= rebuilt.chunks.Keys
      invariant forall key :: key in rebuilt.chunks.Keys - todo ==>
        rebuilt.chunks[key].chunk.nextChunkId.Some? && key in prev.chunks &&
        rebuilt.chunks[key].chunk.nextChunkId == prev.chunks[key].chunk.nextChunkId
    {
      var key :| key in todo;
      todo := todo - {key};
      match rebuilt.chunks[key].chunk.nextChunkId
      case None => return false;
      case Some(next) =>
        PrintedEqual(prev.chunks, key, next);
        var expected := if key in chain then chain[key] else "";
        if expected != Decimal(next) {
          return false;
        }
    }
    valid := true;
  }

  // ---- What validation of a reconstruction decides ----

  // It looks only at the uploaded chunks: they lie within the predecessor's and
  // keep their successors.
  lemma ValidateReconstruction(own: FileView, prev: FileView)
    ensures LinksMatch(FileView(own.header, Reconstructed(own.chunks, prev.chunks)), prev) <==>
            own.header.nChunks == prev.header.nChunks &&
            AllLinked(prev.chunks) && AllLinked(own.chunks) && Follows(own.chunks, prev.chunks)
  {
    var rebuilt := Reconstructed(own.chunks, prev.chunks);
    assert forall key :: key in own.chunks ==> key in rebuilt && rebuilt[key] == own.chunks[key];
    assert forall key :: key in rebuilt && key !in own.chunks ==>
      key in prev.chunks && rebuilt[key] == prev.chunks[key];
  }

  // Following successors from a chunk, until a link leads nowhere or back.
  function Walk(chunks: Chunks, at: int, seen: set<string>): seq<int>
    decreases |chunks.Keys - seen|
  {
    var key := Decimal(at);
    if key in chunks && key !in seen then
      assert chunks.Keys - (seen + {key}) < chunks.Keys - seen by {
        assert key in chunks.Keys - seen && key !in chunks.Keys - (seen + {key});
      }
      Shrinks(chunks.Keys - (seen + {key}), chunks.Keys - seen);
      match chunks[key].chunk.nextChunkId
      case Some(next) => [at] + Walk(chunks, next, seen + {key})
      case None => [at]
    else []
  }

  lemma Shrinks<T>(small: set<T>, large: set<T>)
    requires small < large
    ensures |small| < |large|
  {
    assert large == small + (large - small);
    assert |large - small| > 0;
  }

  // The links form one chain through exactly these chunks, from 0 to -1.
  ghost predicate IsChain(chunks: Chunks, order: seq<int>) {
    (forall i :: 0 <= i < |order| ==> Decimal(order[i]) in chunks) &&
    (forall i, j :: 0 <= i < j < |order| ==> order[i] != order[j]) &&
    (forall key :: key in chunks ==> exists i :: 0 <= i < |order| && Decimal(order[i]) == key) &&
    (order != [] ==> order[0] == 0) &&
    Decimal(-1) !in chunks &&
    forall i {:trigger LinkedOn(chunks, order, i)} :: 0 <= i < |order| ==> LinkedOn(chunks, order, i)
  }

  predicate LinkedOn(chunks: Chunks, order: seq<int>, i: nat)
    requires i < |order|
  {
    Decimal(order[i]) in chunks &&
    chunks[Decimal(order[i])].chunk.nextChunkId == Some(if i + 1 < |order| then order[i + 1] else -1)
  }

  // A valid reconstruction of a chained predecessor visits every chunk once, in
  // the predecessor's order, and then stops.
  lemma ValidWalk(own: FileView, prev: FileView, order: seq<int>)
    requires IsChain(prev.chunks, order)
    requires LinksMatch(FileView(own.header, Reconstructed(own.chunks, prev.chunks)), prev)
    ensures Reconstructed(own.chunks, prev.chunks).Keys == prev.chunks.Keys
    ensures Walk(Reconstructed(own.chunks, prev.chunks), 0, {}) == order
  {
    var rebuilt := Reconstructed(own.chunks, prev.chunks);
    assert rebuilt.Keys == prev.chunks.Keys;
    forall i | 0 <= i < |order| ensures LinkedOn(rebuilt, order, i) {
      assert LinkedOn(prev.chunks, order, i);
    }
    assert IsChain(rebuilt, order);
    if order == [] {
      assert rebuilt.Keys == {} by {
        forall key ensures key !in rebuilt {
        }
      }
    } else {
      WalkFrom(rebuilt, order, 0);
      assert order[0..] == order;
    }
  }

  // The keys a walk in this order has passed before position i.
  function Passed(order: seq<int>, i: nat): set<string>
    requires i <= |order|
  {
    if i == 0 then {} else Passed(order, i - 1) + {Decimal(order[i - 1])}
  }

  lemma {:induction false} NotPassed(order: seq<int>, i: nat, k: nat)
    requires i <= k < |order| && forall a, b :: 0 <= a < b < |order| ==> order[a] != order[b]
    ensures Decimal(order[k]) !in Passed(order, i)
  {
    if i > 0 {
      NotPassed(order, i - 1, k);
      if Decimal(order[k]) == Decimal(order[i - 1]) {
        DecimalInjective(order[k], order[i - 1]);
      }
    }
  }

  lemma WalkStep(chunks: Chunks, at: int, next: int, seen: set<string>)
    requires Decimal(at) in chunks && Decimal(at) !in seen
    requires chunks[Decimal(at)].chunk.nextChunkId == Some(next)
    ensures Walk(chunks, at, seen) == [at] + Walk(chunks, next, seen + {Decimal(at)})
  {
  }

  lemma {:induction false} WalkFrom(chunks: Chunks, order: seq<int>, i: nat)
    requires forall a, b :: 0 <= a < b < |order| ==> order[a] != order[b]
    requires forall k {:trigger LinkedOn(chunks, order, k)} :: 0 <= k < |order| ==> LinkedOn(chunks, order, k)
    requires Decimal(-1) !in chunks && i < |order|
    ensures Walk(chunks, order[i], Passed(order, i)) == order[i..]
    decreases |order| - i
  {
    var next := if i + 1 < |order| then order[i + 1] else -1;
    NotPassed(order, i, i);
    assert LinkedOn(chunks, order, i);
    WalkStep(chunks, order[i], next, Passed(order, i));
    assert Passed(order, i + 1) == Passed(order, i) + {Decimal(order[i])};
    if i + 1 < |order| {
      WalkFrom(chunks, order, i + 1);
    }
    assert order[i..] == [order[i]] + order[i + 1..];
  }
}
