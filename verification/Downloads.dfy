// ListOrderedFileChunks (core/files/service.metadata.go) and the read-through
// cache of Download (core/files/download.service.go).
module Downloads {
  import opened Rows
  import opened Text
  import opened Grouping
  import opened Pieces

  // ---- Ordered listing ----

  // `Panic` is Go's run-time panic: a negative length or an index out of range.
  datatype ListError = QueryFailed | FileCorrupted | FileNotFound | Panic

  function OwnedBy(rows: seq<FilesWithChunks>, userId: string): (owned: seq<FilesWithChunks>)
    ensures forall r :: r in owned <==> r in rows && r.file.userId == userId
  {
    if rows == [] then []
    else
      var row, before := rows[|rows| - 1], OwnedBy(rows[..|rows| - 1], userId);
      assert rows == rows[..|rows| - 1] + [row];
      if row.file.userId == userId then before + [row] else before
  }

  // The owner filter keeps the order of the rows: the last of the owner's rows of
  // a chunk is the entry, and the first of the owner's rows of a file its header.
  lemma {:induction false} OwnedLast(rows: seq<FilesWithChunks>, userId: string, i: nat)
    requires i < |rows| && rows[i].file.userId == userId
    requires forall j :: i < j < |rows| && rows[j].file.userId == userId ==>
      rows[j].file.id != rows[i].file.id || Key(rows[j]) != Key(rows[i])
    ensures var m := ChunkMap(OwnedBy(rows, userId), rows[i].file.id); Key(rows[i]) in m && m[Key(rows[i])] == rows[i]
  {
    var before, last := rows[..|rows| - 1], rows[|rows| - 1];
    var owned := OwnedBy(before, userId);
    if last.file.userId == userId {
      assert (owned + [last])[..|owned|] == owned;
    }
    if i < |before| {
      assert before[i] == rows[i];
      OwnedLast(before, userId, i);
    }
  }

  lemma {:induction false} OwnedFirst(rows: seq<FilesWithChunks>, userId: string, i: nat)
    requires i < |rows| && rows[i].file.userId == userId
    requires forall j :: 0 <= j < i && rows[j].file.userId == userId ==> rows[j].file.id != rows[i].file.id
    ensures var owned := OwnedBy(rows, userId);
      rows[i].file.id in Ids(owned) && Shows(FirstHeader(owned, rows[i].file.id), rows[i].file)
  {
    var before, last := rows[..|rows| - 1], rows[|rows| - 1];
    var owned := OwnedBy(before, userId);
    assert forall r :: r in before ==> exists j :: 0 <= j < |before| && before[j] == r && before[j] == rows[j];
    IdsAre(owned);
    if last.file.userId == userId {
      assert (owned + [last])[..|owned|] == owned;
    }
    if i < |before| {
      assert before[i] == rows[i];
      OwnedFirst(before, userId, i);
    }
  }

  predicate InRange(view: FileView) {
    forall key :: key in view.chunks ==> 0 <= view.chunks[key].chunk.chunkId < view.header.nChunks
  }

  // The url of every chunk position; "" where there is no row.
  function Urls(view: FileView): (urls: seq<string>)
    requires view.header.nChunks >= 0
    ensures |urls| == view.header.nChunks
  {
    seq(view.header.nChunks, k => if Decimal(k) in view.chunks then view.chunks[Decimal(k)].chunk.blobUrl else "")
  }

  function Listing(rows: seq<FilesWithChunks>, fileId: string, userId: string): Result<seq<string>, ListError> {
    var owned := OwnedBy(rows, userId);
    if Ids(owned) == [] then Err(FileCorrupted)
    else match Entry(owned, fileId)
      case None => Err(FileNotFound)
      case Some(view) =>
        if view.header.nChunks < 0 || !InRange(view) then Err(Panic) else Ok(Urls(view))
  }

  // When the listing fails, and how.
  lemma ListingErrors(rows: seq<FilesWithChunks>, v: string, u: string)
    ensures Listing(rows, v, u) == Err(FileCorrupted) <==> forall r :: r in rows ==> r.file.userId != u
    ensures Listing(rows, v, u) == Err(FileNotFound) <==>
      (exists r :: r in rows && r.file.userId == u) &&
      forall r :: r in rows && r.file.userId == u ==> r.file.id != v
  {
    var owned := OwnedBy(rows, u);
    IdsAre(owned);
    SomeMember(owned);
    if exists r :: r in owned {
      var r :| r in owned;
      assert r.file.id in Ids(owned);
    }
    if Ids(owned) != [] {
      assert Ids(owned)[0] in Ids(owned);
    }
  }

  // With row i the owner's first of the file: the listing panics exactly if the
  // count there is negative or the owner has a row of the file outside of it, and
  // else has that many positions.
  lemma ListingPanics(rows: seq<FilesWithChunks>, v: string, u: string, i: nat)
    requires i < |rows| && rows[i].file.userId == u && rows[i].file.id == v
    requires forall j :: 0 <= j < i && rows[j].file.userId == u ==> rows[j].file.id != v
    ensures var n := rows[i].file.nChunks;
      if n < 0 || exists r :: r in rows && r.file.userId == u && r.file.id == v && !(0 <= r.chunk.chunkId < n)
      then Listing(rows, v, u) == Err(Panic)
      else Listing(rows, v, u).Ok? && |Listing(rows, v, u).value| == n
  {
    var owned := OwnedBy(rows, u);
    OwnedFirst(rows, u, i);
    ChunkMapHas(owned, v);
    var m := ChunkMap(owned, v);
    forall r | r in owned && r.file.id == v ensures Key(r) in m && m[Key(r)].chunk.chunkId == r.chunk.chunkId {
      OnlyPosition(r.chunk.chunkId);
    }
  }

  // A position shows the url of the owner's last row of that chunk, and "" where
  // the owner has none.
  lemma ListingUrls(rows: seq<FilesWithChunks>, v: string, u: string, k: nat)
    requires Listing(rows, v, u).Ok? && k < |Listing(rows, v, u).value|
    ensures forall j: nat :: IsLastOf(rows, v, u, k, j) ==> Listing(rows, v, u).value[k] == rows[j].chunk.blobUrl
    ensures (forall r :: r in rows && r.file.userId == u && r.file.id == v ==> r.chunk.chunkId != k) ==>
      Listing(rows, v, u).value[k] == ""
  {
    var owned := OwnedBy(rows, u);
    ChunkMapHas(owned, v);
    OnlyPosition(k);
    forall j: nat | IsLastOf(rows, v, u, k, j) ensures Listing(rows, v, u).value[k] == rows[j].chunk.blobUrl {
      OwnedLast(rows, u, j);
    }
  }

  predicate IsLastOf(rows: seq<FilesWithChunks>, v: string, u: string, k: int, j: nat) {
    j < |rows| && rows[j].file.userId == u && rows[j].file.id == v && rows[j].chunk.chunkId == k &&
    forall i :: j < i < |rows| && rows[i].file.userId == u && rows[i].file.id == v ==> rows[i].chunk.chunkId != k
  }

  // The loop that scatters the urls. Map order does not show in the result,
  // because a key names one position.
  method ScatterUrls(info: FileInfoResponse) returns (r: Result<seq<string>, ListError>)
    requires forall key :: key in info.chunks ==> Key(info.chunks[key]) == key
    ensures info.header.nChunks < 0 || !InRange(info.View()) ==> r == Err(Panic)
    ensures info.header.nChunks >= 0 && InRange(info.View()) ==> r == Ok(Urls(info.View()))
  {
    if info.header.nChunks < 0 {
      return Err(Panic);
    }
    var urls := new string[info.header.nChunks](_ => "");
    var todo := info.chunks.Keys;
    ghost var done: set<string> := {};
    while todo != {}
      invariant todo + done == info.chunks.Keys
      invariant forall key :: key in done ==> 0 <= info.chunks[key].chunk.chunkId < urls.Length
      invariant forall k :: 0 <= k < urls.Length ==>
        urls[k] == if Decimal(k) in done then info.chunks[Decimal(k)].chunk.blobUrl else ""
    {
      var key :| key in todo;
      var chunk := info.chunks[key].chunk;
      if chunk.chunkId < 0 || urls.Length <= chunk.chunkId {
        return Err(Panic);
      }
      OnlyPosition(chunk.chunkId);
      urls[chunk.chunkId] := chunk.blobUrl;
      todo, done := todo - {key}, done + {key};
    }
    assert urls[..] == Urls(info.View());
    r := Ok(urls[..]);
  }

  lemma OnlyPosition(i: int)
    ensures forall k :: Decimal(k) == Decimal(i) ==> k == i
  {
    forall k | Decimal(k) == Decimal(i) ensures k == i {
      DecimalInjective(k, i);
    }
  }

  // `selected` is what SelectFiles returned; None if the query failed.
  method ListOrderedFileChunks(selected: Option<seq<FilesWithChunks>>, fileId: string, userId: string)
    returns (r: Result<seq<string>, ListError>, info: Option<FileInfoResponse>)
    ensures r == if selected.None? then Err(QueryFailed) else Listing(selected.value, fileId, userId)
    ensures info.Some? <==> r.Ok?
    ensures r.Ok? ==> Some(info.value.View()) == Entry(OwnedBy(selected.value, userId), fileId)
  {
    info := None;
    if selected.None? {
      return Err(QueryFailed), info;
    }
    var owned := OwnedBy(selected.value, userId);
    var infos := BuildFilesInfoResponse(owned);
    if |infos| < 1 {
      return Err(FileCorrupted), info;
    }
    var found := FindInfo(owned, infos, fileId);
    if found.None? {
      return Err(FileNotFound), info;
    }
    ChunkMapHas(owned, fileId);
    r := ScatterUrls(found.value);
    if r.Ok? {
      info := found;
    }
  }

  // The search among the grouped files.
  method FindInfo(ghost owned: seq<FilesWithChunks>, infos: seq<FileInfoResponse>, fileId: string)
    returns (found: Option<FileInfoResponse>)
    requires Holds(infos, Group(owned))
    ensures found.None? <==> Entry(owned, fileId).None?
    ensures found.Some? ==> Some(found.value.View()) == Entry(owned, fileId)
  {
    found := None;
    HeadersNameIds(owned);
    ghost var ids := Ids(owned);
    for i := 0 to |infos|
      invariant found.Some? ==> exists j :: 0 <= j < |infos| && ids[j] == fileId && found == Some(infos[j])
      invariant found.None? ==> forall j :: 0 <= j < i ==> ids[j] != fileId
    {
      assert infos[i].View().header.id == ids[i];
      if infos[i].header.id == fileId {
        found := Some(infos[i]);
      }
    }
  }

  lemma HeadersNameIds(rows: seq<FilesWithChunks>)
    ensures forall i :: 0 <= i < |Ids(rows)| ==> Group(rows)[i].header.id == Ids(rows)[i]
  {
    forall i | 0 <= i < |Ids(rows)| ensures Group(rows)[i].header.id == Ids(rows)[i] {
      var row := FirstHeaderFrom(rows, Ids(rows)[i]);
    }
  }

  // ---- Download ----

  type Store = map<string, Bytes>

  // The loop without a cache (DownloadFile): a missing file fails the download.
  function Fetch(blobs: Store, paths: seq<string>): Option<Bytes> {
    if paths == [] then Some([])
    else
      match Fetch(blobs, paths[..|paths| - 1])
      case None => None
      case Some(data) =>
        if paths[|paths| - 1] in blobs then Some(data + blobs[paths[|paths| - 1]]) else None
  }

  // How the cache answers for one path: may a stored entry be read, and is a new
  // one stored?
  datatype CacheIo = CacheIo(readable: bool, writable: bool)

  class DownloadHandler {
    var cache: Store

    constructor ()
      ensures cache == map[]
    {
      cache := map[];
    }

    method Download(blobs: Store, paths: seq<string>, io: seq<CacheIo>) returns (r: Option<Bytes>)
      requires |io| == |paths|
      modifies this
      ensures (r, cache) == Cached(blobs, old(cache), paths, io)
    {
      var buffer := [];
      for i := 0 to |paths|
        invariant (Some(buffer), cache) == Cached(blobs, old(cache), paths[..i], io[..i])
      {
        var path := paths[i];
        assert paths[..i + 1] == paths[..i] + [path] && io[..i + 1] == io[..i] + [io[i]];
        CachedStep(blobs, old(cache), paths[..i], io[..i], path, io[i]);
        if io[i].readable && path in cache {
          buffer := buffer + cache[path];
          continue;
        }
        if path !in blobs {
          CachedFailure(blobs, old(cache), paths, io, i + 1);
          return None;
        }
        buffer := buffer + blobs[path];
        if io[i].writable {
          cache := cache[path := blobs[path]];
        }
      }
      assert paths[..|paths|] == paths && io[..|paths|] == io;
      r := Some(buffer);
    }
  }

  // Result and cache after the loop has handled all paths.
  function Cached(blobs: Store, cache: Store, paths: seq<string>, io: seq<CacheIo>): (Option<Bytes>, Store)
    requires |io| == |paths|
  {
    if paths == [] then (Some([]), cache)
    else
      var path, how := paths[|paths| - 1], io[|paths| - 1];
      var (data, c) := Cached(blobs, cache, paths[..|paths| - 1], io[..|paths| - 1]);
      if data.None? then (None, c)
      else if how.readable && path in c then (Some(data.value + c[path]), c)
      else if path !in blobs then (None, c)
      else (Some(data.value + blobs[path]), if how.writable then c[path := blobs[path]] else c)
  }

  lemma CachedStep(blobs: Store, cache: Store, paths: seq<string>, io: seq<CacheIo>, path: string, how: CacheIo)
    requires |io| == |paths|
    ensures var (data, c) := Cached(blobs, cache, paths, io);
            Cached(blobs, cache, paths + [path], io + [how]) ==
              if data.None? then (None, c)
              else if how.readable && path in c then (Some(data.value + c[path]), c)
              else if path !in blobs then (None, c)
              else (Some(data.value + blobs[path]), if how.writable then c[path := blobs[path]] else c)
  {
    assert (paths + [path])[..|paths|] == paths && (io + [how])[..|paths|] == io;
  }

  lemma {:induction false} CachedFailure(blobs: Store, cache: Store, paths: seq<string>, io: seq<CacheIo>, n: nat)
    requires |io| == |paths| && n <= |paths|
    requires Cached(blobs, cache, paths[..n], io[..n]).0.None?
    ensures Cached(blobs, cache, paths, io) == (None, Cached(blobs, cache, paths[..n], io[..n]).1)
  {
    if n == |paths| {
      assert paths[..n] == paths && io[..n] == io;
    } else {
      var m := |paths| - 1;
      assert paths[..m][..n] == paths[..n] && io[..m][..n] == io[..n];
      CachedFailure(blobs, cache, paths[..m], io[..m], n);
    }
  }

  // Every entry is the blob it was read from.
  predicate Fresh(cache: Store, blobs: Store) {
    forall path :: path in cache ==> FreshAt(cache, blobs, path)
  }

  predicate FreshAt(cache: Store, blobs: Store, path: string) {
    path in cache ==> path in blobs && cache[path] == blobs[path]
  }

  // A download, of whatever paths, keeps an entry that is right, and caches only
  // what is stored.
  lemma {:induction false} CachedKeepsAt(blobs: Store, cache: Store, paths: seq<string>, io: seq<CacheIo>, path: string)
    requires |io| == |paths|
    ensures FreshAt(cache, blobs, path) ==> FreshAt(Cached(blobs, cache, paths, io).1, blobs, path)
    ensures path in Cached(blobs, cache, paths, io).1 ==> path in cache || path in blobs
  {
    if paths != [] {
      CachedKeepsAt(blobs, cache, paths[..|paths| - 1], io[..|paths| - 1], path);
    }
  }

  // Where the entries of its own paths are right, a download does not see the
  // cache, whatever else the cache holds.
  lemma {:induction false} TransparentAt(blobs: Store, cache: Store, paths: seq<string>, io: seq<CacheIo>)
    requires |io| == |paths| && forall path :: path in paths ==> FreshAt(cache, blobs, path)
    ensures Cached(blobs, cache, paths, io).0 == Fetch(blobs, paths)
  {
    if paths != [] {
      var m := |paths| - 1;
      TransparentAt(blobs, cache, paths[..m], io[..m]);
      CachedKeepsAt(blobs, cache, paths[..m], io[..m], paths[m]);
    }
  }

  // A cache that cannot be read is not seen, and one that cannot be written stays;
  // one that can holds all paths of a download that succeeds.
  lemma {:induction false} CacheUse(blobs: Store, cache: Store, paths: seq<string>, io: seq<CacheIo>)
    requires |io| == |paths|
    ensures (forall i :: 0 <= i < |io| ==> !io[i].readable) ==> Cached(blobs, cache, paths, io).0 == Fetch(blobs, paths)
    ensures (forall i :: 0 <= i < |io| ==> !io[i].writable) ==> Cached(blobs, cache, paths, io).1 == cache
    ensures (forall i :: 0 <= i < |io| ==> io[i].writable) && Cached(blobs, cache, paths, io).0.Some? ==>
      forall path :: path in paths ==> path in Cached(blobs, cache, paths, io).1
    ensures cache.Keys <= Cached(blobs, cache, paths, io).1.Keys
  {
    if paths != [] {
      var m := |paths| - 1;
      CacheUse(blobs, cache, paths[..m], io[..m]);
      assert paths == paths[..m] + [paths[m]];
    }
  }

  // With fresh entries the cache cannot be seen, and it stays fresh.
  lemma CacheTransparent(blobs: Store, cache: Store, paths: seq<string>, io: seq<CacheIo>)
    requires |io| == |paths| && Fresh(cache, blobs)
    ensures Cached(blobs, cache, paths, io).0 == Fetch(blobs, paths)
    ensures Fresh(Cached(blobs, cache, paths, io).1, blobs)
  {
    TransparentAt(blobs, cache, paths, io);
    forall path ensures FreshAt(Cached(blobs, cache, paths, io).1, blobs, path) {
      CachedKeepsAt(blobs, cache, paths, io, path);
    }
  }

  // A write keeps the cache fresh exactly if it does not change a cached path.
  lemma WriteKeepsFresh(blobs: Store, cache: Store, path: string, data: Bytes)
    requires Fresh(cache, blobs)
    ensures Fresh(cache, blobs[path := data]) <==> (path in cache ==> data == cache[path])
  {
  }

  // The general form: the whole download is transparent for all paths exactly
  // if the cache is fresh.
  lemma TransparentIff(blobs: Store, cache: Store)
    ensures Fresh(cache, blobs) <==>
            forall paths: seq<string>, io: seq<CacheIo> | |io| == |paths| ::
              Cached(blobs, cache, paths, io).0 == Fetch(blobs, paths)
  {
    if Fresh(cache, blobs) {
      forall paths: seq<string>, io: seq<CacheIo> | |io| == |paths|
        ensures Cached(blobs, cache, paths, io).0 == Fetch(blobs, paths)
      {
        CacheTransparent(blobs, cache, paths, io);
      }
    } else {
      var path :| path in cache && !(path in blobs && cache[path] == blobs[path]);
      var io := [CacheIo(true, true)];
      CachedStep(blobs, cache, [], [], path, io[0]);
      assert [] + [path] == [path] && [] + io == io;
      assert Fetch(blobs, [path]) == if path in blobs then Some([] + blobs[path]) else None by {
        assert [path][..0] == [];
      }
      assert Cached(blobs, cache, [path], io).0 == Some([] + cache[path]);
      if path in blobs {
        assert [] + cache[path] == cache[path] && [] + blobs[path] == blobs[path];
      }
    }
  }

  lemma {:induction false} FetchGlues(blobs: Store, paths: seq<string>, pieces: seq<Bytes>)
    requires |paths| == |pieces|
    requires forall k :: 0 <= k < |paths| ==> paths[k] in blobs && blobs[paths[k]] == pieces[k]
    ensures Fetch(blobs, paths) == Some(Glue(pieces))
  {
    if paths != [] {
      var m := |paths| - 1;
      FetchGlues(blobs, paths[..m], pieces[..m]);
      GlueAppend(pieces[..m], pieces[m]);
      assert pieces == pieces[..m] + [pieces[m]];
    }
  }

  // Only the blobs at the paths matter, to the result and to the new cache.
  lemma {:induction false} CachedFrame(blobs: Store, other: Store, cache: Store, paths: seq<string>, io: seq<CacheIo>)
    requires |io| == |paths|
    requires forall path :: path in paths ==> (path in blobs <==> path in other)
    requires forall path :: path in paths && path in blobs ==> blobs[path] == other[path]
    ensures Cached(blobs, cache, paths, io) == Cached(other, cache, paths, io)
  {
    if paths != [] {
      CachedFrame(blobs, other, cache, paths[..|paths| - 1], io[..|paths| - 1]);
    }
  }

  lemma {:induction false} FetchFrame(blobs: Store, other: Store, paths: seq<string>)
    requires forall path :: path in paths ==> (path in blobs <==> path in other)
    requires forall path :: path in paths && path in blobs ==> blobs[path] == other[path]
    ensures Fetch(blobs, paths) == Fetch(other, paths)
  {
    if paths != [] {
      FetchFrame(blobs, other, paths[..|paths| - 1]);
    }
  }
}
