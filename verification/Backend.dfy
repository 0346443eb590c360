// The services and repositories as they change state in place. Every method is
// tied to the step of the state machine that it performs.
module Backend {
  import opened Rows
  import opened Text
  import opened ChunkCount
  import opened Grouping
  import opened Reconstruct
  import opened Downloads
  import opened Machine

  datatype ChunkError = CorruptedFile | InvalidFileChunk | StorageFailed | SaveChunkFailed

  datatype EofError = EofNotFound | EnqueueFailed

  datatype ExecuteError = FileMergeConflict | UpdateFailed

  // A chunk upload; ids that do not parse as integers are None.
  datatype ChunkRequest = ChunkRequest(chunkId: Option<int>, nextId: Option<int>, digest: string, data: Bytes)

  // Whether the inserts and the commit all succeed.
  predicate Commits(batch: seq<UserFile>, failsAt: Option<nat>) {
    failsAt.None? || failsAt.value > |batch|
  }

  predicate Parses(req: ChunkRequest) {
    req.chunkId.Some? && req.nextId.Some?
  }

  predicate NewestFirst(rows: seq<FilesWithChunks>) {
    forall i, j :: 0 <= i < j < |rows| ==> rows[i].file.rowid >= rows[j].file.rowid
  }

  // The row goes behind all rows of newer files.
  method Insert(rows: seq<FilesWithChunks>, row: FilesWithChunks) returns (more: seq<FilesWithChunks>)
    requires NewestFirst(rows)
    ensures NewestFirst(more) && multiset(more) == multiset(rows) + multiset{row}
  {
    var i := 0;
    while i < |rows| && rows[i].file.rowid > row.file.rowid
      invariant 0 <= i <= |rows|
      invariant forall j :: 0 <= j < i ==> rows[j].file.rowid > row.file.rowid
    {
      i := i + 1;
    }
    more := rows[..i] + [row] + rows[i..];
    assert rows == rows[..i] + rows[i..];
  }

  class Service {
    const dir: string
    var files: Files
    var chunks: seq<UserFile>
    var tokens: seq<StreamToken>
    var queue: seq<CacheMetadata>
    var worker: Machine.Worker
    var blobs: Store
    var cache: Store

    constructor (dir: string)
      ensures S() == Init(dir)
    {
      this.dir := dir;
      files, chunks, tokens, queue, worker := map[], [], [], [], Idle;
      blobs, cache := map[], map[];
    }

    function S(): State
      reads this
    {
      State(dir, files, chunks, tokens, queue, worker, blobs, cache)
    }

    // ---- Creating versions ----

    method FindByHash(digest: string) returns (found: bool)
      ensures found <==> HashKnown(files, digest)
    {
      var todo := files.Keys;
      while todo != {}
        invariant todo <= files.Keys
        invariant forall id :: id in files.Keys - todo ==> files[id].fileHash != digest
      {
        var id :| id in todo;
        todo := todo - {id};
        if files[id].fileHash == digest {
          return true;
        }
      }
      found := false;
    }

    // Both inserts or, if the transaction fails, none.
    method CreateMetadataToken(row: FileMetadata, token: StreamToken, commits: bool) returns (ok: bool)
      requires token == StreamToken(row.id, row.userId)
      modifies this`files, this`tokens
      ensures ok == commits
      ensures S() == if commits then WithVersion(old(S()), row) else old(S())
    {
      var filesBefore, tokensBefore := files, tokens;
      files := files[row.id := row];
      tokens := tokens + [token];
      if !commits {
        files, tokens := filesBefore, tokensBefore;
      }
      ok := commits;
    }

    // An id that could not be generated is None; `tokenMade` says whether the
    // stream token could be built.
    method PrepareFileForUpload(req: MetadataRequest, newId: Option<string>, tokenMade: bool, commits: bool)
      returns (r: Result<StreamToken, Rejection>)
      modifies this`files, this`tokens
      ensures S() ==
        if newId.Some? && tokenMade && commits then Apply(old(S()), Prepare(req, newId.value)) else old(S())
      ensures r == if exists id :: id in old(files) && old(files)[id].fileHash == req.digest then Err(Duplicate)
                   else if newId.None? then Err(IdGenFailed)
                   else if CalculateChunks(req.fileSize) != req.chunks then Err(ChunksSizeInvalid)
                   else if tokenMade && commits then Ok(StreamToken(newId.value, req.userId))
                   else Err(InternalError)
      ensures r.Ok? ==>
        newId.value in files && Pristine(files[newId.value], newId.value) && FirstSays(files[newId.value], req)
    {
      var count := CalculateChunks(req.fileSize);
      var found := FindByHash(req.digest);
      if found {
        return Err(Duplicate);
      }
      if newId.None? {
        return Err(IdGenFailed);
      }
      if count != req.chunks {
        return Err(ChunksSizeInvalid);
      }
      var id := newId.value;
      var row := FileMetadata(id, req.userId, req.fileName, req.fileSize, req.fileType, req.digest, count,
                              false, Uploading, None, None, |files|);
      if !tokenMade {
        return Err(InternalError);
      }
      var ok := CreateMetadataToken(row, StreamToken(id, req.userId), commits);
      r := if ok then Ok(StreamToken(id, req.userId)) else Err(InternalError);
    }

    method UpdateFileMetadata(upd: UpdateRequest, newId: Option<string>, tokenMade: bool, commits: bool)
      returns (r: Result<StreamToken, Rejection>)
      modifies this`files, this`tokens
      ensures S() ==
        if newId.Some? && tokenMade && commits then Apply(old(S()), Succeed(upd, newId.value)) else old(S())
      ensures r == if CalculateChunks(upd.fileSize) != upd.chunks then Err(InvalidFileData)
                   else if upd.fileId !in old(files) then Err(NotFound)
                   else if newId.None? then Err(IdGenFailed)
                   else if old(files)[upd.fileId].fileHash == upd.digest then Err(Duplicate)
                   else if tokenMade && commits then Ok(StreamToken(newId.value, upd.userId))
                   else Err(InternalError)
      ensures r.Ok? ==>
        newId.value in files && Pristine(files[newId.value], newId.value) &&
        NextSays(files[newId.value], upd, old(files)[upd.fileId])
    {
      if CalculateChunks(upd.fileSize) != upd.chunks {
        return Err(InvalidFileData);
      }
      if upd.fileId !in files {
        return Err(NotFound);
      }
      var prev := files[upd.fileId];
      if newId.None? {
        return Err(IdGenFailed);
      }
      if prev.fileHash == upd.digest {
        return Err(Duplicate);
      }
      var id := newId.value;
      var row := FileMetadata(id, upd.userId, prev.fileName, upd.fileSize, prev.fileType, upd.digest, upd.chunks,
                              false, Uploading, Some(upd.fileId), None, |files|);
      if !tokenMade {
        return Err(InternalError);
      }
      var ok := CreateMetadataToken(row, StreamToken(id, upd.userId), commits);
      r := if ok then Ok(StreamToken(id, upd.userId)) else Err(InternalError);
    }

    // ---- Uploading ----

    // `writable` says whether directory and file could be opened for writing.
    method UpdateChunk(fileId: string, chunkId: int, data: Bytes, writable: bool) returns (path: Option<string>)
      modifies this`blobs
      ensures path == if writable then Some(PathOf(dir, fileId, chunkId)) else None
      ensures blobs == if writable then old(blobs)[PathOf(dir, fileId, chunkId) := data] else old(blobs)
      ensures path.Some? ==> LiesIn(path.value, dir, fileId, chunkId)
    {
      PathLiesIn(dir, fileId, chunkId);
      if !writable {
        return None;
      }
      path := Some(PathOf(dir, fileId, chunkId));
      blobs := blobs[path.value := data];
    }

    // FileChunkService.Create: the blob is written before the row is stored.
    method CreateChunk(token: StreamToken, req: ChunkRequest, sha256: Bytes -> string, writable: bool, stored: bool)
      returns (r: Result<string, ChunkError>)
      modifies this`blobs, this`chunks
      ensures r == if req.digest != sha256(req.data) then Err(CorruptedFile)
                   else if !Parses(req) then Err(InvalidFileChunk)
                   else if !writable then Err(StorageFailed)
                   else if !stored then Err(SaveChunkFailed)
                   else Ok(PathOf(dir, token.resourceId, req.chunkId.value))
      ensures S() == if r.Ok? || r == Err(SaveChunkFailed)
        then Apply(old(S()), Upload(token, req.chunkId.value, req.nextId.value, req.digest, req.data, stored))
        else old(S())
      ensures r.Ok? ==> LiesIn(r.value, dir, token.resourceId, req.chunkId.value)
      ensures r.Ok? ==> r.value in blobs && blobs[r.value] == req.data
      ensures r == Err(SaveChunkFailed) ==> chunks == old(chunks)
      ensures r == Err(SaveChunkFailed) ==>
        blobs == old(blobs)[PathOf(dir, token.resourceId, req.chunkId.value) := req.data]
      ensures r.Ok? ==>
        chunks == old(chunks) +
          [UserFile(token.userId, token.resourceId, req.chunkId.value, r.value, req.digest, req.nextId)]
    {
      if req.digest != sha256(req.data) {
        return Err(CorruptedFile);
      }
      if req.chunkId.None? || req.nextId.None? {
        return Err(InvalidFileChunk);
      }
      var path := UpdateChunk(token.resourceId, req.chunkId.value, req.data, writable);
      if path.None? {
        return Err(StorageFailed);
      }
      var row := UserFile(token.userId, token.resourceId, req.chunkId.value, path.value, req.digest, req.nextId);
      if !stored {
        return Err(SaveChunkFailed);
      }
      chunks := chunks + [row];
      r := Ok(path.value);
    }

    // `enqueues` says whether the queue takes the message.
    method MarkUploadComplete(fileId: string, deviceId: string, enqueues: bool) returns (r: Result<(), EofError>)
      modifies this`queue
      ensures S() == if enqueues then Apply(old(S()), Eof(fileId, deviceId)) else old(S())
      ensures r == Err(EofNotFound) <==> !(fileId in files && files[fileId].status == Uploading)
      ensures r == Err(EnqueueFailed) ==> !enqueues
      ensures r.Ok? ==> enqueues && |queue| == |old(queue)| + 1 && queue[..|old(queue)|] == old(queue)
      ensures r.Ok? ==>
        var m := queue[|queue| - 1];
        m.id == fileId && m.deviceId == deviceId && m.userId == files[fileId].userId && m.prevId == files[fileId].prevId
    {
      if fileId !in files || files[fileId].status != Uploading {
        return Err(EofNotFound);
      }
      var metadata := files[fileId];
      if !enqueues {
        return Err(EnqueueFailed);
      }
      queue := queue + [CacheMetadata(metadata.userId, metadata.prevId, deviceId, fileId)];
      r := Ok(());
    }

    // ---- Reconciling ----

    // The join, ordered by created_at with the newest file first.
    method SelectFiles(ids: set<string>) returns (rows: seq<FilesWithChunks>)
      ensures IsSelection(S(), ids, rows)
      ensures NewestFirst(rows)
    {
      rows := [];
      for n := 0 to |chunks|
        invariant multiset(rows) == multiset(JoinRows(files, chunks[..n], ids))
        invariant NewestFirst(rows)
      {
        assert chunks[..n + 1][..n] == chunks[..n];
        var c := chunks[n];
        if c.fileId in ids && c.fileId in files {
          rows := Insert(rows, FilesWithChunks(files[c.fileId], c));
        }
      }
      assert chunks[..|chunks|] == chunks;
    }

    // All rows or none: the statement that fails (the last one is the commit)
    // rolls back what the loop has inserted so far.
    method CreateBatch(batch: seq<UserFile>, failsAt: Option<nat>) returns (ok: bool)
      modifies this`chunks
      ensures ok == Commits(batch, failsAt)
      ensures chunks == if ok then old(chunks) + batch else old(chunks)
    {
      var before := chunks;
      for n := 0 to |batch|
        invariant chunks == before + batch[..n]
        invariant failsAt.Some? ==> n <= failsAt.value
      {
        if failsAt == Some(n) {
          chunks := before;
          return false;
        }
        chunks := chunks + [batch[n]];
        assert batch[..n + 1] == batch[..n] + [batch[n]];
      }
      if failsAt == Some(|batch|) {
        chunks := before;
        return false;
      }
      assert batch[..|batch|] == batch;
      ok := true;
    }

    // MetadataRepository.Update: two UPDATE statements in one transaction.
    method Update(prevId: Option<string>, id: string, status: Status, now: int, commits: bool) returns (ok: bool)
      modifies this`files
      ensures ok == commits
      ensures files == if commits then HandedOver(old(files), prevId, id, status, now) else old(files)
      ensures files.Keys == old(files).Keys
      ensures commits ==> forall x :: x in files ==> Handed(old(files)[x], files[x], prevId, id, x, status, now)
    {
      HandedOverIs(files, prevId, id, status, now);
      var before := files;
      if id in files && files[id].prevId == prevId {
        files := files[id := files[id].(current := true, endDate := None, status := status)];
      }
      if prevId.Some? && prevId.value in files {
        files := files[prevId.value := files[prevId.value].(current := false, endDate := Some(now), status := status)];
      }
      if !commits {
        files := before;
      }
      ok := commits;
    }

    method TakeMessage()
      requires worker.Idle? && queue != []
      modifies this`worker, this`queue
      ensures S() == Apply(old(S()), Take)
      ensures worker == Took(old(queue)[0]) && queue == old(queue)[1..]
    {
      worker := Took(queue[0]);
      queue := queue[1..];
    }

    // The rows to insert for the borrowed chunks, in map order.
    method FillerRows(own: Header, filler: Chunks) returns (batch: seq<UserFile>)
      requires forall key :: key in filler ==> Key(filler[key]) == key
      ensures IsBatch(own, filler, batch)
      ensures batch == [] <==> filler == map[]
    {
      batch := [];
      var todo := filler.Keys;
      while todo != {}
        invariant todo <= filler.Keys
        invariant forall b ::
          b in batch <==> exists key :: key in filler.Keys - todo && b == FillerRow(own, filler[key])
        invariant forall i, j :: 0 <= i < j < |batch| ==> batch[i] != batch[j]
        invariant batch == [] <==> todo == filler.Keys
      {
        var key :| key in todo;
        var row := FillerRow(own, filler[key]);
        forall b | b in batch ensures b != row {
          var other :| other in filler.Keys - todo && b == FillerRow(own, filler[other]);
          assert Decimal(b.chunkId) == other && Decimal(row.chunkId) == key;
        }
        assert row !in batch;
        ghost var before := todo;
        todo := todo - {key};
        assert filler.Keys - todo == (filler.Keys - before) + {key};
        batch := batch + [row];
      }
      assert filler.Keys - todo == filler.Keys;
      assert filler == map[] <==> filler.Keys == {};
    }

    // Which chunks the new version borrows. The reconstruction that Validate
    // judges is made on the grouped rows, and its verdict is not used.
    method PlanFiller(id: string, prevId: string)
      returns (plan: Option<(Header, Chunks)>, rows: seq<FilesWithChunks>)
      ensures IsSelection(S(), {id, prevId}, rows)
      ensures plan == PlanOf(id, rows)
    {
      rows := SelectFiles({id, prevId});
      var infos := BuildFilesInfoResponse(rows);
      if |infos| < 2 {
        return None, rows;
      }
      plan := PlanFrom(id, rows, infos);
    }

    method PlanFrom(id: string, ghost rows: seq<FilesWithChunks>, infos: seq<FileInfoResponse>)
      returns (plan: Option<(Header, Chunks)>)
      requires |infos| >= 2 && Holds(infos, Group(rows))
      modifies infos
      ensures plan == PlanOf(id, rows)
    {
      ghost var views := Group(rows);
      assert infos[0].View() == views[0] && infos[1].View() == views[1];
      var thisFile, prevFile := infos[1], infos[0];
      if infos[0].header.id == id {
        thisFile, prevFile := infos[0], infos[1];
      }
      var filler: Chunks := map[];
      if thisFile.header.nChunks == prevFile.header.nChunks {
        filler := RestOfChunks(thisFile, prevFile);
      }
      plan := Some((thisFile.header, filler));
      assert plan == PlanOf(id, rows);
      ReconstructChunks(thisFile, prevFile);
      var isValid := Validate(thisFile, prevFile);
    }

    // MetadataExecutor.ExecuteEach for the message that the worker has taken.
    // `failsAt` and `flagsCommit` say how its two transactions end.
    method ExecuteEach(failsAt: Option<nat>, flagsCommit: bool, now: int)
      returns (r: Result<(), ExecuteError>, ghost rows: seq<FilesWithChunks>, ghost batch: seq<UserFile>)
      requires worker.Took?
      modifies this`worker, this`chunks, this`files
      ensures PlanEnabled(old(S()), old(worker).msg, rows, batch)
      ensures S() == Executed(old(S()), rows, batch, Commits(batch, failsAt), flagsCommit, now)
      ensures r == if Conflicts(old(worker).msg, rows) then Err(FileMergeConflict)
                   else if flagsCommit then Ok(()) else Err(UpdateFailed)
    {
      var msg := worker.msg;
      ghost var s := S();
      rows, batch := [], [];
      var ok := true;
      if msg.prevId.Some? {
        var plan, selected := PlanFiller(msg.id, msg.prevId.value);
        rows := selected;
        if plan.None? {
          worker := Idle;
          ExecutedIs(s, rows, batch, Commits(batch, failsAt), flagsCommit, now);
          return Err(FileMergeConflict), rows, batch;
        }
        PlanKeys(msg.id, rows);
        var filled := FillerRows(plan.value.0, plan.value.1);
        batch := filled;
        if filled != [] {
          ok := CreateBatch(filled, failsAt);
        }
      }
      var updated := Update(msg.prevId, msg.id, StatusOf(ok), now, flagsCommit);
      worker := Idle;
      ExecutedIs(s, rows, batch, Commits(batch, failsAt), flagsCommit, now);
      r := if updated then Ok(()) else Err(UpdateFailed);
    }
  }
}
