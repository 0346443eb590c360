// Runs that show what the service does not promise. They hold for every digest
// function that tells two contents apart, all users and all ids, and every chunk
// in them is uploaded with its own digest, as the service demands.
module Witnesses {
  import opened Rows
  import opened Text
  import opened ChunkCount
  import opened Pieces
  import opened Machine
  import opened Versions
  import opened Currency
  import opened Owners
  import opened Convergence
  import opened Grouping
  import opened Reconstruct
  import opened Downloads
  import opened RoundTrip
  import opened Availability

  type Digest = Bytes -> string

  // Chunks are stored only under their own digest (ValidateHash).
  predicate Checked(sha256: Digest, labels: seq<Label>) {
    forall i :: 0 <= i < |labels| && labels[i].Upload? ==> labels[i].digest == sha256(labels[i].data)
  }

  ghost predicate Real(sha256: Digest, dir: string, labels: seq<Label>) {
    Legal(Init(dir), labels) && Checked(sha256, labels)
  }

  predicate Names(p: string, v: string) {
    p != v && ValidId(p) && ValidId(v)
  }

  lemma StaysChecked(sha256: Digest, labels: seq<Label>, more: seq<Label>)
    requires Checked(sha256, labels) && Reconciles(labels, more)
    ensures Checked(sha256, more)
  {
    assert forall i :: 0 <= i < |labels| ==> more[i] == labels[i];
  }

  lemma SentChecked(cl: Clients, files: Files, id: string, labels: seq<Label>, more: seq<Label>)
    requires Checked(cl.digest, labels) && SendsOnlyChanges(cl, files, id, labels, more)
    ensures Checked(cl.digest, more)
  {
    assert forall i :: 0 <= i < |labels| ==> more[i] == labels[i];
  }

  // ---- Small versions: one byte, one chunk ----

  function SmallVersion(id: string, user: string, name: string, fileType: string, digest: string,
                        prevId: Option<string>, rowid: nat): FileMetadata {
    FileMetadata(id, user, name, 1, fileType, digest, 1, false, Uploading, prevId, None, rowid)
  }

  function SmallChunk(sha256: Digest, dir: string, id: string, user: string, b: Byte): UserFile {
    UserFile(user, id, 0, PathOf(dir, id, 0), sha256([b]), Some(-1))
  }

  function WithChunk(sha256: Digest, s: State, id: string, user: string, b: Byte): State {
    s.(chunks := s.chunks + [SmallChunk(sha256, s.dir, id, user, b)], blobs := s.blobs[PathOf(s.dir, id, 0) := [b]])
  }

  function Added(sha256: Digest, s: State, row: FileMetadata, b: Byte): State {
    WithChunk(sha256, WithVersion(s, row), row.id, row.userId, b)
  }

  lemma OneChunk()
    ensures CalculateChunks(1) == 1
  {
    SafeSizes(1);
  }

  lemma UploadSmall(sha256: Digest, dir: string, labels: seq<Label>, id: string, user: string, b: Byte)
    returns (more: seq<Label>)
    requires Real(sha256, dir, labels) && StreamToken(id, user) in Run(Init(dir), labels).tokens
    ensures Real(sha256, dir, more) && Continues(labels, more)
    ensures Run(Init(dir), more) == WithChunk(sha256, Run(Init(dir), labels), id, user, b)
  {
    var l := Upload(StreamToken(id, user), 0, -1, sha256([b]), [b], true);
    RunLast(Init(dir), labels, l);
    more := labels + [l];
  }

  lemma AddFirst(sha256: Digest, dir: string, labels: seq<Label>, id: string, user: string, b: Byte)
    returns (more: seq<Label>)
    requires Real(sha256, dir, labels) && id !in Run(Init(dir), labels).files && ValidId(id)
    requires !HashKnown(Run(Init(dir), labels).files, sha256([b]))
    ensures Real(sha256, dir, more) && Continues(labels, more)
    ensures var s := Run(Init(dir), labels);
      Run(Init(dir), more) == Added(sha256, s, SmallVersion(id, user, "", "", sha256([b]), None, |s.files|), b)
  {
    var l := Prepare(MetadataRequest(user, "", "", 1, sha256([b]), 1), id);
    OneChunk();
    RunLast(Init(dir), labels, l);
    more := labels + [l];
    assert Run(Init(dir), more).tokens[|Run(Init(dir), labels).tokens|] == StreamToken(id, user);
    more := UploadSmall(sha256, dir, more, id, user, b);
  }

  function NextSmall(sha256: Digest, s: State, p: string, id: string, user: string, b: Byte): State
    requires p in s.files
  {
    var prev := s.files[p];
    Added(sha256, s, SmallVersion(id, user, prev.fileName, prev.fileType, sha256([b]), Some(p), |s.files|), b)
  }

  lemma AddNext(sha256: Digest, dir: string, labels: seq<Label>, p: string, id: string, user: string, b: Byte)
    returns (more: seq<Label>)
    requires Real(sha256, dir, labels) && id !in Run(Init(dir), labels).files && ValidId(id)
    requires p in Run(Init(dir), labels).files && Run(Init(dir), labels).files[p].fileHash != sha256([b])
    ensures Real(sha256, dir, more) && labels <= more
    ensures Run(Init(dir), more) == NextSmall(sha256, Run(Init(dir), labels), p, id, user, b)
    ensures DisciplinedRun(Init(dir), labels) && Run(Init(dir), labels).files[p].status != Uploading ==>
      DisciplinedRun(Init(dir), more)
  {
    var l := Succeed(UpdateRequest(user, p, 1, sha256([b]), 1), id);
    OneChunk();
    RunLast(Init(dir), labels, l);
    var created := labels + [l];
    assert created[..|labels|] == labels;
    assert Run(Init(dir), created).tokens[|Run(Init(dir), labels).tokens|] == StreamToken(id, user);
    more := UploadSmall(sha256, dir, created, id, user, b);
    if DisciplinedRun(Init(dir), labels) && Run(Init(dir), labels).files[p].status != Uploading {
      StaysDisciplined(Init(dir), created, more);
    }
  }

  // Versions with only chunk 0 cover each other.
  lemma SmallCovers(s: State, id: string, p: string)
    requires id in s.files && p in s.files && HasRow(s, id, 0) && HasRow(s, p, 0)
    requires forall c :: c in s.chunks ==> c.chunkId == 0
    ensures Covers(s, id, p)
  {
  }

  // ---- Two current versions ----

  // Without the discipline, a path can hold two current versions.
  lemma UndisciplinedRun(sha256: Digest, dir: string, p: string, v: string, u: string) returns (labels: seq<Label>)
    requires Names(p, v) && sha256([0]) != sha256([1])
    ensures Real(sha256, dir, labels) && !OnePerPath(Run(Init(dir), labels).files)
  {
    var first := AddFirst(sha256, dir, [], p, u, 0);
    var second := AddNext(sha256, dir, first, p, v, u, 1);
    var s := Run(Init(dir), second);
    assert s.chunks == [SmallChunk(sha256, dir, p, u, 0), SmallChunk(sha256, dir, v, u, 1)];
    assert s.chunks[0].fileId == p && s.chunks[1].fileId == v;
    SmallCovers(s, v, p);
    labels := DisciplineNeeded(dir, second, p, v);
    StaysChecked(sha256, second, labels);
  }

  predicate OnlyFirst(sha256: Digest, s: State, dir: string, p: string, u: string) {
    s.dir == dir && s.files.Keys == {p} && s.files[p].status == Completed && s.files[p].fileHash == sha256([0]) &&
    s.files[p].userId == u && s.files[p].nChunks == 1 && s.files[p].current && s.files[p].prevId.None? &&
    s.chunks == [SmallChunk(sha256, dir, p, u, 0)] && s.tokens == [StreamToken(p, u)] &&
    s.blobs == map[PathOf(dir, p, 0) := [0]] && s.cache == map[] && s.files[p].id == p &&
    s.worker.Idle? && s.queue == []
  }

  // A first version, reconciled.
  lemma FirstReconciled(sha256: Digest, dir: string, p: string, u: string) returns (labels: seq<Label>)
    requires ValidId(p)
    ensures Real(sha256, dir, labels) && DisciplinedRun(Init(dir), labels)
    ensures OnlyFirst(sha256, Run(Init(dir), labels), dir, p, u)
  {
    var first := AddFirst(sha256, dir, [], p, u, 0);
    RunLast(Init(dir), first, Eof(p, ""));
    var queued := first + [Eof(p, "")];
    RunKeepsInv(dir, queued);
    labels := ReconcileNext(Init(dir), queued);
    StaysChecked(sha256, queued, labels);
    StaysDisciplined(Init(dir), [], labels);
  }

  // Two successors of it, both uploaded.
  lemma TwoSuccessors(sha256: Digest, dir: string, p: string, a: string, b: string, u: string)
    returns (labels: seq<Label>)
    requires Names(p, a) && Names(p, b) && a != b && sha256([0]) != sha256([1])
    ensures Real(sha256, dir, labels) && DisciplinedRun(Init(dir), labels)
    ensures TwoAdded(sha256, Run(Init(dir), labels), p, a, b, u)
  {
    var first := FirstReconciled(sha256, dir, p, u);
    var second := AddNext(sha256, dir, first, p, a, u, 1);
    labels := AddNext(sha256, dir, second, p, b, u, 1);
  }

  predicate TwoAdded(sha256: Digest, s: State, p: string, a: string, b: string, u: string) {
    s.files.Keys == {p, a, b} && s.worker.Idle? && s.queue == [] && s.files[p].status != Uploading &&
    s.files[a].prevId == Some(p) && s.files[b].prevId == Some(p) &&
    s.files[a].status == Uploading && s.files[b].status == Uploading &&
    s.chunks == [SmallChunk(sha256, s.dir, p, u, 0), SmallChunk(sha256, s.dir, a, u, 1),
                 SmallChunk(sha256, s.dir, b, u, 1)]
  }

  lemma TwoSiblings(sha256: Digest, s: State, p: string, a: string, b: string, u: string)
    requires TwoAdded(sha256, s, p, a, b, u) && a != b
    ensures Siblings(s, p, a, b)
  {
    assert s.chunks[0].fileId == p && s.chunks[1].fileId == a && s.chunks[2].fileId == b;
    SmallCovers(s, a, p);
    SmallCovers(s, b, p);
  }

  // With the discipline, a tree still can.
  lemma SiblingRun(sha256: Digest, dir: string, p: string, a: string, b: string, u: string)
    returns (labels: seq<Label>)
    requires Names(p, a) && Names(p, b) && a != b && sha256([0]) != sha256([1])
    ensures Real(sha256, dir, labels) && DisciplinedRun(Init(dir), labels)
    ensures !OnePerTree(Run(Init(dir), labels).files)
  {
    var created := TwoSuccessors(sha256, dir, p, a, b, u);
    TwoSiblings(sha256, Run(Init(dir), created), p, a, b, u);
    labels := SiblingsBothCurrent(dir, created, p, a, b);
    StaysChecked(sha256, created, labels);
    StaysDisciplined(Init(dir), created, labels);
  }

  // ---- Other users ----

  // Disciplined clients, and still an owner's file is gone: another user's
  // successor has taken the flag.
  lemma StrangerTakesFile(sha256: Digest, dir: string, p: string, v: string, u: string, w: string)
    returns (before: seq<Label>, after: seq<Label>)
    requires Names(p, v) && u != w && sha256([0]) != sha256([1])
    ensures Real(sha256, dir, before + after) && DisciplinedRun(Init(dir), before + after)
    ensures p in Run(Init(dir), before).files && Run(Init(dir), before).files[p].current
    ensures Run(Init(dir), before).files[p].userId == u
    ensures !OwnsCurrent(Run(Init(dir), before + after).files, Root(Run(Init(dir), before).files, p), u)
  {
    var second;
    before, second := StrangerSuccessor(sha256, dir, p, v, u, w);
    var s := Run(Init(dir), second);
    assert s.chunks[0].fileId == p && s.chunks[1].fileId == v;
    SmallCovers(s, v, p);
    var more := OwnerLosesFile(dir, second, p, v);
    StaysChecked(sha256, second, more);
    StaysDisciplined(Init(dir), second, more);
    after := more[|before|..];
    assert before + after == more;
  }

  predicate Intruded(sha256: Digest, was: Files, s: State, p: string, v: string, u: string, w: string) {
    was.Keys == {p} && was[p].current && was[p].userId == u && Root(was, p) == p &&
    s.files.Keys == {p, v} && s.files[p] == was[p] && s.files[v].prevId == Some(p) &&
    s.files[v].userId == w && s.files[v].status == Uploading && !s.files[v].current &&
    Root(s.files, p) == p && s.worker.Idle? && s.queue == [] &&
    s.chunks == [SmallChunk(sha256, s.dir, p, u, 0), SmallChunk(sha256, s.dir, v, w, 1)]
  }

  lemma StrangerSuccessor(sha256: Digest, dir: string, p: string, v: string, u: string, w: string)
    returns (before: seq<Label>, second: seq<Label>)
    requires Names(p, v) && sha256([0]) != sha256([1])
    ensures Real(sha256, dir, second) && DisciplinedRun(Init(dir), second) && before <= second
    ensures Intruded(sha256, Run(Init(dir), before).files, Run(Init(dir), second), p, v, u, w)
  {
    before := FirstReconciled(sha256, dir, p, u);
    second := AddNext(sha256, dir, before, p, v, w, 1);
  }

  // ---- Rows that disagree ----

  predicate Disagreeing(s: State, p: string, v: string, u: string, c: UserFile, d: UserFile) {
    s.files.Keys == {p, v} && s.files[v].prevId == Some(p) && s.files[v].userId == u &&
    AnyRow(s, p) && c in s.chunks && d in s.chunks &&
    c.fileId == d.fileId == v && c.chunkId == d.chunkId && Info(c) != Info(d)
  }

  // Chunk 0 of the successor, uploaded twice with different links.
  lemma UploadedTwice(sha256: Digest, dir: string, p: string, v: string, u: string)
    returns (labels: seq<Label>, c: UserFile, d: UserFile)
    requires Names(p, v) && sha256([0]) != sha256([1])
    ensures Real(sha256, dir, labels) && Disagreeing(Run(Init(dir), labels), p, v, u, c, d)
  {
    var first := FirstReconciled(sha256, dir, p, u);
    var second := AddNext(sha256, dir, first, p, v, u, 1);
    var l := Upload(StreamToken(v, u), 0, 1, sha256([1]), [1], true);
    assert Run(Init(dir), second).tokens[1] == l.token;
    RunLast(Init(dir), second, l);
    labels := second + [l];
    var s := Run(Init(dir), labels);
    c, d := s.chunks[1], s.chunks[2];
    assert s.chunks[0].fileId == p;
  }

  // A reachable state in which the stored map and the one built in memory differ.
  lemma DisagreeingRun(sha256: Digest, dir: string, p: string, v: string, u: string)
    returns (labels: seq<Label>, rows: seq<FilesWithChunks>, batch: seq<UserFile>, again: seq<FilesWithChunks>)
    requires Names(p, v) && sha256([0]) != sha256([1])
    ensures Real(sha256, dir, labels)
    ensures var s, msg := Run(Init(dir), labels), CacheMetadata(u, Some(p), "", v);
      Agrees(s.files, msg) && Arrives(s, msg, rows, batch, again)
    ensures !SameInfo(ChunkMap(again, v), Reconstructed(ChunkMap(rows, v), ChunkMap(rows, p)))
  {
    var c, d;
    labels, c, d := UploadedTwice(sha256, dir, p, v, u);
    RunKeepsInv(dir, labels);
    rows, batch, again := DisagreementShows(Run(Init(dir), labels), CacheMetadata(u, Some(p), "", v), p, c, d);
  }

  // ---- A stale download ----

  // One chunk at one path is listed alone, however many rows it has.
  lemma OneUrl(rows: seq<FilesWithChunks>, v: string, u: string, url: string)
    requires rows != [] && forall r :: r in rows ==>
      r.file.id == v && r.file.userId == u && r.file.nChunks == 1 && r.chunk.chunkId == 0 && r.chunk.blobUrl == url
    ensures Listing(rows, v, u) == Ok([url])
  {
    var owned := OwnedBy(rows, u);
    assert rows[0] in owned;
    IdsAre(owned);
    ChunkMapHas(owned, v);
    var first := FirstHeaderFrom(owned, v);
    assert Key(rows[0]) in ChunkMap(owned, v);
    var view := FileView(FirstHeader(owned, v), ChunkMap(owned, v));
    assert Decimal(0) in view.chunks && Urls(view) == [url];
  }

  lemma OneUrlFetch(blobs: Store, url: string)
    requires url in blobs
    ensures Fetch(blobs, [url]) == Some(blobs[url])
  {
    assert [url][..0] == [];
    assert [] + blobs[url] == blobs[url];
  }

  lemma OneUrlCached(blobs: Store, cache: Store, url: string)
    requires url in blobs
    ensures Cached(blobs, cache, [url], [CacheIo(true, true)]) ==
      if url in cache then (Some(cache[url]), cache) else (Some(blobs[url]), cache[url := blobs[url]])
  {
    var none: Bytes := [];
    var paths: seq<string>, io: seq<CacheIo> := [], [];
    CachedStep(blobs, cache, paths, io, url, CacheIo(true, true));
    assert paths + [url] == [url] && io + [CacheIo(true, true)] == [CacheIo(true, true)];
    assert Cached(blobs, cache, paths, io) == (Some(none), cache);
    assert url in cache ==> none + cache[url] == cache[url];
    assert none + blobs[url] == blobs[url];
  }

  function GetSmall(s: State, p: string, u: string): Label {
    Get(p, u, JoinRows(s.files, s.chunks, {p}), [CacheIo(true, true)])
  }

  // All rows of p are of its chunk 0.
  predicate SmallRows(s: State, p: string, u: string) {
    p in s.files && s.files[p].id == p && s.files[p].userId == u && s.files[p].nChunks == 1 &&
    PathOf(s.dir, p, 0) in s.blobs && HasRow(s, p, 0) &&
    forall c :: c in s.chunks && c.fileId == p ==> c.chunkId == 0 && c.blobUrl == PathOf(s.dir, p, 0)
  }

  lemma GetSmallIs(s: State, p: string, u: string)
    requires SmallRows(s, p, u)
    ensures Enabled(s, GetSmall(s, p, u))
    ensures Listing(JoinRows(s.files, s.chunks, {p}), p, u) == Ok([PathOf(s.dir, p, 0)])
    ensures GetStep(s, GetSmall(s, p, u)) ==
      Cached(s.blobs, s.cache, [PathOf(s.dir, p, 0)], [CacheIo(true, true)])
  {
    var rows := JoinRows(s.files, s.chunks, {p});
    var c :| c in s.chunks && c.fileId == p && c.chunkId == 0;
    JoinHas(s.files, s.chunks, {p}, FilesWithChunks(s.files[p], c));
    forall r | r in rows
      ensures r.file.id == p && r.file.userId == u && r.file.nChunks == 1 && r.chunk.chunkId == 0
      ensures r.chunk.blobUrl == PathOf(s.dir, p, 0)
    {
      JoinHas(s.files, s.chunks, {p}, r);
    }
    OneUrl(rows, p, u, PathOf(s.dir, p, 0));
  }

  // Download, upload other bytes to the cached chunk, download again: the second
  // download returns the old bytes.
  lemma StaleRun(sha256: Digest, dir: string, p: string, u: string) returns (labels: seq<Label>, get: Label)
    requires ValidId(p)
    ensures Real(sha256, dir, labels) && get.Get? && get.fileId == p && Enabled(Run(Init(dir), labels), get)
    ensures var s := Run(Init(dir), labels); var listed := Listing(get.rows, p, u);
      listed.Ok? && Fetch(s.blobs, listed.value) == Some([1]) && GetStep(s, get).0 == Some([0])
  {
    var first := FirstReconciled(sha256, dir, p, u);
    var s := Run(Init(dir), first);
    assert s.chunks[0].fileId == p;
    GetSmallIs(s, p, u);
    OneUrlCached(s.blobs, s.cache, PathOf(dir, p, 0));
    RunLast(Init(dir), first, GetSmall(s, p, u));
    var cached := first + [GetSmall(s, p, u)];
    labels := UploadSmall(sha256, dir, cached, p, u, 1);
    var t := Run(Init(dir), labels);
    StaleState(sha256, s, t, p, u);
    get := GetSmall(t, p, u);
  }

  lemma StaleState(sha256: Digest, s: State, t: State, p: string, u: string)
    requires OnlyFirst(sha256, s, s.dir, p, u)
    requires t == WithChunk(sha256, s.(cache := map[PathOf(s.dir, p, 0) := [0]]), p, u, 1)
    ensures SmallRows(t, p, u)
    ensures Enabled(t, GetSmall(t, p, u)) && GetStep(t, GetSmall(t, p, u)).0 == Some([0])
    ensures Listing(GetSmall(t, p, u).rows, p, u) == Ok([PathOf(s.dir, p, 0)])
    ensures Fetch(t.blobs, [PathOf(s.dir, p, 0)]) == Some([1])
  {
    assert t.chunks == [SmallChunk(sha256, s.dir, p, u, 0), SmallChunk(sha256, s.dir, p, u, 1)];
    assert t.chunks[0].fileId == p;
    GetSmallIs(t, p, u);
    OneUrlCached(t.blobs, t.cache, PathOf(s.dir, p, 0));
    OneUrlFetch(t.blobs, PathOf(s.dir, p, 0));
  }

  // ---- Versions of two chunks ----

  // Two pieces, of which the first depends on `b`.
  function Twin(b: Byte): Bytes {
    [b] + seq(CHUNK_SIZE, _ => 0 as Byte)
  }

  lemma TwinPieces(b: Byte)
    ensures |Twin(b)| == CHUNK_SIZE + 1 && |Cut(Twin(b))| == 2 && Cut(Twin(b))[1] == [0]
  {
    var rest := Twin(b)[CHUNK_SIZE..];
    assert rest == [0];
    assert Cut(rest) == [rest];
  }

  // Honest clients, of whom that of `v` holds the second twin.
  function Twins(sha256: Digest, v: string): Clients {
    Clients(_ => true, x => if x == v then Twin(1) else Twin(0), sha256)
  }

  // The first twin is published, and the second can replace it.
  lemma TwinPublished(sha256: Digest, dir: string, p: string, v: string, u: string) returns (labels: seq<Label>)
    requires Names(p, v) && sha256(Twin(0)) != sha256(Twin(1))
    ensures Sound(Twins(sha256, v), dir, labels) && Checked(sha256, labels)
    ensures Replaceable(Twins(sha256, v), Run(Init(dir), labels), p, v)
    ensures SamePiece(Twins(sha256, v), p, v, 1) && Run(Init(dir), labels).files[p].userId == u
  {
    var cl := Twins(sha256, v);
    TwinPieces(0);
    TwinPieces(1);
    labels := CanPublishFirst(cl, dir, [], p, u);
    SentChecked(cl, Run(Init(dir), labels).files, p, [], labels);
    RunKeepsInv(dir, labels);
    HonestRunIsTruthful(cl, dir, labels);
    assert VersionTrue(cl, Run(Init(dir), labels), p);
  }

  // Honest clients, and the current version has lost a piece: its chunk batch
  // failed, and the flags moved all the same.
  lemma FailedBatchRun(sha256: Digest, dir: string, p: string, v: string, u: string) returns (labels: seq<Label>)
    requires Names(p, v) && sha256(Twin(0)) != sha256(Twin(1))
    ensures Real(sha256, dir, labels) && HonestRun(Twins(sha256, v), Init(dir), labels)
    ensures CurrentButFailed(Run(Init(dir), labels), p, v) && NeverDownloads(Run(Init(dir), labels), v)
  {
    var cl := Twins(sha256, v);
    var first := TwinPublished(sha256, dir, p, v, u);
    labels := CurrentWithoutBytes(cl, dir, first, p, v, u, 1);
    SentChecked(cl, Run(Init(dir), labels).files, v, first, labels);
  }

  // Honest clients, and another user's row leads to an owner's blob: the second
  // twin is the other user's, and borrows a piece.
  lemma StrangerSharesBlob(sha256: Digest, dir: string, p: string, v: string, u: string, w: string)
    returns (labels: seq<Label>)
    requires Names(p, v) && u != w && sha256(Twin(0)) != sha256(Twin(1))
    ensures Real(sha256, dir, labels) && HonestRun(Twins(sha256, v), Init(dir), labels)
    ensures !BlobsApart(Run(Init(dir), labels).chunks)
  {
    var cl := Twins(sha256, v);
    TwinPieces(1);
    var taken := TwinLeftOut(sha256, dir, p, v, u, w);
    var s := Run(Init(dir), taken);
    var c := BorrowableRow(cl, dir, taken, p, v, 1);
    RunKeepsInv(dir, taken);
    var rows, batch := SharesBlob(s, s.worker.msg, c);
    labels := ExecutedContinues(Init(dir), taken, rows, batch, true, true, 0);
    WorkerIsHonest(cl, Init(dir), taken, labels);
    WorkerChecked(sha256, taken, labels);
  }

  lemma TwinLeftOut(sha256: Digest, dir: string, p: string, v: string, u: string, w: string)
    returns (taken: seq<Label>)
    requires Names(p, v) && u != w && sha256(Twin(0)) != sha256(Twin(1))
    ensures Sound(Twins(sha256, v), dir, taken) && Checked(sha256, taken)
    ensures LeftOut(Run(Init(dir), taken), p, v, 1) && SamePiece(Twins(sha256, v), p, v, 1)
  {
    var cl := Twins(sha256, v);
    var first := TwinPublished(sha256, dir, p, v, u);
    taken := LeavesPiece(cl, dir, first, p, v, w, 1);
    SentChecked(cl, Run(Init(dir), taken).files, v, first, taken);
    KeepsRow(dir, first, taken, p);
    RunKeepsInv(dir, taken);
    InFlightAgrees(Run(Init(dir), taken));
  }

  lemma WorkerChecked(sha256: Digest, labels: seq<Label>, more: seq<Label>)
    requires Checked(sha256, labels) && WorkerSteps(labels, more)
    ensures Checked(sha256, more)
  {
    assert forall i :: 0 <= i < |labels| ==> more[i] == labels[i];
  }

  // The predecessor's row for a piece that an honest successor leaves out.
  lemma BorrowableRow(cl: Clients, dir: string, taken: seq<Label>, p: string, v: string, k: nat)
    returns (c: UserFile)
    requires Sound(cl, dir, taken) && cl.honest(v) && cl.content(v) != [] && SamePiece(cl, p, v, k)
    requires LeftOut(Run(Init(dir), taken), p, v, k)
    ensures LacksOther(Run(Init(dir), taken), v, c) && c.fileId == p
  {
    var s := Run(Init(dir), taken);
    RunKeepsInv(dir, taken);
    HonestRunIsTruthful(cl, dir, taken);
    InFlightAgrees(s);
    assert Pends(s, s.worker.msg) && VersionTrue(cl, s, v) && VersionTrue(cl, s, p);
    SomethingUploaded(cl, s, v);
    assert HasRow(s, p, k);
    c :| c in s.chunks && c.fileId == p && c.chunkId == k;
  }

  predicate LeftOut(s: State, p: string, v: string, k: nat) {
    s.worker.Took? && s.worker.msg.id == v && s.worker.msg.prevId == Some(p) && v in s.files && p in s.files &&
    s.files[v].userId != s.files[p].userId && !HasRow(s, v, k)
  }

  // ---- A completed version that does not download ----

  // Only the client of p is honest, and holds the first twin.
  function OnlyTwin(sha256: Digest, p: string): Clients {
    Clients(x => x == p, _ => Twin(0), sha256)
  }

  // p, with the first of its two pieces.
  predicate Half(sha256: Digest, s: State, p: string, u: string) {
    s.files.Keys == {p} && s.files[p].prevId.None? && s.files[p].status == Uploading && !s.files[p].current &&
    s.files[p].userId == u && s.files[p].nChunks == 2 && s.files[p].fileHash == sha256(Twin(0)) &&
    |s.chunks| == 1 && s.chunks[0].fileId == p && s.chunks[0].chunkId == 0 && s.worker.Idle? && s.queue == []
  }

  lemma {:induction false} HalfCreated(sha256: Digest, dir: string, p: string, u: string) returns (created: seq<Label>)
    requires ValidId(p)
    ensures Sound(OnlyTwin(sha256, p), dir, created) && Checked(sha256, created)
    ensures var s := Run(Init(dir), created);
      Started(Init(dir), s, p, u, 2) && s.files[p].fileHash == sha256(Twin(0)) && !s.files[p].current
    ensures StreamToken(p, u) in Run(Init(dir), created).tokens
  {
    var cl := OnlyTwin(sha256, p);
    TwinPieces(0);
    created := CreateFirst(cl, dir, [], p, u);
    RunKeepsInv(dir, created);
    HonestRunIsTruthful(cl, dir, created);
    assert VersionTrue(cl, Run(Init(dir), created), p);
    assert RowsSound(Run(Init(dir), created).files);
  }

  lemma HalfUploaded(sha256: Digest, dir: string, p: string, u: string) returns (labels: seq<Label>)
    requires ValidId(p)
    ensures Sound(OnlyTwin(sha256, p), dir, labels) && Checked(sha256, labels)
    ensures Half(sha256, Run(Init(dir), labels), p, u)
  {
    var cl := OnlyTwin(sha256, p);
    TwinPieces(0);
    var created := HalfCreated(sha256, dir, p, u);
    var piece := cl.Pieces(p)[0];
    var l := Upload(StreamToken(p, u), 0, 1, sha256(piece), piece, true);
    SoundLast(cl, dir, created, l);
    labels := created + [l];
  }

  // Clients that are not honest may do what any client can.
  lemma StrangerStep(cl: Clients, sha256: Digest, dir: string, labels: seq<Label>, l: Label)
    returns (more: seq<Label>)
    requires Sound(cl, dir, labels) && Checked(sha256, labels) && Enabled(Run(Init(dir), labels), l)
    requires match l
      case Succeed(_, id) => !cl.honest(id)
      case Upload(token, _, _, digest, data, _) => !cl.honest(token.resourceId) && digest == sha256(data)
      case Eof(id, _) => !cl.honest(id)
      case _ => l.Take?
    ensures Sound(cl, dir, more) && Checked(sha256, more) && Run(Init(dir), more) == Apply(Run(Init(dir), labels), l)
  {
    SoundLast(cl, dir, labels, l);
    more := labels + [l];
  }

  lemma HalfNext(sha256: Digest, dir: string, p: string, v: string, u: string, w: string)
    returns (labels: seq<Label>, s: State)
    requires Names(p, v) && sha256(Twin(0)) != sha256([1])
    ensures Sound(OnlyTwin(sha256, p), dir, labels) && Checked(sha256, labels)
    ensures Half(sha256, s, p, u) && Run(Init(dir), labels) == NextSmall(sha256, s, p, v, w, 1)
  {
    var cl := OnlyTwin(sha256, p);
    labels := HalfUploaded(sha256, dir, p, u);
    s := Run(Init(dir), labels);
    OneChunk();
    labels := StrangerStep(cl, sha256, dir, labels, Succeed(UpdateRequest(w, p, 1, sha256([1]), 1), v));
    assert Run(Init(dir), labels).tokens[|s.tokens|] == StreamToken(v, w);
    labels := StrangerStep(cl, sha256, dir, labels, Upload(StreamToken(v, w), 0, -1, sha256([1]), [1], true));
  }

  // Another user's one-byte successor of it, announced.
  lemma HalfSucceeded(sha256: Digest, dir: string, p: string, v: string, u: string, w: string)
    returns (labels: seq<Label>)
    requires Names(p, v) && sha256(Twin(0)) != sha256([1])
    ensures Sound(OnlyTwin(sha256, p), dir, labels) && Checked(sha256, labels)
    ensures HalfTaken(Run(Init(dir), labels), p, v, w)
  {
    var cl := OnlyTwin(sha256, p);
    var s;
    labels, s := HalfNext(sha256, dir, p, v, u, w);
    HalfState(sha256, s, p, v, u, w);
    labels := StrangerStep(cl, sha256, dir, labels, Eof(v, ""));
    labels := StrangerStep(cl, sha256, dir, labels, Take);
  }

  lemma HalfState(sha256: Digest, s: State, p: string, v: string, u: string, w: string)
    requires Half(sha256, s, p, u) && p != v
    ensures var t := NextSmall(sha256, s, p, v, w, 1);
      var queued := Apply(t, Eof(v, ""));
      queued.worker.Idle? && queued.queue != [] && HalfTaken(Apply(queued, Take), p, v, w)
  {
    var t := NextSmall(sha256, s, p, v, w, 1);
    var msg := CacheMetadata(w, Some(p), "", v);
    assert Apply(t, Eof(v, "")) == t.(queue := [msg]);
    assert Apply(t.(queue := [msg]), Take) == t.(worker := Took(msg));
    assert t.chunks[0].fileId == p && t.chunks[1].fileId == v;
  }

  predicate HalfTaken(s: State, p: string, v: string, w: string) {
    s.files.Keys == {p, v} && s.worker == Took(CacheMetadata(w, Some(p), "", v)) && s.queue == [] &&
    s.files[p].nChunks == 2 && s.files[v].nChunks == 1 && !s.files[p].current &&
    AnyRow(s, p) && AnyRow(s, v) && !HasRow(s, p, 1)
  }

  // The hand-over to the successor completes p, which is not stored in full.
  lemma CompletedState(s: State, p: string, v: string, w: string, rows: seq<FilesWithChunks>, batch: seq<UserFile>)
    requires Inv(s) && HalfTaken(s, p, v, w) && PlanEnabled(s, s.worker.msg, rows, batch)
    ensures var t := Executed(s, rows, batch, true, true, 0);
      t.chunks == s.chunks && p in t.files && t.files[p].status == Completed && Over(t, p)
  {
    var msg := s.worker.msg;
    InFlightAgrees(s);
    assert Linked(s.files, v);
    NothingToBorrow(s, v, p, rows);
    ExecutedIs(s, rows, batch, true, true, 0);
    HandOverRows(s.files, msg, Completed, 0);
  }

  // One honest client: its version is completed by another user's successor
  // before it is uploaded in full. It does not download, and it is over: it will
  // never be current, and its end of file is refused for good.
  lemma StrangerEndsUpload(sha256: Digest, dir: string, p: string, v: string, u: string, w: string)
    returns (labels: seq<Label>)
    requires Names(p, v) && sha256(Twin(0)) != sha256([1])
    ensures Real(sha256, dir, labels) && HonestRun(OnlyTwin(sha256, p), Init(dir), labels)
    ensures var s := Run(Init(dir), labels);
      p in s.files && s.files[p].status == Completed && NeverDownloads(s, p) && Over(s, p)
  {
    var cl := OnlyTwin(sha256, p);
    TwinPieces(0);
    var taken := HalfSucceeded(sha256, dir, p, v, u, w);
    var s := Run(Init(dir), taken);
    RunKeepsInv(dir, taken);
    var rows, batch := SomePlan(s, s.worker.msg);
    labels := ExecutedContinues(Init(dir), taken, rows, batch, true, true, 0);
    WorkerIsHonest(cl, Init(dir), taken, labels);
    WorkerChecked(sha256, taken, labels);
    CompletedState(s, p, v, w, rows, batch);
    RunKeepsInv(dir, labels);
    HonestRunIsTruthful(cl, dir, labels);
    assert !HasRow(Run(Init(dir), labels), p, 1);
    UncoveredNeverDownloads(cl, Run(Init(dir), labels), p);
  }
}
