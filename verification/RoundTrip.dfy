// What is downloaded is what was uploaded: for every version whose client and
// whose predecessors' clients are honest, whatever all other clients do, over
// version chains of any length, with borrowed chunks, repeated messages, failed
// transactions, crashes and a download cache.
module RoundTrip {
  import opened Rows
  import opened Text
  import opened Pieces
  import opened Grouping
  import opened Downloads
  import opened Machine
  import opened Versions
  import opened Currency
  import opened CacheRuns
  import opened Convergence

  // Each version id stands for the bytes its client holds; `digest` is SHA-256.
  // Nothing is assumed of the clients of versions that are not `honest`.
  datatype Clients = Clients(honest: string -> bool, content: string -> Bytes, digest: Bytes -> string) {
    function Pieces(v: string): seq<Bytes> {
      Cut(content(v))
    }
  }

  // ---- Honest clients ----

  predicate Describes(cl: Clients, id: string, fileSize: int, digest: string, chunks: int) {
    fileSize == |cl.content(id)| && digest == cl.digest(cl.content(id)) && chunks == |cl.Pieces(id)|
  }

  // Chunk k of v may be left to the server: the predecessor has the same count
  // and the same piece.
  predicate Unchanged(cl: Clients, files: Files, v: string, k: nat) {
    v in files && files[v].prevId.Some? &&
    var p := files[v].prevId.value;
    p in files && files[p].nChunks == files[v].nChunks &&
    k < |cl.Pieces(p)| && k < |cl.Pieces(v)| && cl.Pieces(p)[k] == cl.Pieces(v)[k]
  }

  predicate EofReady(cl: Clients, s: State, v: string) {
    forall k :: 0 <= k < |cl.Pieces(v)| ==> HasRow(s, v, k) || Unchanged(cl, s.files, v, k)
  }

  // Clients of honest versions describe their content, build on honest versions
  // that are stored in full, send the pieces of their content, and signal the end
  // after all changed pieces. All other clients do as they like.
  predicate Honest(cl: Clients, s: State, l: Label) {
    match l
    case Prepare(req, id) => cl.honest(id) ==> Describes(cl, id, req.fileSize, req.digest, req.chunks)
    case Succeed(upd, id) =>
      cl.honest(id) ==>
        Describes(cl, id, upd.fileSize, upd.digest, upd.chunks) &&
        (upd.fileId in s.files ==> cl.honest(upd.fileId) && Covered(cl, s, upd.fileId))
    case Upload(token, chunkId, _, _, data, _) =>
      cl.honest(token.resourceId) ==>
        0 <= chunkId < |cl.Pieces(token.resourceId)| && data == cl.Pieces(token.resourceId)[chunkId]
    case Eof(fileId, _) => cl.honest(fileId) && fileId in s.files ==> EofReady(cl, s, fileId)
    case _ => true
  }

  ghost predicate HonestRun(cl: Clients, s: State, labels: seq<Label>) {
    labels == [] ||
    (HonestRun(cl, s, labels[..|labels| - 1]) &&
     Honest(cl, Run(s, labels[..|labels| - 1]), labels[|labels| - 1]))
  }

  // ---- The invariant ----

  predicate Covered(cl: Clients, s: State, v: string) {
    forall k :: 0 <= k < |cl.Pieces(v)| ==> HasRow(s, v, k)
  }

  // The status of v speaks for v: a successor's hand-over sets it too, so either
  // v is current or all its successors are honest.
  predicate Vouched(cl: Clients, files: Files, v: string)
    requires v in files
  {
    files[v].current || forall w :: w in files && files[w].prevId == Some(v) ==> cl.honest(w)
  }

  predicate VersionTrue(cl: Clients, s: State, v: string)
    requires v in s.files
  {
    var f := s.files[v];
    f.nChunks == |cl.Pieces(v)| && f.fileHash == cl.digest(cl.content(v)) &&
    (f.status == Completed && Vouched(cl, s.files, v) ==> Covered(cl, s, v)) &&
    (f.prevId.Some? ==> cl.honest(f.prevId.value) && Covered(cl, s, f.prevId.value))
  }

  // The blob of a chunk, if written, is the piece.
  predicate BlobTrue(cl: Clients, s: State, v: string, k: int) {
    PathOf(s.dir, v, k) in s.blobs ==>
      0 <= k < |cl.Pieces(v)| && s.blobs[PathOf(s.dir, v, k)] == cl.Pieces(v)[k]
  }

  ghost predicate Owned(s: State, path: string) {
    exists v, k :: v in s.files && path == PathOf(s.dir, v, k)
  }

  // The path of a chunk of an honest version.
  ghost predicate HonestPath(cl: Clients, s: State, path: string) {
    exists v, k :: v in s.files && cl.honest(v) && path == PathOf(s.dir, v, k)
  }

  // The row of an honest version leads, at an honest path, to the piece.
  ghost predicate RowTrue(cl: Clients, s: State, c: UserFile) {
    cl.honest(c.fileId) ==>
      0 <= c.chunkId < |cl.Pieces(c.fileId)| && HonestPath(cl, s, c.blobUrl) && c.blobUrl in s.blobs &&
      s.blobs[c.blobUrl] == cl.Pieces(c.fileId)[c.chunkId]
  }

  ghost predicate WorkerTrue(cl: Clients, s: State) {
    match s.worker
    case Planned(msg, batch) =>
      cl.honest(msg.id) ==>
        (forall b :: b in batch ==> RowTrue(cl, s, b)) &&
        forall k :: 0 <= k < |cl.Pieces(msg.id)| ==> Promises(s, batch, msg.id, k)
    case Filled(msg, ok) => cl.honest(msg.id) && ok ==> Covered(cl, s, msg.id)
    case _ => true
  }

  // What is cached at honest paths is right, and nothing is cached that is not stored.
  ghost predicate CacheTrue(cl: Clients, s: State) {
    s.cache.Keys <= s.blobs.Keys &&
    forall path {:trigger HonestPath(cl, s, path)} :: HonestPath(cl, s, path) ==> FreshAt(s.cache, s.blobs, path)
  }

  ghost predicate Truthful(cl: Clients, s: State) {
    (forall v {:trigger VersionTrue(cl, s, v)} :: v in s.files && cl.honest(v) ==> VersionTrue(cl, s, v)) &&
    (forall v, k {:trigger BlobTrue(cl, s, v, k)} :: v in s.files && cl.honest(v) ==> BlobTrue(cl, s, v, k)) &&
    (forall path {:trigger Owned(s, path)} :: path in s.blobs ==> Owned(s, path)) &&
    (forall c {:trigger RowTrue(cl, s, c)} :: c in s.chunks ==> RowTrue(cl, s, c)) &&
    (forall m {:trigger Pends(s, m)} :: Pends(s, m) && cl.honest(m.id) ==> EofReady(cl, s, m.id)) &&
    WorkerTrue(cl, s) && CacheTrue(cl, s)
  }

  // ---- What carries over from state to state ----

  // Rows are kept, and blobs at honest paths keep their bytes.
  ghost predicate Keeps(cl: Clients, s: State, t: State) {
    Extends(s, t) &&
    forall path {:trigger HonestPath(cl, s, path)} ::
      HonestPath(cl, s, path) && path in s.blobs ==> t.blobs[path] == s.blobs[path]
  }

  lemma RowKept(s: State, t: State, v: string, k: int)
    requires s.chunks <= t.chunks && HasRow(s, v, k)
    ensures HasRow(t, v, k)
  {
    var c :| c in s.chunks && c.fileId == v && c.chunkId == k;
    assert c in t.chunks;
  }

  lemma CoverKept(cl: Clients, s: State, t: State, v: string)
    requires s.chunks <= t.chunks && Covered(cl, s, v)
    ensures Covered(cl, t, v)
  {
    forall k | 0 <= k < |cl.Pieces(v)| ensures HasRow(t, v, k) {
      RowKept(s, t, v, k);
    }
  }

  lemma ReadyKept(cl: Clients, s: State, t: State, v: string)
    requires Forest(s.files) && Extends(s, t) && EofReady(cl, s, v)
    ensures EofReady(cl, t, v)
  {
    forall k | 0 <= k < |cl.Pieces(v)| ensures HasRow(t, v, k) || Unchanged(cl, t.files, v, k) {
      if HasRow(s, v, k) {
        RowKept(s, t, v, k);
      } else {
        assert Unchanged(cl, s.files, v, k);
        assert SameVersion(s.files[v], t.files[v]);
        var p := s.files[v].prevId.value;
        assert SameVersion(s.files[p], t.files[p]);
      }
    }
  }

  // Nothing but v's own coverage makes its status speak for it.
  ghost predicate Earned(cl: Clients, s: State, t: State, v: string)
    requires v in s.files && v in t.files
  {
    t.files[v].status == Completed && Vouched(cl, t.files, v) ==>
      (s.files[v].status == Completed && Vouched(cl, s.files, v)) || Covered(cl, t, v)
  }

  lemma VersionKept(cl: Clients, s: State, t: State, v: string)
    requires Extends(s, t) && v in s.files && VersionTrue(cl, s, v) && Earned(cl, s, t, v)
    ensures VersionTrue(cl, t, v)
  {
    assert SameVersion(s.files[v], t.files[v]);
    if s.files[v].status == Completed && Vouched(cl, s.files, v) {
      CoverKept(cl, s, t, v);
    }
    if s.files[v].prevId.Some? {
      CoverKept(cl, s, t, s.files[v].prevId.value);
    }
  }

  // More versions vouch for less.
  lemma VouchedBefore(cl: Clients, files: Files, more: Files, v: string)
    requires v in files && files.Keys <= more.Keys && Vouched(cl, more, v)
    requires forall id :: id in files ==> SameVersion(files[id], more[id])
    requires more[v].current ==> files[v].current
    ensures Vouched(cl, files, v)
  {
    forall w | w in files && files[w].prevId == Some(v) ensures more[w].prevId == Some(v) {
      assert SameVersion(files[w], more[w]);
    }
  }

  lemma SameFilesEarn(cl: Clients, s: State, t: State, v: string)
    requires v in s.files && s.files.Keys <= t.files.Keys && forall id :: id in s.files ==> t.files[id] == s.files[id]
    ensures Earned(cl, s, t, v)
  {
    if Vouched(cl, t.files, v) {
      VouchedBefore(cl, s.files, t.files, v);
    }
  }

  lemma OwnerKept(s: State, t: State, path: string)
    requires Owned(s, path) && s.dir == t.dir && s.files.Keys <= t.files.Keys
    ensures Owned(t, path)
  {
    var w, k :| w in s.files && path == PathOf(s.dir, w, k);
    assert w in t.files;
  }

  lemma PathKept(cl: Clients, s: State, t: State, path: string)
    requires HonestPath(cl, s, path) && s.dir == t.dir && s.files.Keys <= t.files.Keys
    ensures HonestPath(cl, t, path)
  {
    var w, k :| w in s.files && cl.honest(w) && path == PathOf(s.dir, w, k);
    assert w in t.files;
  }

  lemma RowTrueKept(cl: Clients, s: State, t: State, c: UserFile)
    requires RowTrue(cl, s, c) && Keeps(cl, s, t)
    ensures RowTrue(cl, t, c)
  {
    if cl.honest(c.fileId) {
      PathKept(cl, s, t, c.blobUrl);
    }
  }

  // ---- Steps ----

  // What is left to show of a step is what is new in it.
  lemma Assembled(cl: Clients, s: State, t: State)
    requires Forest(s.files) && Truthful(cl, s) && Keeps(cl, s, t) && CacheTrue(cl, t)
    requires forall v :: v in t.files && v !in s.files && cl.honest(v) ==> VersionTrue(cl, t, v)
    requires forall v {:trigger Earned(cl, s, t, v)} :: v in s.files && cl.honest(v) ==> Earned(cl, s, t, v)
    requires forall v, k {:trigger BlobTrue(cl, t, v, k)} :: v in t.files && cl.honest(v) ==> BlobTrue(cl, t, v, k)
    requires forall path :: path in t.blobs ==> path in s.blobs || Owned(t, path)
    requires forall c {:trigger RowTrue(cl, t, c)} :: c in t.chunks ==> c in s.chunks || RowTrue(cl, t, c)
    requires forall m :: Pends(t, m) && cl.honest(m.id) ==> Pends(s, m) || EofReady(cl, s, m.id)
    requires WorkerTrue(cl, t)
    ensures Truthful(cl, t)
  {
    forall v | v in t.files && cl.honest(v) ensures VersionTrue(cl, t, v) {
      if v in s.files {
        assert VersionTrue(cl, s, v) && Earned(cl, s, t, v);
        VersionKept(cl, s, t, v);
      }
    }
    forall path | path in t.blobs ensures Owned(t, path) {
      if path in s.blobs {
        OwnerKept(s, t, path);
      }
    }
    forall c | c in t.chunks ensures RowTrue(cl, t, c) {
      if c in s.chunks {
        assert RowTrue(cl, s, c);
        RowTrueKept(cl, s, t, c);
      }
    }
    forall m | Pends(t, m) && cl.honest(m.id) ensures EofReady(cl, t, m.id) {
      ReadyKept(cl, s, t, m.id);
    }
  }

  lemma Carry(cl: Clients, s: State, t: State)
    requires Forest(s.files) && Truthful(cl, s) && Extends(s, t) && t.blobs == s.blobs && t.cache == s.cache
    requires forall v :: v in t.files && v !in s.files ==> ValidId(v) && (cl.honest(v) ==> VersionTrue(cl, t, v))
    requires forall v {:trigger Earned(cl, s, t, v)} :: v in s.files && cl.honest(v) ==> Earned(cl, s, t, v)
    requires forall c {:trigger RowTrue(cl, t, c)} :: c in t.chunks ==> c in s.chunks || RowTrue(cl, t, c)
    requires forall m :: Pends(t, m) && cl.honest(m.id) ==> Pends(s, m) || EofReady(cl, s, m.id)
    requires WorkerTrue(cl, t)
    ensures Truthful(cl, t)
  {
    forall v, k | v in t.files && cl.honest(v) ensures BlobTrue(cl, t, v, k) {
      if v in s.files {
        assert BlobTrue(cl, s, v, k);
      } else {
        NotOwned(s, v, k);
      }
    }
    forall path | HonestPath(cl, t, path) ensures FreshAt(t.cache, t.blobs, path) {
      var v, k :| v in t.files && cl.honest(v) && path == PathOf(t.dir, v, k);
      if v in s.files {
        assert HonestPath(cl, s, path);
      } else {
        NotOwned(s, v, k);
      }
    }
    Assembled(cl, s, t);
  }

  lemma NotOwned(s: State, v: string, k: int)
    requires Forest(s.files) && v !in s.files && ValidId(v)
    requires forall path {:trigger Owned(s, path)} :: path in s.blobs ==> Owned(s, path)
    ensures PathOf(s.dir, v, k) !in s.blobs
  {
    if PathOf(s.dir, v, k) in s.blobs {
      assert Owned(s, PathOf(s.dir, v, k));
      var w, j :| w in s.files && PathOf(s.dir, v, k) == PathOf(s.dir, w, j);
      assert Linked(s.files, w);
      PathInjective(s.dir, v, k, w, j);
    }
  }

  lemma CreateKeepsTruth(cl: Clients, s: State, l: Label)
    requires Inv(s) && Truthful(cl, s) && Enabled(s, l) && Honest(cl, s, l) && (l.Prepare? || l.Succeed?)
    ensures Truthful(cl, Apply(s, l))
  {
    if l.Prepare? {
      if PrepareCheck(s, l.req).None? {
        NewVersionKeepsTruth(cl, s, FirstVersion(s, l.req, l.id));
      }
    } else if SucceedCheck(s, l.upd).None? {
      NewVersionKeepsTruth(cl, s, NextVersion(s, l.upd, l.id));
    }
  }

  predicate RowDescribes(cl: Clients, s: State, row: FileMetadata) {
    row.nChunks == |cl.Pieces(row.id)| && row.fileHash == cl.digest(cl.content(row.id)) &&
    (row.prevId.Some? ==> cl.honest(row.prevId.value) && Covered(cl, s, row.prevId.value))
  }

  lemma NewVersionKeepsTruth(cl: Clients, s: State, row: FileMetadata)
    requires Forest(s.files) && Truthful(cl, s) && row.id !in s.files && ValidId(row.id) && row.status == Uploading
    requires cl.honest(row.id) ==> RowDescribes(cl, s, row)
    ensures Truthful(cl, WithVersion(s, row))
  {
    var t := WithVersion(s, row);
    if cl.honest(row.id) && row.prevId.Some? {
      CoverKept(cl, s, t, row.prevId.value);
    }
    forall v | v in s.files ensures Earned(cl, s, t, v) {
      SameFilesEarn(cl, s, t, v);
    }
    WorkerSame(cl, s, t);
    Carry(cl, s, t);
  }

  lemma WorkerSame(cl: Clients, s: State, t: State)
    requires WorkerTrue(cl, s) && t.worker == s.worker && Keeps(cl, s, t)
    ensures WorkerTrue(cl, t)
  {
    if s.worker.Planned? && cl.honest(s.worker.msg.id) {
      forall b | b in s.worker.batch ensures RowTrue(cl, t, b) {
        RowTrueKept(cl, s, t, b);
      }
      forall k | 0 <= k < |cl.Pieces(s.worker.msg.id)| ensures Promises(t, s.worker.batch, s.worker.msg.id, k) {
        assert Promises(s, s.worker.batch, s.worker.msg.id, k);
        if HasRow(s, s.worker.msg.id, k) {
          RowKept(s, t, s.worker.msg.id, k);
        }
      }
    } else if s.worker.Filled? && s.worker.ok && cl.honest(s.worker.msg.id) {
      CoverKept(cl, s, t, s.worker.msg.id);
    }
  }

  // An upload to a version that is not honest misses all honest paths, and an
  // honest one repeats what its path already holds, if anything.
  lemma UploadKeeps(cl: Clients, s: State, l: Label, path: string)
    requires Inv(s) && Truthful(cl, s) && l.Upload? && l.token in s.tokens && Honest(cl, s, l)
    requires HonestPath(cl, s, path)
    ensures path in s.blobs ==> UploadStep(s, l).blobs[path] == s.blobs[path]
  {
    var x := l.token.resourceId;
    var v, k :| v in s.files && cl.honest(v) && path == PathOf(s.dir, v, k);
    assert Linked(s.files, v) && Linked(s.files, x);
    if path == PathOf(s.dir, x, l.chunkId) {
      PathInjective(s.dir, v, k, x, l.chunkId);
      assert BlobTrue(cl, s, x, l.chunkId);
    }
  }

  lemma UploadBlobs(cl: Clients, s: State, l: Label, v: string, k: int)
    requires Inv(s) && Truthful(cl, s) && l.Upload? && l.token in s.tokens && Honest(cl, s, l)
    requires v in s.files && cl.honest(v)
    ensures BlobTrue(cl, UploadStep(s, l), v, k)
  {
    var x := l.token.resourceId;
    assert BlobTrue(cl, s, v, k);
    assert Linked(s.files, v) && Linked(s.files, x);
    if PathOf(s.dir, v, k) == PathOf(s.dir, x, l.chunkId) {
      PathInjective(s.dir, v, k, x, l.chunkId);
    }
  }

  lemma UploadKeepsTruth(cl: Clients, s: State, l: Label)
    requires Inv(s) && Truthful(cl, s) && l.Upload? && l.token in s.tokens && Honest(cl, s, l)
    ensures Truthful(cl, UploadStep(s, l))
  {
    var t := UploadStep(s, l);
    forall path | HonestPath(cl, s, path) ensures path in s.blobs ==> t.blobs[path] == s.blobs[path] {
      UploadKeeps(cl, s, l, path);
    }
    assert Keeps(cl, s, t);
    forall v, k | v in t.files && cl.honest(v) ensures BlobTrue(cl, t, v, k) {
      UploadBlobs(cl, s, l, v, k);
    }
    forall v | v in s.files ensures Earned(cl, s, t, v) {
      SameFilesEarn(cl, s, t, v);
    }
    assert forall path :: HonestPath(cl, t, path) ==> HonestPath(cl, s, path);
    WorkerSame(cl, s, t);
    Assembled(cl, s, t);
  }

  // ---- The worker ----

  lemma PlanFirst(cl: Clients, s: State, v: string)
    requires EofReady(cl, s, v) && v in s.files && s.files[v].prevId.None?
    ensures Covered(cl, s, v)
  {
    forall k | 0 <= k < |cl.Pieces(v)| ensures HasRow(s, v, k) {
      assert !Unchanged(cl, s.files, v, k);
    }
  }

  // Each position is uploaded, or the predecessor's row for it is borrowed.
  lemma PlanPromises(cl: Clients, s: State, msg: CacheMetadata, rows: seq<FilesWithChunks>, batch: seq<UserFile>,
                     k: nat)
    requires Inv(s) && Truthful(cl, s) && Agrees(s.files, msg) && msg.prevId.Some? && cl.honest(msg.id)
    requires EofReady(cl, s, msg.id)
    requires PlanEnabled(s, msg, rows, batch) && PlanOf(msg.id, rows).Some? && k < |cl.Pieces(msg.id)|
    ensures Promises(s, batch, msg.id, k)
  {
    var id, p := msg.id, msg.prevId.value;
    if !HasRow(s, id, k) {
      assert Unchanged(cl, s.files, id, k);
      assert Linked(s.files, id) && VersionTrue(cl, s, id);
      assert HasRow(s, p, k);
      var c :| c in s.chunks && c.fileId == p && c.chunkId == k;
      PlanMeaning(s, id, p, rows);
      SelectedChunks(s, {id, p}, rows, id);
      SelectedChunks(s, {id, p}, rows, p);
      BorrowOne(s, msg, rows, batch, c);
    }
  }

  // A borrowed row leads to the new version's piece, because the piece is unchanged.
  lemma BorrowedRowTrue(cl: Clients, s: State, msg: CacheMetadata, rows: seq<FilesWithChunks>, batch: seq<UserFile>,
                        b: UserFile)
    requires Inv(s) && Truthful(cl, s) && Agrees(s.files, msg) && msg.prevId.Some? && cl.honest(msg.id)
    requires EofReady(cl, s, msg.id)
    requires PlanEnabled(s, msg, rows, batch) && PlanOf(msg.id, rows).Some? && b in batch
    ensures RowTrue(cl, s, b)
  {
    var c := BatchMeaning(s, msg, rows, batch, b);
    assert Linked(s.files, msg.id);
    assert VersionTrue(cl, s, msg.id) && VersionTrue(cl, s, msg.prevId.value);
    assert RowTrue(cl, s, c);
    assert !HasRow(s, msg.id, b.chunkId);
    assert Unchanged(cl, s.files, msg.id, b.chunkId);
  }

  lemma PlanKeepsTruth(cl: Clients, s: State, rows: seq<FilesWithChunks>, batch: seq<UserFile>)
    requires Inv(s) && Truthful(cl, s) && s.worker.Took? && PlanEnabled(s, s.worker.msg, rows, batch)
    ensures Truthful(cl, PlanStep(s, rows, batch))
  {
    var msg, t := s.worker.msg, PlanStep(s, rows, batch);
    InFlightAgrees(s);
    assert Pends(s, msg);
    if cl.honest(msg.id) {
      PlanWorker(cl, s, msg, rows, batch);
    }
    forall v | v in s.files ensures Earned(cl, s, t, v) {
      SameFilesEarn(cl, s, t, v);
    }
    Carry(cl, s, t);
  }

  lemma PlanWorker(cl: Clients, s: State, msg: CacheMetadata, rows: seq<FilesWithChunks>, batch: seq<UserFile>)
    requires Inv(s) && Truthful(cl, s) && Agrees(s.files, msg) && cl.honest(msg.id) && EofReady(cl, s, msg.id)
    requires s.worker == Took(msg) && PlanEnabled(s, msg, rows, batch)
    ensures WorkerTrue(cl, PlanStep(s, rows, batch))
  {
    var t := PlanStep(s, rows, batch);
    if msg.prevId.None? {
      PlanFirst(cl, s, msg.id);
      CoverKept(cl, s, t, msg.id);
    } else if PlanOf(msg.id, rows).Some? {
      forall k | 0 <= k < |cl.Pieces(msg.id)| ensures Promises(s, batch, msg.id, k) {
        PlanPromises(cl, s, msg, rows, batch, k);
      }
      forall b | b in batch ensures RowTrue(cl, s, b) {
        BorrowedRowTrue(cl, s, msg, rows, batch, b);
      }
      PlanSettles(cl, s, msg, rows, batch);
    }
  }

  lemma PlanSettles(cl: Clients, s: State, msg: CacheMetadata, rows: seq<FilesWithChunks>, batch: seq<UserFile>)
    requires s.worker == Took(msg) && msg.prevId.Some? && PlanOf(msg.id, rows).Some? && PlanEnabled(s, msg, rows, batch)
    requires forall k :: 0 <= k < |cl.Pieces(msg.id)| ==> Promises(s, batch, msg.id, k)
    requires forall b :: b in batch ==> RowTrue(cl, s, b)
    ensures WorkerTrue(cl, PlanStep(s, rows, batch))
  {
    var t := PlanStep(s, rows, batch);
    forall b | b in batch ensures RowTrue(cl, t, b) {
      RowTrueKept(cl, s, t, b);
    }
    forall k | 0 <= k < |cl.Pieces(msg.id)|
      ensures Promises(t, batch, msg.id, k) && (PlanOf(msg.id, rows).value.1 == map[] ==> HasRow(t, msg.id, k))
    {
      assert Promises(s, batch, msg.id, k);
      if HasRow(s, msg.id, k) {
        RowKept(s, t, msg.id, k);
      }
    }
  }

  lemma BatchKeepsTruth(cl: Clients, s: State, committed: bool)
    requires Inv(s) && Truthful(cl, s) && s.worker.Planned?
    ensures Truthful(cl, Apply(s, Batch(committed)))
  {
    var t := Apply(s, Batch(committed));
    var msg, batch := s.worker.msg, s.worker.batch;
    if committed && cl.honest(msg.id) {
      forall k | 0 <= k < |cl.Pieces(msg.id)| ensures HasRow(t, msg.id, k) {
        PromiseKept(s, t, batch, msg.id, k);
      }
    }
    forall b | b in batch ensures RowTrue(cl, t, b) {
      BatchRowTrue(cl, s, t, b);
    }
    forall v | v in s.files ensures Earned(cl, s, t, v) {
      SameFilesEarn(cl, s, t, v);
    }
    Carry(cl, s, t);
  }

  // The rows of a batch are the message's own.
  lemma BatchRowTrue(cl: Clients, s: State, t: State, b: UserFile)
    requires Inv(s) && WorkerTrue(cl, s) && s.worker.Planned? && b in s.worker.batch && Keeps(cl, s, t)
    ensures RowTrue(cl, t, b)
  {
    assert b.fileId == s.worker.msg.id;
    if cl.honest(b.fileId) {
      RowTrueKept(cl, s, t, b);
    }
  }

  lemma HandOverKeepsTruth(cl: Clients, s: State, committed: bool, now: int)
    requires Inv(s) && Truthful(cl, s) && s.worker.Filled?
    ensures Truthful(cl, Apply(s, HandOver(committed, now)))
  {
    var t := Apply(s, HandOver(committed, now));
    InFlightAgrees(s);
    StepExtends(s, HandOver(committed, now));
    forall v | v in s.files && cl.honest(v) ensures Earned(cl, s, t, v) {
      if committed {
        HandOverEarns(cl, s, t, s.worker.msg, s.worker.ok, now, v);
      } else {
        SameFilesEarn(cl, s, t, v);
      }
    }
    Carry(cl, s, t);
  }

  // The hand-over completes its own version, which is covered, and the
  // predecessor, which is covered if the successor is honest.
  lemma HandOverEarns(cl: Clients, s: State, t: State, msg: CacheMetadata, ok: bool, now: int, v: string)
    requires Forest(s.files) && Truthful(cl, s) && Agrees(s.files, msg) && s.worker == Filled(msg, ok)
    requires t == s.(worker := Idle, files := HandedOver(s.files, msg.prevId, msg.id, StatusOf(ok), now))
    requires v in s.files && cl.honest(v) && v in t.files
    ensures Earned(cl, s, t, v)
  {
    HandOverRows(s.files, msg, StatusOf(ok), now);
    HandOverSameVersions(s.files, msg.prevId, msg.id, StatusOf(ok), now);
    if t.files[v].status == Completed && Vouched(cl, t.files, v) {
      if v == msg.id {
        CoverKept(cl, s, t, v);
      } else if Some(v) == msg.prevId {
        assert t.files[msg.id].prevId == Some(v);
        assert cl.honest(msg.id) && VersionTrue(cl, s, msg.id);
        CoverKept(cl, s, t, v);
      } else {
        VouchedBefore(cl, s.files, t.files, v);
      }
    }
  }

  lemma QueueKeepsTruth(cl: Clients, s: State, l: Label)
    requires Inv(s) && Truthful(cl, s) && Honest(cl, s, l) && (l.Eof? || l.Take? || l.Crash?)
    ensures Truthful(cl, Apply(s, l))
  {
    var t := Apply(s, l);
    QueueShape(cl, s, l);
    forall v | v in s.files ensures Earned(cl, s, t, v) {
      SameFilesEarn(cl, s, t, v);
    }
    if t.worker == s.worker {
      WorkerSame(cl, s, t);
    }
    Carry(cl, s, t);
  }

  lemma QueueShape(cl: Clients, s: State, l: Label)
    requires Honest(cl, s, l) && (l.Eof? || l.Take? || l.Crash?)
    ensures var t := Apply(s, l);
      t == s.(queue := t.queue, worker := t.worker) && (t.worker == s.worker || t.worker.Idle? || t.worker.Took?) &&
      forall m :: Pends(t, m) && cl.honest(m.id) ==> Pends(s, m) || EofReady(cl, s, m.id)
  {
  }

  lemma CacheKeepsTruth(cl: Clients, s: State, l: Label)
    requires Inv(s) && Truthful(cl, s) && (l.Get? || l.Expire?)
    ensures Truthful(cl, Apply(s, l))
  {
    var cache := Apply(s, l).cache;
    forall path
      ensures path in cache ==> path in s.blobs
      ensures FreshAt(s.cache, s.blobs, path) ==> FreshAt(cache, s.blobs, path)
    {
      if l.Get? {
        GetKeepsAt(s, l, path);
      }
    }
    Recached(cl, s, cache);
  }

  lemma GetKeepsAt(s: State, l: Label, path: string)
    requires l.Get?
    ensures FreshAt(s.cache, s.blobs, path) ==> FreshAt(GetStep(s, l).1, s.blobs, path)
    ensures path in GetStep(s, l).1 ==> path in s.cache || path in s.blobs
  {
    match Listing(l.rows, l.fileId, l.userId)
    case Err(_) =>
    case Ok(urls) =>
      if |l.io| == |urls| {
        CachedKeepsAt(s.blobs, s.cache, urls, l.io, path);
      }
  }

  lemma Recached(cl: Clients, s: State, cache: Store)
    requires Forest(s.files) && Truthful(cl, s) && cache.Keys <= s.blobs.Keys
    requires forall path :: FreshAt(s.cache, s.blobs, path) ==> FreshAt(cache, s.blobs, path)
    ensures Truthful(cl, s.(cache := cache))
  {
    var t := s.(cache := cache);
    assert forall path :: HonestPath(cl, t, path) ==> HonestPath(cl, s, path);
    assert forall v, k :: BlobTrue(cl, t, v, k) <==> BlobTrue(cl, s, v, k);
    forall v | v in s.files ensures Earned(cl, s, t, v) {
      SameFilesEarn(cl, s, t, v);
    }
    assert forall m :: Pends(t, m) ==> Pends(s, m);
    WorkerSame(cl, s, t);
    Assembled(cl, s, t);
  }

  lemma StepKeepsTruth(cl: Clients, s: State, l: Label)
    requires Inv(s) && Truthful(cl, s) && Enabled(s, l) && Honest(cl, s, l)
    ensures Truthful(cl, Apply(s, l))
  {
    if l.Prepare? || l.Succeed? {
      CreateKeepsTruth(cl, s, l);
    } else if l.Upload? {
      UploadKeepsTruth(cl, s, l);
    } else if l.Plan? {
      PlanKeepsTruth(cl, s, l.rows, l.batch);
    } else if l.Batch? {
      BatchKeepsTruth(cl, s, l.committed);
    } else if l.HandOver? {
      HandOverKeepsTruth(cl, s, l.committed, l.now);
    } else if l.Get? || l.Expire? {
      CacheKeepsTruth(cl, s, l);
    } else {
      QueueKeepsTruth(cl, s, l);
    }
  }

  lemma {:induction false} HonestRunIsTruthful(cl: Clients, dir: string, labels: seq<Label>)
    requires Legal(Init(dir), labels) && HonestRun(cl, Init(dir), labels)
    ensures Truthful(cl, Run(Init(dir), labels))
  {
    if labels != [] {
      var before := labels[..|labels| - 1];
      HonestRunIsTruthful(cl, dir, before);
      RunKeepsInv(dir, before);
      StepKeepsTruth(cl, Run(Init(dir), before), labels[|labels| - 1]);
    }
  }

  // ---- The theorem ----

  // All selected rows are stored rows of the file, and pass the owner filter.
  lemma OwnedRows(s: State, v: string, rows: seq<FilesWithChunks>)
    requires Forest(s.files) && v in s.files && IsSelection(s, {v}, rows)
    ensures forall r :: r in rows <==> r in OwnedBy(rows, s.files[v].userId)
    ensures forall r :: r in rows ==>
      r.file == s.files[v] && r.file.id == v && r.chunk in s.chunks && r.chunk.fileId == v
  {
    assert Linked(s.files, v);
    forall r | r in rows ensures r.file == s.files[v] && r.chunk in s.chunks && r.chunk.fileId == v {
      SelectionHas(s, {v}, rows, r);
    }
  }

  lemma ListedView(cl: Clients, s: State, v: string, rows: seq<FilesWithChunks>, owned: seq<FilesWithChunks>)
    returns (view: FileView)
    requires Forest(s.files) && Truthful(cl, s) && v in s.files && cl.honest(v)
    requires Covered(cl, s, v) && cl.content(v) != []
    requires IsSelection(s, {v}, rows) && owned == OwnedBy(rows, s.files[v].userId)
    ensures Ids(owned) != [] && Entry(owned, v) == Some(view) && view.header.nChunks == |cl.Pieces(v)|
    ensures forall key :: key in view.chunks ==>
      view.chunks[key].chunk in s.chunks && view.chunks[key].chunk.fileId == v
    ensures forall k :: 0 <= k < |cl.Pieces(v)| ==>
      Decimal(k) in view.chunks && view.chunks[Decimal(k)].chunk.chunkId == k
  {
    assert Linked(s.files, v) && VersionTrue(cl, s, v);
    OwnedRows(s, v, rows);
    CutCount(cl.content(v));
    forall k | 0 <= k < |cl.Pieces(v)|
      ensures Decimal(k) in ChunkMap(owned, v) && ChunkMap(owned, v)[Decimal(k)].chunk.chunkId == k
    {
      PositionListed(s, v, rows, owned, k);
    }
    ChunkMapHas(owned, v);
    assert Decimal(0) in ChunkMap(owned, v);
    IdsAre(owned);
    var first := FirstHeaderFrom(owned, v);
    view := FileView(FirstHeader(owned, v), ChunkMap(owned, v));
  }

  lemma UrlsTrue(cl: Clients, s: State, v: string, view: FileView)
    requires Truthful(cl, s) && cl.honest(v) && view.header.nChunks == |cl.Pieces(v)|
    requires forall key :: key in view.chunks ==>
      view.chunks[key].chunk in s.chunks && view.chunks[key].chunk.fileId == v
    requires forall k :: 0 <= k < |cl.Pieces(v)| ==>
      Decimal(k) in view.chunks && view.chunks[Decimal(k)].chunk.chunkId == k
    ensures InRange(view) && Fetch(s.blobs, Urls(view)) == Some(cl.content(v))
  {
    assert forall key :: key in view.chunks ==> RowTrue(cl, s, view.chunks[key].chunk);
    FetchGlues(s.blobs, Urls(view), cl.Pieces(v));
    GlueCut(cl.content(v));
  }

  lemma ListingTrue(cl: Clients, s: State, v: string, rows: seq<FilesWithChunks>)
    requires Forest(s.files) && Truthful(cl, s) && v in s.files && cl.honest(v)
    requires Covered(cl, s, v) && IsSelection(s, {v}, rows)
    ensures cl.content(v) == [] ==> Listing(rows, v, s.files[v].userId) == Err(FileCorrupted)
    ensures cl.content(v) != [] ==>
      Listing(rows, v, s.files[v].userId).Ok? &&
      Fetch(s.blobs, Listing(rows, v, s.files[v].userId).value) == Some(cl.content(v))
  {
    var owned := OwnedBy(rows, s.files[v].userId);
    if cl.content(v) == [] {
      OwnedRows(s, v, rows);
      NoRows(cl, s, v, owned);
    } else {
      var view := ListedView(cl, s, v, rows, owned);
      UrlsTrue(cl, s, v, view);
    }
  }

  lemma NoRows(cl: Clients, s: State, v: string, owned: seq<FilesWithChunks>)
    requires Truthful(cl, s) && cl.honest(v) && cl.content(v) == []
    requires forall r :: r in owned ==> r.chunk in s.chunks && r.chunk.fileId == v
    ensures Ids(owned) == []
  {
    assert |cl.Pieces(v)| == 0;
    assert forall r :: r in owned ==> RowTrue(cl, s, r.chunk);
    assert forall r :: r !in owned;
    SomeMember(owned);
  }

  lemma PositionListed(s: State, v: string, rows: seq<FilesWithChunks>, owned: seq<FilesWithChunks>, k: nat)
    requires IsSelection(s, {v}, rows) && v in s.files && HasRow(s, v, k) && s.files[v].id == v
    requires forall r :: r in rows ==> r in owned
    ensures Decimal(k) in ChunkMap(owned, v) && ChunkMap(owned, v)[Decimal(k)].chunk.chunkId == k
  {
    var c :| c in s.chunks && c.fileId == v && c.chunkId == k;
    var r := FilesWithChunks(s.files[v], c);
    SelectionHas(s, {v}, rows, r);
    ChunkMapHas(owned, v);
    assert Key(r) == Decimal(k);
    DecimalInjective(ChunkMap(owned, v)[Decimal(k)].chunk.chunkId, k);
  }

  lemma CompletedDownloads(cl: Clients, s: State, get: Label)
    requires Inv(s) && Truthful(cl, s) && get.Get? && Enabled(s, get) && cl.honest(get.fileId)
    requires get.fileId in s.files && s.files[get.fileId].status == Completed && Vouched(cl, s.files, get.fileId)
    requires s.files[get.fileId].userId == get.userId
    ensures GetStep(s, get).0 == if cl.content(get.fileId) == [] then None else Some(cl.content(get.fileId))
  {
    assert VersionTrue(cl, s, get.fileId);
    DownloadIsExactly(cl, s, get);
  }

  // ---- Versions that do not download ----

  lemma {:induction false} FetchFails(blobs: Store, paths: seq<string>, k: nat)
    requires k < |paths| && paths[k] !in blobs
    ensures Fetch(blobs, paths) == None
  {
    if k < |paths| - 1 {
      FetchFails(blobs, paths[..|paths| - 1], k);
    }
  }

  lemma NoEmptyPath(cl: Clients, s: State)
    requires Truthful(cl, s)
    ensures "" !in s.blobs
  {
    assert !Owned(s, "");
  }

  // A position without a row is listed as "", which is no blob.
  lemma UncoveredFails(cl: Clients, s: State, v: string, rows: seq<FilesWithChunks>)
    requires Forest(s.files) && Truthful(cl, s) && v in s.files && cl.honest(v)
    requires !Covered(cl, s, v) && IsSelection(s, {v}, rows)
    ensures var listed := Listing(rows, v, s.files[v].userId);
      listed.Ok? ==> Fetch(s.blobs, listed.value) == None
  {
    var owned := OwnedBy(rows, s.files[v].userId);
    var k :| 0 <= k < |cl.Pieces(v)| && !HasRow(s, v, k);
    if Listing(rows, v, s.files[v].userId).Ok? {
      OwnedRows(s, v, rows);
      NotListed(s, v, owned, k);
      var first := FirstHeaderFrom(owned, v);
      assert VersionTrue(cl, s, v);
      NoEmptyPath(cl, s);
      FetchFails(s.blobs, Urls(Entry(owned, v).value), k);
    }
  }

  lemma NotListed(s: State, v: string, owned: seq<FilesWithChunks>, k: int)
    requires !HasRow(s, v, k) && forall r :: r in owned ==> r.chunk in s.chunks && r.chunk.fileId == v
    ensures Decimal(k) !in ChunkMap(owned, v)
  {
    ChunkMapHas(owned, v);
    if Decimal(k) in ChunkMap(owned, v) {
      var r := ChunkMap(owned, v)[Decimal(k)];
      DecimalInjective(r.chunk.chunkId, k);
      assert HasRow(s, v, k);
    }
  }

  // Strangers and unknown files select nothing.
  lemma NothingOwned(s: State, v: string, user: string, rows: seq<FilesWithChunks>)
    requires IsSelection(s, {v}, rows) && (v in s.files ==> s.files[v].userId != user)
    ensures Listing(rows, v, user) == Err(FileCorrupted)
  {
    var owned := OwnedBy(rows, user);
    forall r | r in owned ensures false {
      SelectionHas(s, {v}, rows, r);
    }
    SomeMember(owned);
  }

  predicate Downloadable(cl: Clients, s: State, v: string, user: string) {
    v in s.files && s.files[v].userId == user && cl.content(v) != [] && Covered(cl, s, v)
  }

  // The urls of an honest version are "" or lead to honest paths, so what the
  // cache holds for them is right.
  lemma OwnPathsFresh(cl: Clients, s: State, v: string, user: string, rows: seq<FilesWithChunks>)
    requires Forest(s.files) && Truthful(cl, s) && v in s.files && cl.honest(v) && IsSelection(s, {v}, rows)
    requires Listing(rows, v, user).Ok?
    ensures forall url :: url in Listing(rows, v, user).value ==> FreshAt(s.cache, s.blobs, url)
  {
    NoEmptyPath(cl, s);
    forall url | url in Listing(rows, v, user).value ensures FreshAt(s.cache, s.blobs, url) {
      UrlsFromRows(s, rows, v, user, url);
      if url != "" {
        var c :| c in s.chunks && c.fileId == v && c.blobUrl == url;
        assert RowTrue(cl, s, c);
      }
    }
  }

  lemma HonestGetIsFetch(cl: Clients, s: State, get: Label)
    requires Forest(s.files) && Truthful(cl, s) && get.Get? && Enabled(s, get)
    requires get.fileId in s.files && cl.honest(get.fileId)
    ensures var urls := Listing(get.rows, get.fileId, get.userId);
      GetStep(s, get).0 == if urls.Ok? then Fetch(s.blobs, urls.value) else None
  {
    if Listing(get.rows, get.fileId, get.userId).Ok? {
      OwnPathsFresh(cl, s, get.fileId, get.userId, get.rows);
      TransparentAt(s.blobs, s.cache, Listing(get.rows, get.fileId, get.userId).value, get.io);
    }
  }

  lemma DownloadIsExactly(cl: Clients, s: State, get: Label)
    requires Inv(s) && Truthful(cl, s) && get.Get? && Enabled(s, get) && cl.honest(get.fileId)
    ensures GetStep(s, get).0 ==
      if Downloadable(cl, s, get.fileId, get.userId) then Some(cl.content(get.fileId)) else None
  {
    var v := get.fileId;
    if v !in s.files || s.files[v].userId != get.userId {
      NothingOwned(s, v, get.userId, get.rows);
    } else {
      HonestGetIsFetch(cl, s, get);
      if Covered(cl, s, v) {
        ListingTrue(cl, s, v, get.rows);
      } else {
        UncoveredFails(cl, s, v, get.rows);
      }
    }
  }

  // In every run, whatever the clients of other versions do, and for every
  // download of an honest version, whatever the row order, the cache and the
  // status: the right bytes if the owner asks for a non-empty version with a row
  // for every piece, and otherwise none. So it never returns wrong bytes.
  lemma RightBytesOrNone(cl: Clients, dir: string, labels: seq<Label>, get: Label)
    requires Legal(Init(dir), labels + [get]) && HonestRun(cl, Init(dir), labels) && get.Get? && cl.honest(get.fileId)
    ensures var s := Run(Init(dir), labels);
      GetStep(s, get).0 ==
        if Downloadable(cl, s, get.fileId, get.userId) then Some(cl.content(get.fileId)) else None
  {
    assert (labels + [get])[..|labels|] == labels;
    RunKeepsInv(dir, labels);
    HonestRunIsTruthful(cl, dir, labels);
    DownloadIsExactly(cl, Run(Init(dir), labels), get);
  }

  // Hence an honest version that is completed, and is current or has only honest
  // successors, downloads by its owner to exactly its bytes; an empty version is
  // the one exception, and never downloads.
  lemma DownloadIsUpload(cl: Clients, dir: string, labels: seq<Label>, get: Label)
    requires Legal(Init(dir), labels + [get]) && HonestRun(cl, Init(dir), labels) && get.Get? && cl.honest(get.fileId)
    requires var s := Run(Init(dir), labels);
      get.fileId in s.files && s.files[get.fileId].status == Completed && Vouched(cl, s.files, get.fileId) &&
      s.files[get.fileId].userId == get.userId
    ensures GetStep(Run(Init(dir), labels), get).0 ==
      if cl.content(get.fileId) == [] then None else Some(cl.content(get.fileId))
  {
    assert (labels + [get])[..|labels|] == labels;
    RunKeepsInv(dir, labels);
    HonestRunIsTruthful(cl, dir, labels);
    CompletedDownloads(cl, Run(Init(dir), labels), get);
  }

  // Empty contents never take part in a replacement by an honest version.
  lemma EmptyIsNeverReplaced(cl: Clients, dir: string, labels: seq<Label>, v: string)
    requires Legal(Init(dir), labels) && HonestRun(cl, Init(dir), labels) && cl.honest(v)
    requires v in Run(Init(dir), labels).files && Run(Init(dir), labels).files[v].current
    requires Run(Init(dir), labels).files[v].prevId.Some?
    ensures cl.content(v) != [] && cl.content(Run(Init(dir), labels).files[v].prevId.value) != []
  {
    var s := Run(Init(dir), labels);
    CurrentSuccessorsHaveRows(dir, labels, v);
    HonestRunIsTruthful(cl, dir, labels);
    assert VersionTrue(cl, s, v);
    RowsMeanContent(cl, s, v);
    RowsMeanContent(cl, s, s.files[v].prevId.value);
  }

  // ---- Reconciling completes ----

  // The client of a successor has uploaded something: its content differs from
  // the predecessor's, so with equal counts some piece does.
  lemma SomethingUploaded(cl: Clients, s: State, v: string)
    requires Forest(s.files) && Truthful(cl, s) && v in s.files && cl.honest(v)
    requires EofReady(cl, s, v) && cl.content(v) != []
    ensures AnyRow(s, v)
  {
    CutCount(cl.content(v));
    assert Linked(s.files, v) && VersionTrue(cl, s, v);
    var k := 0;
    if s.files[v].prevId.Some? {
      var p := s.files[v].prevId.value;
      assert VersionTrue(cl, s, p);
      if |cl.Pieces(p)| == |cl.Pieces(v)| {
        k := DifferentPiece(cl.content(p), cl.content(v));
      }
    }
    assert !Unchanged(cl, s.files, v, k);
    assert HasRow(s, v, k);
  }

  lemma RowsMeanContent(cl: Clients, s: State, v: string)
    requires Truthful(cl, s) && cl.honest(v) && AnyRow(s, v)
    ensures cl.content(v) != []
  {
    var c :| c in s.chunks && c.fileId == v;
    assert RowTrue(cl, s, c);
  }

  // For an honest version a merge conflict is exactly an empty file on either side.
  lemma ConflictIffEmpty(cl: Clients, s: State, msg: CacheMetadata, rows: seq<FilesWithChunks>)
    requires Inv(s) && Truthful(cl, s) && Agrees(s.files, msg) && cl.honest(msg.id) && EofReady(cl, s, msg.id)
    requires msg.prevId.Some? ==> IsSelection(s, {msg.id, msg.prevId.value}, rows)
    ensures Conflicts(msg, rows) <==>
      msg.prevId.Some? && (cl.content(msg.id) == [] || cl.content(msg.prevId.value) == [])
  {
    if msg.prevId.Some? {
      var id, p := msg.id, msg.prevId.value;
      assert Linked(s.files, id) && VersionTrue(cl, s, id);
      if cl.content(id) != [] {
        SomethingUploaded(cl, s, id);
      }
      if AnyRow(s, id) {
        RowsMeanContent(cl, s, id);
      }
      PredecessorRows(cl, s, p);
      PlanMeaning(s, id, p, rows);
      SelectedChunks(s, {id, p}, rows, id);
      SelectedChunks(s, {id, p}, rows, p);
    }
  }

  lemma PredecessorRows(cl: Clients, s: State, p: string)
    requires Truthful(cl, s) && cl.honest(p) && Covered(cl, s, p)
    ensures AnyRow(s, p) <==> cl.content(p) != []
  {
    CutCount(cl.content(p));
    assert cl.content(p) != [] ==> HasRow(s, p, 0);
    if AnyRow(s, p) {
      RowsMeanContent(cl, s, p);
    }
  }

  lemma {:induction false} WorkerIsHonest(cl: Clients, s: State, labels: seq<Label>, more: seq<Label>)
    requires HonestRun(cl, s, labels) && WorkerSteps(labels, more)
    ensures HonestRun(cl, s, more)
  {
    if |more| > |labels| {
      WorkerIsHonest(cl, s, labels, more[..|more| - 1]);
      assert more[|more| - 1].Plan? || more[|more| - 1].Batch? || more[|more| - 1].HandOver?;
    } else {
      assert more == labels;
    }
  }

  // The message's version and its predecessor, if any, have content.
  predicate NonEmpty(cl: Clients, msg: CacheMetadata) {
    cl.content(msg.id) != [] && (msg.prevId.Some? ==> cl.content(msg.prevId.value) != [])
  }

  // `v` is completed and current, and its predecessor is not current.
  predicate MadeCurrent(files: Files, v: string) {
    v in files && files[v].current && files[v].status == Completed &&
    (files[v].prevId.Some? ==> files[v].prevId.value in files && !files[files[v].prevId.value].current)
  }

  // A download of v by its owner, with any row order and any cache behaviour.
  ghost predicate OwnGet(s: State, v: string, get: Label) {
    get.Get? && Enabled(s, get) && get.fileId == v && v in s.files && get.userId == s.files[v].userId
  }

  ghost predicate DownloadsAs(s: State, v: string, data: Bytes) {
    forall get: Label :: OwnGet(s, v, get) ==> GetStep(s, get).0 == Some(data)
  }

  // In every run, whatever other clients do: the worker that commits the message
  // of a non-empty honest version of a non-empty file makes it the completed,
  // current version, and its owner downloads exactly its bytes.
  lemma ReconciledDownloads(cl: Clients, dir: string, labels: seq<Label>, rows: seq<FilesWithChunks>,
                            batch: seq<UserFile>, now: int) returns (more: seq<Label>)
    requires Legal(Init(dir), labels) && HonestRun(cl, Init(dir), labels)
    requires var s := Run(Init(dir), labels);
      s.worker.Took? && PlanEnabled(s, s.worker.msg, rows, batch) && NonEmpty(cl, s.worker.msg) &&
      cl.honest(s.worker.msg.id)
    ensures Legal(Init(dir), more) && WorkerSteps(labels, more)
    ensures Run(Init(dir), more) == Executed(Run(Init(dir), labels), rows, batch, true, true, now)
    ensures MadeCurrent(Run(Init(dir), more).files, Run(Init(dir), labels).worker.msg.id)
    ensures var v := Run(Init(dir), labels).worker.msg.id; DownloadsAs(Run(Init(dir), more), v, cl.content(v))
  {
    var s := Run(Init(dir), labels);
    RunKeepsInv(dir, labels);
    HonestRunIsTruthful(cl, dir, labels);
    more := ExecutedContinues(Init(dir), labels, rows, batch, true, true, now);
    WorkerIsHonest(cl, Init(dir), labels, more);
    ExecutedCompletes(cl, s, s.worker.msg, rows, batch, now);
    RunKeepsInv(dir, more);
    HonestRunIsTruthful(cl, dir, more);
    AlwaysDownloads(cl, Run(Init(dir), more), s.worker.msg.id);
  }

  lemma AlwaysDownloads(cl: Clients, s: State, v: string)
    requires Inv(s) && Truthful(cl, s) && cl.honest(v) && cl.content(v) != []
    requires v in s.files && s.files[v].status == Completed && s.files[v].current
    ensures DownloadsAs(s, v, cl.content(v))
  {
    forall get: Label | OwnGet(s, v, get) ensures GetStep(s, get).0 == Some(cl.content(v)) {
      CompletedDownloads(cl, s, get);
    }
  }

  lemma ExecutedCompletes(cl: Clients, s: State, msg: CacheMetadata, rows: seq<FilesWithChunks>,
                          batch: seq<UserFile>, now: int)
    requires Inv(s) && Truthful(cl, s) && s.worker == Took(msg) && PlanEnabled(s, msg, rows, batch)
    requires cl.honest(msg.id) && NonEmpty(cl, msg)
    ensures MadeCurrent(Executed(s, rows, batch, true, true, now).files, msg.id)
  {
    InFlightAgrees(s);
    assert Pends(s, msg);
    ConflictIffEmpty(cl, s, msg, rows);
    ExecutedIs(s, rows, batch, true, true, now);
    HandOverRows(s.files, msg, Completed, now);
  }
}
