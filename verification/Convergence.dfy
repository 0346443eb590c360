// Reconciling the same message again, and what the stored rows look like
// afterwards (ExecuteEach, core/supervisors/metadata.changelog.go).
module Convergence {
  import opened Rows
  import opened Text
  import opened Grouping
  import opened Reconstruct
  import opened Machine
  import opened Versions
  import opened Currency

  // ---- Borrowing once is enough ----

  // The chunk has a row, or the batch brings one.
  predicate Promises(s: State, batch: seq<UserFile>, id: string, k: int) {
    HasRow(s, id, k) || exists b :: b in batch && b.fileId == id && b.chunkId == k
  }

  lemma PromiseKept(s: State, t: State, batch: seq<UserFile>, id: string, k: int)
    requires Promises(s, batch, id, k) && t.chunks == s.chunks + batch
    ensures HasRow(t, id, k)
  {
    assert forall c :: c in s.chunks || c in batch ==> c in t.chunks;
  }

  // Each chunk of the predecessor is uploaded or borrowed.
  lemma BorrowOne(s: State, msg: CacheMetadata, rows: seq<FilesWithChunks>, batch: seq<UserFile>, c: UserFile)
    requires msg.prevId.Some? && PlanOf(msg.id, rows).Some? && PlanEnabled(s, msg, rows, batch)
    requires PlanOf(msg.id, rows).value.0.id == msg.id
    requires PlanOf(msg.id, rows).value.1 == RestOf(ChunkMap(rows, msg.id), ChunkMap(rows, msg.prevId.value))
    requires Decimal(c.chunkId) in ChunkMap(rows, msg.prevId.value)
    requires forall key :: key in ChunkMap(rows, msg.id) ==>
      var d := ChunkMap(rows, msg.id)[key].chunk; d in s.chunks && d.fileId == msg.id && Decimal(d.chunkId) == key
    requires forall key :: key in ChunkMap(rows, msg.prevId.value) ==>
      Decimal(ChunkMap(rows, msg.prevId.value)[key].chunk.chunkId) == key
    ensures Promises(s, batch, msg.id, c.chunkId)
  {
    var key, own := Decimal(c.chunkId), ChunkMap(rows, msg.id);
    var (header, filler) := PlanOf(msg.id, rows).value;
    if key in own {
      DecimalInjective(own[key].chunk.chunkId, c.chunkId);
      assert HasRow(s, msg.id, c.chunkId);
    } else {
      var b := FillerRow(header, filler[key]);
      DecimalInjective(b.chunkId, c.chunkId);
      assert b in batch;
    }
  }

  // Once the batch is stored, nothing is left to borrow.
  lemma BatchCovers(s: State, msg: CacheMetadata, p: string, rows: seq<FilesWithChunks>, batch: seq<UserFile>)
    requires Inv(s) && Agrees(s.files, msg) && msg.prevId == Some(p) && PlanEnabled(s, msg, rows, batch)
    requires PlanOf(msg.id, rows).Some?
    ensures Covers(s.(chunks := s.chunks + batch), msg.id, p)
  {
    var id, t := msg.id, s.(chunks := s.chunks + batch);
    assert Linked(s.files, id);
    PlanMeaning(s, id, p, rows);
    SelectedChunks(s, {id, p}, rows, id);
    SelectedChunks(s, {id, p}, rows, p);
    if s.files[id].nChunks == s.files[p].nChunks {
      forall c | c in t.chunks && c.fileId == p ensures HasRow(t, id, c.chunkId) {
        if c in batch {
          var b := BatchMeaning(s, msg, rows, batch, c);
          assert false;
        }
        BorrowOne(s, msg, rows, batch, c);
        PromiseKept(s, t, batch, id, c.chunkId);
      }
    }
  }

  // The worker handling one message with every transaction committed.
  function Once(s: State, msg: CacheMetadata, rows: seq<FilesWithChunks>, batch: seq<UserFile>, now: int): State {
    Executed(s.(worker := Took(msg)), rows, batch, true, true, now)
  }

  lemma OnceConflicts(s: State, msg: CacheMetadata, rows: seq<FilesWithChunks>, batch: seq<UserFile>, now: int)
    requires msg.prevId.Some? && PlanOf(msg.id, rows).None?
    ensures Once(s, msg, rows, batch, now) == s.(worker := Idle)
  {
  }

  lemma OnceFills(s: State, msg: CacheMetadata, rows: seq<FilesWithChunks>, batch: seq<UserFile>, now: int)
    requires PlanEnabled(s, msg, rows, batch) && msg.prevId.Some? && PlanOf(msg.id, rows).Some?
    ensures Once(s, msg, rows, batch, now) ==
      s.(worker := Idle, chunks := s.chunks + batch, files := HandedOver(s.files, msg.prevId, msg.id, Completed, now))
  {
    SomeMember(batch);
  }

  lemma CoveredFillsNothing(s: State, msg: CacheMetadata, p: string, rows: seq<FilesWithChunks>,
                            batch: seq<UserFile>, now: int)
    requires Forest(s.files) && msg.prevId == Some(p) && msg.id != p && Covers(s, msg.id, p)
    requires PlanEnabled(s, msg, rows, batch)
    ensures Once(s, msg, rows, batch, now) ==
      s.(worker := Idle, files := HandedOver(s.files, msg.prevId, msg.id, Completed, now))
  {
    NothingToBorrow(s, msg.id, p, rows);
  }

  // The same flags and statuses; only end dates may move.
  predicate SameStanding(files: Files, after: Files) {
    files.Keys == after.Keys &&
    forall id :: id in files ==> after[id].(endDate := files[id].endDate) == files[id]
  }

  lemma HandOverTwice(files: Files, msg: CacheMetadata, now: int, again: int)
    requires Forest(files) && Agrees(files, msg)
    ensures var once := HandedOver(files, msg.prevId, msg.id, Completed, now);
      SameStanding(once, HandedOver(once, msg.prevId, msg.id, Completed, again))
  {
    assert Linked(files, msg.id);
  }

  // A second delivery of a message adds no row and moves no flag.
  lemma ReconcileTwice(s: State, msg: CacheMetadata, rows: seq<FilesWithChunks>, batch: seq<UserFile>, now: int,
                       rows': seq<FilesWithChunks>, batch': seq<UserFile>, now': int)
    requires Inv(s) && Agrees(s.files, msg) && PlanEnabled(s, msg, rows, batch)
    requires PlanEnabled(Once(s, msg, rows, batch, now), msg, rows', batch')
    ensures var once := Once(s, msg, rows, batch, now);
      var twice := Once(once, msg, rows', batch', now');
      twice.chunks == once.chunks && SameStanding(once.files, twice.files)
  {
    assert Linked(s.files, msg.id);
    HandOverTwice(s.files, msg, now, now');
    if msg.prevId.Some? {
      var p := msg.prevId.value;
      if PlanOf(msg.id, rows).None? {
        OnceConflicts(s, msg, rows, batch, now);
        PlanMeaning(s, msg.id, p, rows);
        SelectedChunks(s, {msg.id, p}, rows, msg.id);
        SelectedChunks(s, {msg.id, p}, rows, p);
        ConflictAgain(s, msg, p, rows', batch', now');
      } else {
        OnceFills(s, msg, rows, batch, now);
        BatchCovers(s, msg, p, rows, batch);
        SecondRun(s, msg, p, batch, now, rows', batch', now');
      }
    }
  }

  lemma ConflictAgain(s: State, msg: CacheMetadata, p: string, rows: seq<FilesWithChunks>,
                      batch: seq<UserFile>, now: int)
    requires Inv(s) && Agrees(s.files, msg) && msg.prevId == Some(p)
    requires PlanEnabled(s.(worker := Idle), msg, rows, batch)
    requires (forall c :: c in s.chunks ==> c.fileId != msg.id) || (forall c :: c in s.chunks ==> c.fileId != p)
    ensures Once(s.(worker := Idle), msg, rows, batch, now) == s.(worker := Idle)
  {
    var t := s.(worker := Idle);
    assert Linked(t.files, msg.id);
    PlanMeaning(t, msg.id, p, rows);
    SelectedChunks(t, {msg.id, p}, rows, msg.id);
    SelectedChunks(t, {msg.id, p}, rows, p);
    OnceConflicts(t, msg, rows, batch, now);
  }

  lemma SecondRun(s: State, msg: CacheMetadata, p: string, batch: seq<UserFile>, now: int,
                  rows': seq<FilesWithChunks>, batch': seq<UserFile>, now': int)
    requires Inv(s) && Agrees(s.files, msg) && msg.prevId == Some(p)
    requires Covers(s.(chunks := s.chunks + batch), msg.id, p)
    requires var once := s.(worker := Idle, chunks := s.chunks + batch,
                            files := HandedOver(s.files, msg.prevId, msg.id, Completed, now));
      PlanEnabled(once, msg, rows', batch')
    ensures var once := s.(worker := Idle, chunks := s.chunks + batch,
                           files := HandedOver(s.files, msg.prevId, msg.id, Completed, now));
      Once(once, msg, rows', batch', now') ==
        once.(files := HandedOver(once.files, msg.prevId, msg.id, Completed, now'))
  {
    var once := s.(worker := Idle, chunks := s.chunks + batch,
                   files := HandedOver(s.files, msg.prevId, msg.id, Completed, now));
    assert Linked(s.files, msg.id);
    HandOverSound(s.files, msg, Completed, now);
    HandOverRows(s.files, msg, Completed, now);
    FlagsCover(s.(chunks := s.chunks + batch), once, msg.id, p);
    CoveredFillsNothing(once, msg, p, rows', batch', now');
  }

  // The worker stopped between its two transactions.
  function Stopped(s: State, msg: CacheMetadata, rows: seq<FilesWithChunks>, batch: seq<UserFile>): State {
    Apply(Apply(PlanStep(s.(worker := Took(msg)), rows, batch), Batch(true)), Crash)
  }

  lemma StoppedIs(s: State, msg: CacheMetadata, rows: seq<FilesWithChunks>, batch: seq<UserFile>)
    requires msg.prevId.Some? && PlanOf(msg.id, rows).Some? && PlanOf(msg.id, rows).value.1 != map[]
    ensures Stopped(s, msg, rows, batch) == s.(worker := Idle, chunks := s.chunks + batch)
  {
  }

  // If the chunk batch was stored but the flags were not, a second run completes
  // the hand-over and repeats no row.
  lemma ResumeAfterBatch(s: State, msg: CacheMetadata, rows: seq<FilesWithChunks>, batch: seq<UserFile>,
                         rows': seq<FilesWithChunks>, batch': seq<UserFile>, now: int)
    requires Inv(s) && Agrees(s.files, msg) && msg.prevId.Some? && PlanEnabled(s, msg, rows, batch)
    requires PlanOf(msg.id, rows).Some? && PlanOf(msg.id, rows).value.1 != map[]
    requires PlanEnabled(Stopped(s, msg, rows, batch), msg, rows', batch')
    ensures Once(Stopped(s, msg, rows, batch), msg, rows', batch', now) == Once(s, msg, rows, batch, now)
  {
    var p, stored := msg.prevId.value, s.(worker := Idle, chunks := s.chunks + batch);
    assert Linked(s.files, msg.id);
    StoppedIs(s, msg, rows, batch);
    OnceFills(s, msg, rows, batch, now);
    BatchCovers(s, msg, p, rows, batch);
    FlagsCover(s.(chunks := s.chunks + batch), stored, msg.id, p);
    CoveredFillsNothing(stored, msg, p, rows', batch', now);
  }

  // ---- Stored rows against the in-memory reconstruction ----

  // The filler has to be taken before the chunks are filled in: afterwards
  // there is none.
  lemma FillerBeforeMutation(own: Chunks, prev: Chunks)
    ensures RestOf(own, prev).Keys == prev.Keys - own.Keys
    ensures RestOf(Reconstructed(own, prev), prev) == map[]
  {
    assert RestOf(Reconstructed(own, prev), prev).Keys == {};
  }

  // What a chunk row says, apart from whose row it is.
  function Info(c: UserFile): (string, string, Option<int>) {
    (c.blobUrl, c.chunkHash, c.nextChunkId)
  }

  // Repeated rows of a chunk of this file say the same.
  predicate Consistent(s: State, id: string) {
    forall c, d :: c in s.chunks && d in s.chunks && c.fileId == id && d.fileId == id && c.chunkId == d.chunkId ==>
      Info(c) == Info(d)
  }

  predicate SameInfo(stored: Chunks, rebuilt: Chunks) {
    stored.Keys == rebuilt.Keys &&
    forall key :: key in stored && key in rebuilt ==> Info(stored[key].chunk) == Info(rebuilt[key].chunk)
  }

  // Entries are stored rows of the file, under their own chunk id.
  predicate MapOf(m: Chunks, chunks: seq<UserFile>, id: string) {
    (forall key :: key in m ==>
      m[key].chunk in chunks && m[key].chunk.fileId == id && Decimal(m[key].chunk.chunkId) == key) &&
    forall c :: c in chunks && c.fileId == id ==> Decimal(c.chunkId) in m
  }

  lemma SelectedMap(s: State, ids: set<string>, rows: seq<FilesWithChunks>, id: string)
    requires Forest(s.files) && IsSelection(s, ids, rows) && id in ids && id in s.files
    ensures MapOf(ChunkMap(rows, id), s.chunks, id)
  {
    SelectedChunks(s, ids, rows, id);
  }

  lemma StoredHasRebuilt(chunks: seq<UserFile>, batch: seq<UserFile>, header: Header, own: Chunks, prev: Chunks,
                         stored: Chunks, key: string)
    requires IsBatch(header, RestOf(own, prev), batch)
    requires MapOf(own, chunks, header.id) && MapOf(stored, chunks + batch, header.id)
    requires key in Reconstructed(own, prev) && (key in prev ==> Decimal(prev[key].chunk.chunkId) == key)
    ensures key in stored
  {
    if key in own {
      assert own[key].chunk in chunks + batch;
    } else {
      var b := FillerRow(header, RestOf(own, prev)[key]);
      assert b in batch && b in chunks + batch && Decimal(b.chunkId) == key;
    }
  }

  lemma StoredFromRebuilt(chunks: seq<UserFile>, batch: seq<UserFile>, header: Header, own: Chunks, prev: Chunks,
                          c: UserFile)
    requires IsBatch(header, RestOf(own, prev), batch) && c in chunks + batch && c.fileId == header.id
    requires MapOf(own, chunks, header.id)
    requires forall key :: key in prev ==> Decimal(prev[key].chunk.chunkId) == key
    requires forall d :: d in chunks && d.fileId == header.id && d.chunkId == c.chunkId && c in chunks ==>
      Info(c) == Info(d)
    ensures Decimal(c.chunkId) in Reconstructed(own, prev)
    ensures Info(c) == Info(Reconstructed(own, prev)[Decimal(c.chunkId)].chunk)
  {
    var key := Decimal(c.chunkId);
    if c in chunks {
      DecimalInjective(c.chunkId, own[key].chunk.chunkId);
    } else {
      FromFiller(header, RestOf(own, prev), batch, c, key);
    }
  }

  lemma StoredMap(s: State, batch: seq<UserFile>, header: Header, own: Chunks, prev: Chunks, stored: Chunks)
    requires IsBatch(header, RestOf(own, prev), batch) && Consistent(s, header.id)
    requires MapOf(own, s.chunks, header.id) && MapOf(stored, s.chunks + batch, header.id)
    requires forall key :: key in prev ==> Decimal(prev[key].chunk.chunkId) == key
    ensures SameInfo(stored, Reconstructed(own, prev))
  {
    forall key | key in Reconstructed(own, prev) ensures key in stored {
      StoredHasRebuilt(s.chunks, batch, header, own, prev, stored, key);
    }
    forall key | key in stored
      ensures key in Reconstructed(own, prev) && Info(stored[key].chunk) == Info(Reconstructed(own, prev)[key].chunk)
    {
      StoredFromRebuilt(s.chunks, batch, header, own, prev, stored[key].chunk);
    }
  }

  // After the batch, selecting and grouping the new version again gives the map
  // that ReconstructChunks built in memory.
  lemma StoredEqualsRebuilt(s: State, msg: CacheMetadata, rows: seq<FilesWithChunks>, batch: seq<UserFile>,
                            again: seq<FilesWithChunks>)
    requires Inv(s) && Agrees(s.files, msg) && msg.prevId.Some? && PlanEnabled(s, msg, rows, batch)
    requires msg.prevId.value in s.files && s.files[msg.id].nChunks == s.files[msg.prevId.value].nChunks
    requires PlanOf(msg.id, rows).Some?
    requires Consistent(s, msg.id) && IsSelection(s.(chunks := s.chunks + batch), {msg.id}, again)
    ensures SameInfo(ChunkMap(again, msg.id), Reconstructed(ChunkMap(rows, msg.id), ChunkMap(rows, msg.prevId.value)))
  {
    var id, p := msg.id, msg.prevId.value;
    assert Linked(s.files, id);
    PlanMeaning(s, id, p, rows);
    SelectedMap(s, {id, p}, rows, id);
    SelectedMap(s, {id, p}, rows, p);
    SelectedMap(s.(chunks := s.chunks + batch), {id}, again, id);
    StoredMap(s, batch, HeaderOf(s.files[id]), ChunkMap(rows, id), ChunkMap(rows, p), ChunkMap(again, id));
  }

  // One way the rows can arrive: for the plan, and after the batch.
  ghost predicate Arrives(s: State, msg: CacheMetadata, rows: seq<FilesWithChunks>, batch: seq<UserFile>,
                          again: seq<FilesWithChunks>) {
    msg.prevId.Some? && PlanEnabled(s, msg, rows, batch) && PlanOf(msg.id, rows).Some? &&
    IsSelection(s.(chunks := s.chunks + batch), {msg.id}, again)
  }

  // Two rows of a chunk that disagree: one decides the reconstruction, the other
  // what is read afterwards.
  lemma DisagreementShows(s: State, msg: CacheMetadata, p: string, c: UserFile, d: UserFile)
    returns (rows: seq<FilesWithChunks>, batch: seq<UserFile>, again: seq<FilesWithChunks>)
    requires Inv(s) && Agrees(s.files, msg) && msg.prevId == Some(p) && AnyRow(s, p)
    requires c in s.chunks && d in s.chunks && c.fileId == d.fileId == msg.id
    requires c.chunkId == d.chunkId && Info(c) != Info(d)
    ensures Arrives(s, msg, rows, batch, again)
    ensures !SameInfo(ChunkMap(again, msg.id), Reconstructed(ChunkMap(rows, msg.id), ChunkMap(rows, p)))
  {
    var id := msg.id;
    assert Linked(s.files, id);
    rows := RowLast(s, {id, p}, c);
    assert AnyRow(s, id);
    batch := BatchFor(s, msg, p, rows);
    again := RowLast(s.(chunks := s.chunks + batch), {id}, d);
    assert Decimal(c.chunkId) in Reconstructed(ChunkMap(rows, id), ChunkMap(rows, p));
  }

  // With rows on both sides there is a plan, and a batch for it.
  lemma BatchFor(s: State, msg: CacheMetadata, p: string, rows: seq<FilesWithChunks>) returns (batch: seq<UserFile>)
    requires Forest(s.files) && msg.id in s.files && p in s.files && msg.id != p && msg.prevId == Some(p)
    requires AnyRow(s, msg.id) && AnyRow(s, p) && IsSelection(s, {msg.id, p}, rows)
    ensures PlanEnabled(s, msg, rows, batch) && PlanOf(msg.id, rows).Some?
  {
    PlanMeaning(s, msg.id, p, rows);
    SelectedChunks(s, {msg.id, p}, rows, msg.id);
    SelectedChunks(s, {msg.id, p}, rows, p);
    PlanKeys(msg.id, rows);
    var (own, filler) := PlanOf(msg.id, rows).value;
    batch := SomeBatch(own, filler);
  }

  // A selection in which the row of `c` decides its chunk.
  lemma RowLast(s: State, ids: set<string>, c: UserFile) returns (rows: seq<FilesWithChunks>)
    requires Forest(s.files) && c in s.chunks && c.fileId in ids && c.fileId in s.files
    ensures IsSelection(s, ids, rows)
    ensures var m := ChunkMap(rows, c.fileId); Decimal(c.chunkId) in m && m[Decimal(c.chunkId)].chunk == c
  {
    var r := FilesWithChunks(s.files[c.fileId], c);
    assert Linked(s.files, c.fileId);
    JoinHas(s.files, s.chunks, ids, r);
    rows := MovedLast(JoinRows(s.files, s.chunks, ids), r);
    ChunkMapIsLast(rows, |rows| - 1);
  }

  // For every order in which the rows arrive, the stored map is the one built in
  // memory: exactly if the rows of each chunk of the new version agree.
  lemma StoredEqualsRebuiltIff(s: State, msg: CacheMetadata)
    requires Inv(s) && Agrees(s.files, msg) && msg.prevId.Some? && AnyRow(s, msg.prevId.value)
    requires msg.prevId.value in s.files && s.files[msg.id].nChunks == s.files[msg.prevId.value].nChunks
    ensures Consistent(s, msg.id) <==>
      forall rows, batch, again :: Arrives(s, msg, rows, batch, again) ==>
        SameInfo(ChunkMap(again, msg.id), Reconstructed(ChunkMap(rows, msg.id), ChunkMap(rows, msg.prevId.value)))
  {
    if Consistent(s, msg.id) {
      forall rows, batch, again | Arrives(s, msg, rows, batch, again)
        ensures SameInfo(ChunkMap(again, msg.id),
                         Reconstructed(ChunkMap(rows, msg.id), ChunkMap(rows, msg.prevId.value)))
      {
        StoredEqualsRebuilt(s, msg, rows, batch, again);
      }
    } else {
      var c, d :| c in s.chunks && d in s.chunks && c.fileId == msg.id && d.fileId == msg.id &&
        c.chunkId == d.chunkId && Info(c) != Info(d);
      var rows, batch, again := DisagreementShows(s, msg, msg.prevId.value, c, d);
    }
  }

  lemma FromFiller(own: Header, filler: Chunks, batch: seq<UserFile>, c: UserFile, key: string)
    requires IsBatch(own, filler, batch) && c in batch && Decimal(c.chunkId) == key
    requires forall k :: k in filler ==> Decimal(filler[k].chunk.chunkId) == k
    ensures key in filler && Info(c) == Info(filler[key].chunk)
  {
    var k :| k in filler && c == FillerRow(own, filler[k]);
  }
}
