// The upload service as a state machine: the tables, the completion queue, the
// blob directory, the download cache and the single reconcile worker.
//
// A label is one atomic step. It carries everything the environment decides:
// request contents, generated ids, the row order of a query, whether a
// transaction commits. Rejected requests are steps that change nothing.
module Machine {
  import opened Rows
  import opened Text
  import opened ChunkCount
  import opened Grouping
  import opened Reconstruct
  import opened Downloads

  // What the worker holds between its three transactions (ExecuteEach).
  datatype Worker =
    | Idle
    | Took(msg: CacheMetadata)
    | Planned(msg: CacheMetadata, batch: seq<UserFile>)
    | Filled(msg: CacheMetadata, ok: bool)

  type Files = map<string, FileMetadata>

  datatype State = State(
    dir: string,
    files: Files,
    chunks: seq<UserFile>,
    tokens: seq<StreamToken>,
    queue: seq<CacheMetadata>,
    worker: Worker,
    blobs: Store,
    cache: Store)

  function Init(dir: string): State {
    State(dir, map[], [], [], [], Idle, map[], map[])
  }

  datatype MetadataRequest = MetadataRequest(
    userId: string, fileName: string, fileType: string, fileSize: int, digest: string, chunks: int)

  datatype UpdateRequest = UpdateRequest(
    userId: string, fileId: string, fileSize: int, digest: string, chunks: int)

  datatype Label =
    | Prepare(req: MetadataRequest, id: string)
    | Succeed(upd: UpdateRequest, id: string)
    | Upload(token: StreamToken, chunkId: int, nextId: int, digest: string, data: Bytes, stored: bool)
    | Eof(fileId: string, deviceId: string)
    | Take
    | Plan(rows: seq<FilesWithChunks>, batch: seq<UserFile>)
    | Batch(committed: bool)
    | HandOver(committed: bool, now: int)
    | Crash
    | Get(fileId: string, userId: string, rows: seq<FilesWithChunks>, io: seq<CacheIo>)
    | Expire(path: string)

  datatype Rejection = Duplicate | ChunksSizeInvalid | InvalidFileData | NotFound | IdGenFailed | InternalError

  // ---- Creating versions ----

  predicate HashKnown(files: Files, digest: string) {
    exists id :: id in files && files[id].fileHash == digest
  }

  // PrepareFileForUpload: the duplicate check comes before the count check.
  function PrepareCheck(s: State, req: MetadataRequest): Option<Rejection> {
    if HashKnown(s.files, req.digest) then Some(Duplicate)
    else if CalculateChunks(req.fileSize) != req.chunks then Some(ChunksSizeInvalid)
    else None
  }

  function FirstVersion(s: State, req: MetadataRequest, id: string): FileMetadata {
    FileMetadata(id, req.userId, req.fileName, req.fileSize, req.fileType, req.digest, req.chunks,
                 false, Uploading, None, None, |s.files|)
  }

  // UpdateFileMetadata: the count check, the predecessor, then its hash alone.
  function SucceedCheck(s: State, upd: UpdateRequest): Option<Rejection> {
    if CalculateChunks(upd.fileSize) != upd.chunks then Some(InvalidFileData)
    else if upd.fileId !in s.files then Some(NotFound)
    else if s.files[upd.fileId].fileHash == upd.digest then Some(Duplicate)
    else None
  }

  function NextVersion(s: State, upd: UpdateRequest, id: string): FileMetadata
    requires upd.fileId in s.files
  {
    var prev := s.files[upd.fileId];
    FileMetadata(id, upd.userId, prev.fileName, upd.fileSize, prev.fileType, upd.digest, upd.chunks,
                 false, Uploading, Some(upd.fileId), None, |s.files|)
  }

  // What the row of a first version says of its request.
  predicate FirstSays(f: FileMetadata, req: MetadataRequest) {
    f.fileName == req.fileName && f.fileType == req.fileType && f.fileSize == req.fileSize &&
    f.fileHash == req.digest && f.nChunks == req.chunks && f.userId == req.userId && f.prevId.None?
  }

  // What the row of a successor says of its request and its predecessor.
  predicate NextSays(f: FileMetadata, upd: UpdateRequest, prev: FileMetadata) {
    f.fileName == prev.fileName && f.fileType == prev.fileType && f.fileSize == upd.fileSize &&
    f.fileHash == upd.digest && f.nChunks == upd.chunks && f.userId == upd.userId && f.prevId == Some(upd.fileId)
  }

  // New versions wait for their upload.
  predicate Pristine(f: FileMetadata, id: string) {
    f.id == id && !f.current && f.status == Uploading && f.endDate.None?
  }

  // CreateMetadataToken: the row and its stream token in one transaction.
  function WithVersion(s: State, row: FileMetadata): State {
    s.(files := s.files[row.id := row], tokens := s.tokens + [StreamToken(row.id, row.userId)])
  }

  // ---- Selecting rows ----

  function JoinRows(files: Files, chunks: seq<UserFile>, ids: set<string>): seq<FilesWithChunks> {
    if chunks == [] then []
    else
      var c, before := chunks[|chunks| - 1], JoinRows(files, chunks[..|chunks| - 1], ids);
      if c.fileId in ids && c.fileId in files then before + [FilesWithChunks(files[c.fileId], c)] else before
  }

  // SelectFiles: the joined rows of these files, in any order.
  predicate IsSelection(s: State, ids: set<string>, rows: seq<FilesWithChunks>) {
    multiset(rows) == multiset(JoinRows(s.files, s.chunks, ids))
  }

  lemma {:induction false} JoinHas(files: Files, chunks: seq<UserFile>, ids: set<string>, r: FilesWithChunks)
    ensures r in JoinRows(files, chunks, ids) <==>
            r.chunk in chunks && r.chunk.fileId in ids && r.chunk.fileId in files && r.file == files[r.chunk.fileId]
  {
    if chunks != [] {
      var before := chunks[..|chunks| - 1];
      JoinHas(files, before, ids, r);
      assert chunks == before + [chunks[|chunks| - 1]];
    }
  }

  // The join keeps repeated rows: each joined row occurs as often as its chunk row.
  lemma {:induction false} JoinCounts(files: Files, chunks: seq<UserFile>, ids: set<string>, c: UserFile)
    requires c.fileId in ids && c.fileId in files
    ensures multiset(JoinRows(files, chunks, ids))[FilesWithChunks(files[c.fileId], c)] == multiset(chunks)[c]
  {
    if chunks != [] {
      var before, last := chunks[..|chunks| - 1], chunks[|chunks| - 1];
      JoinCounts(files, before, ids, c);
      assert chunks == before + [last];
    }
  }

  lemma SelectionHas(s: State, ids: set<string>, rows: seq<FilesWithChunks>, r: FilesWithChunks)
    requires IsSelection(s, ids, rows)
    ensures r in rows <==>
            r.chunk in s.chunks && r.chunk.fileId in ids && r.chunk.fileId in s.files &&
            r.file == s.files[r.chunk.fileId]
  {
    PermutedRows(rows, JoinRows(s.files, s.chunks, ids));
    JoinHas(s.files, s.chunks, ids, r);
  }

  // ---- Reconciling ----

  // The new version's header and the chunks to borrow; None is "file_merge_conflict".
  function PlanOf(id: string, rows: seq<FilesWithChunks>): Option<(Header, Chunks)> {
    var views := Group(rows);
    if |views| < 2 then None
    else
      var (own, prev) := if views[0].header.id == id then (views[0], views[1]) else (views[1], views[0]);
      Some((own.header,
            if own.header.nChunks == prev.header.nChunks then RestOf(own.chunks, prev.chunks) else map[]))
  }

  function FillerRow(own: Header, row: FilesWithChunks): UserFile {
    UserFile(own.userId, own.id, row.chunk.chunkId, row.chunk.blobUrl, row.chunk.chunkHash, row.chunk.nextChunkId)
  }

  // The borrowed chunks as rows of the new version, in any order.
  ghost predicate IsBatch(own: Header, filler: Chunks, batch: seq<UserFile>) {
    (forall b :: b in batch <==> exists key :: key in filler && b == FillerRow(own, filler[key])) &&
    forall i, j :: 0 <= i < j < |batch| ==> batch[i] != batch[j]
  }

  // Borrowed chunks are kept under their own printed chunk id.
  lemma PlanKeys(id: string, rows: seq<FilesWithChunks>)
    ensures var plan := PlanOf(id, rows);
      plan.Some? ==> forall key :: key in plan.value.1 ==> Key(plan.value.1[key]) == key
  {
    var ids := Ids(rows);
    if |ids| >= 2 {
      ChunkMapHas(rows, ids[0]);
      ChunkMapHas(rows, ids[1]);
    }
  }

  // A batch exists for every filler.
  lemma {:induction false} SomeBatch(own: Header, filler: Chunks) returns (batch: seq<UserFile>)
    requires forall key :: key in filler ==> Key(filler[key]) == key
    ensures IsBatch(own, filler, batch)
    decreases |filler|
  {
    if filler == map[] {
      batch := [];
    } else {
      var key :| key in filler;
      var rest := filler - {key};
      assert rest.Keys == filler.Keys - {key};
      assert |rest.Keys| < |filler.Keys|;
      var before := SomeBatch(own, rest);
      var row := FillerRow(own, filler[key]);
      forall b | b in before ensures b != row {
        var other :| other in rest && b == FillerRow(own, rest[other]);
        assert Decimal(b.chunkId) == other && Decimal(row.chunkId) == key;
      }
      assert row !in before;
      batch := before + [row];
      forall b ensures b in batch <==> exists k :: k in filler && b == FillerRow(own, filler[k]) {
        BatchGrows(own, filler, key, before, b);
      }
    }
  }

  lemma BatchGrows(own: Header, filler: Chunks, key: string, before: seq<UserFile>, b: UserFile)
    requires key in filler && IsBatch(own, filler - {key}, before)
    ensures b in before + [FillerRow(own, filler[key])] <==> exists k :: k in filler && b == FillerRow(own, filler[k])
  {
    var rest := filler - {key};
    if b in before {
      var k :| k in rest && b == FillerRow(own, rest[k]);
      assert k in filler && b == FillerRow(own, filler[k]);
    }
    if exists k :: k in filler && b == FillerRow(own, filler[k]) {
      var k :| k in filler && b == FillerRow(own, filler[k]);
      if k != key {
        assert k in rest && b == FillerRow(own, rest[k]);
      }
    }
  }

  // MetadataRepository.Update: both rows in one transaction.
  function HandedOver(files: Files, prevId: Option<string>, id: string, status: Status, now: int): Files {
    var raised :=
      if id in files && files[id].prevId == prevId
      then files[id := files[id].(current := true, endDate := None, status := status)]
      else files;
    match prevId
    case None => raised
    case Some(p) =>
      if p in raised
      then raised[p := raised[p].(current := false, endDate := Some(now), status := status)]
      else raised
  }

  // Row x before and after: lowered as the predecessor, raised if its id and
  // prev_id are those of the message, and otherwise as it was.
  predicate Handed(f: FileMetadata, g: FileMetadata, prevId: Option<string>, id: string, x: string,
                   status: Status, now: int) {
    SameVersion(f, g) &&
    if Some(x) == prevId then !g.current && g.endDate == Some(now) && g.status == status
    else if x == id && f.prevId == prevId then g.current && g.endDate.None? && g.status == status
    else g == f
  }

  lemma HandedOverIs(files: Files, prevId: Option<string>, id: string, status: Status, now: int)
    ensures var after := HandedOver(files, prevId, id, status, now);
      after.Keys == files.Keys && forall x :: x in files ==> Handed(files[x], after[x], prevId, id, x, status, now)
  {
  }

  function StatusOf(ok: bool): Status {
    if ok then Completed else Failed
  }

  function FlagsAfter(s: State, now: int): Files
    requires s.worker.Filled?
  {
    HandedOver(s.files, s.worker.msg.prevId, s.worker.msg.id, StatusOf(s.worker.ok), now)
  }

  // ---- Steps ----

  ghost predicate PlanEnabled(s: State, msg: CacheMetadata, rows: seq<FilesWithChunks>, batch: seq<UserFile>) {
    msg.prevId.Some? ==>
      IsSelection(s, {msg.id, msg.prevId.value}, rows) &&
      var plan := PlanOf(msg.id, rows);
      plan.Some? ==> IsBatch(plan.value.0, plan.value.1, batch)
  }

  ghost predicate Enabled(s: State, l: Label) {
    match l
    case Prepare(_, id) => id !in s.files && ValidId(id)
    case Succeed(_, id) => id !in s.files && ValidId(id)
    case Upload(token, _, _, _, _, _) => token in s.tokens
    case Take => s.worker.Idle? && s.queue != []
    case Plan(rows, batch) => s.worker.Took? && PlanEnabled(s, s.worker.msg, rows, batch)
    case Batch(_) => s.worker.Planned?
    case HandOver(_, _) => s.worker.Filled?
    case Get(fileId, userId, rows, io) =>
      IsSelection(s, {fileId}, rows) &&
      var listed := Listing(rows, fileId, userId);
      listed.Ok? ==> |io| == |listed.value|
    case _ => true
  }

  // Planning is never stuck: some selection and batch exist.
  lemma SomePlan(s: State, msg: CacheMetadata) returns (rows: seq<FilesWithChunks>, batch: seq<UserFile>)
    ensures PlanEnabled(s, msg, rows, batch)
  {
    rows, batch := [], [];
    if msg.prevId.Some? {
      rows := JoinRows(s.files, s.chunks, {msg.id, msg.prevId.value});
      PlanKeys(msg.id, rows);
      var plan := PlanOf(msg.id, rows);
      if plan.Some? {
        batch := SomeBatch(plan.value.0, plan.value.1);
      }
    }
  }

  function PlanStep(s: State, rows: seq<FilesWithChunks>, batch: seq<UserFile>): State
    requires s.worker.Took?
  {
    var msg := s.worker.msg;
    if msg.prevId.None? then s.(worker := Filled(msg, true))
    else match PlanOf(msg.id, rows)
      case None => s.(worker := Idle)
      case Some(plan) =>
        if plan.1 == map[] then s.(worker := Filled(msg, true)) else s.(worker := Planned(msg, batch))
  }

  function UploadStep(s: State, l: Label): State
    requires l.Upload?
  {
    var path := PathOf(s.dir, l.token.resourceId, l.chunkId);
    var row := UserFile(l.token.userId, l.token.resourceId, l.chunkId, path, l.digest, Some(l.nextId));
    s.(blobs := s.blobs[path := l.data], chunks := if l.stored then s.chunks + [row] else s.chunks)
  }

  function EofStep(s: State, fileId: string, deviceId: string): State {
    if fileId in s.files && s.files[fileId].status == Uploading
    then s.(queue := s.queue + [CacheMetadata(s.files[fileId].userId, s.files[fileId].prevId, deviceId, fileId)])
    else s
  }

  // What a download of the listed urls returns, and the cache it leaves.
  function GetStep(s: State, l: Label): (Option<Bytes>, Store)
    requires l.Get?
  {
    match Listing(l.rows, l.fileId, l.userId)
    case Err(_) => (None, s.cache)
    case Ok(urls) => if |l.io| == |urls| then Cached(s.blobs, s.cache, urls, l.io) else (None, s.cache)
  }

  function Apply(s: State, l: Label): State {
    match l
    case Prepare(req, id) => if PrepareCheck(s, req).Some? then s else WithVersion(s, FirstVersion(s, req, id))
    case Succeed(upd, id) => if SucceedCheck(s, upd).Some? then s else WithVersion(s, NextVersion(s, upd, id))
    case Upload(_, _, _, _, _, _) => UploadStep(s, l)
    case Eof(fileId, deviceId) => EofStep(s, fileId, deviceId)
    case Take => if s.worker.Idle? && s.queue != [] then s.(worker := Took(s.queue[0]), queue := s.queue[1..]) else s
    case Plan(rows, batch) => if s.worker.Took? then PlanStep(s, rows, batch) else s
    case Batch(committed) =>
      if !s.worker.Planned? then s
      else s.(worker := Filled(s.worker.msg, committed),
              chunks := if committed then s.chunks + s.worker.batch else s.chunks)
    case HandOver(committed, now) =>
      if !s.worker.Filled? then s
      else s.(worker := Idle, files := if committed then FlagsAfter(s, now) else s.files)
    case Crash => s.(worker := Idle)
    case Get(_, _, _, _) => s.(cache := GetStep(s, l).1)
    case Expire(path) => s.(cache := s.cache - {path})
  }

  // ---- Runs ----

  function Run(s: State, labels: seq<Label>): State {
    if labels == [] then s else Apply(Run(s, labels[..|labels| - 1]), labels[|labels| - 1])
  }

  ghost predicate Legal(s: State, labels: seq<Label>) {
    labels == [] ||
    (Legal(s, labels[..|labels| - 1]) && Enabled(Run(s, labels[..|labels| - 1]), labels[|labels| - 1]))
  }

  lemma RunLast(s: State, labels: seq<Label>, l: Label)
    ensures Legal(s, labels + [l]) <==> Legal(s, labels) && Enabled(Run(s, labels), l)
    ensures Run(s, labels + [l]) == Apply(Run(s, labels), l)
  {
    assert (labels + [l])[..|labels|] == labels;
  }

  lemma {:induction false} RunSplit(s: State, before: seq<Label>, after: seq<Label>)
    requires Legal(s, before + after)
    ensures Legal(s, before)
    ensures Legal(Run(s, before), after)
    ensures Run(s, before + after) == Run(Run(s, before), after)
  {
    if after == [] {
      assert before + after == before;
    } else {
      var middle := after[..|after| - 1];
      assert before + after == (before + middle) + [after[|after| - 1]];
      RunLast(s, before + middle, after[|after| - 1]);
      RunSplit(s, before, middle);
    }
  }

  // ---- One message as a whole ----

  // The merge conflict of ExecuteEach: one of the two versions has no chunk row.
  predicate Conflicts(msg: CacheMetadata, rows: seq<FilesWithChunks>) {
    msg.prevId.Some? && PlanOf(msg.id, rows).None?
  }

  // One message through all of ExecuteEach, as steps of the state machine.
  function Executed(s: State, rows: seq<FilesWithChunks>, batch: seq<UserFile>,
                    batchCommits: bool, flagsCommit: bool, now: int): State {
    Apply(Apply(Apply(s, Plan(rows, batch)), Batch(batchCommits)), HandOver(flagsCommit, now))
  }

  // The same in one step: what the two transactions leave behind.
  lemma ExecutedIs(s: State, rows: seq<FilesWithChunks>, batch: seq<UserFile>,
                   batchCommits: bool, flagsCommit: bool, now: int)
    requires s.worker.Took?
    ensures var msg, t := s.worker.msg, Executed(s, rows, batch, batchCommits, flagsCommit, now);
      if Conflicts(msg, rows) then t == s.(worker := Idle)
      else
        var filling := msg.prevId.Some? && PlanOf(msg.id, rows).value.1 != map[];
        var status := StatusOf(!filling || batchCommits);
        t == s.(worker := Idle,
                chunks := if filling && batchCommits then s.chunks + batch else s.chunks,
                files := if flagsCommit then HandedOver(s.files, msg.prevId, msg.id, status, now) else s.files)
  {
  }

  predicate WorkerSteps(labels: seq<Label>, more: seq<Label>) {
    labels <= more && forall i :: |labels| <= i < |more| ==> more[i].Plan? || more[i].Batch? || more[i].HandOver?
  }

  // The steps after Plan: a conflict has ended the message, no filler skips the batch.
  lemma EndMessage(start: State, labels: seq<Label>, batchCommits: bool, flagsCommit: bool, now: int)
    returns (more: seq<Label>)
    requires Legal(start, labels) && !Run(start, labels).worker.Took?
    ensures Legal(start, more) && WorkerSteps(labels, more)
    ensures Run(start, more) == Apply(Apply(Run(start, labels), Batch(batchCommits)), HandOver(flagsCommit, now))
  {
    more := StepIfReady(start, labels, Batch(batchCommits));
    more := StepIfReady(start, more, HandOver(flagsCommit, now));
  }

  lemma StepIfReady(start: State, labels: seq<Label>, l: Label) returns (more: seq<Label>)
    requires Legal(start, labels) && (l.Batch? || l.HandOver?)
    ensures Legal(start, more) && WorkerSteps(labels, more) && Run(start, more) == Apply(Run(start, labels), l)
  {
    var ready := if l.Batch? then Run(start, labels).worker.Planned? else Run(start, labels).worker.Filled?;
    RunLast(start, labels, l);
    more := if ready then labels + [l] else labels;
  }

  // ExecuteEach continues every legal run legally, so whatever holds of every
  // run holds across it.
  lemma ExecutedContinues(start: State, labels: seq<Label>, rows: seq<FilesWithChunks>, batch: seq<UserFile>,
                          batchCommits: bool, flagsCommit: bool, now: int) returns (more: seq<Label>)
    requires Legal(start, labels) && Run(start, labels).worker.Took?
    requires PlanEnabled(Run(start, labels), Run(start, labels).worker.msg, rows, batch)
    ensures Legal(start, more) && WorkerSteps(labels, more)
    ensures Run(start, more) == Executed(Run(start, labels), rows, batch, batchCommits, flagsCommit, now)
  {
    RunLast(start, labels, Plan(rows, batch));
    more := EndMessage(start, labels + [Plan(rows, batch)], batchCommits, flagsCommit, now);
  }

  // ---- What no step ever changes ----

  predicate SameVersion(a: FileMetadata, b: FileMetadata) {
    b.(current := a.current, status := a.status, endDate := a.endDate) == a
  }

  // `s` can lead to `t`: versions, rows and blobs are never taken away.
  ghost predicate Extends(s: State, t: State) {
    s.dir == t.dir && s.files.Keys <= t.files.Keys && s.chunks <= t.chunks &&
    s.blobs.Keys <= t.blobs.Keys &&
    forall id :: id in s.files ==> SameVersion(s.files[id], t.files[id])
  }

  lemma HandOverSameVersions(files: Files, prevId: Option<string>, id: string, status: Status, now: int)
    ensures var after := HandedOver(files, prevId, id, status, now);
      after.Keys == files.Keys && forall i :: i in files ==> SameVersion(files[i], after[i])
  {
  }

  lemma StepExtends(s: State, l: Label)
    requires Enabled(s, l)
    ensures Extends(s, Apply(s, l))
  {
    if l.HandOver? {
      HandOverSameVersions(s.files, s.worker.msg.prevId, s.worker.msg.id, StatusOf(s.worker.ok), l.now);
    } else if l.Prepare? || l.Succeed? {
      assert forall id :: id in s.files ==> id in Apply(s, l).files && Apply(s, l).files[id] == s.files[id];
    } else {
      assert Apply(s, l).files == s.files;
    }
  }

  lemma {:induction false} RunExtends(s: State, labels: seq<Label>)
    requires Legal(s, labels)
    ensures Extends(s, Run(s, labels))
  {
    if labels != [] {
      RunExtends(s, labels[..|labels| - 1]);
      StepExtends(Run(s, labels[..|labels| - 1]), labels[|labels| - 1]);
    }
  }
}
