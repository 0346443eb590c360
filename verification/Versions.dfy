// Invariants of every run: the version forest, referential integrity without
// foreign keys, and where blobs come from.
module Versions {
  import opened Rows
  import opened Text
  import opened ChunkCount
  import opened Grouping
  import opened Reconstruct
  import opened Downloads
  import opened Machine

  // ---- The forest of prev_id links ----

  // The predecessor, if prev_id names an earlier row.
  function Parent(files: Files, v: string): Option<string> {
    if v in files && files[v].prevId.Some? && files[v].prevId.value in files &&
       files[files[v].prevId.value].rowid < files[v].rowid
    then files[v].prevId
    else None
  }

  // `a` is `v` or one of its predecessors.
  predicate Anc(files: Files, a: string, v: string)
    decreases if v in files then files[v].rowid else 0
  {
    a == v || (Parent(files, v).Some? && Anc(files, a, Parent(files, v).value))
  }

  // The first version of the tree of `v`.
  function Root(files: Files, v: string): string
    decreases if v in files then files[v].rowid else 0
  {
    if Parent(files, v).Some? then Root(files, Parent(files, v).value) else v
  }

  lemma {:induction false} AncOlder(files: Files, a: string, v: string)
    requires Anc(files, a, v) && a != v
    ensures a in files && v in files && files[a].rowid < files[v].rowid
    decreases if v in files then files[v].rowid else 0
  {
    var p := Parent(files, v).value;
    if a != p {
      AncOlder(files, a, p);
    }
  }

  // ---- Invariants ----

  predicate Pends(s: State, m: CacheMetadata) {
    m in s.queue || (!s.worker.Idle? && m == s.worker.msg)
  }

  // The id is the key, and prev_id names an earlier row with another hash.
  predicate Linked(files: Files, id: string)
    requires id in files
  {
    var f := files[id];
    f.id == id && ValidId(id) && f.rowid < |files| &&
    (f.prevId.Some? ==>
      f.prevId.value in files && files[f.prevId.value].rowid < f.rowid &&
      files[f.prevId.value].fileHash != f.fileHash)
  }

  predicate Forest(files: Files) {
    forall id {:trigger Linked(files, id)} :: id in files ==> Linked(files, id)
  }

  // A first version's hash is new: it differs from every earlier row's, and from
  // every other first version's.
  predicate HashApart(files: Files, first: string, other: string)
    requires first in files && other in files
  {
    files[first].prevId.None? && first != other &&
    (files[other].prevId.None? || files[other].rowid < files[first].rowid) ==>
      files[other].fileHash != files[first].fileHash
  }

  predicate Hashes(files: Files) {
    forall a, b {:trigger HashApart(files, a, b)} :: a in files && b in files ==> HashApart(files, a, b)
  }

  predicate CountSound(f: FileMetadata) {
    f.nChunks == CalculateChunks(f.fileSize)
  }

  predicate RowsSound(files: Files) {
    (forall id {:trigger CountSound(files[id])} :: id in files ==> CountSound(files[id])) &&
    forall id :: id in files && files[id].current ==> files[id].endDate.None? && files[id].status != Uploading
  }

  // A message says what its row says.
  predicate Agrees(files: Files, m: CacheMetadata) {
    m.id in files && files[m.id].prevId == m.prevId && files[m.id].userId == m.userId
  }

  ghost predicate Messages(s: State) {
    forall m :: Pends(s, m) ==> Agrees(s.files, m)
  }

  predicate Tokens(s: State) {
    (forall t :: t in s.tokens ==> t.resourceId in s.files && s.files[t.resourceId].userId == t.userId) &&
    forall id :: id in s.files ==> StreamToken(id, s.files[id].userId) in s.tokens
  }

  // A chunk row belongs to an existing file and its owner, and its url is that
  // of the same chunk of the file or of a predecessor.
  ghost predicate RowSound(s: State, c: UserFile) {
    c.fileId in s.files && c.userId == s.files[c.fileId].userId &&
    exists g :: Anc(s.files, g, c.fileId) && c.blobUrl == PathOf(s.dir, g, c.chunkId)
  }

  ghost predicate ChunkRows(s: State) {
    (forall c :: c in s.chunks ==> RowSound(s, c)) &&
    (s.worker.Planned? ==> forall b :: b in s.worker.batch ==> RowSound(s, b) && b.fileId == s.worker.msg.id)
  }

  predicate FilesSound(files: Files) {
    Forest(files) && Hashes(files) && RowsSound(files)
  }

  ghost predicate Inv(s: State) {
    FilesSound(s.files) && Messages(s) && Tokens(s) && ChunkRows(s)
  }

  // ---- Steps that leave the files' links alone ----

  // Links survive every extension.
  lemma {:induction false} AncStable(files: Files, more: Files, a: string, v: string)
    requires Forest(files) && v in files && files.Keys <= more.Keys
    requires forall id :: id in files ==> SameVersion(files[id], more[id])
    ensures Parent(files, v) == Parent(more, v)
    ensures Anc(files, a, v) <==> Anc(more, a, v)
    ensures Root(files, v) == Root(more, v)
    decreases files[v].rowid
  {
    assert Linked(files, v);
    assert SameVersion(files[v], more[v]);
    if Parent(files, v).Some? {
      var p := Parent(files, v).value;
      assert SameVersion(files[p], more[p]);
      AncStable(files, more, a, p);
    }
  }

  lemma RowStable(s: State, t: State, c: UserFile)
    requires Forest(s.files) && Extends(s, t) && RowSound(s, c)
    ensures RowSound(t, c)
  {
    var g :| Anc(s.files, g, c.fileId) && c.blobUrl == PathOf(s.dir, g, c.chunkId);
    AncStable(s.files, t.files, g, c.fileId);
  }

  // ---- What the worker plans ----

  // Which chunks the worker borrows, whatever the row order: those that the
  // predecessor has rows for and the new version has none.
  lemma PlanMeaning(s: State, id: string, p: string, rows: seq<FilesWithChunks>)
    requires Forest(s.files) && id in s.files && p in s.files && id != p
    requires IsSelection(s, {id, p}, rows)
    ensures PlanOf(id, rows).Some? <==> id in Ids(rows) && p in Ids(rows)
    ensures PlanOf(id, rows).Some? ==>
      PlanOf(id, rows).value == (HeaderOf(s.files[id]),
        if s.files[id].nChunks == s.files[p].nChunks
        then RestOf(ChunkMap(rows, id), ChunkMap(rows, p)) else map[])
  {
    SelectedIds(s, id, p, rows);
    var ids := Ids(rows);
    if |ids| >= 2 {
      assert ids[0] == ids[..2][0] && ids[1] == ids[..2][1];
      HeadersNameIds(rows);
      SelectedHeader(s, {id, p}, rows, id);
      SelectedHeader(s, {id, p}, rows, p);
    }
  }

  lemma SelectedIds(s: State, id: string, p: string, rows: seq<FilesWithChunks>)
    requires Forest(s.files) && id in s.files && p in s.files && id != p && IsSelection(s, {id, p}, rows)
    ensures |Ids(rows)| >= 2 <==> id in Ids(rows) && p in Ids(rows)
    ensures |Ids(rows)| >= 2 ==> Ids(rows)[..2] in {[id, p], [p, id]}
  {
    IdsAre(rows);
    var ids := Ids(rows);
    OnlySelectedIds(s, {id, p}, rows);
    if |ids| >= 2 {
      assert ids[0] in ids && ids[1] in ids && ids[0] != ids[1];
      assert ids[..2] == [ids[0], ids[1]];
    }
  }

  lemma OnlySelectedIds(s: State, ids: set<string>, rows: seq<FilesWithChunks>)
    requires Forest(s.files) && IsSelection(s, ids, rows)
    ensures forall x :: x in Ids(rows) ==> x in ids
  {
    forall x | x in Ids(rows) ensures x in ids {
      var r := FirstHeaderFrom(rows, x);
      SelectionHas(s, ids, rows, r);
      assert Linked(s.files, r.chunk.fileId);
    }
  }

  lemma SelectedHeader(s: State, ids: set<string>, rows: seq<FilesWithChunks>, id: string)
    requires Forest(s.files) && IsSelection(s, ids, rows) && id in Ids(rows)
    ensures id in s.files && FirstHeader(rows, id) == HeaderOf(s.files[id])
  {
    var r := FirstHeaderFrom(rows, id);
    SelectionHas(s, ids, rows, r);
    assert Linked(s.files, r.chunk.fileId);
  }

  // A chunk-map entry of a selection is a stored row of that file and chunk.
  lemma SelectedChunks(s: State, ids: set<string>, rows: seq<FilesWithChunks>, id: string)
    requires Forest(s.files) && IsSelection(s, ids, rows) && id in ids && id in s.files
    ensures forall key :: key in ChunkMap(rows, id) ==>
      var c := ChunkMap(rows, id)[key].chunk;
      c in s.chunks && c.fileId == id && Decimal(c.chunkId) == key && ChunkMap(rows, id)[key].file == s.files[id]
    ensures forall c :: c in s.chunks && c.fileId == id ==> Decimal(c.chunkId) in ChunkMap(rows, id)
    ensures id in Ids(rows) <==> exists c :: c in s.chunks && c.fileId == id
  {
    ChunkMapHas(rows, id);
    IdsAre(rows);
    var m := ChunkMap(rows, id);
    forall key | key in m
      ensures m[key].chunk in s.chunks && m[key].chunk.fileId == id && m[key].file == s.files[id]
    {
      SelectionHas(s, ids, rows, m[key]);
      assert Linked(s.files, m[key].chunk.fileId);
    }
    assert Linked(s.files, id);
    forall c | c in s.chunks && c.fileId == id
      ensures Decimal(c.chunkId) in m && id in Ids(rows)
    {
      var r := FilesWithChunks(s.files[id], c);
      SelectionHas(s, ids, rows, r);
      assert Key(r) == Decimal(c.chunkId);
    }
    if id in Ids(rows) {
      var r :| r in rows && r.file.id == id;
      SelectionHas(s, ids, rows, r);
      assert Linked(s.files, r.chunk.fileId);
    }
  }

  // The columns that the query selects.
  function Columns(r: FilesWithChunks): (Header, Option<string>, Option<int>, int, Option<int>, string, string) {
    (HeaderOf(r.file), r.file.prevId, r.file.endDate,
     r.chunk.chunkId, r.chunk.nextChunkId, r.chunk.blobUrl, r.chunk.chunkHash)
  }

  // The others cannot tell two selected rows apart.
  lemma ColumnsDecide(s: State, ids: set<string>, rows: seq<FilesWithChunks>, r: FilesWithChunks, q: FilesWithChunks)
    requires Inv(s) && IsSelection(s, ids, rows) && r in rows && q in rows
    ensures Columns(r) == Columns(q) <==> r == q
  {
    SelectionHas(s, ids, rows, r);
    SelectionHas(s, ids, rows, q);
    assert Linked(s.files, r.chunk.fileId) && Linked(s.files, q.chunk.fileId);
    assert RowSound(s, r.chunk) && RowSound(s, q.chunk);
  }

  // A planned row is the predecessor's row for that chunk, under the new id.
  lemma BatchMeaning(s: State, msg: CacheMetadata, rows: seq<FilesWithChunks>, batch: seq<UserFile>, b: UserFile)
    returns (c: UserFile)
    requires Inv(s) && Agrees(s.files, msg) && msg.prevId.Some? && PlanEnabled(s, msg, rows, batch)
    requires PlanOf(msg.id, rows).Some? && b in batch
    ensures c in s.chunks && c.fileId == msg.prevId.value && b == c.(userId := s.files[msg.id].userId, fileId := msg.id)
    ensures forall d :: d in s.chunks && d.fileId == msg.id ==> d.chunkId != b.chunkId
    ensures s.files[msg.id].nChunks == s.files[msg.prevId.value].nChunks
  {
    var id, p := msg.id, msg.prevId.value;
    assert Linked(s.files, id);
    PlanMeaning(s, id, p, rows);
    var (own, filler) := PlanOf(id, rows).value;
    var key :| key in filler && b == FillerRow(own, filler[key]);
    SelectedChunks(s, {id, p}, rows, p);
    SelectedChunks(s, {id, p}, rows, id);
    c := filler[key].chunk;
  }

  // ---- Preservation, step by step ----

  // Everything but the new parts of a state carries over.
  lemma Assemble(s: State, t: State)
    requires Inv(s) && Extends(s, t) && FilesSound(t.files) && Tokens(t)
    requires forall m :: Pends(t, m) ==> Pends(s, m) || Agrees(t.files, m)
    requires forall c :: c in t.chunks ==> RowSound(s, c) || RowSound(t, c)
    requires t.worker.Planned? ==> forall b :: b in t.worker.batch ==>
      (RowSound(s, b) || RowSound(t, b)) && b.fileId == t.worker.msg.id
    ensures Inv(t)
  {
    forall c | RowSound(s, c) ensures RowSound(t, c) {
      RowStable(s, t, c);
    }
    forall m | Pends(t, m) ensures Agrees(t.files, m) {
      if Pends(s, m) {
        assert SameVersion(s.files[m.id], t.files[m.id]);
      }
    }
  }

  lemma NewVersionSound(files: Files, row: FileMetadata)
    requires FilesSound(files) && row.id !in files && ValidId(row.id) && row.rowid == |files|
    requires CountSound(row) && !row.current
    requires row.prevId.None? ==> !HashKnown(files, row.fileHash)
    requires row.prevId.Some? ==> row.prevId.value in files && files[row.prevId.value].fileHash != row.fileHash
    ensures FilesSound(files[row.id := row])
  {
    var more := files[row.id := row];
    assert |more| == |files| + 1;
    forall id | id in more ensures Linked(more, id) {
      if id == row.id {
        assert row.prevId.Some? ==> Linked(files, row.prevId.value);
      } else {
        assert Linked(files, id);
      }
    }
    forall id | id in more ensures CountSound(more[id]) {
      if id in files {
        assert CountSound(files[id]);
      }
    }
    forall a, b | a in more && b in more ensures HashApart(more, a, b) {
      if a in files && b in files {
        assert HashApart(files, a, b);
      } else if a in files {
        assert Linked(files, a);
      }
    }
  }

  lemma NewVersionTokens(s: State, row: FileMetadata)
    requires Tokens(s) && row.id !in s.files
    ensures Tokens(WithVersion(s, row))
  {
    var t := WithVersion(s, row);
    assert t.tokens[|s.tokens|] == StreamToken(row.id, row.userId);
    forall id | id in t.files ensures StreamToken(id, t.files[id].userId) in t.tokens {
      if id != row.id {
        assert StreamToken(id, s.files[id].userId) in s.tokens;
      }
    }
  }

  lemma NewVersionKeepsInv(s: State, row: FileMetadata)
    requires Inv(s) && row.id !in s.files && FilesSound(s.files[row.id := row])
    ensures Inv(WithVersion(s, row))
  {
    NewVersionTokens(s, row);
    Assemble(s, WithVersion(s, row));
  }

  lemma UploadKeepsInv(s: State, l: Label)
    requires Inv(s) && l.Upload? && l.token in s.tokens
    ensures Inv(UploadStep(s, l))
  {
    var t := UploadStep(s, l);
    var id := l.token.resourceId;
    assert Anc(t.files, id, id);
    var row := UserFile(l.token.userId, id, l.chunkId, PathOf(s.dir, id, l.chunkId), l.digest, Some(l.nextId));
    assert RowSound(t, row);
    Assemble(s, t);
  }

  lemma PlanKeepsInv(s: State, rows: seq<FilesWithChunks>, batch: seq<UserFile>)
    requires Inv(s) && s.worker.Took? && PlanEnabled(s, s.worker.msg, rows, batch)
    ensures Inv(PlanStep(s, rows, batch))
  {
    var msg, t := s.worker.msg, PlanStep(s, rows, batch);
    assert Pends(s, msg);
    if t.worker.Planned? {
      forall b | b in batch ensures RowSound(s, b) && b.fileId == msg.id {
        PlannedRowSound(s, msg, rows, batch, b);
      }
    }
    Assemble(s, t);
  }

  lemma PlannedRowSound(s: State, msg: CacheMetadata, rows: seq<FilesWithChunks>, batch: seq<UserFile>, b: UserFile)
    requires Inv(s) && Agrees(s.files, msg) && msg.prevId.Some? && PlanEnabled(s, msg, rows, batch)
    requires PlanOf(msg.id, rows).Some? && b in batch
    ensures RowSound(s, b) && b.fileId == msg.id
  {
    var c := BatchMeaning(s, msg, rows, batch, b);
    assert RowSound(s, c);
    var g :| Anc(s.files, g, c.fileId) && c.blobUrl == PathOf(s.dir, g, c.chunkId);
    assert Linked(s.files, msg.id);
    assert Parent(s.files, msg.id) == Some(c.fileId);
    assert Anc(s.files, g, b.fileId) && b.blobUrl == PathOf(s.dir, g, b.chunkId);
  }

  lemma BatchKeepsInv(s: State, committed: bool)
    requires Inv(s) && s.worker.Planned?
    ensures Inv(Apply(s, Batch(committed)))
  {
    Assemble(s, Apply(s, Batch(committed)));
  }

  // The hand-over finds the row of its message, so it always raises a flag.
  lemma HandOverRows(files: Files, msg: CacheMetadata, status: Status, now: int)
    requires Forest(files) && Agrees(files, msg)
    ensures var after := HandedOver(files, msg.prevId, msg.id, status, now);
      after.Keys == files.Keys &&
      after[msg.id] == files[msg.id].(current := true, endDate := None, status := status) &&
      (msg.prevId.Some? ==>
        msg.prevId.value in files && msg.prevId.value != msg.id &&
        after[msg.prevId.value] ==
          files[msg.prevId.value].(current := false, endDate := Some(now), status := status)) &&
      forall id :: id in files && id != msg.id && Some(id) != msg.prevId ==> after[id] == files[id]
  {
    assert Linked(files, msg.id);
  }

  // Flags, status and end date do not matter to the forest or the hashes.
  lemma SameVersions(files: Files, after: Files)
    requires after.Keys == files.Keys && forall id :: id in files ==> SameVersion(files[id], after[id])
    ensures Forest(files) ==> Forest(after)
    ensures Hashes(files) ==> Hashes(after)
  {
    assert |after| == |after.Keys| == |files.Keys| == |files|;
    if Forest(files) {
      forall id | id in after ensures Linked(after, id) {
        assert Linked(files, id);
      }
    }
    if Hashes(files) {
      forall a, b | a in after && b in after ensures HashApart(after, a, b) {
        assert HashApart(files, a, b);
      }
    }
  }

  lemma SameCount(f: FileMetadata, g: FileMetadata)
    requires SameVersion(f, g) && CountSound(f)
    ensures CountSound(g)
  {
  }

  lemma HandOverSound(files: Files, msg: CacheMetadata, status: Status, now: int)
    requires FilesSound(files) && Agrees(files, msg) && status != Uploading
    ensures var after := HandedOver(files, msg.prevId, msg.id, status, now);
      FilesSound(after) && after.Keys == files.Keys &&
      forall id :: id in files ==> SameVersion(files[id], after[id])
  {
    var after := HandedOver(files, msg.prevId, msg.id, status, now);
    HandOverRows(files, msg, status, now);
    SameVersions(files, after);
    forall id | id in after ensures CountSound(after[id]) {
      SameCount(files[id], after[id]);
    }
  }

  lemma SameTokens(s: State, t: State)
    requires Tokens(s) && t.tokens == s.tokens && t.files.Keys == s.files.Keys
    requires forall id :: id in s.files ==> SameVersion(s.files[id], t.files[id])
    ensures Tokens(t)
  {
    forall id | id in t.files ensures t.files[id].userId == s.files[id].userId {
      assert SameVersion(s.files[id], t.files[id]);
    }
  }

  lemma FlagsKeepInv(s: State, after: Files)
    requires Inv(s) && FilesSound(after)
    requires after.Keys == s.files.Keys && forall id :: id in s.files ==> SameVersion(s.files[id], after[id])
    ensures Inv(s.(worker := Idle, files := after))
  {
    var t := s.(worker := Idle, files := after);
    SameTokens(s, t);
    Assemble(s, t);
  }

  lemma InFlightAgrees(s: State)
    requires Messages(s) && !s.worker.Idle?
    ensures Agrees(s.files, s.worker.msg)
  {
    assert Pends(s, s.worker.msg);
  }

  lemma HandOverKeepsInv(s: State, committed: bool, now: int)
    requires Inv(s) && s.worker.Filled?
    ensures Inv(Apply(s, HandOver(committed, now)))
  {
    if committed {
      InFlightAgrees(s);
      HandOverSound(s.files, s.worker.msg, StatusOf(s.worker.ok), now);
      FlagsKeepInv(s, FlagsAfter(s, now));
    } else {
      FlagsKeepInv(s, s.files);
    }
  }

  lemma CreateKeepsInv(s: State, l: Label)
    requires Inv(s) && Enabled(s, l) && (l.Prepare? || l.Succeed?)
    ensures Inv(Apply(s, l))
  {
    if l.Prepare? {
      if PrepareCheck(s, l.req).None? {
        NewVersionSound(s.files, FirstVersion(s, l.req, l.id));
        NewVersionKeepsInv(s, FirstVersion(s, l.req, l.id));
      }
    } else if SucceedCheck(s, l.upd).None? {
      NewVersionSound(s.files, NextVersion(s, l.upd, l.id));
      NewVersionKeepsInv(s, NextVersion(s, l.upd, l.id));
    }
  }

  // Steps that touch neither files, nor chunk rows, nor tokens.
  ghost predicate Quiet(s: State, t: State) {
    t == s.(queue := t.queue, worker := t.worker, cache := t.cache) &&
    (t.worker.Planned? ==> t.worker == s.worker) &&
    forall m :: Pends(t, m) ==> Pends(s, m) || Agrees(s.files, m)
  }

  lemma QuietSteps(s: State, l: Label)
    requires l.Eof? || l.Take? || l.Crash? || l.Get? || l.Expire?
    ensures Quiet(s, Apply(s, l))
  {
  }

  lemma QuietKeepsInv(s: State, t: State)
    requires Inv(s) && Quiet(s, t)
    ensures Inv(t)
  {
    Assemble(s, t);
  }

  lemma StepKeepsInv(s: State, l: Label)
    requires Inv(s) && Enabled(s, l)
    ensures Inv(Apply(s, l))
  {
    if l.Prepare? || l.Succeed? {
      CreateKeepsInv(s, l);
    } else if l.Upload? {
      UploadKeepsInv(s, l);
    } else if l.Plan? {
      PlanKeepsInv(s, l.rows, l.batch);
    } else if l.Batch? {
      BatchKeepsInv(s, l.committed);
    } else if l.HandOver? {
      HandOverKeepsInv(s, l.committed, l.now);
    } else {
      QuietSteps(s, l);
      QuietKeepsInv(s, Apply(s, l));
    }
  }

  // ---- Theorems about runs ----

  lemma {:induction false} RunKeepsInv(dir: string, labels: seq<Label>)
    requires Legal(Init(dir), labels)
    ensures Inv(Run(Init(dir), labels))
  {
    if labels != [] {
      RunKeepsInv(dir, labels[..|labels| - 1]);
      StepKeepsInv(Run(Init(dir), labels[..|labels| - 1]), labels[|labels| - 1]);
    }
  }

  // Walking prev_id from any version stays in the table and ends at a first
  // version; links and hashes never change; each hash rule holds.
  lemma {:induction false} WalkEnds(files: Files, v: string)
    requires Forest(files) && v in files
    ensures Root(files, v) in files && files[Root(files, v)].prevId.None? && Anc(files, Root(files, v), v)
    decreases files[v].rowid
  {
    assert Linked(files, v);
    if files[v].prevId.Some? {
      WalkEnds(files, files[v].prevId.value);
    }
  }

  lemma VersionForest(dir: string, before: seq<Label>, after: seq<Label>, v: string)
    requires Legal(Init(dir), before + after) && v in Run(Init(dir), before).files
    ensures var was, files := Run(Init(dir), before).files, Run(Init(dir), before + after).files;
      v in files && files[v].prevId == was[v].prevId && files[v].fileHash == was[v].fileHash &&
      Root(files, v) == Root(was, v) && Root(files, v) in files && files[Root(files, v)].prevId.None? &&
      (files[v].prevId.Some? ==>
        files[v].prevId.value in files && files[files[v].prevId.value].rowid < files[v].rowid &&
        files[files[v].prevId.value].fileHash != files[v].fileHash) &&
      (files[v].current ==> files[v].endDate.None?)
    ensures forall w :: w in Run(Init(dir), before + after).files ==>
      HashApart(Run(Init(dir), before + after).files, v, w)
  {
    var s, t := Run(Init(dir), before), Run(Init(dir), before + after);
    RunSplit(Init(dir), before, after);
    RunExtends(s, after);
    RunKeepsInv(dir, before);
    RunKeepsInv(dir, before + after);
    assert SameVersion(s.files[v], t.files[v]);
    AncStable(s.files, t.files, v, v);
    WalkEnds(t.files, v);
    assert Linked(t.files, v);
  }

  // No foreign keys, yet: a stream token for every version, and every chunk row
  // and message names an existing version with the same owner.
  lemma ReferentialIntegrity(dir: string, labels: seq<Label>)
    requires Legal(Init(dir), labels)
    ensures var s := Run(Init(dir), labels);
      (forall id :: id in s.files ==> StreamToken(id, s.files[id].userId) in s.tokens) &&
      (forall c :: c in s.chunks ==> c.fileId in s.files && s.files[c.fileId].userId == c.userId) &&
      (forall m :: m in s.queue ==>
        m.id in s.files && s.files[m.id].prevId == m.prevId && s.files[m.id].userId == m.userId)
  {
    RunKeepsInv(dir, labels);
    var s := Run(Init(dir), labels);
    forall m | m in s.queue ensures Agrees(s.files, m) {
      assert Pends(s, m);
    }
  }

  // In every run a stored count is the ceiling of the stored size exactly where
  // the float ceiling is; up to 2^53 - 2 it always is.
  lemma StoredCounts(dir: string, labels: seq<Label>, id: string)
    requires Legal(Init(dir), labels) && id in Run(Init(dir), labels).files
    requires -TWO63 <= Run(Init(dir), labels).files[id].fileSize < TWO63
    ensures var f := Run(Init(dir), labels).files[id];
      (IsCeiling(f.nChunks, f.fileSize) <==> CountsExactly(f.fileSize)) &&
      (-TWO53 < f.fileSize <= TWO53 - 2 ==> IsCeiling(f.nChunks, f.fileSize))
  {
    RunKeepsInv(dir, labels);
    var f := Run(Init(dir), labels).files[id];
    assert CountSound(f);
    CountIsCeilingIff(f.fileSize);
    if -TWO53 < f.fileSize <= TWO53 - 2 {
      SafeSizes(f.fileSize);
    }
  }

  // Where the bytes of a chunk row are: at the same chunk of the version itself
  // or of a predecessor.
  lemma Provenance(dir: string, labels: seq<Label>, c: UserFile) returns (g: string)
    requires Legal(Init(dir), labels) && c in Run(Init(dir), labels).chunks
    ensures g in Run(Init(dir), labels).files && Anc(Run(Init(dir), labels).files, g, c.fileId)
    ensures c.blobUrl == PathOf(dir, g, c.chunkId)
  {
    RunKeepsInv(dir, labels);
    RunExtends(Init(dir), labels);
    var s := Run(Init(dir), labels);
    assert RowSound(s, c);
    g :| Anc(s.files, g, c.fileId) && c.blobUrl == PathOf(s.dir, g, c.chunkId);
    if g != c.fileId {
      AncOlder(s.files, g, c.fileId);
    }
  }

  lemma JoinWithout(files: Files, chunks: seq<UserFile>, c: UserFile, ids: set<string>)
    requires c.fileId !in ids
    ensures JoinRows(files, chunks + [c], ids) == JoinRows(files, chunks, ids)
  {
    assert (chunks + [c])[..|chunks|] == chunks;
  }

  // An upload changes only what the version itself and its successors return.
  lemma UploadFrame(dir: string, labels: seq<Label>, l: Label, v: string, user: string, rows: seq<FilesWithChunks>,
                    io: seq<CacheIo>)
    requires Legal(Init(dir), labels + [l]) && l.Upload?
    requires v in Run(Init(dir), labels).files && !Anc(Run(Init(dir), labels).files, l.token.resourceId, v)
    requires IsSelection(Run(Init(dir), labels), {v}, rows)
    ensures IsSelection(Run(Init(dir), labels + [l]), {v}, rows)
    ensures Listing(rows, v, user).Ok? ==>
      Fetch(Run(Init(dir), labels + [l]).blobs, Listing(rows, v, user).value) ==
      Fetch(Run(Init(dir), labels).blobs, Listing(rows, v, user).value)
    ensures GetStep(Run(Init(dir), labels + [l]), Get(v, user, rows, io)) ==
      GetStep(Run(Init(dir), labels), Get(v, user, rows, io))
  {
    var s := Run(Init(dir), labels);
    assert (labels + [l])[..|labels|] == labels;
    var t := UploadStep(s, l);
    var x := l.token.resourceId;
    var path := PathOf(s.dir, x, l.chunkId);
    JoinWithout(s.files, s.chunks, UserFile(l.token.userId, x, l.chunkId, path, l.digest, Some(l.nextId)), {v});
    RunKeepsInv(dir, labels);
    if Listing(rows, v, user).Ok? {
      var urls := Listing(rows, v, user).value;
      forall url | url in urls ensures url != path {
        UrlsFromRows(s, rows, v, user, url);
        if url != "" {
          var c :| c in s.chunks && c.fileId == v && c.blobUrl == url;
          assert RowSound(s, c);
          var g :| Anc(s.files, g, v) && c.blobUrl == PathOf(s.dir, g, c.chunkId);
          UrlElsewhere(s, x, l.chunkId, g, c.chunkId, v);
        }
      }
      FetchFrame(s.blobs, t.blobs, urls);
      if |io| == |urls| {
        CachedFrame(s.blobs, t.blobs, s.cache, urls, io);
      }
    }
  }

  lemma UrlElsewhere(s: State, x: string, k: int, g: string, m: int, v: string)
    requires Forest(s.files) && v in s.files && Anc(s.files, g, v) && !Anc(s.files, x, v) && x in s.files
    ensures PathOf(s.dir, x, k) != PathOf(s.dir, g, m)
  {
    assert Linked(s.files, v) && Linked(s.files, x);
    if g != v {
      AncOlder(s.files, g, v);
      assert Linked(s.files, g);
    }
    if PathOf(s.dir, x, k) == PathOf(s.dir, g, m) {
      PathInjective(s.dir, x, k, g, m);
    }
  }

  // A listed url is empty or that of a stored row of the file.
  lemma UrlsFromRows(s: State, rows: seq<FilesWithChunks>, v: string, user: string, url: string)
    requires Forest(s.files) && v in s.files && IsSelection(s, {v}, rows)
    requires Listing(rows, v, user).Ok? && url in Listing(rows, v, user).value
    ensures url == "" || exists c :: c in s.chunks && c.fileId == v && c.blobUrl == url
  {
    var owned := OwnedBy(rows, user);
    ChunkMapHas(owned, v);
    var view := Entry(owned, v).value;
    var k :| 0 <= k < |Urls(view)| && Urls(view)[k] == url;
    if url != "" {
      var r := view.chunks[Decimal(k)];
      SelectionHas(s, {v}, rows, r);
    }
  }
}
