// Where stored things come from: in every run each version, message and chunk row
// goes back to a request, field by field.
module Origins {
  import opened Rows
  import opened Text
  import opened Grouping
  import opened Reconstruct
  import opened Downloads
  import opened Machine
  import opened Versions

  // ---- Versions ----

  // The request that made v, and what its row says of it.
  predicate Made(files: Files, l: Label, v: string)
    requires v in files
  {
    match l
    case Prepare(req, id) => id == v && FirstSays(files[v], req)
    case Succeed(upd, id) => id == v && upd.fileId in files && NextSays(files[v], upd, files[upd.fileId])
    case _ => false
  }

  lemma StillMade(files: Files, more: Files, l: Label, v: string)
    requires v in files && Made(files, l, v) && files.Keys <= more.Keys
    requires forall id :: id in files ==> SameVersion(files[id], more[id])
    ensures Made(more, l, v)
  {
    assert SameVersion(files[v], more[v]);
    if l.Succeed? {
      assert SameVersion(files[l.upd.fileId], more[l.upd.fileId]);
    }
  }

  lemma StepMakes(s: State, l: Label, v: string)
    requires Enabled(s, l) && v in Apply(s, l).files && v !in s.files
    ensures Made(Apply(s, l).files, l, v)
  {
  }

  // In every run each version was made by a request of the run.
  lemma {:induction false} VersionOrigin(dir: string, labels: seq<Label>, v: string) returns (i: nat)
    requires Legal(Init(dir), labels) && v in Run(Init(dir), labels).files
    ensures i < |labels| && Made(Run(Init(dir), labels).files, labels[i], v)
  {
    var before := labels[..|labels| - 1];
    var s, l := Run(Init(dir), before), labels[|labels| - 1];
    if v in s.files {
      i := VersionOrigin(dir, before, v);
      StepExtends(s, l);
      StillMade(s.files, Apply(s, l).files, before[i], v);
    } else {
      StepMakes(s, l, v);
      i := |before|;
    }
  }

  lemma {:induction false} NameOfRoot(dir: string, labels: seq<Label>, v: string)
    requires Legal(Init(dir), labels) && v in Run(Init(dir), labels).files
    ensures var files := Run(Init(dir), labels).files;
      Root(files, v) in files && files[Root(files, v)].prevId.None? &&
      files[v].fileName == files[Root(files, v)].fileName && files[v].fileType == files[Root(files, v)].fileType
    decreases Run(Init(dir), labels).files[v].rowid
  {
    var files := Run(Init(dir), labels).files;
    RunKeepsInv(dir, labels);
    assert Linked(files, v);
    var i := VersionOrigin(dir, labels, v);
    if files[v].prevId.Some? {
      NameOfRoot(dir, labels, files[v].prevId.value);
    }
  }

  // In every run the name and type of a version are those of the request for the
  // first version of its tree.
  lemma NamedByFirst(dir: string, labels: seq<Label>, v: string) returns (i: nat)
    requires Legal(Init(dir), labels) && v in Run(Init(dir), labels).files
    ensures i < |labels| && labels[i].Prepare? && labels[i].id == Root(Run(Init(dir), labels).files, v)
    ensures var f := Run(Init(dir), labels).files[v];
      f.fileName == labels[i].req.fileName && f.fileType == labels[i].req.fileType
  {
    NameOfRoot(dir, labels, v);
    i := VersionOrigin(dir, labels, Root(Run(Init(dir), labels).files, v));
  }

  // ---- Listed files ----

  predicate Asked(l: Label, h: Header) {
    match l
    case Prepare(req, id) =>
      h.id == id && h.size == req.fileSize && h.hash == req.digest && h.nChunks == req.chunks && h.userId == req.userId
    case Succeed(upd, id) =>
      h.id == id && h.size == upd.fileSize && h.hash == upd.digest && h.nChunks == upd.chunks && h.userId == upd.userId
    case _ => false
  }

  // In every run a listed version shows the size, hash, count and owner of its own
  // request, the name and type of the request for the first version of its tree,
  // and its current flag.
  lemma ListedAsAsked(dir: string, labels: seq<Label>, v: string, user: string, rows: seq<FilesWithChunks>,
                      view: FileView)
    returns (i: nat, j: nat)
    requires Legal(Init(dir), labels) && IsSelection(Run(Init(dir), labels), {v}, rows)
    requires Entry(OwnedBy(rows, user), v) == Some(view)
    ensures v in Run(Init(dir), labels).files && view.header.current == Run(Init(dir), labels).files[v].current
    ensures i < |labels| && view.header.id == v && Asked(labels[i], view.header)
    ensures j < |labels| && labels[j].Prepare? && labels[j].id == Root(Run(Init(dir), labels).files, v)
    ensures view.header.name == labels[j].req.fileName && view.header.fileType == labels[j].req.fileType
  {
    var s := Run(Init(dir), labels);
    RunKeepsInv(dir, labels);
    var owned := OwnedBy(rows, user);
    var k := EarliestRow(owned, v);
    assert owned[k] in rows;
    SelectionHas(s, {v}, rows, owned[k]);
    assert Linked(s.files, owned[k].chunk.fileId);
    i := VersionOrigin(dir, labels, v);
    j := NamedByFirst(dir, labels, v);
  }

  // ---- Messages ----

  lemma StepQueues(s: State, l: Label, m: CacheMetadata)
    requires Pends(Apply(s, l), m) && !Pends(s, m)
    ensures l.Eof? && l.fileId == m.id && l.deviceId == m.deviceId
  {
  }

  // In every run each waiting message comes from an end of file for that version
  // from that device.
  lemma {:induction false} MessageOrigin(dir: string, labels: seq<Label>, m: CacheMetadata) returns (i: nat)
    requires Legal(Init(dir), labels) && Pends(Run(Init(dir), labels), m)
    ensures i < |labels| && labels[i].Eof? && labels[i].fileId == m.id && labels[i].deviceId == m.deviceId
  {
    var before := labels[..|labels| - 1];
    if Pends(Run(Init(dir), before), m) {
      i := MessageOrigin(dir, before, m);
    } else {
      StepQueues(Run(Init(dir), before), labels[|labels| - 1], m);
      i := |before|;
    }
  }

  // ---- Chunk rows ----

  // The upload that row c goes back to: to its version or a predecessor, for the
  // same chunk, with the same digest and link.
  predicate From(files: Files, dir: string, l: Label, c: UserFile) {
    l.Upload? && l.stored && l.chunkId == c.chunkId && l.digest == c.chunkHash && Some(l.nextId) == c.nextChunkId &&
    c.blobUrl == PathOf(dir, l.token.resourceId, c.chunkId) && Anc(files, l.token.resourceId, c.fileId)
  }

  ghost predicate HasOrigin(files: Files, dir: string, labels: seq<Label>, c: UserFile) {
    exists i :: 0 <= i < |labels| && From(files, dir, labels[i], c)
  }

  ghost predicate AllFrom(s: State, dir: string, labels: seq<Label>) {
    (forall c :: c in s.chunks ==> HasOrigin(s.files, dir, labels, c)) &&
    (s.worker.Planned? ==> forall b :: b in s.worker.batch ==> HasOrigin(s.files, dir, labels, b))
  }

  lemma OriginKept(files: Files, more: Files, dir: string, labels: seq<Label>, l: Label, c: UserFile)
    requires Forest(files) && c.fileId in files && files.Keys <= more.Keys && HasOrigin(files, dir, labels, c)
    requires forall id :: id in files ==> SameVersion(files[id], more[id])
    ensures HasOrigin(more, dir, labels + [l], c)
  {
    var i :| 0 <= i < |labels| && From(files, dir, labels[i], c);
    AncStable(files, more, labels[i].token.resourceId, c.fileId);
    assert (labels + [l])[i] == labels[i];
  }

  // A borrowed row has the origin of the row it is borrowed from.
  lemma BorrowedFrom(s: State, dir: string, labels: seq<Label>, msg: CacheMetadata, rows: seq<FilesWithChunks>,
                     batch: seq<UserFile>, b: UserFile)
    requires Inv(s) && AllFrom(s, dir, labels) && Agrees(s.files, msg) && msg.prevId.Some?
    requires PlanEnabled(s, msg, rows, batch) && PlanOf(msg.id, rows).Some? && b in batch
    ensures HasOrigin(s.files, dir, labels, b) && b.fileId == msg.id
  {
    var c := BatchMeaning(s, msg, rows, batch, b);
    var i :| 0 <= i < |labels| && From(s.files, dir, labels[i], c);
    assert Linked(s.files, msg.id) && Parent(s.files, b.fileId) == Some(c.fileId);
    assert From(s.files, dir, labels[i], b);
  }

  lemma NewRows(s: State, l: Label)
    requires Enabled(s, l)
    ensures s.dir == Apply(s, l).dir
    ensures forall c :: c in Apply(s, l).chunks && c !in s.chunks ==>
      l.Upload? || (l.Batch? && s.worker.Planned? && c in s.worker.batch)
    ensures Apply(s, l).worker.Planned? ==> Apply(s, l).worker == s.worker || l.Plan?
  {
  }

  lemma UploadedFrom(s: State, dir: string, labels: seq<Label>, l: Label, c: UserFile)
    requires l.Upload? && s.dir == dir && c in Apply(s, l).chunks && c !in s.chunks
    ensures HasOrigin(Apply(s, l).files, dir, labels + [l], c)
  {
    assert (labels + [l])[|labels|] == l;
    assert From(Apply(s, l).files, dir, l, c);
  }

  lemma PlannedFrom(s: State, dir: string, labels: seq<Label>, l: Label, b: UserFile)
    requires Inv(s) && Enabled(s, l) && l.Plan? && AllFrom(s, dir, labels)
    requires Apply(s, l).worker.Planned? && b in Apply(s, l).worker.batch
    ensures HasOrigin(s.files, dir, labels, b) && b.fileId in s.files
  {
    InFlightAgrees(s);
    BorrowedFrom(s, dir, labels, s.worker.msg, l.rows, l.batch, b);
  }

  lemma StepKeepsOrigins(s: State, dir: string, labels: seq<Label>, l: Label)
    requires Inv(s) && Enabled(s, l) && s.dir == dir && AllFrom(s, dir, labels)
    ensures AllFrom(Apply(s, l), dir, labels + [l]) && Apply(s, l).dir == dir
  {
    var t := Apply(s, l);
    StepExtends(s, l);
    NewRows(s, l);
    forall c | c in t.chunks ensures HasOrigin(t.files, dir, labels + [l], c) {
      if c in s.chunks || !l.Upload? {
        assert RowSound(s, c);
        OriginKept(s.files, t.files, dir, labels, l, c);
      } else {
        UploadedFrom(s, dir, labels, l, c);
      }
    }
    if t.worker.Planned? {
      forall b | b in t.worker.batch ensures HasOrigin(t.files, dir, labels + [l], b) {
        if l.Plan? && t.worker != s.worker {
          PlannedFrom(s, dir, labels, l, b);
        } else {
          assert RowSound(s, b);
        }
        OriginKept(s.files, t.files, dir, labels, l, b);
      }
    }
  }

  lemma {:induction false} RunKeepsOrigins(dir: string, labels: seq<Label>)
    requires Legal(Init(dir), labels)
    ensures AllFrom(Run(Init(dir), labels), dir, labels) && Run(Init(dir), labels).dir == dir
  {
    if labels == [] {
      StartOrigins(dir);
    } else {
      var before := labels[..|labels| - 1];
      RunKeepsOrigins(dir, before);
      RunKeepsInv(dir, before);
      StepKeepsOrigins(Run(Init(dir), before), dir, before, labels[|labels| - 1]);
      assert labels == before + [labels[|labels| - 1]];
    }
  }

  lemma StartOrigins(dir: string)
    ensures AllFrom(Init(dir), dir, []) && Init(dir).dir == dir
  {
  }

  // In every run each chunk row, uploaded or borrowed, says what one upload said,
  // to its version or a predecessor.
  lemma RowOrigin(dir: string, labels: seq<Label>, c: UserFile) returns (i: nat)
    requires Legal(Init(dir), labels) && c in Run(Init(dir), labels).chunks
    ensures i < |labels| && From(Run(Init(dir), labels).files, dir, labels[i], c)
  {
    RunKeepsOrigins(dir, labels);
    var k :| 0 <= k < |labels| && From(Run(Init(dir), labels).files, dir, labels[k], c);
    i := k;
  }
}
