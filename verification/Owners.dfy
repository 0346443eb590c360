// Whose file it is: UpdateFileMetadata (core/files/service.metadata.go) accepts a
// successor from any user. What follows if the owner is kept, and if not.
module Owners {
  import opened Rows
  import opened Text
  import opened Machine
  import opened Versions
  import opened Currency
  import opened Convergence

  // ---- Keeping the owner ----

  predicate KeepsOwner(s: State, l: Label) {
    l.Succeed? && SucceedCheck(s, l.upd).None? ==> l.upd.userId == s.files[l.upd.fileId].userId
  }

  predicate OwnersKept(s: State, labels: seq<Label>) {
    labels == [] ||
    (OwnersKept(s, labels[..|labels| - 1]) && KeepsOwner(Run(s, labels[..|labels| - 1]), labels[|labels| - 1]))
  }

  predicate OwnLink(files: Files, id: string)
    requires id in files
  {
    files[id].prevId.Some? && files[id].prevId.value in files ==>
      files[files[id].prevId.value].userId == files[id].userId
  }

  predicate SameOwners(files: Files) {
    forall id {:trigger OwnLink(files, id)} :: id in files ==> OwnLink(files, id)
  }

  lemma SameLinks(files: Files, more: Files)
    requires Forest(files) && files.Keys <= more.Keys && forall id :: id in files ==> SameVersion(files[id], more[id])
    ensures forall id :: id in files ==> (OwnLink(files, id) <==> OwnLink(more, id))
  {
    forall id | id in files ensures OwnLink(files, id) <==> OwnLink(more, id) {
      assert Linked(files, id) && SameVersion(files[id], more[id]);
      if files[id].prevId.Some? {
        assert SameVersion(files[files[id].prevId.value], more[files[id].prevId.value]);
      }
    }
  }

  lemma StepKeepsOwnersIff(s: State, l: Label)
    requires Inv(s) && Enabled(s, l)
    ensures SameOwners(Apply(s, l).files) <==> SameOwners(s.files) && KeepsOwner(s, l)
  {
    var files := Apply(s, l).files;
    StepExtends(s, l);
    SameLinks(s.files, files);
    NewLink(s, l);
    assert forall id :: id in s.files ==> id in files;
    if SameOwners(files) {
      forall id | id in s.files ensures OwnLink(s.files, id) {
        assert OwnLink(files, id);
      }
    }
  }

  // A step adds at most one version, and its link is what the condition is about.
  lemma NewLink(s: State, l: Label)
    requires Enabled(s, l)
    ensures forall id :: id in Apply(s, l).files && id !in s.files ==>
      (OwnLink(Apply(s, l).files, id) <==> KeepsOwner(s, l))
    ensures !KeepsOwner(s, l) ==> l.id in Apply(s, l).files && l.id !in s.files
  {
  }

  // A run accepts only successors by the predecessor's owner exactly if all links
  // of its versions stay with one owner.
  lemma {:induction false} OwnersKeptIff(dir: string, labels: seq<Label>)
    requires Legal(Init(dir), labels)
    ensures OwnersKept(Init(dir), labels) <==> SameOwners(Run(Init(dir), labels).files)
  {
    if labels != [] {
      var before := labels[..|labels| - 1];
      OwnersKeptIff(dir, before);
      RunKeepsInv(dir, before);
      StepKeepsOwnersIff(Run(Init(dir), before), labels[|labels| - 1]);
    }
  }

  lemma {:induction false} OneOwnerPerPath(files: Files, a: string, v: string)
    requires Forest(files) && SameOwners(files) && v in files && Anc(files, a, v)
    ensures a in files && files[a].userId == files[v].userId
    decreases files[v].rowid
  {
    if a != v {
      assert Linked(files, v) && OwnLink(files, v);
      OneOwnerPerPath(files, a, Parent(files, v).value);
    }
  }

  // ---- What owners are promised then ----

  ghost predicate OwnsCurrent(files: Files, root: string, user: string) {
    exists w :: w in files && files[w].current && Root(files, w) == root && files[w].userId == user
  }

  // In every run that keeps owners: a file that its owner once had as current
  // stays current for that owner.
  lemma StaysWithOwner(dir: string, before: seq<Label>, after: seq<Label>, v: string)
    requires Legal(Init(dir), before + after) && OwnersKept(Init(dir), before + after)
    requires v in Run(Init(dir), before).files && Run(Init(dir), before).files[v].current
    ensures var was := Run(Init(dir), before).files;
      OwnsCurrent(Run(Init(dir), before + after).files, Root(was, v), was[v].userId)
  {
    var was, files := Run(Init(dir), before).files, Run(Init(dir), before + after).files;
    NeverVanishes(dir, before, after, v);
    VersionForest(dir, before, after, v);
    var w :| w in files && files[w].current && Root(files, w) == Root(was, v);
    RunKeepsInv(dir, before + after);
    OwnersKeptIff(dir, before + after);
    SameOwnerInTree(files, v, w);
    RunSplit(Init(dir), before, after);
    RunExtends(Run(Init(dir), before), after);
    assert SameVersion(was[v], files[v]);
  }

  lemma SameOwnerInTree(files: Files, v: string, w: string)
    requires Forest(files) && SameOwners(files) && v in files && w in files && Root(files, v) == Root(files, w)
    ensures files[v].userId == files[w].userId
  {
    WalkEnds(files, v);
    WalkEnds(files, w);
    OneOwnerPerPath(files, Root(files, v), v);
    OneOwnerPerPath(files, Root(files, w), w);
  }

  // Rows that lead to the same blob belong to the same user.
  predicate BlobsApart(chunks: seq<UserFile>) {
    forall c, d :: c in chunks && d in chunks && c.blobUrl == d.blobUrl ==> c.userId == d.userId
  }

  // In every run that keeps owners: a user's rows lead only to blobs of that
  // user's versions, so no two users share a blob.
  lemma OwnBlobs(dir: string, labels: seq<Label>)
    requires Legal(Init(dir), labels) && OwnersKept(Init(dir), labels)
    ensures BlobsApart(Run(Init(dir), labels).chunks)
  {
    var s := Run(Init(dir), labels);
    forall c, d | c in s.chunks && d in s.chunks && c.blobUrl == d.blobUrl ensures c.userId == d.userId {
      var g := OwnBlob(dir, labels, c);
      var h := OwnBlob(dir, labels, d);
      PathInjective(dir, g, c.chunkId, h, d.chunkId);
    }
  }

  lemma OwnBlob(dir: string, labels: seq<Label>, c: UserFile) returns (g: string)
    requires Legal(Init(dir), labels) && OwnersKept(Init(dir), labels) && c in Run(Init(dir), labels).chunks
    ensures var files := Run(Init(dir), labels).files; g in files && files[g].userId == c.userId && ValidId(g)
    ensures c.blobUrl == PathOf(dir, g, c.chunkId)
  {
    g := Provenance(dir, labels, c);
    var s := Run(Init(dir), labels);
    RunKeepsInv(dir, labels);
    OwnersKeptIff(dir, labels);
    assert RowSound(s, c) && Linked(s.files, g);
    OneOwnerPerPath(s.files, g, c.fileId);
  }

  // ---- Exactly when a step takes it away ----

  // Another version of the tree than `p` is current for the user.
  ghost predicate OwnsOther(files: Files, p: string, user: string) {
    exists w :: w in files && w != p && files[w].current && Root(files, w) == Root(files, p) && files[w].userId == user
  }

  // A hand-over from p leaves a user with a current version in the tree exactly
  // if the new version is that user's, or another than p is current for the user.
  lemma HandOverKeepsOwnerIff(files: Files, msg: CacheMetadata, p: string, user: string, status: Status, now: int)
    requires Forest(files) && Agrees(files, msg) && msg.prevId == Some(p) && p in files
    ensures OwnsCurrent(HandedOver(files, msg.prevId, msg.id, status, now), Root(files, p), user) <==>
      files[msg.id].userId == user || OwnsOther(files, p, user)
  {
    var after := HandedOver(files, msg.prevId, msg.id, status, now);
    HandOverRows(files, msg, status, now);
    assert Linked(files, msg.id);
    assert Root(files, msg.id) == Root(files, p);
    forall w | w in files ensures Root(after, w) == Root(files, w) {
      AncStable(files, after, w, w);
    }
    assert after[msg.id].current;
    if OwnsOther(files, p, user) {
      var w :| w in files && w != p && files[w].current && Root(files, w) == Root(files, p) && files[w].userId == user;
      assert after[w].current;
    }
  }

  // A batch keeps users' blobs apart exactly if it borrows nothing or the two
  // versions have the same owner.
  lemma BatchKeepsApartIff(s: State, msg: CacheMetadata, p: string, rows: seq<FilesWithChunks>, batch: seq<UserFile>)
    requires Inv(s) && Agrees(s.files, msg) && msg.prevId == Some(p) && p in s.files && BlobsApart(s.chunks)
    requires PlanEnabled(s, msg, rows, batch) && PlanOf(msg.id, rows).Some?
    ensures BlobsApart(s.chunks + batch) <==> batch == [] || s.files[msg.id].userId == s.files[p].userId
  {
    forall b | b in batch
      ensures exists d :: d in s.chunks && d.blobUrl == b.blobUrl && d.userId == s.files[p].userId
      ensures b.userId == s.files[msg.id].userId
    {
      var d := BatchMeaning(s, msg, rows, batch, b);
      assert RowSound(s, d);
    }
    if batch != [] && s.files[msg.id].userId != s.files[p].userId {
      var b := batch[0];
      var d :| d in s.chunks && d.blobUrl == b.blobUrl && d.userId == s.files[p].userId;
      assert b in s.chunks + batch && d in s.chunks + batch;
    }
  }

  // ---- What happens otherwise ----

  // A fully uploaded successor, by another user, of the only version in the tree
  // that is current for its owner.
  ghost predicate Claims(s: State, p: string, v: string) {
    s.worker.Idle? && s.queue == [] && Covers(s, v, p) && s.files[v].prevId == Some(p) &&
    s.files[v].status == Uploading && s.files[v].userId != s.files[p].userId &&
    !OwnsOther(s.files, p, s.files[p].userId)
  }

  // Wherever there is one, some continuation leaves the owner without the file.
  lemma OwnerLosesFile(dir: string, labels: seq<Label>, p: string, v: string) returns (more: seq<Label>)
    requires Legal(Init(dir), labels) && Claims(Run(Init(dir), labels), p, v)
    ensures Legal(Init(dir), more) && Reconciles(labels, more)
    ensures var files := Run(Init(dir), labels).files;
      !OwnsCurrent(Run(Init(dir), more).files, Root(files, p), files[p].userId)
  {
    var s := Run(Init(dir), labels);
    RunKeepsInv(dir, labels);
    RunLast(Init(dir), labels, Eof(v, ""));
    var queued := labels + [Eof(v, "")];
    RunKeepsInv(dir, queued);
    FlagsCover(s, Run(Init(dir), queued), v, p);
    more := ReconcileNext(Init(dir), queued);
    HandOverKeepsOwnerIff(s.files, CacheMetadata(s.files[v].userId, Some(p), "", v), p, s.files[p].userId,
                          Completed, 0);
  }

  // `v` has rows, but none for the chunk of `c`, a row of its predecessor, which
  // has the same count and another owner.
  predicate LacksOther(s: State, v: string, c: UserFile) {
    c in s.chunks && v in s.files && c.fileId in s.files && s.files[v].prevId == Some(c.fileId) &&
    s.files[v].nChunks == s.files[c.fileId].nChunks && s.files[v].userId != s.files[c.fileId].userId &&
    AnyRow(s, v) && !HasRow(s, v, c.chunkId)
  }

  // Wherever another user's successor with an equal count lacks a chunk that the
  // predecessor has, some continuation gives that user a row for its blob.
  lemma OwnerSharesBlob(dir: string, labels: seq<Label>, v: string, c: UserFile) returns (more: seq<Label>)
    requires Legal(Init(dir), labels) && LacksOther(Run(Init(dir), labels), v, c)
    requires var s := Run(Init(dir), labels); s.worker.Idle? && s.queue == [] && s.files[v].status == Uploading
    ensures Legal(Init(dir), more) && Reconciles(labels, more) && !BlobsApart(Run(Init(dir), more).chunks)
  {
    var s := Run(Init(dir), labels);
    RunKeepsInv(dir, labels);
    var taken := TakeOne(Init(dir), labels, v);
    RunKeepsInv(dir, taken);
    var t := Run(Init(dir), taken);
    SameRowsHere(s, t, v, c.chunkId);
    var rows, batch := SharesBlob(t, t.worker.msg, c);
    more := ExecutedContinues(Init(dir), taken, rows, batch, true, true, 0);
  }

  // End of file for one version, and the worker takes its message.
  lemma TakeOne(start: State, labels: seq<Label>, v: string) returns (taken: seq<Label>)
    requires Legal(start, labels)
    requires var s := Run(start, labels);
      s.worker.Idle? && s.queue == [] && v in s.files && s.files[v].status == Uploading
    ensures Legal(start, taken) && Reconciles(labels, taken)
    ensures var s := Run(start, labels);
      Run(start, taken) == s.(worker := Took(CacheMetadata(s.files[v].userId, s.files[v].prevId, "", v)))
  {
    RunLast(start, labels, Eof(v, ""));
    RunLast(start, labels + [Eof(v, "")], Take);
    taken := labels + [Eof(v, "")] + [Take];
  }

  lemma SameRowsHere(s: State, t: State, v: string, k: int)
    requires t.chunks == s.chunks
    ensures AnyRow(t, v) <==> AnyRow(s, v)
    ensures HasRow(t, v, k) <==> HasRow(s, v, k)
  {
  }

  lemma SharesBlob(s: State, msg: CacheMetadata, c: UserFile)
    returns (rows: seq<FilesWithChunks>, batch: seq<UserFile>)
    requires Inv(s) && s.worker == Took(msg) && LacksOther(s, msg.id, c)
    ensures PlanEnabled(s, msg, rows, batch)
    ensures !BlobsApart(Executed(s, rows, batch, true, true, 0).chunks)
  {
    InFlightAgrees(s);
    var b, d;
    rows, batch, b, d := Borrows(s, msg, c);
    ExecutedIs(s, rows, batch, true, true, 0);
    assert b in s.chunks + batch && d in s.chunks + batch;
  }

  // The plan borrows some row of the predecessor under the new owner.
  lemma Borrows(s: State, msg: CacheMetadata, c: UserFile)
    returns (rows: seq<FilesWithChunks>, batch: seq<UserFile>, b: UserFile, d: UserFile)
    requires Inv(s) && Agrees(s.files, msg) && LacksOther(s, msg.id, c)
    ensures PlanEnabled(s, msg, rows, batch) && PlanOf(msg.id, rows).Some? && PlanOf(msg.id, rows).value.1 != map[]
    ensures b in batch && d in s.chunks && b.blobUrl == d.blobUrl
    ensures b.userId == s.files[msg.id].userId && d.userId == s.files[c.fileId].userId
  {
    var id, p := msg.id, c.fileId;
    assert Linked(s.files, id);
    rows, batch := SomePlan(s, msg);
    PlanMeaning(s, id, p, rows);
    SelectedChunks(s, {id, p}, rows, id);
    SelectedChunks(s, {id, p}, rows, p);
    BorrowOne(s, msg, rows, batch, c);
    b :| b in batch && b.fileId == id && b.chunkId == c.chunkId;
    d := BatchMeaning(s, msg, rows, batch, b);
    assert RowSound(s, d);
  }
}
