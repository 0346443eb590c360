// Publishing always works: from every reachable state in which the worker has
// caught up, whatever other clients did, an honest version can be published by
// sending its changed pieces only.
module Availability {
  import opened Rows
  import opened Text
  import opened ChunkCount
  import opened Pieces
  import opened Machine
  import opened Versions
  import opened Currency
  import opened RoundTrip

  // A legal run in which the clients of honest versions are honest.
  ghost predicate Sound(cl: Clients, dir: string, labels: seq<Label>) {
    Legal(Init(dir), labels) && HonestRun(cl, Init(dir), labels)
  }

  lemma {:induction false} SoundLast(cl: Clients, dir: string, labels: seq<Label>, l: Label)
    requires Sound(cl, dir, labels) && Enabled(Run(Init(dir), labels), l) && Honest(cl, Run(Init(dir), labels), l)
    ensures Sound(cl, dir, labels + [l]) && Run(Init(dir), labels + [l]) == Apply(Run(Init(dir), labels), l)
  {
    RunLast(Init(dir), labels, l);
    assert (labels + [l])[..|labels|] == labels;
  }

  // ---- Uploading what changed ----

  ghost predicate OnlyUploads(s: State, t: State) {
    t == s.(chunks := t.chunks, blobs := t.blobs) && s.chunks <= t.chunks
  }

  // The steps after `labels` upload, with their digests, only pieces of `id` that
  // the server cannot borrow.
  predicate SendsOnlyChanges(cl: Clients, files: Files, id: string, labels: seq<Label>, more: seq<Label>) {
    labels <= more &&
    forall i :: |labels| <= i < |more| && more[i].Upload? ==>
      more[i].digest == cl.digest(more[i].data) &&
      more[i].token.resourceId == id && more[i].chunkId >= 0 && !Unchanged(cl, files, id, more[i].chunkId)
  }

  ghost predicate StoresOnlyChanges(cl: Clients, s: State, t: State, id: string) {
    forall k: nat :: HasRow(t, id, k) && Unchanged(cl, s.files, id, k) ==> HasRow(s, id, k)
  }

  lemma {:induction false} UploadChanges(cl: Clients, dir: string, labels: seq<Label>, id: string, n: nat)
    returns (more: seq<Label>)
    requires Sound(cl, dir, labels) && id in Run(Init(dir), labels).files && n <= |cl.Pieces(id)|
    requires StreamToken(id, Run(Init(dir), labels).files[id].userId) in Run(Init(dir), labels).tokens
    ensures Sound(cl, dir, more) && OnlyUploads(Run(Init(dir), labels), Run(Init(dir), more))
    ensures SendsOnlyChanges(cl, Run(Init(dir), labels).files, id, labels, more)
    ensures forall k :: 0 <= k < n ==>
      HasRow(Run(Init(dir), more), id, k) || Unchanged(cl, Run(Init(dir), more).files, id, k)
    ensures StoresOnlyChanges(cl, Run(Init(dir), labels), Run(Init(dir), more), id)
    decreases n
  {
    if n == 0 {
      more := labels;
    } else {
      var before := UploadChanges(cl, dir, labels, id, n - 1);
      more := UploadOne(cl, dir, before, id, n - 1);
      var s, t := Run(Init(dir), before), Run(Init(dir), more);
      forall k | 0 <= k < n ensures HasRow(t, id, k) || Unchanged(cl, t.files, id, k) {
        if k < n - 1 && HasRow(s, id, k) {
          RowKept(s, t, id, k);
        }
      }
    }
  }

  lemma {:induction false} UploadOne(cl: Clients, dir: string, labels: seq<Label>, id: string, k: nat)
    returns (more: seq<Label>)
    requires Sound(cl, dir, labels) && id in Run(Init(dir), labels).files && k < |cl.Pieces(id)|
    requires StreamToken(id, Run(Init(dir), labels).files[id].userId) in Run(Init(dir), labels).tokens
    ensures Sound(cl, dir, more) && OnlyUploads(Run(Init(dir), labels), Run(Init(dir), more))
    ensures SendsOnlyChanges(cl, Run(Init(dir), labels).files, id, labels, more)
    ensures HasRow(Run(Init(dir), more), id, k) || Unchanged(cl, Run(Init(dir), more).files, id, k)
    ensures StoresOnlyChanges(cl, Run(Init(dir), labels), Run(Init(dir), more), id)
  {
    var s := Run(Init(dir), labels);
    more := labels;
    if !Unchanged(cl, s.files, id, k) {
      var next := if k + 1 < |cl.Pieces(id)| then k + 1 else -1;
      var piece := cl.Pieces(id)[k];
      var l := Upload(StreamToken(id, s.files[id].userId), k, next, cl.digest(piece), piece, true);
      SoundLast(cl, dir, labels, l);
      more := labels + [l];
      var t := Run(Init(dir), more);
      var c := t.chunks[|s.chunks|];
      assert c in t.chunks && c.fileId == id && c.chunkId == k;
    }
  }

  // ---- Publishing ----

  // End of file, then the worker takes the message.
  lemma {:induction false} Announce(cl: Clients, dir: string, labels: seq<Label>, id: string) returns (more: seq<Label>)
    requires Sound(cl, dir, labels)
    requires var s := Run(Init(dir), labels);
      s.worker.Idle? && s.queue == [] && id in s.files && s.files[id].status == Uploading && EofReady(cl, s, id)
    ensures Sound(cl, dir, more) && labels <= more && forall i :: |labels| <= i < |more| ==> !more[i].Upload?
    ensures var s := Run(Init(dir), labels);
      Run(Init(dir), more) == s.(worker := Took(CacheMetadata(s.files[id].userId, s.files[id].prevId, "", id)))
  {
    SoundLast(cl, dir, labels, Eof(id, ""));
    SoundLast(cl, dir, labels + [Eof(id, "")], Take);
    more := labels + [Eof(id, "")] + [Take];
  }

  // A created version, with nothing waiting, can be published.
  lemma {:induction false} PublishCreated(cl: Clients, dir: string, labels: seq<Label>, id: string)
    returns (more: seq<Label>)
    requires Sound(cl, dir, labels) && cl.honest(id) && cl.content(id) != []
    requires var s := Run(Init(dir), labels);
      s.worker.Idle? && s.queue == [] && id in s.files && s.files[id].status == Uploading &&
      (s.files[id].prevId.Some? ==> cl.content(s.files[id].prevId.value) != [])
    ensures Sound(cl, dir, more) && Published(cl, Run(Init(dir), more), id)
    ensures Run(Init(dir), more).files.Keys == Run(Init(dir), labels).files.Keys
    ensures SendsOnlyChanges(cl, Run(Init(dir), labels).files, id, labels, more)
  {
    RunKeepsInv(dir, labels);
    var uploaded := UploadChanges(cl, dir, labels, id, |cl.Pieces(id)|);
    var taken := Announce(cl, dir, uploaded, id);
    var rows, batch := SomePlan(Run(Init(dir), taken), Run(Init(dir), taken).worker.msg);
    more := ReconciledDownloads(cl, dir, taken, rows, batch, 0);
    WorkerIsHonest(cl, Init(dir), taken, more);
    var t := Run(Init(dir), taken);
    ExecutedIs(t, rows, batch, true, true, 0);
    HandOverSameVersions(t.files, t.worker.msg.prevId, t.worker.msg.id, Completed, 0);
  }

  // Completed, current, downloaded as its content, and nothing is left waiting.
  ghost predicate Published(cl: Clients, s: State, id: string) {
    s.worker.Idle? && s.queue == [] && MadeCurrent(s.files, id) && DownloadsAs(s, id, cl.content(id))
  }

  lemma ExactCount(cl: Clients, id: string)
    requires |cl.content(id)| <= TWO53 - 2
    ensures CalculateChunks(|cl.content(id)|) == |cl.Pieces(id)|
  {
    SafeSizes(|cl.content(id)|);
    CutCount(cl.content(id));
  }

  // Any non-empty content whose hash is new can become a first version.
  lemma {:induction false} CanPublishFirst(cl: Clients, dir: string, labels: seq<Label>, id: string, user: string)
    returns (more: seq<Label>)
    requires Sound(cl, dir, labels) && cl.honest(id) && ValidId(id) && 0 < |cl.content(id)| <= TWO53 - 2
    requires var s := Run(Init(dir), labels);
      s.worker.Idle? && s.queue == [] && id !in s.files && !HashKnown(s.files, cl.digest(cl.content(id)))
    ensures Sound(cl, dir, more) && labels <= more && Published(cl, Run(Init(dir), more), id)
    ensures Run(Init(dir), more).files.Keys == Run(Init(dir), labels).files.Keys + {id}
    ensures Run(Init(dir), more).files[id].userId == user && Run(Init(dir), more).files[id].prevId.None?
    ensures SendsOnlyChanges(cl, Run(Init(dir), more).files, id, labels, more)
  {
    var created := CreateFirst(cl, dir, labels, id, user);
    more := PublishCreated(cl, dir, created, id);
    KeepsRow(dir, created, more, id);
    SendsFirst(cl, Run(Init(dir), created).files, Run(Init(dir), more).files, id, labels, created, more);
  }

  lemma {:induction false} SendsFirst(cl: Clients, files: Files, after: Files, id: string,
                                      labels: seq<Label>, created: seq<Label>, more: seq<Label>)
    requires id in files && files[id].prevId.None? && id in after && SameVersion(files[id], after[id])
    requires |created| == |labels| + 1 && labels <= created && created[|labels|].Prepare?
    requires SendsOnlyChanges(cl, files, id, created, more)
    ensures SendsOnlyChanges(cl, after, id, labels, more)
  {
    assert more[|labels|] == created[|labels|];
    assert forall k: nat :: !Unchanged(cl, after, id, k);
  }

  lemma {:induction false} CreateFirst(cl: Clients, dir: string, labels: seq<Label>, id: string, user: string)
    returns (created: seq<Label>)
    requires Sound(cl, dir, labels) && ValidId(id) && 0 < |cl.content(id)| <= TWO53 - 2
    requires var s := Run(Init(dir), labels); id !in s.files && !HashKnown(s.files, cl.digest(cl.content(id)))
    ensures Sound(cl, dir, created) && |created| == |labels| + 1 && labels <= created && created[|labels|].Prepare?
    ensures Started(Run(Init(dir), labels), Run(Init(dir), created), id, user, |cl.Pieces(id)|)
  {
    ExactCount(cl, id);
    var req := MetadataRequest(user, "", "", |cl.content(id)|, cl.digest(cl.content(id)), |cl.Pieces(id)|);
    SoundLast(cl, dir, labels, Prepare(req, id));
    created := labels + [Prepare(req, id)];
  }

  // `t` has one version more than `s`: `id`, a first version.
  predicate Started(s: State, t: State, id: string, user: string, count: nat) {
    t == s.(files := t.files, tokens := t.tokens) && t.files.Keys == s.files.Keys + {id} &&
    t.files[id].prevId.None? && t.files[id].status == Uploading && t.files[id].userId == user &&
    t.files[id].nChunks == count
  }

  // Nothing waits, `id` is new, `p` is stored in full, both are honest and have
  // content, and their hashes differ.
  predicate Replaceable(cl: Clients, s: State, p: string, id: string) {
    cl.honest(p) && cl.honest(id) &&
    s.worker.Idle? && s.queue == [] && id !in s.files && ValidId(id) && p in s.files && Covered(cl, s, p) &&
    0 < |cl.content(id)| <= TWO53 - 2 && cl.content(p) != [] && s.files[p].fileHash != cl.digest(cl.content(id))
  }

  // Any non-empty content can replace any non-empty version that is stored in
  // full and whose hash differs; only its changed pieces are sent.
  lemma {:induction false} CanPublishNext(cl: Clients, dir: string, labels: seq<Label>, p: string, id: string,
                                          user: string)
    returns (more: seq<Label>)
    requires Sound(cl, dir, labels) && Replaceable(cl, Run(Init(dir), labels), p, id)
    ensures Sound(cl, dir, more) && labels <= more && Published(cl, Run(Init(dir), more), id)
    ensures Run(Init(dir), more).files.Keys == Run(Init(dir), labels).files.Keys + {id}
    ensures Run(Init(dir), more).files[id].userId == user && Run(Init(dir), more).files[id].prevId == Some(p)
    ensures SendsOnlyChanges(cl, Run(Init(dir), more).files, id, labels, more)
  {
    var created := CreateNext(cl, dir, labels, p, id, user);
    more := PublishCreated(cl, dir, created, id);
    KeepsRow(dir, created, more, id);
    KeepsRow(dir, created, more, p);
    SendsStill(cl, Run(Init(dir), created).files, Run(Init(dir), more).files, p, id, labels, created, more);
  }

  lemma {:induction false} SendsStill(cl: Clients, files: Files, after: Files, p: string, id: string,
                                      labels: seq<Label>, created: seq<Label>, more: seq<Label>)
    requires id in files && p in files && files[id].prevId == Some(p) && id in after && p in after
    requires SameVersion(files[id], after[id]) && SameVersion(files[p], after[p])
    requires |created| == |labels| + 1 && labels <= created && created[|labels|].Succeed?
    requires SendsOnlyChanges(cl, files, id, created, more)
    ensures SendsOnlyChanges(cl, after, id, labels, more)
  {
    assert more[|labels|] == created[|labels|];
    assert forall k: nat :: Unchanged(cl, after, id, k) <==> Unchanged(cl, files, id, k);
  }

  lemma {:induction false} SendsNoMore(cl: Clients, files: Files, after: Files, p: string, id: string,
                                       labels: seq<Label>, taken: seq<Label>, more: seq<Label>)
    requires id in files && p in files && files[id].prevId == Some(p) && id in after && p in after
    requires SameVersion(files[id], after[id]) && SameVersion(files[p], after[p])
    requires SendsOnlyChanges(cl, files, id, labels, taken) && WorkerSteps(taken, more)
    ensures SendsOnlyChanges(cl, after, id, labels, more)
  {
    assert forall i :: 0 <= i < |taken| ==> more[i] == taken[i];
    assert forall k: nat :: Unchanged(cl, after, id, k) <==> Unchanged(cl, files, id, k);
  }

  // `t` has one version more than `s`: `id`, a successor of `p`.
  predicate Succeeded(s: State, t: State, p: string, id: string, user: string, count: nat) {
    t == s.(files := t.files, tokens := t.tokens) && t.files.Keys == s.files.Keys + {id} &&
    p in s.files && t.files[p] == s.files[p] && t.files[id].prevId == Some(p) && t.files[id].status == Uploading &&
    t.files[id].userId == user && t.files[id].nChunks == count
  }

  // A successor of a version that is stored in full.
  lemma {:induction false} CreateNext(cl: Clients, dir: string, labels: seq<Label>, p: string, id: string, user: string)
    returns (created: seq<Label>)
    requires Sound(cl, dir, labels) && Replaceable(cl, Run(Init(dir), labels), p, id)
    ensures Sound(cl, dir, created) && |created| == |labels| + 1 && labels <= created && created[|labels|].Succeed?
    ensures Succeeded(Run(Init(dir), labels), Run(Init(dir), created), p, id, user, |cl.Pieces(id)|)
  {
    ExactCount(cl, id);
    var l := Succeed(UpdateRequest(user, p, |cl.content(id)|, cl.digest(cl.content(id)), |cl.Pieces(id)|), id);
    SoundLast(cl, dir, labels, l);
    created := labels + [l];
  }

  lemma {:induction false} KeepsRow(dir: string, labels: seq<Label>, more: seq<Label>, id: string)
    requires Legal(Init(dir), more) && labels <= more && id in Run(Init(dir), labels).files
    ensures id in Run(Init(dir), more).files
    ensures SameVersion(Run(Init(dir), labels).files[id], Run(Init(dir), more).files[id])
  {
    assert more == labels + more[|labels|..];
    RunSplit(Init(dir), labels, more[|labels|..]);
    RunExtends(Run(Init(dir), labels), more[|labels|..]);
  }

  // ---- A failed batch ----

  predicate SamePiece(cl: Clients, p: string, id: string, k: nat) {
    |cl.Pieces(id)| == |cl.Pieces(p)| && k < |cl.Pieces(id)| && cl.Pieces(id)[k] == cl.Pieces(p)[k]
  }

  lemma {:induction false} NewVersionHasNoRow(dir: string, labels: seq<Label>, id: string, k: int)
    requires Legal(Init(dir), labels) && id !in Run(Init(dir), labels).files
    ensures !HasRow(Run(Init(dir), labels), id, k)
  {
    ReferentialIntegrity(dir, labels);
  }

  // A successor that leaves piece k to the server: end of file, no row for k.
  lemma {:induction false} LeavesPiece(cl: Clients, dir: string, labels: seq<Label>, p: string, id: string,
                                       user: string, k: nat)
    returns (taken: seq<Label>)
    requires Sound(cl, dir, labels) && Replaceable(cl, Run(Init(dir), labels), p, id)
    requires SamePiece(cl, p, id, k)
    ensures Sound(cl, dir, taken) && SendsOnlyChanges(cl, Run(Init(dir), taken).files, id, labels, taken)
    ensures var s := Run(Init(dir), taken);
      s.worker == Took(CacheMetadata(user, Some(p), "", id)) && id in s.files && p in s.files && !HasRow(s, id, k)
  {
    var created := CreateNext(cl, dir, labels, p, id, user);
    NewVersionHasNoRow(dir, labels, id, k);
    RunKeepsInv(dir, created);
    HonestRunIsTruthful(cl, dir, created);
    var s := Run(Init(dir), created);
    assert VersionTrue(cl, s, p);
    assert Unchanged(cl, s.files, id, k) && !HasRow(s, id, k);
    var uploaded := UploadChanges(cl, dir, created, id, |cl.Pieces(id)|);
    taken := Announce(cl, dir, uploaded, id);
    assert Run(Init(dir), taken).chunks == Run(Init(dir), uploaded).chunks;
    assert !HasRow(Run(Init(dir), uploaded), id, k);
    SendsStill(cl, s.files, Run(Init(dir), taken).files, p, id, labels, created, taken);
  }

  ghost predicate NeverDownloads(s: State, v: string) {
    forall get: Label :: OwnGet(s, v, get) ==> GetStep(s, get).0 == None
  }

  lemma UncoveredNeverDownloads(cl: Clients, s: State, v: string)
    requires Inv(s) && Truthful(cl, s) && cl.honest(v) && !Covered(cl, s, v)
    ensures NeverDownloads(s, v)
  {
    forall get: Label | OwnGet(s, v, get) ensures GetStep(s, get).0 == None {
      DownloadIsExactly(cl, s, get);
    }
  }

  predicate CurrentButFailed(s: State, p: string, v: string) {
    v in s.files && s.files[v].current && s.files[v].status == Failed && p in s.files && !s.files[p].current
  }

  // `v` and `p` have content, and piece k of `v` has no row.
  predicate LacksPiece(cl: Clients, s: State, p: string, v: string, k: nat) {
    cl.content(v) != [] && cl.content(p) != [] && k < |cl.Pieces(v)| && !HasRow(s, v, k)
  }

  // The batch of the message fails and its flags commit: the version is current,
  // with status failed, and piece k is nowhere.
  lemma FailedState(cl: Clients, s: State, msg: CacheMetadata, p: string, k: nat, rows: seq<FilesWithChunks>,
                    batch: seq<UserFile>)
    requires Inv(s) && Truthful(cl, s) && s.worker == Took(msg) && PlanEnabled(s, msg, rows, batch)
    requires cl.honest(msg.id) && msg.prevId == Some(p) && LacksPiece(cl, s, p, msg.id, k)
    ensures CurrentButFailed(Executed(s, rows, batch, false, true, 0), p, msg.id)
    ensures !Covered(cl, Executed(s, rows, batch, false, true, 0), msg.id)
  {
    var t := Executed(s, rows, batch, false, true, 0);
    InFlightAgrees(s);
    assert Pends(s, msg);
    ConflictIffEmpty(cl, s, msg, rows);
    PlanPromises(cl, s, msg, rows, batch, k);
    ExecutedIs(s, rows, batch, false, true, 0);
    HandOverRows(s.files, msg, Failed, 0);
    assert t.chunks == s.chunks;
    assert !HasRow(t, msg.id, k);
  }

  // From every reachable state with nothing waiting: an honest successor that
  // leaves a piece to the server can become current without it, when its chunk
  // batch fails. It then has status failed and does not download.
  lemma {:induction false} CurrentWithoutBytes(cl: Clients, dir: string, labels: seq<Label>, p: string, id: string,
                                               user: string, k: nat)
    returns (more: seq<Label>)
    requires Sound(cl, dir, labels) && Replaceable(cl, Run(Init(dir), labels), p, id)
    requires SamePiece(cl, p, id, k)
    ensures Sound(cl, dir, more) && SendsOnlyChanges(cl, Run(Init(dir), more).files, id, labels, more)
    ensures CurrentButFailed(Run(Init(dir), more), p, id) && NeverDownloads(Run(Init(dir), more), id)
  {
    var taken := LeavesPiece(cl, dir, labels, p, id, user, k);
    more := FailBatch(cl, dir, taken, p, id, k);
    KeepsRow(dir, taken, more, p);
    KeepsRow(dir, taken, more, id);
    RunKeepsInv(dir, taken);
    InFlightAgrees(Run(Init(dir), taken));
    SendsNoMore(cl, Run(Init(dir), taken).files, Run(Init(dir), more).files, p, id, labels, taken, more);
  }

  lemma {:induction false} FailBatch(cl: Clients, dir: string, taken: seq<Label>, p: string, id: string, k: nat)
    returns (more: seq<Label>)
    requires Sound(cl, dir, taken) && cl.honest(id) && LacksPiece(cl, Run(Init(dir), taken), p, id, k)
    requires var s := Run(Init(dir), taken); s.worker.Took? && s.worker.msg.id == id && s.worker.msg.prevId == Some(p)
    ensures Sound(cl, dir, more) && WorkerSteps(taken, more)
    ensures CurrentButFailed(Run(Init(dir), more), p, id) && NeverDownloads(Run(Init(dir), more), id)
  {
    var s := Run(Init(dir), taken);
    RunKeepsInv(dir, taken);
    HonestRunIsTruthful(cl, dir, taken);
    var rows, batch := SomePlan(s, s.worker.msg);
    more := ExecutedContinues(Init(dir), taken, rows, batch, false, true, 0);
    WorkerIsHonest(cl, Init(dir), taken, more);
    RunKeepsInv(dir, more);
    HonestRunIsTruthful(cl, dir, more);
    FailedState(cl, s, s.worker.msg, p, k, rows, batch);
    UncoveredNeverDownloads(cl, Run(Init(dir), more), id);
  }
}
