// The current flag over whole runs: a file never vanishes, and on no path of
// prev_id links are two versions current.
module Currency {
  import opened Rows
  import opened Grouping
  import opened Reconstruct
  import opened Machine
  import opened Versions

  // ---- A file never vanishes ----

  ghost predicate TreeHasCurrent(files: Files, root: string) {
    exists w :: w in files && files[w].current && Root(files, w) == root
  }

  lemma HandOverKeepsTree(files: Files, msg: CacheMetadata, status: Status, now: int, w: string)
    requires Forest(files) && Agrees(files, msg) && w in files && files[w].current
    ensures TreeHasCurrent(HandedOver(files, msg.prevId, msg.id, status, now), Root(files, w))
  {
    var after := HandedOver(files, msg.prevId, msg.id, status, now);
    HandOverRows(files, msg, status, now);
    assert Linked(files, msg.id);
    var v := if msg.prevId == Some(w) then msg.id else w;
    assert Root(files, v) == Root(files, w);
    AncStable(files, after, v, v);
    assert after[v].current;
  }

  // Only the hand-over changes the flags of existing rows.
  lemma FlagsElsewhere(s: State, l: Label)
    requires Enabled(s, l) && !(l.HandOver? && l.committed)
    ensures forall id :: id in s.files ==> id in Apply(s, l).files && Apply(s, l).files[id] == s.files[id]
  {
  }

  lemma StepKeepsTree(s: State, l: Label, root: string)
    requires Inv(s) && Enabled(s, l) && TreeHasCurrent(s.files, root)
    ensures TreeHasCurrent(Apply(s, l).files, root)
  {
    var t := Apply(s, l);
    var w :| w in s.files && s.files[w].current && Root(s.files, w) == root;
    if l.HandOver? && l.committed {
      assert Pends(s, s.worker.msg);
      HandOverKeepsTree(s.files, s.worker.msg, StatusOf(s.worker.ok), l.now, w);
    } else {
      FlagsElsewhere(s, l);
      AncStable(s.files, t.files, w, w);
    }
  }

  lemma {:induction false} RunKeepsTree(s: State, labels: seq<Label>, root: string)
    requires Inv(s) && Legal(s, labels) && TreeHasCurrent(s.files, root)
    ensures Inv(Run(s, labels)) && TreeHasCurrent(Run(s, labels).files, root)
  {
    if labels != [] {
      RunKeepsTree(s, labels[..|labels| - 1], root);
      StepKeepsInv(Run(s, labels[..|labels| - 1]), labels[|labels| - 1]);
      StepKeepsTree(Run(s, labels[..|labels| - 1]), labels[|labels| - 1], root);
    }
  }

  // In every run, with no discipline assumed: once a version of a tree is
  // current, the tree has a current version ever after.
  lemma NeverVanishes(dir: string, before: seq<Label>, after: seq<Label>, v: string)
    requires Legal(Init(dir), before + after)
    requires v in Run(Init(dir), before).files && Run(Init(dir), before).files[v].current
    ensures TreeHasCurrent(Run(Init(dir), before + after).files, Root(Run(Init(dir), before).files, v))
  {
    RunSplit(Init(dir), before, after);
    RunKeepsInv(dir, before);
    RunKeepsTree(Run(Init(dir), before), after, Root(Run(Init(dir), before).files, v));
  }

  // ---- One current version per path ----

  predicate OnePerPath(files: Files) {
    forall u, w :: u in files && w in files && files[u].current && files[w].current && Anc(files, u, w) ==> u == w
  }

  // Clients see current rows only, so they build on versions that were reconciled.
  predicate Disciplined(s: State, l: Label) {
    l.Succeed? && SucceedCheck(s, l.upd).None? ==> s.files[l.upd.fileId].status != Uploading
  }

  ghost predicate DisciplinedRun(s: State, labels: seq<Label>) {
    labels == [] ||
    (DisciplinedRun(s, labels[..|labels| - 1]) &&
     Disciplined(Run(s, labels[..|labels| - 1]), labels[|labels| - 1]))
  }

  // The messages in the order in which they are processed.
  function Pending(s: State): seq<CacheMetadata> {
    (if s.worker.Idle? then [] else [s.worker.msg]) + s.queue
  }

  ghost predicate NotPending(s: State, id: string) {
    forall m :: m in Pending(s) ==> m.id != id
  }

  // A predecessor was reconciled; once its successor is reconciled too, it is
  // neither current nor waiting to be reconciled again.
  ghost predicate Settled(s: State, id: string)
    requires id in s.files
  {
    var f := s.files[id];
    f.prevId.Some? && f.prevId.value in s.files ==>
      s.files[f.prevId.value].status != Uploading &&
      (f.status != Uploading ==> !s.files[f.prevId.value].current && NotPending(s, f.prevId.value))
  }

  // All messages of a version precede all messages of its successors.
  ghost predicate InOrder(pending: seq<CacheMetadata>) {
    forall i, j :: 0 <= i < j < |pending| ==> pending[i].prevId != Some(pending[j].id)
  }

  ghost predicate Orderly(s: State) {
    (forall id {:trigger Settled(s, id)} :: id in s.files ==> Settled(s, id)) && InOrder(Pending(s))
  }

  lemma PendingIs(s: State)
    ensures forall m :: m in Pending(s) <==> Pends(s, m)
  {
  }

  // A step that adds no message and changes no flag or status.
  lemma SameFlags(s: State, t: State)
    requires Orderly(s) && InOrder(Pending(t))
    requires forall m :: m in Pending(t) ==> m in Pending(s)
    requires forall id :: id in t.files ==> id in s.files && t.files[id] == s.files[id]
    ensures Orderly(t)
  {
    forall id | id in t.files ensures Settled(t, id) {
      assert Settled(s, id);
    }
  }

  lemma CreateKeepsOrder(s: State, l: Label)
    requires Inv(s) && Orderly(s) && Enabled(s, l) && Disciplined(s, l) && (l.Prepare? || l.Succeed?)
    ensures Orderly(Apply(s, l))
  {
    var t := Apply(s, l);
    assert Pending(t) == Pending(s);
    forall id | id in t.files ensures Settled(t, id) {
      if id in s.files {
        assert Settled(s, id) && Linked(s.files, id);
      }
    }
  }

  lemma EofKeepsOrder(s: State, l: Label)
    requires Inv(s) && Orderly(s) && l.Eof?
    ensures Orderly(Apply(s, l))
  {
    var t := Apply(s, l);
    PendingIs(s);
    if t != s {
      var m := t.queue[|s.queue|];
      assert Pending(t) == Pending(s) + [m];
      forall i, j | 0 <= i < j < |Pending(t)| ensures Pending(t)[i].prevId != Some(Pending(t)[j].id) {
        if j == |Pending(s)| {
          var waiting := Pending(s)[i];
          assert Pends(s, waiting);
          assert Settled(s, waiting.id) && Linked(s.files, waiting.id);
        }
      }
      forall id | id in t.files ensures Settled(t, id) {
        assert Settled(s, id);
      }
    }
  }

  lemma InOrderTail(pending: seq<CacheMetadata>)
    requires InOrder(pending) && pending != []
    ensures InOrder(pending[1..])
  {
    forall i, j | 0 <= i < j < |pending[1..]| ensures pending[1..][i].prevId != Some(pending[1..][j].id) {
      assert pending[1..][i] == pending[i + 1] && pending[1..][j] == pending[j + 1];
    }
  }

  lemma WorkerKeepsOrder(s: State, l: Label)
    requires Orderly(s)
    requires l.Take? || l.Plan? || l.Batch? || l.Crash? || (l.HandOver? && !l.committed)
    ensures Orderly(Apply(s, l))
  {
    WorkerPending(s, l);
    if Pending(s) != [] {
      InOrderTail(Pending(s));
    }
    SameFlags(s, Apply(s, l));
  }

  // The worker takes the first message and in the end drops it.
  lemma WorkerPending(s: State, l: Label)
    requires l.Take? || l.Plan? || l.Batch? || l.Crash? || (l.HandOver? && !l.committed)
    ensures Apply(s, l).files == s.files
    ensures Pending(Apply(s, l)) == Pending(s) || (Pending(s) != [] && Pending(Apply(s, l)) == Pending(s)[1..])
  {
    WorkerMoves(s, l);
    var t := Apply(s, l);
    if t.worker.Idle? && !s.worker.Idle? {
      assert Pending(t) == Pending(s)[1..];
    } else {
      assert Pending(t) == Pending(s);
    }
  }

  lemma WorkerMoves(s: State, l: Label)
    requires l.Take? || l.Plan? || l.Batch? || l.Crash? || (l.HandOver? && !l.committed)
    ensures var t := Apply(s, l);
      t.files == s.files &&
      if s.worker.Idle? && !t.worker.Idle? then s.queue == [t.worker.msg] + t.queue
      else t.queue == s.queue && (t.worker.Idle? || t.worker.msg == s.worker.msg)
  {
  }

  ghost predicate AfterHandOver(files: Files, after: Files, msg: CacheMetadata)
    requires msg.id in files
  {
    after.Keys == files.Keys && (forall i :: i in files ==> SameVersion(files[i], after[i])) &&
    after[msg.id].status != Uploading &&
    (msg.prevId.Some? ==>
      msg.prevId.value in after && !after[msg.prevId.value].current && after[msg.prevId.value].status != Uploading) &&
    forall i :: i in files && i != msg.id && Some(i) != msg.prevId ==> after[i] == files[i]
  }

  lemma HandOverFacts(files: Files, msg: CacheMetadata, ok: bool, now: int)
    requires Forest(files) && Agrees(files, msg)
    ensures AfterHandOver(files, HandedOver(files, msg.prevId, msg.id, StatusOf(ok), now), msg)
  {
    HandOverRows(files, msg, StatusOf(ok), now);
  }

  lemma HandOverKeepsOrder(s: State, now: int)
    requires Inv(s) && Orderly(s) && s.worker.Filled?
    ensures Orderly(Apply(s, HandOver(true, now)))
  {
    var t := Apply(s, HandOver(true, now));
    assert Pends(s, s.worker.msg);
    HandOverFacts(s.files, s.worker.msg, s.worker.ok, now);
    assert Pending(s)[0] == s.worker.msg && Pending(t) == Pending(s)[1..];
    InOrderTail(Pending(s));
    forall id | id in t.files ensures Settled(t, id) {
      HandOverSettles(s, t, s.worker.msg, id);
    }
  }

  // After the hand-over of `msg`, seen from any row.
  lemma HandOverSettles(s: State, t: State, msg: CacheMetadata, id: string)
    requires Forest(s.files) && Orderly(s) && Agrees(s.files, msg) && id in s.files
    requires Pending(s) != [] && Pending(s)[0] == msg && Pending(t) == Pending(s)[1..]
    requires AfterHandOver(s.files, t.files, msg)
    ensures Settled(t, id)
  {
    assert Settled(s, id) && Linked(s.files, id);
    assert forall m :: m in Pending(t) ==> m in Pending(s);
    assert SameVersion(s.files[id], t.files[id]);
    if s.files[id].prevId.Some? {
      var p := s.files[id].prevId.value;
      if id == msg.id {
        HeadBeforeParents(s, msg);
      } else if p == msg.id {
        assert msg in Pending(s);
        assert Some(id) != msg.prevId by { assert Linked(s.files, msg.id); }
      } else if Some(id) == msg.prevId {
        assert Settled(s, msg.id);
        assert Some(p) != msg.prevId;
      }
    }
  }

  lemma HeadBeforeParents(s: State, msg: CacheMetadata)
    requires InOrder(Pending(s)) && Pending(s) != [] && Pending(s)[0] == msg
    ensures msg.prevId.Some? ==> forall m :: m in Pending(s)[1..] ==> m.id != msg.prevId.value
  {
    forall m | m in Pending(s)[1..] ensures msg.prevId != Some(m.id) {
      var j :| 0 <= j < |Pending(s)[1..]| && Pending(s)[1..][j] == m;
      assert Pending(s)[j + 1] == m;
    }
  }

  lemma StepKeepsOrder(s: State, l: Label)
    requires Inv(s) && Orderly(s) && Enabled(s, l) && Disciplined(s, l)
    ensures Orderly(Apply(s, l))
  {
    if l.Prepare? || l.Succeed? {
      CreateKeepsOrder(s, l);
    } else if l.Eof? {
      EofKeepsOrder(s, l);
    } else if l.HandOver? && l.committed {
      HandOverKeepsOrder(s, l.now);
    } else if l.Upload? || l.Get? || l.Expire? {
      assert Pending(Apply(s, l)) == Pending(s);
      SameFlags(s, Apply(s, l));
    } else {
      WorkerKeepsOrder(s, l);
    }
  }

  lemma {:induction false} OrderlyPaths(s: State, u: string, w: string)
    requires Forest(s.files) && Orderly(s) && w in s.files && s.files[w].status != Uploading
    requires Anc(s.files, u, w) && u != w
    ensures u in s.files && !s.files[u].current
    decreases s.files[w].rowid
  {
    var p := Parent(s.files, w).value;
    assert Settled(s, w);
    if u != p {
      OrderlyPaths(s, u, p);
    }
  }

  lemma {:induction false} DisciplinedRunIsOrderly(dir: string, labels: seq<Label>)
    requires Legal(Init(dir), labels) && DisciplinedRun(Init(dir), labels)
    ensures Orderly(Run(Init(dir), labels))
  {
    if labels != [] {
      var before := labels[..|labels| - 1];
      DisciplinedRunIsOrderly(dir, before);
      RunKeepsInv(dir, before);
      StepKeepsOrder(Run(Init(dir), before), labels[|labels| - 1]);
    }
  }

  // In every disciplined run, whatever happened since: handing over to a version
  // that is already current changes no current flag.
  lemma {:induction false} RedeliveryMovesNoFlag(dir: string, labels: seq<Label>, committed: bool, now: int)
    requires Legal(Init(dir), labels) && DisciplinedRun(Init(dir), labels) && Redelivered(Run(Init(dir), labels))
    ensures var s := Run(Init(dir), labels);
      SameCurrentFlags(s.files, Apply(s, HandOver(committed, now)).files)
  {
    var s := Run(Init(dir), labels);
    RunKeepsInv(dir, labels);
    DisciplinedRunIsOrderly(dir, labels);
    RedeliveredStep(s, committed, now);
  }

  lemma RedeliveredStep(s: State, committed: bool, now: int)
    requires Inv(s) && Orderly(s) && Redelivered(s)
    ensures SameCurrentFlags(s.files, Apply(s, HandOver(committed, now)).files)
  {
    var after := Apply(s, HandOver(committed, now)).files;
    if committed {
      assert after == HandedOver(s.files, s.worker.msg.prevId, s.worker.msg.id, StatusOf(s.worker.ok), now);
      RedeliveredSettled(s, s.worker.msg, s.worker.ok, now);
    } else {
      assert after == s.files;
    }
  }

  lemma RedeliveredSettled(s: State, msg: CacheMetadata, ok: bool, now: int)
    requires Inv(s) && Orderly(s) && s.worker == Filled(msg, ok) && Redelivered(s)
    ensures SameCurrentFlags(s.files, HandedOver(s.files, msg.prevId, msg.id, StatusOf(ok), now))
  {
    InFlightAgrees(s);
    assert Settled(s, msg.id) && RowsSound(s.files);
    AgainTheSameFlags(s.files, msg, StatusOf(ok), now);
  }

  // The message in hand is of a version that is current already.
  predicate Redelivered(s: State) {
    s.worker.Filled? && s.worker.msg.id in s.files && s.files[s.worker.msg.id].current
  }

  lemma AgainTheSameFlags(files: Files, msg: CacheMetadata, status: Status, now: int)
    requires Forest(files) && Agrees(files, msg) && files[msg.id].current
    requires msg.prevId.Some? && msg.prevId.value in files ==> !files[msg.prevId.value].current
    ensures SameCurrentFlags(files, HandedOver(files, msg.prevId, msg.id, status, now))
  {
    HandOverRows(files, msg, status, now);
  }

  predicate SameCurrentFlags(files: Files, after: Files) {
    files.Keys == after.Keys && forall id :: id in files ==> after[id].current == files[id].current
  }

  // In every disciplined run, duplicate end-of-file messages included.
  lemma OneCurrentPerPath(dir: string, labels: seq<Label>)
    requires Legal(Init(dir), labels) && DisciplinedRun(Init(dir), labels)
    ensures OnePerPath(Run(Init(dir), labels).files)
  {
    var s := Run(Init(dir), labels);
    RunKeepsInv(dir, labels);
    DisciplinedRunIsOrderly(dir, labels);
    forall u, w | u in s.files && w in s.files && s.files[u].current && s.files[w].current && Anc(s.files, u, w)
      ensures u == w
    {
      if u != w {
        OrderlyPaths(s, u, w);
      }
    }
  }

  // ---- Exactly when a hand-over keeps that property ----

  // No third current version is on a path with the new one.
  predicate AloneOnPath(files: Files, msg: CacheMetadata) {
    forall u :: u in files && files[u].current && u != msg.id && Some(u) != msg.prevId ==>
      !Anc(files, u, msg.id) && !Anc(files, msg.id, u)
  }

  lemma HandOverKeepsOnePath(files: Files, msg: CacheMetadata, status: Status, now: int)
    requires Forest(files) && Agrees(files, msg) && OnePerPath(files)
    ensures OnePerPath(HandedOver(files, msg.prevId, msg.id, status, now)) <==> AloneOnPath(files, msg)
  {
    var after := HandedOver(files, msg.prevId, msg.id, status, now);
    HandOverRows(files, msg, status, now);
    forall a, v | v in files ensures Anc(files, a, v) <==> Anc(after, a, v) {
      AncStable(files, after, a, v);
    }
    if OnePerPath(after) {
      forall u | u in files && files[u].current && u != msg.id && Some(u) != msg.prevId
        ensures !Anc(files, u, msg.id) && !Anc(files, msg.id, u)
      {
        assert after[u].current && after[msg.id].current;
      }
    }
  }

  // ---- One current version per tree ----

  predicate OnePerTree(files: Files) {
    forall u, w :: u in files && w in files && files[u].current && files[w].current ==>
      Root(files, u) == Root(files, w) ==> u == w
  }

  // No third current version is in the tree of the new one.
  predicate AloneInTree(files: Files, msg: CacheMetadata) {
    forall u :: u in files && files[u].current && u != msg.id && Some(u) != msg.prevId ==>
      Root(files, u) != Root(files, msg.id)
  }

  lemma HandOverKeepsOneTree(files: Files, msg: CacheMetadata, status: Status, now: int)
    requires Forest(files) && Agrees(files, msg) && OnePerTree(files)
    ensures OnePerTree(HandedOver(files, msg.prevId, msg.id, status, now)) <==> AloneInTree(files, msg)
  {
    var after := HandedOver(files, msg.prevId, msg.id, status, now);
    HandOverRows(files, msg, status, now);
    forall v | v in files ensures Root(files, v) == Root(after, v) {
      AncStable(files, after, v, v);
    }
    if OnePerTree(after) {
      forall u | u in files && files[u].current && u != msg.id && Some(u) != msg.prevId
        ensures Root(files, u) != Root(files, msg.id)
      {
        assert after[u].current && after[msg.id].current;
      }
    }
  }

  // ---- Exactly which runs keep one current version per path, or per tree ----

  predicate Raises(s: State, l: Label) {
    l.HandOver? && l.committed && s.worker.Filled?
  }

  // Outside a hand-over, the current versions and their links stay.
  lemma CurrentElsewhere(s: State, l: Label)
    requires Inv(s) && Enabled(s, l) && !Raises(s, l)
    ensures OnePerPath(s.files) ==> OnePerPath(Apply(s, l).files)
    ensures OnePerTree(s.files) ==> OnePerTree(Apply(s, l).files)
  {
    var files := Apply(s, l).files;
    FlagsElsewhere(s, l);
    NewVersionsNotCurrent(s, l);
    SameCurrent(s.files, files);
  }

  lemma SameCurrent(files: Files, more: Files)
    requires Forest(files) && files.Keys <= more.Keys && forall id :: id in files ==> more[id] == files[id]
    requires forall id :: id in more && id !in files ==> !more[id].current
    ensures OnePerPath(files) ==> OnePerPath(more)
    ensures OnePerTree(files) ==> OnePerTree(more)
  {
    forall a, v | v in files ensures (Anc(files, a, v) <==> Anc(more, a, v)) && Root(files, v) == Root(more, v) {
      AncStable(files, more, a, v);
    }
  }

  // Every message meets the condition when its flags are handed over.
  predicate AlwaysAloneOnPath(s: State, labels: seq<Label>) {
    labels == [] ||
    (AlwaysAloneOnPath(s, labels[..|labels| - 1]) &&
     var before := Run(s, labels[..|labels| - 1]);
     (Raises(before, labels[|labels| - 1]) ==> AloneOnPath(before.files, before.worker.msg)))
  }

  predicate AlwaysAloneInTree(s: State, labels: seq<Label>) {
    labels == [] ||
    (AlwaysAloneInTree(s, labels[..|labels| - 1]) &&
     var before := Run(s, labels[..|labels| - 1]);
     (Raises(before, labels[|labels| - 1]) ==> AloneInTree(before.files, before.worker.msg)))
  }

  // Every state of the run has the property.
  predicate AlwaysOnePerPath(s: State, labels: seq<Label>) {
    OnePerPath(Run(s, labels).files) && (labels == [] || AlwaysOnePerPath(s, labels[..|labels| - 1]))
  }

  predicate AlwaysOnePerTree(s: State, labels: seq<Label>) {
    OnePerTree(Run(s, labels).files) && (labels == [] || AlwaysOnePerTree(s, labels[..|labels| - 1]))
  }

  lemma StepKeepsOneIff(s: State, l: Label)
    requires Inv(s) && Enabled(s, l)
    ensures OnePerPath(s.files) ==>
      (OnePerPath(Apply(s, l).files) <==> (Raises(s, l) ==> AloneOnPath(s.files, s.worker.msg)))
    ensures OnePerTree(s.files) ==>
      (OnePerTree(Apply(s, l).files) <==> (Raises(s, l) ==> AloneInTree(s.files, s.worker.msg)))
  {
    if Raises(s, l) {
      InFlightAgrees(s);
      var status := StatusOf(s.worker.ok);
      if OnePerPath(s.files) {
        HandOverKeepsOnePath(s.files, s.worker.msg, status, l.now);
      }
      if OnePerTree(s.files) {
        HandOverKeepsOneTree(s.files, s.worker.msg, status, l.now);
      }
    } else {
      CurrentElsewhere(s, l);
    }
  }

  // In every run, with no discipline assumed: each state has at most one current
  // version per path (per tree) exactly if each hand-over finds no third current
  // version on a path with (in the tree of) the version it raises.
  lemma {:induction false} OneCurrentIff(dir: string, labels: seq<Label>)
    requires Legal(Init(dir), labels)
    ensures AlwaysOnePerPath(Init(dir), labels) <==> AlwaysAloneOnPath(Init(dir), labels)
    ensures AlwaysOnePerTree(Init(dir), labels) <==> AlwaysAloneInTree(Init(dir), labels)
  {
    if labels != [] {
      var before := labels[..|labels| - 1];
      OneCurrentIff(dir, before);
      RunKeepsInv(dir, before);
      StepKeepsOneIff(Run(Init(dir), before), labels[|labels| - 1]);
    }
  }

  // ---- Trees without branches ----

  // No two versions share a predecessor.
  predicate Unbranched(files: Files) {
    forall a, b :: a in files && b in files && files[a].prevId.Some? && files[a].prevId == files[b].prevId ==> a == b
  }

  // The version after `a` on the way to `v`.
  lemma {:induction false} ChildOnPath(files: Files, a: string, v: string) returns (x: string)
    requires Anc(files, a, v) && a != v
    ensures Parent(files, x) == Some(a) && Anc(files, x, v)
    decreases if v in files then files[v].rowid else 0
  {
    var p := Parent(files, v).value;
    if p == a {
      x := v;
    } else {
      x := ChildOnPath(files, a, p);
    }
  }

  lemma {:induction false} SameTreeSamePath(files: Files, u: string, w: string)
    requires Forest(files) && Unbranched(files) && u in files && w in files && Root(files, u) == Root(files, w)
    ensures Anc(files, u, w) || Anc(files, w, u)
    decreases files[u].rowid
  {
    WalkEnds(files, w);
    if Parent(files, u).Some? {
      var p := Parent(files, u).value;
      SameTreeSamePath(files, p, w);
      if Anc(files, p, w) && p != w {
        var x := ChildOnPath(files, p, w);
        assert files[x].prevId == files[u].prevId;
      }
    }
  }

  // In every disciplined run in which no two versions share a predecessor, at
  // most one version per tree is current.
  lemma OneCurrentPerTree(dir: string, labels: seq<Label>)
    requires Legal(Init(dir), labels) && DisciplinedRun(Init(dir), labels)
    requires Unbranched(Run(Init(dir), labels).files)
    ensures OnePerTree(Run(Init(dir), labels).files)
  {
    var files := Run(Init(dir), labels).files;
    OneCurrentPerPath(dir, labels);
    RunKeepsInv(dir, labels);
    forall u, w | u in files && w in files && files[u].current && files[w].current && Root(files, u) == Root(files, w)
      ensures u == w
    {
      SameTreeSamePath(files, u, w);
    }
  }

  // ---- What the discipline is for ----

  predicate AnyRow(s: State, id: string) {
    exists c :: c in s.chunks && c.fileId == id
  }

  predicate HasRow(s: State, id: string, k: int) {
    exists c :: c in s.chunks && c.fileId == id && c.chunkId == k
  }

  // Nothing is left to borrow: both versions have rows, and with equal counts
  // the new one has a row for each chunk of the old.
  predicate Covers(s: State, id: string, p: string) {
    id in s.files && p in s.files && AnyRow(s, id) && AnyRow(s, p) &&
    (s.files[id].nChunks == s.files[p].nChunks ==>
      forall c :: c in s.chunks && c.fileId == p ==> HasRow(s, id, c.chunkId))
  }

  lemma NothingToBorrow(s: State, id: string, p: string, rows: seq<FilesWithChunks>)
    requires Forest(s.files) && id != p && Covers(s, id, p) && IsSelection(s, {id, p}, rows)
    ensures PlanOf(id, rows) == Some((HeaderOf(s.files[id]), map[]))
  {
    PlanMeaning(s, id, p, rows);
    SelectedChunks(s, {id, p}, rows, id);
    SelectedChunks(s, {id, p}, rows, p);
    var own, prev := ChunkMap(rows, id), ChunkMap(rows, p);
    if s.files[id].nChunks == s.files[p].nChunks {
      forall key | key in prev ensures key in own {
        var c := prev[key].chunk;
        assert HasRow(s, id, c.chunkId);
      }
      assert RestOf(own, prev).Keys == {};
      assert RestOf(own, prev) == map[];
    }
  }

  // The run goes on, without creating successors.
  predicate Continues(labels: seq<Label>, more: seq<Label>) {
    labels <= more && forall i :: |labels| <= i < |more| ==> !more[i].Succeed?
  }

  // It goes on with ends of file and worker steps only.
  predicate Reconciles(labels: seq<Label>, more: seq<Label>) {
    Continues(labels, more) && forall i :: |labels| <= i < |more| ==> !more[i].Upload? && !more[i].Prepare?
  }

  lemma {:induction false} StaysDisciplined(s: State, labels: seq<Label>, more: seq<Label>)
    requires DisciplinedRun(s, labels) && Continues(labels, more)
    ensures DisciplinedRun(s, more)
  {
    if |more| > |labels| {
      StaysDisciplined(s, labels, more[..|more| - 1]);
      assert !more[|more| - 1].Succeed?;
    } else {
      assert more == labels;
    }
  }

  // A message whose version needs nothing borrowed can always be reconciled.
  ghost predicate Ready(s: State) {
    Inv(s) && s.worker.Idle? && s.queue != [] &&
    (s.queue[0].prevId.Some? ==> Covers(s, s.queue[0].id, s.queue[0].prevId.value))
  }

  function Reconciled(s: State): State
    requires s.queue != []
  {
    s.(queue := s.queue[1..], files := HandedOver(s.files, s.queue[0].prevId, s.queue[0].id, Completed, 0))
  }

  lemma PlanNothing(s: State, m: CacheMetadata, p: string, rows: seq<FilesWithChunks>)
    requires Forest(s.files) && s.worker == Took(m) && m.prevId == Some(p) && m.id != p && Covers(s, m.id, p)
    requires rows == JoinRows(s.files, s.chunks, {m.id, p})
    ensures Enabled(s, Plan(rows, [])) && Apply(s, Plan(rows, [])) == s.(worker := Filled(m, true))
  {
    NothingToBorrow(s, m.id, p, rows);
  }

  lemma ReconcileStates(s: State) returns (rows: seq<FilesWithChunks>)
    requires Ready(s)
    ensures Enabled(Apply(s, Take), Plan(rows, []))
    ensures Apply(Apply(s, Take), Plan(rows, [])) == s.(worker := Filled(s.queue[0], true), queue := s.queue[1..])
  {
    var m := s.queue[0];
    rows := [];
    if m.prevId.Some? {
      assert Pends(s, m) && Linked(s.files, m.id);
      var p := m.prevId.value;
      var taken := s.(worker := Took(m), queue := s.queue[1..]);
      assert Apply(s, Take) == taken;
      rows := JoinRows(s.files, s.chunks, {m.id, p});
      FlagsCover(s, taken, m.id, p);
      PlanNothing(taken, m, p, rows);
    }
  }

  lemma ReconcileNext(start: State, labels: seq<Label>) returns (more: seq<Label>)
    requires Legal(start, labels) && Ready(Run(start, labels))
    ensures Legal(start, more) && Reconciles(labels, more) && Run(start, more) == Reconciled(Run(start, labels))
  {
    var s := Run(start, labels);
    var rows := ReconcileStates(s);
    RunLast(start, labels, Take);
    RunLast(start, labels + [Take], Plan(rows, []));
    RunLast(start, labels + [Take] + [Plan(rows, [])], HandOver(true, 0));
    more := labels + [Take] + [Plan(rows, [])] + [HandOver(true, 0)];
  }

  // End-of-file for two versions, in this order.
  lemma QueueTwo(dir: string, labels: seq<Label>, a: string, b: string) returns (more: seq<Label>)
    requires Legal(Init(dir), labels)
    requires var s := Run(Init(dir), labels);
      s.queue == [] && a in s.files && b in s.files && s.files[a].status == Uploading && s.files[b].status == Uploading
    ensures Legal(Init(dir), more) && Reconciles(labels, more)
    ensures var s := Run(Init(dir), labels);
      Run(Init(dir), more) == s.(queue := [CacheMetadata(s.files[a].userId, s.files[a].prevId, "", a),
                                           CacheMetadata(s.files[b].userId, s.files[b].prevId, "", b)])
  {
    RunLast(Init(dir), labels, Eof(a, ""));
    RunLast(Init(dir), labels + [Eof(a, "")], Eof(b, ""));
    more := labels + [Eof(a, "")] + [Eof(b, "")];
  }

  // A fully uploaded successor of a first version that is itself uploading.
  predicate Hasty(s: State, p: string, v: string) {
    s.worker.Idle? && s.queue == [] && Covers(s, v, p) && s.files[v].prevId == Some(p) &&
    s.files[p].prevId.None? && s.files[v].status == Uploading && s.files[p].status == Uploading
  }

  // Without the discipline: wherever a successor was made from a first version
  // that is still uploading, some continuation makes both current.
  lemma DisciplineNeeded(dir: string, labels: seq<Label>, p: string, v: string) returns (more: seq<Label>)
    requires Legal(Init(dir), labels) && Hasty(Run(Init(dir), labels), p, v)
    ensures Legal(Init(dir), more) && Reconciles(labels, more) && !OnePerPath(Run(Init(dir), more).files)
  {
    var s := Run(Init(dir), labels);
    var queued := QueueTwo(dir, labels, v, p);
    RunKeepsInv(dir, queued);
    FlagsCover(s, Run(Init(dir), queued), v, p);
    var first := ReconcileNext(Init(dir), queued);
    RunKeepsInv(dir, first);
    more := ReconcileNext(Init(dir), first);
    RunKeepsInv(dir, more);
    var m := CacheMetadata(s.files[v].userId, Some(p), "", v);
    assert Run(Init(dir), queued).queue[0] == m;
    BothRaised(s.files, p, v, m);
    TwoOnPath(Run(Init(dir), more).files, p, v);
  }

  lemma TwoOnPath(files: Files, p: string, v: string)
    requires Forest(files) && p in files && v in files && files[v].prevId == Some(p)
    requires files[p].current && files[v].current
    ensures !OnePerPath(files)
  {
    assert Linked(files, v);
    assert Anc(files, p, v);
  }

  lemma BothRaised(files: Files, p: string, v: string, m: CacheMetadata)
    requires p in files && v in files && p != v && files[v].prevId == Some(p) && files[p].prevId.None?
    requires m.id == v && m.prevId == Some(p)
    ensures var first := HandedOver(files, m.prevId, m.id, Completed, 0);
      var after := HandedOver(first, None, p, Completed, 0);
      v in after && p in after && after[v].current && after[p].current && after[v].prevId == Some(p)
  {
  }

  // Two fully uploaded successors of one reconciled version.
  predicate Siblings(s: State, p: string, a: string, b: string) {
    a != b && s.worker.Idle? && s.queue == [] && Covers(s, a, p) && Covers(s, b, p) &&
    s.files[a].prevId == Some(p) && s.files[b].prevId == Some(p) && s.files[p].status != Uploading &&
    s.files[a].status == Uploading && s.files[b].status == Uploading
  }

  predicate BothCurrent(files: Files, a: string, b: string) {
    a in files && b in files && files[a].current && files[b].current && Root(files, a) == Root(files, b)
  }

  // With the discipline, still: two successors of one version can both become
  // current, so the property cannot be stated for whole trees.
  lemma SiblingsBothCurrent(dir: string, labels: seq<Label>, p: string, a: string, b: string)
    returns (more: seq<Label>)
    requires Legal(Init(dir), labels) && Siblings(Run(Init(dir), labels), p, a, b)
    ensures Legal(Init(dir), more) && Reconciles(labels, more) && BothCurrent(Run(Init(dir), more).files, a, b)
  {
    var s := Run(Init(dir), labels);
    RunKeepsInv(dir, labels);
    var queued := QueueTwo(dir, labels, a, b);
    RunKeepsInv(dir, queued);
    FlagsCover(s, Run(Init(dir), queued), a, p);
    var first := ReconcileNext(Init(dir), queued);
    RunKeepsInv(dir, first);
    SiblingsStates(s, Run(Init(dir), first), p, a, b);
    more := ReconcileNext(Init(dir), first);
    RunKeepsInv(dir, more);
    SameRoot(Run(Init(dir), more).files, p, a, b);
  }

  lemma SiblingsStates(s: State, first: State, p: string, a: string, b: string)
    requires Inv(s) && Inv(first) && a != b && Covers(s, a, p) && Covers(s, b, p) && s.worker.Idle?
    requires s.files[a].prevId == Some(p) && s.files[b].prevId == Some(p)
    requires first == s.(queue := [CacheMetadata(s.files[b].userId, Some(p), "", b)],
                         files := HandedOver(s.files, Some(p), a, Completed, 0))
    ensures Ready(first)
    ensures var after := Reconciled(first).files;
      after.Keys == s.files.Keys && after[a].current && after[b].current &&
      after[a].prevId == Some(p) && after[b].prevId == Some(p)
  {
    assert Linked(s.files, a) && Linked(s.files, b);
    SiblingsRaised(s.files, p, a, b);
    FlagsCover(s, first, b, p);
  }

  lemma SameRoot(files: Files, p: string, a: string, b: string)
    requires Forest(files) && a in files && b in files
    requires files[a].prevId == Some(p) && files[b].prevId == Some(p)
    ensures Root(files, a) == Root(files, b)
  {
    assert Linked(files, a) && Linked(files, b);
    assert Root(files, a) == Root(files, p) == Root(files, b);
  }

  lemma SiblingsRaised(files: Files, p: string, a: string, b: string)
    requires p in files && a in files && b in files && a != p && b != p && a != b
    requires files[a].prevId == Some(p) && files[b].prevId == Some(p)
    ensures var first := HandedOver(files, Some(p), a, Completed, 0);
      first.Keys == files.Keys && first[b] == files[b] && first[p].nChunks == files[p].nChunks &&
      var after := HandedOver(first, Some(p), b, Completed, 0);
      after.Keys == files.Keys && after[a].current && after[b].current &&
      after[a].prevId == Some(p) && after[b].prevId == Some(p)
  {
  }

  lemma FlagsCover(s: State, t: State, id: string, p: string)
    requires Covers(s, id, p) && t.chunks == s.chunks && t.files.Keys == s.files.Keys
    requires t.files[id].nChunks == s.files[id].nChunks && t.files[p].nChunks == s.files[p].nChunks
    ensures Covers(t, id, p)
  {
    if s.files[id].nChunks == s.files[p].nChunks {
      forall c | c in t.chunks && c.fileId == p ensures HasRow(t, id, c.chunkId) {
        assert HasRow(s, id, c.chunkId);
      }
    }
  }

  // ---- Versions that are over ----

  // Not current, no longer uploading, and not waiting to be reconciled.
  ghost predicate Over(s: State, v: string) {
    v in s.files && !s.files[v].current && s.files[v].status != Uploading && forall m :: Pends(s, m) ==> m.id != v
  }

  lemma StepKeepsOver(s: State, l: Label, v: string)
    requires Inv(s) && Enabled(s, l) && Over(s, v)
    ensures Over(Apply(s, l), v)
  {
    var t := Apply(s, l);
    NoNewMessage(s, l, v);
    if Raises(s, l) {
      InFlightAgrees(s);
      assert Pends(s, s.worker.msg);
      HandOverRows(s.files, s.worker.msg, StatusOf(s.worker.ok), l.now);
    } else {
      FlagsElsewhere(s, l);
    }
  }

  // Only a version that is still uploading is queued.
  lemma NoNewMessage(s: State, l: Label, v: string)
    requires v in s.files && s.files[v].status != Uploading && forall m :: Pends(s, m) ==> m.id != v
    ensures forall m :: Pends(Apply(s, l), m) ==> m.id != v
  {
  }

  lemma {:induction false} RunKeepsOver(s: State, labels: seq<Label>, v: string)
    requires Inv(s) && Legal(s, labels) && Over(s, v)
    ensures Inv(Run(s, labels)) && Over(Run(s, labels), v)
  {
    if labels != [] {
      var before := labels[..|labels| - 1];
      RunKeepsOver(s, before, v);
      StepKeepsInv(Run(s, before), labels[|labels| - 1]);
      StepKeepsOver(Run(s, before), labels[|labels| - 1], v);
    }
  }

  // In every run, with no discipline assumed: a version that is over never
  // becomes current, and no end of file is accepted for it, whatever follows.
  lemma {:induction false} NeverRises(dir: string, before: seq<Label>, after: seq<Label>, v: string, device: string)
    requires Legal(Init(dir), before + after) && Over(Run(Init(dir), before), v)
    ensures var t := Run(Init(dir), before + after);
      v in t.files && !t.files[v].current && Apply(t, Eof(v, device)) == t
  {
    RunSplit(Init(dir), before, after);
    RunKeepsInv(dir, before);
    RunKeepsOver(Run(Init(dir), before), after, v);
  }

  // A committed hand-over ends the predecessor exactly if no message of the
  // predecessor still waits.
  lemma HandOverEndsIff(s: State, p: string, now: int)
    requires Inv(s) && s.worker.Filled? && s.worker.msg.prevId == Some(p)
    ensures Over(Apply(s, HandOver(true, now)), p) <==> forall m :: m in s.queue ==> m.id != p
  {
    var t := Apply(s, HandOver(true, now));
    InFlightAgrees(s);
    HandOverRows(s.files, s.worker.msg, StatusOf(s.worker.ok), now);
    assert forall m :: Pends(t, m) <==> m in s.queue;
  }

  // ---- Versions without rows ----

  predicate BothRowed(s: State, id: string, prevId: Option<string>) {
    prevId.Some? ==> AnyRow(s, id) && AnyRow(s, prevId.value)
  }

  ghost predicate Rowed(s: State) {
    (forall v {:trigger BothRowed(s, v, s.files[v].prevId)} ::
      v in s.files && s.files[v].current ==> BothRowed(s, v, s.files[v].prevId)) &&
    (s.worker.Planned? || s.worker.Filled? ==> BothRowed(s, s.worker.msg.id, s.worker.msg.prevId))
  }

  lemma RowsStay(s: State, t: State, id: string, prevId: Option<string>)
    requires s.chunks <= t.chunks && BothRowed(s, id, prevId)
    ensures BothRowed(t, id, prevId)
  {
    assert forall c :: c in s.chunks ==> c in t.chunks;
  }

  lemma PlannedBothRowed(s: State, rows: seq<FilesWithChunks>, batch: seq<UserFile>)
    requires Inv(s) && s.worker.Took? && PlanEnabled(s, s.worker.msg, rows, batch)
    requires !PlanStep(s, rows, batch).worker.Idle?
    ensures BothRowed(s, s.worker.msg.id, s.worker.msg.prevId)
  {
    var msg := s.worker.msg;
    InFlightAgrees(s);
    if msg.prevId.Some? {
      var p := msg.prevId.value;
      assert Linked(s.files, msg.id);
      PlanMeaning(s, msg.id, p, rows);
      SelectedChunks(s, {msg.id, p}, rows, msg.id);
      SelectedChunks(s, {msg.id, p}, rows, p);
    }
  }

  lemma WorkerBothRowed(s: State, l: Label)
    requires Inv(s) && Rowed(s) && Enabled(s, l)
    requires Apply(s, l).worker.Planned? || Apply(s, l).worker.Filled?
    ensures BothRowed(s, Apply(s, l).worker.msg.id, Apply(s, l).worker.msg.prevId)
  {
    SameMessage(s, l);
    if l.Plan? {
      PlannedBothRowed(s, l.rows, l.batch);
    }
  }

  // Past its first phase the worker still holds the message it held before.
  lemma SameMessage(s: State, l: Label)
    requires Apply(s, l).worker.Planned? || Apply(s, l).worker.Filled?
    ensures s.worker.Planned? || s.worker.Filled? || (l.Plan? && s.worker.Took?)
    ensures Apply(s, l).worker.msg == s.worker.msg
  {
  }

  lemma StepKeepsRowed(s: State, l: Label)
    requires Inv(s) && Rowed(s) && Enabled(s, l)
    ensures Rowed(Apply(s, l))
  {
    var t := Apply(s, l);
    forall v | v in t.files && t.files[v].current ensures BothRowed(t, v, t.files[v].prevId) {
      RaisedBothRowed(s, l, v);
    }
    if t.worker.Planned? || t.worker.Filled? {
      WorkerBothRowed(s, l);
      StepExtends(s, l);
      RowsStay(s, t, t.worker.msg.id, t.worker.msg.prevId);
    }
  }

  lemma RaisedBothRowed(s: State, l: Label, v: string)
    requires Inv(s) && Rowed(s) && Enabled(s, l) && v in Apply(s, l).files && Apply(s, l).files[v].current
    ensures BothRowed(Apply(s, l), v, Apply(s, l).files[v].prevId)
  {
    StepExtends(s, l);
    if l.HandOver? && l.committed {
      HandedOverBothRowed(s, Apply(s, l), l.now, v);
    } else {
      FlagsElsewhere(s, l);
      NewVersionsNotCurrent(s, l);
      RowsStay(s, Apply(s, l), v, s.files[v].prevId);
    }
  }

  lemma NewVersionsNotCurrent(s: State, l: Label)
    ensures forall v :: v in Apply(s, l).files && v !in s.files ==> !Apply(s, l).files[v].current
  {
  }

  lemma HandedOverBothRowed(s: State, t: State, now: int, v: string)
    requires Inv(s) && Rowed(s) && s.worker.Filled? && t.files == FlagsAfter(s, now) && s.chunks <= t.chunks
    requires v in t.files && t.files[v].current
    ensures BothRowed(t, v, t.files[v].prevId)
  {
    InFlightAgrees(s);
    HandOverRows(s.files, s.worker.msg, StatusOf(s.worker.ok), now);
    RowsStay(s, t, v, s.files[v].prevId);
  }

  lemma {:induction false} RunKeepsRowed(dir: string, labels: seq<Label>)
    requires Legal(Init(dir), labels)
    ensures Rowed(Run(Init(dir), labels))
  {
    if labels != [] {
      var before := labels[..|labels| - 1];
      RunKeepsRowed(dir, before);
      RunKeepsInv(dir, before);
      StepKeepsRowed(Run(Init(dir), before), labels[|labels| - 1]);
    }
  }

  // In every run: a successor becomes current only if it and its predecessor
  // have chunk rows. So an empty file can never be replaced, and no file can be
  // replaced by an empty one.
  lemma CurrentSuccessorsHaveRows(dir: string, labels: seq<Label>, v: string)
    requires Legal(Init(dir), labels)
    requires v in Run(Init(dir), labels).files && Run(Init(dir), labels).files[v].current
    requires Run(Init(dir), labels).files[v].prevId.Some?
    ensures AnyRow(Run(Init(dir), labels), v)
    ensures AnyRow(Run(Init(dir), labels), Run(Init(dir), labels).files[v].prevId.value)
  {
    RunKeepsRowed(dir, labels);
    var s := Run(Init(dir), labels);
    assert BothRowed(s, v, s.files[v].prevId);
  }
}
