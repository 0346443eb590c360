// The worker pool of pkg/workerpool/workerpool.go: a dispatcher and N workers
// over bounded channels, as interleaved atomic steps. Jobs are named by the
// order in which the dispatcher received them.
module WorkerPool {
  import opened Rows

  // Where a worker's loop is: about to put its bench into the pool, in its
  // select, in the processor, sending a result, or returned.
  datatype Place = AtPool | Waiting | Processing(job: nat) | Sending(job: nat) | Returned

  // `bench` and `result` are channels with one buffer slot each. A result is named
  // by its job.
  datatype Worker = Worker(place: Place, bench: Option<nat>, result: Option<nat>)

  // Dispatch: in its select, waiting for a bench, holding one, or returned.
  datatype Dispatcher = Receiving | Holding(job: nat) | Handing(job: nat, to: nat) | Ended

  // `queue` is the channel of channels: the indices of the offered benches.
  // `drained` are the results that were read, `lost` those that an abort dropped.
  datatype Pool = Pool(
    capture: bool,
    workers: seq<Worker>,
    queue: seq<nat>,
    dispatcher: Dispatcher,
    received: nat,
    done: seq<nat>,
    drained: seq<nat>,
    lost: seq<nat>)

  function NewPool(size: nat, capture: bool): Pool {
    Pool(capture, seq(size, _ => Worker(AtPool, None, None)), [], Receiving, 0, [], [], [])
  }

  datatype Action =
    | Receive | Draw | Give | End
    | Offer(i: nat) | Accept(i: nat) | Finish(i: nat) | Send(i: nat)
    | Drain(i: nat) | Quit(i: nat) | Abort(i: nat)

  predicate Can(p: Pool, a: Action) {
    match a
    case Receive => p.dispatcher.Receiving?
    case Draw => p.dispatcher.Holding? && p.queue != []
    case Give => p.dispatcher.Handing? && p.dispatcher.to < |p.workers| && p.workers[p.dispatcher.to].bench.None?
    case End => p.dispatcher.Receiving?
    case Offer(i) => i < |p.workers| && p.workers[i].place.AtPool? && |p.queue| < |p.workers|
    case Accept(i) => i < |p.workers| && p.workers[i].place.Waiting? && p.workers[i].bench.Some?
    case Finish(i) => i < |p.workers| && p.workers[i].place.Processing?
    case Send(i) => i < |p.workers| && p.workers[i].place.Sending? && p.workers[i].result.None?
    case Drain(i) => i < |p.workers| && p.workers[i].result.Some?
    case Quit(i) => i < |p.workers| && p.workers[i].place.Waiting?
    case Abort(i) => i < |p.workers| && p.workers[i].place.Sending?
  }

  function With(p: Pool, i: nat, w: Worker): Pool
    requires i < |p.workers|
  {
    p.(workers := p.workers[i := w])
  }

  function Do(p: Pool, a: Action): Pool {
    if !Can(p, a) then p else match a
    case Receive => p.(dispatcher := Holding(p.received), received := p.received + 1)
    case Draw => p.(dispatcher := Handing(p.dispatcher.job, p.queue[0]), queue := p.queue[1..])
    case Give =>
      var i := p.dispatcher.to;
      With(p, i, p.workers[i].(bench := Some(p.dispatcher.job))).(dispatcher := Receiving)
    case End => p.(dispatcher := Ended)
    case Offer(i) => With(p, i, p.workers[i].(place := Waiting)).(queue := p.queue + [i])
    case Accept(i) => With(p, i, p.workers[i].(place := Processing(p.workers[i].bench.value), bench := None))
    case Finish(i) =>
      With(p, i, p.workers[i].(place := if p.capture then Sending(p.workers[i].place.job) else AtPool))
        .(done := p.done + [p.workers[i].place.job])
    case Send(i) => With(p, i, p.workers[i].(place := AtPool, result := Some(p.workers[i].place.job)))
    case Drain(i) =>
      With(p, i, p.workers[i].(result := None)).(drained := p.drained + [p.workers[i].result.value])
    case Quit(i) => With(p, i, p.workers[i].(place := Returned))
    case Abort(i) =>
      With(p, i, p.workers[i].(place := Returned)).(lost := p.lost + [p.workers[i].place.job])
  }

  // ---- Benches ----

  function HandedTo(d: Dispatcher, i: nat): nat {
    if d.Handing? && d.to == i then 1 else 0
  }

  function Full(w: Worker): nat {
    if w.bench.Some? then 1 else 0
  }

  // How often the bench of worker i is out: in the pool's queue, in the
  // dispatcher's hand, or filled.
  function Out(p: Pool, i: nat): nat
    requires i < |p.workers|
  {
    multiset(p.queue)[i] + HandedTo(p.dispatcher, i) + Full(p.workers[i])
  }

  predicate BenchSound(p: Pool, i: nat)
    requires i < |p.workers|
  {
    match p.workers[i].place
    case Waiting => Out(p, i) == 1
    case Returned => Out(p, i) <= 1
    case _ => Out(p, i) == 0
  }

  predicate Benches(p: Pool) {
    (forall i {:trigger BenchSound(p, i)} :: 0 <= i < |p.workers| ==> BenchSound(p, i)) &&
    (forall k :: 0 <= k < |p.queue| ==> p.queue[k] < |p.workers|) &&
    (p.dispatcher.Handing? ==> p.dispatcher.to < |p.workers|)
  }

  lemma DrawCounts(queue: seq<nat>, i: nat)
    requires queue != []
    ensures multiset(queue)[i] == multiset(queue[1..])[i] + if queue[0] == i then 1 else 0
  {
    assert queue == [queue[0]] + queue[1..];
  }

  lemma StepKeepsBench(p: Pool, a: Action, i: nat)
    requires Can(p, a) && i < |p.workers| && BenchSound(p, i) && |Do(p, a).workers| == |p.workers|
    ensures BenchSound(Do(p, a), i)
  {
    if a.Draw? {
      DrawCounts(p.queue, i);
    }
  }

  lemma StepKeepsBenches(p: Pool, a: Action)
    requires Benches(p) && Can(p, a)
    ensures Benches(Do(p, a)) && |Do(p, a).workers| == |p.workers| && Do(p, a).capture == p.capture
  {
    var q := Do(p, a);
    assert |q.workers| == |p.workers|;
    forall i | 0 <= i < |q.workers| ensures BenchSound(q, i) {
      assert BenchSound(p, i);
      StepKeepsBench(p, a, i);
    }
  }

  // No bench is out twice, so neither channel send of the protocol ever blocks.
  lemma NeverBlocks(p: Pool)
    requires Benches(p)
    ensures forall i :: 0 <= i < |p.workers| ==> Out(p, i) <= 1
    ensures p.dispatcher.Handing? ==> Can(p, Give)
    ensures forall i :: 0 <= i < |p.workers| && p.workers[i].place.AtPool? ==> Can(p, Offer(i))
  {
    forall i | 0 <= i < |p.workers| ensures Out(p, i) <= 1 {
      assert BenchSound(p, i);
    }
    assert p.dispatcher.Handing? ==> Out(p, p.dispatcher.to) <= 1;
    forall i | 0 <= i < |p.workers| && p.workers[i].place.AtPool? ensures |p.queue| < |p.workers| {
      assert BenchSound(p, i);
      forall a, b | 0 <= a < b < |p.queue| ensures p.queue[a] != p.queue[b] {
        if p.queue[a] == p.queue[b] {
          assert BenchSound(p, p.queue[a]);
          CountTwice(p.queue, a, b);
        }
      }
      Pigeonhole(p.queue, |p.workers|, i);
    }
  }

  lemma CountTwice(q: seq<nat>, a: nat, b: nat)
    requires a < b < |q| && q[a] == q[b]
    ensures multiset(q)[q[a]] >= 2
  {
    assert q == q[..a] + [q[a]] + q[a + 1..b] + [q[b]] + q[b + 1..];
  }

  lemma Pigeonhole(q: seq<nat>, n: nat, absent: nat)
    requires forall k :: 0 <= k < |q| ==> q[k] < n
    requires forall a, b :: 0 <= a < b < |q| ==> q[a] != q[b]
    requires absent < n && absent !in q
    ensures |q| < n
  {
    var seen := set k | 0 <= k < |q| :: q[k];
    var all := Below(n);
    DistinctSize(q);
    assert absent in all && absent !in seen;
    assert seen <= all - {absent};
    Subset(seen, all - {absent});
  }

  lemma {:induction false} Subset(small: set<nat>, large: set<nat>)
    requires small <= large
    ensures |small| <= |large|
  {
    if small != {} {
      var x :| x in small;
      Subset(small - {x}, large - {x});
    }
  }

  lemma {:induction false} DistinctSize(q: seq<nat>)
    requires forall a, b :: 0 <= a < b < |q| ==> q[a] != q[b]
    ensures |set k | 0 <= k < |q| :: q[k]| == |q|
  {
    if q != [] {
      var m := |q| - 1;
      DistinctSize(q[..m]);
      assert (set k | 0 <= k < |q| :: q[k]) == (set k | 0 <= k < m :: q[..m][k]) + {q[m]};
    }
  }

  function Below(n: nat): (all: set<nat>)
    ensures |all| == n && forall k :: k in all <==> 0 <= k < n
  {
    if n == 0 then {} else Below(n - 1) + {n - 1}
  }

  // ---- Jobs ----

  function Indicator(b: bool): nat {
    if b then 1 else 0
  }

  // How often a job is on a worker's bench or in its processor.
  function JobsAt(w: Worker, job: nat): nat {
    Indicator(w.bench == Some(job)) + Indicator(w.place == Processing(job))
  }

  function JobsHeld(ws: seq<Worker>, job: nat): nat {
    if ws == [] then 0 else JobsHeld(ws[..|ws| - 1], job) + JobsAt(ws[|ws| - 1], job)
  }

  function InHand(d: Dispatcher, job: nat): nat {
    Indicator((d.Holding? || d.Handing?) && d.job == job)
  }

  // How often a job is anywhere.
  function Copies(p: Pool, job: nat): nat {
    multiset(p.done)[job] + JobsHeld(p.workers, job) + InHand(p.dispatcher, job)
  }

  lemma {:induction false} HeldUpdate(ws: seq<Worker>, i: nat, w: Worker, job: nat)
    requires i < |ws|
    ensures JobsHeld(ws[i := w], job) + JobsAt(ws[i], job) == JobsHeld(ws, job) + JobsAt(w, job)
  {
    var m := |ws| - 1;
    if i == m {
      assert ws[i := w][..m] == ws[..m];
    } else {
      HeldUpdate(ws[..m], i, w, job);
      assert ws[i := w][..m] == ws[..m][i := w];
    }
  }

  // A step moves a job or receives a new one; it never copies or drops one.
  lemma StepMovesJobs(p: Pool, a: Action, job: nat)
    requires Can(p, a)
    ensures Copies(Do(p, a), job) == Copies(p, job) + Indicator(a.Receive? && job == p.received)
  {
    var q := Do(p, a);
    if a.Give? {
      HeldUpdate(p.workers, p.dispatcher.to, q.workers[p.dispatcher.to], job);
    } else if !(a.Receive? || a.Draw? || a.End?) {
      HeldUpdate(p.workers, a.i, q.workers[a.i], job);
    }
  }

  // ---- Runs ----

  function After(p: Pool, actions: seq<Action>): Pool {
    if actions == [] then p else Do(After(p, actions[..|actions| - 1]), actions[|actions| - 1])
  }

  predicate Possible(p: Pool, actions: seq<Action>) {
    actions == [] ||
    (Possible(p, actions[..|actions| - 1]) && Can(After(p, actions[..|actions| - 1]), actions[|actions| - 1]))
  }

  lemma {:induction false} RunKeeps(size: nat, capture: bool, actions: seq<Action>)
    requires Possible(NewPool(size, capture), actions)
    ensures var p := After(NewPool(size, capture), actions);
      Benches(p) && |p.workers| == size && p.capture == capture
  {
    if actions != [] {
      var before := actions[..|actions| - 1];
      RunKeeps(size, capture, before);
      StepKeepsBenches(After(NewPool(size, capture), before), actions[|actions| - 1]);
    }
  }

  lemma {:induction false} FreshHeld(ws: seq<Worker>, job: nat)
    requires forall i :: 0 <= i < |ws| ==> ws[i] == Worker(AtPool, None, None)
    ensures JobsHeld(ws, job) == 0
  {
    if ws != [] {
      FreshHeld(ws[..|ws| - 1], job);
    }
  }

  // In every run, stops included: each bench is out at most once, and neither
  // `jobChan <- job` nor `Pool <- Bench` ever waits.
  lemma TokenConservation(size: nat, capture: bool, actions: seq<Action>)
    requires Possible(NewPool(size, capture), actions)
    ensures var p := After(NewPool(size, capture), actions);
      (forall i :: 0 <= i < |p.workers| ==> Out(p, i) <= 1) &&
      (p.dispatcher.Handing? ==> Can(p, Give)) &&
      forall i :: 0 <= i < |p.workers| && p.workers[i].place.AtPool? ==> Can(p, Offer(i))
  {
    RunKeeps(size, capture, actions);
    NeverBlocks(After(NewPool(size, capture), actions));
  }

  // In every run, stops included: a received job is in exactly one place, an
  // unreceived one nowhere; so no job is lost or processed twice.
  lemma {:induction false} JobConservation(size: nat, capture: bool, actions: seq<Action>, job: nat)
    requires Possible(NewPool(size, capture), actions)
    ensures var p := After(NewPool(size, capture), actions);
      multiset(p.done)[job] + JobsHeld(p.workers, job) + InHand(p.dispatcher, job) == if job < p.received then 1 else 0
  {
    if actions == [] {
      FreshHeld(NewPool(size, capture).workers, job);
    } else {
      var before := actions[..|actions| - 1];
      JobConservation(size, capture, before, job);
      StepMovesJobs(After(NewPool(size, capture), before), actions[|actions| - 1], job);
    }
  }

  // ---- Results ----

  // How often a worker holds the result of a job.
  function ResultsAt(w: Worker, job: nat): nat {
    Indicator(w.place == Sending(job)) + Indicator(w.result == Some(job))
  }

  function ResultsHeld(ws: seq<Worker>, job: nat): nat {
    if ws == [] then 0 else ResultsHeld(ws[..|ws| - 1], job) + ResultsAt(ws[|ws| - 1], job)
  }

  function Results(p: Pool, job: nat): nat {
    multiset(p.drained)[job] + ResultsHeld(p.workers, job) + multiset(p.lost)[job]
  }

  lemma {:induction false} ResultsUpdate(ws: seq<Worker>, i: nat, w: Worker, job: nat)
    requires i < |ws|
    ensures ResultsHeld(ws[i := w], job) + ResultsAt(ws[i], job) == ResultsHeld(ws, job) + ResultsAt(w, job)
  {
    var m := |ws| - 1;
    if i == m {
      assert ws[i := w][..m] == ws[..m];
    } else {
      ResultsUpdate(ws[..m], i, w, job);
      assert ws[i := w][..m] == ws[..m][i := w];
    }
  }

  // A step moves a result, or makes one for the job that finishes.
  lemma StepMovesResults(p: Pool, a: Action, job: nat)
    requires Can(p, a)
    ensures Results(Do(p, a), job) ==
      Results(p, job) + Indicator(p.capture && a.Finish? && p.workers[a.i].place == Processing(job))
    ensures multiset(Do(p, a).done)[job] ==
      multiset(p.done)[job] + Indicator(a.Finish? && p.workers[a.i].place == Processing(job))
  {
    var q := Do(p, a);
    if a.Give? {
      ResultsUpdate(p.workers, p.dispatcher.to, q.workers[p.dispatcher.to], job);
    } else if !(a.Receive? || a.Draw? || a.End?) {
      ResultsUpdate(p.workers, a.i, q.workers[a.i], job);
    }
  }

  lemma {:induction false} FreshResults(ws: seq<Worker>, job: nat)
    requires forall i :: 0 <= i < |ws| ==> ws[i] == Worker(AtPool, None, None)
    ensures ResultsHeld(ws, job) == 0
  {
    if ws != [] {
      FreshResults(ws[..|ws| - 1], job);
    }
  }

  // In every run: with result capture, each processed job has exactly one result
  // (being sent, in the result channel, read, or dropped by an abort), and no other
  // job has one; without capture there are no results.
  lemma {:induction false} ResultConservation(size: nat, capture: bool, actions: seq<Action>, job: nat)
    requires Possible(NewPool(size, capture), actions)
    ensures var p := After(NewPool(size, capture), actions);
      multiset(p.drained)[job] + ResultsHeld(p.workers, job) + multiset(p.lost)[job] ==
        if capture then multiset(p.done)[job] else 0
  {
    if actions == [] {
      FreshResults(NewPool(size, capture).workers, job);
    } else {
      var before := actions[..|actions| - 1];
      ResultConservation(size, capture, before, job);
      RunKeeps(size, capture, before);
      StepMovesResults(After(NewPool(size, capture), before), actions[|actions| - 1], job);
    }
  }

  // Only an abort drops a result.
  lemma {:induction false} OnlyAbortsLose(size: nat, capture: bool, actions: seq<Action>)
    requires Possible(NewPool(size, capture), actions) && forall a :: a in actions ==> !a.Abort?
    ensures After(NewPool(size, capture), actions).lost == []
  {
    if actions != [] {
      var before, last := actions[..|actions| - 1], actions[|actions| - 1];
      OnlyAbortsLose(size, capture, before);
      assert last in actions;
    }
  }

  // The workers in the order in which they offered their benches.
  function Offered(actions: seq<Action>): seq<nat> {
    if actions == [] then []
    else
      var last := actions[|actions| - 1];
      Offered(actions[..|actions| - 1]) + (if last.Offer? then [last.i] else [])
  }

  // The pool's queue holds the last benches offered: the dispatcher always draws
  // the one that has waited longest.
  lemma {:induction false} LongestWaiting(size: nat, capture: bool, actions: seq<Action>)
    requires Possible(NewPool(size, capture), actions)
    ensures var queue, offered := After(NewPool(size, capture), actions).queue, Offered(actions);
      |queue| <= |offered| && queue == offered[|offered| - |queue|..]
  {
    if actions != [] {
      var before, last := actions[..|actions| - 1], actions[|actions| - 1];
      LongestWaiting(size, capture, before);
      StepKeepsWaiting(After(NewPool(size, capture), before), last, Offered(before));
    }
  }

  lemma StepKeepsWaiting(p: Pool, a: Action, offered: seq<nat>)
    requires Can(p, a) && |p.queue| <= |offered| && p.queue == offered[|offered| - |p.queue|..]
    ensures var more, queue := offered + (if a.Offer? then [a.i] else []), Do(p, a).queue;
      |queue| <= |more| && queue == more[|more| - |queue|..]
  {
    if !a.Offer? && !a.Draw? {
      assert Do(p, a).queue == p.queue && offered + [] == offered;
    } else if a.Draw? {
      assert offered + [] == offered;
    }
  }

  // ---- Progress ----

  // Steps the pool takes by itself.
  predicate Internal(a: Action) {
    a.Draw? || a.Give? || a.Offer? || a.Accept? || a.Finish? || a.Send?
  }

  function WorkLeft(w: Worker): nat {
    (if w.bench.Some? then 4 else 0) +
    match w.place
    case AtPool => 1
    case Sending(_) => 2
    case Processing(_) => 3
    case _ => 0
  }

  function WorkHeld(ws: seq<Worker>): nat {
    if ws == [] then 0 else WorkHeld(ws[..|ws| - 1]) + WorkLeft(ws[|ws| - 1])
  }

  function Rank(p: Pool): nat {
    WorkHeld(p.workers) + match p.dispatcher case Holding(_) => 6 case Handing(_, _) => 5 case _ => 0
  }

  lemma {:induction false} WorkUpdate(ws: seq<Worker>, i: nat, w: Worker)
    requires i < |ws|
    ensures WorkHeld(ws[i := w]) + WorkLeft(ws[i]) == WorkHeld(ws) + WorkLeft(w)
  {
    var m := |ws| - 1;
    if i == m {
      assert ws[i := w][..m] == ws[..m];
    } else {
      WorkUpdate(ws[..m], i, w);
      assert ws[i := w][..m] == ws[..m][i := w];
    }
  }

  // Left alone, the pool cannot run forever ...
  lemma InternalStepsEnd(p: Pool, a: Action)
    requires Can(p, a) && Internal(a)
    ensures Rank(Do(p, a)) < Rank(p)
  {
    var q := Do(p, a);
    if a.Give? {
      WorkUpdate(p.workers, p.dispatcher.to, q.workers[p.dispatcher.to]);
    } else if !a.Draw? {
      WorkUpdate(p.workers, a.i, q.workers[a.i]);
    }
  }

  lemma {:induction false} InternalRunsEnd(p: Pool, actions: seq<Action>)
    requires Possible(p, actions) && forall a :: a in actions ==> Internal(a)
    ensures |actions| + Rank(After(p, actions)) <= Rank(p)
  {
    if actions != [] {
      var before, last := actions[..|actions| - 1], actions[|actions| - 1];
      InternalRunsEnd(p, before);
      InternalStepsEnd(After(p, before), last);
    }
  }

  predicate Quiescent(p: Pool) {
    !Can(p, Draw) && !Can(p, Give) &&
    forall i :: 0 <= i < |p.workers| ==>
      !Can(p, Offer(i)) && !Can(p, Accept(i)) && !Can(p, Finish(i)) && !Can(p, Send(i))
  }

  // A worker that nobody will wake: it returned, or nobody reads its result.
  predicate Stuck(w: Worker) {
    w.place.Returned? || (w.place.Sending? && w.result.Some?)
  }

  lemma {:induction false} NoneHeld(ws: seq<Worker>, job: nat)
    requires forall i :: 0 <= i < |ws| ==> ws[i].place.Waiting? && ws[i].bench.None?
    ensures JobsHeld(ws, job) == 0
  {
    if ws != [] {
      NoneHeld(ws[..|ws| - 1], job);
    }
  }

  lemma AllWaiting(p: Pool)
    requires Benches(p) && Quiescent(p) && forall i :: 0 <= i < |p.workers| ==> !Stuck(p.workers[i])
    requires |p.workers| >= 1
    ensures forall i :: 0 <= i < |p.workers| ==> p.workers[i].place.Waiting? && p.workers[i].bench.None?
    ensures !p.dispatcher.Holding? && !p.dispatcher.Handing?
  {
    NeverBlocks(p);
    forall i | 0 <= i < |p.workers| ensures p.workers[i].place.Waiting? && p.workers[i].bench.None? {
      assert !Can(p, Offer(i)) && !Can(p, Accept(i)) && !Can(p, Finish(i)) && !Can(p, Send(i));
      assert !Stuck(p.workers[i]);
    }
    assert BenchSound(p, 0);
    assert multiset(p.queue)[0] > 0 ==> 0 in p.queue;
  }

  // ... and when it comes to rest with no worker stuck, every received job has
  // been processed exactly once.
  lemma RestMeansDone(size: nat, capture: bool, actions: seq<Action>, job: nat)
    requires size >= 1 && Possible(NewPool(size, capture), actions)
    requires var p := After(NewPool(size, capture), actions);
      Quiescent(p) && forall i :: 0 <= i < |p.workers| ==> !Stuck(p.workers[i])
    ensures var p := After(NewPool(size, capture), actions);
      multiset(p.done)[job] == if job < p.received then 1 else 0
  {
    var p := After(NewPool(size, capture), actions);
    RunKeeps(size, capture, actions);
    AllWaiting(p);
    NoneHeld(p.workers, job);
    JobConservation(size, capture, actions, job);
  }

  // Without result capture (as the metadata supervisor runs it) only a stop can
  // leave a worker stuck.
  lemma StepSendsNothing(p: Pool, a: Action)
    requires !p.capture && Can(p, a) && forall i :: 0 <= i < |p.workers| ==> !p.workers[i].place.Sending?
    ensures forall i :: 0 <= i < |Do(p, a).workers| ==> !Do(p, a).workers[i].place.Sending?
  {
  }

  lemma {:induction false} NothingSent(size: nat, actions: seq<Action>)
    requires Possible(NewPool(size, false), actions)
    ensures var p := After(NewPool(size, false), actions);
      forall i :: 0 <= i < |p.workers| && Stuck(p.workers[i]) ==> p.workers[i].place.Returned?
    ensures var p := After(NewPool(size, false), actions);
      forall i :: 0 <= i < |p.workers| ==> !p.workers[i].place.Sending?
  {
    if actions != [] {
      var before := actions[..|actions| - 1];
      NothingSent(size, before);
      RunKeeps(size, false, before);
      StepSendsNothing(After(NewPool(size, false), before), actions[|actions| - 1]);
    }
  }

  // ---- One worker: first in, first out ----

  function JobSeq(w: Worker): seq<nat> {
    (if w.place.Processing? then [w.place.job] else []) + (if w.bench.Some? then [w.bench.value] else [])
  }

  function HandSeq(d: Dispatcher): seq<nat> {
    if d.Holding? || d.Handing? then [d.job] else []
  }

  function Line(p: Pool): seq<nat>
    requires |p.workers| == 1
  {
    p.done + JobSeq(p.workers[0]) + HandSeq(p.dispatcher)
  }

  lemma StepKeepsLine(p: Pool, a: Action)
    requires |p.workers| == 1 && BenchSound(p, 0) && Can(p, a) && |Do(p, a).workers| == 1
    ensures Line(Do(p, a)) == if a.Receive? then Line(p) + [p.received] else Line(p)
  {
    var q := Do(p, a);
    var w, v := p.workers[0], q.workers[0];
    if a.Finish? {
      assert w.bench.None?;
      assert JobSeq(w) == [w.place.job] && JobSeq(v) == [];
      assert Line(q) == (p.done + [w.place.job]) + HandSeq(p.dispatcher);
    } else if a.Give? {
      assert JobSeq(w) == [] && JobSeq(v) == [p.dispatcher.job];
      assert HandSeq(q.dispatcher) == [];
    } else if a.Receive? || a.Draw? || a.End? {
      assert v == w && q.done == p.done;
    } else {
      SameJobs(p, a);
    }
  }

  lemma SameJobs(p: Pool, a: Action)
    requires |p.workers| == 1 && BenchSound(p, 0) && Can(p, a)
    requires a.Offer? || a.Accept? || a.Send? || a.Drain? || a.Quit? || a.Abort?
    ensures var q := Do(p, a);
      |q.workers| == 1 && JobSeq(q.workers[0]) == JobSeq(p.workers[0]) &&
      q.done == p.done && q.dispatcher == p.dispatcher
  {
  }

  predicate Counting(line: seq<nat>, n: nat) {
    |line| == n && forall k :: 0 <= k < n ==> line[k] == k
  }

  lemma StepKeepsCounting(p: Pool, a: Action)
    requires |p.workers| == 1 && Benches(p) && Can(p, a) && Counting(Line(p), p.received)
    ensures |Do(p, a).workers| == 1 && Counting(Line(Do(p, a)), Do(p, a).received)
  {
    assert BenchSound(p, 0);
    StepKeepsBenches(p, a);
    StepKeepsLine(p, a);
  }

  // With one worker, jobs are processed in the order in which they were received.
  lemma {:induction false} OneWorkerIsFifo(capture: bool, actions: seq<Action>)
    requires Possible(NewPool(1, capture), actions)
    ensures var p := After(NewPool(1, capture), actions);
      |p.workers| == 1 && Counting(Line(p), p.received) && Counting(p.done, |p.done|)
  {
    if actions != [] {
      var before := actions[..|actions| - 1];
      OneWorkerIsFifo(capture, before);
      RunKeeps(1, capture, before);
      StepKeepsCounting(After(NewPool(1, capture), before), actions[|actions| - 1]);
    }
    var p := After(NewPool(1, capture), actions);
    assert forall k :: 0 <= k < |p.done| ==> Line(p)[k] == p.done[k];
  }
}
