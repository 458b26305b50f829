/**
 The thread pool under every interleaving. A state holds the shared data, one
 program point per worker and per client, and a history; a step is one critical
 section (or one piece of work done outside the mutex). The condition variables
 are the sets of threads that sleep on them: a signal wakes one sleeper, a
 broadcast all, and any sleeper may also wake for no reason.

 A worker tests the shutdown flag twice inside one section while the flag may
 be raised without the mutex. Raising it between the two tests has the effect of
 raising it before the section (the second test decides) or, if the worker goes
 to sleep, after it; so a section is one step.
 */
module PoolRuns {
  import opened Slots
  import opened ThreadPool

  /** Ready: about to take the mutex, whether freshly started, woken or back from a task. */
  datatype Worker = Ready | Asleep | Running(task: Task) | Returned(task: Task) | Exited

  datatype Client = Outside | Blocked | Woken

  /** destroy raises the flag, then broadcasts under the mutex, joins, and frees. */
  datatype Phase = Live | Flagged | Joining | Destroyed

  datatype State = State(
    d: PoolData,
    workers: seq<Worker>,
    clients: seq<Client>,
    phase: Phase,
    submitted: nat,
    started: seq<Task>,
    finished: multiset<Task>,
    discarded: seq<Task>,
    freed: multiset<Task>)

  datatype Step =
    | Submit(wakes: nat)
    | Enter(w: nat)
    | RunTask(w: nat)
    | Finish(w: nat)
    | SpuriousWorker(w: nat)
    | Wait(c: nat)
    | SpuriousClient(c: nat)
    | RaiseFlag
    | Broadcast
    | JoinAndFree

  function Init(threadCount: nat, clientCount: nat): State {
    State(PoolData([], 0, 0, false), seq(threadCount, i => Ready), seq(clientCount, i => Outside),
          Live, 0, [], multiset{}, [], multiset{})
  }

  predicate IsWorkerStep(step: Step) {
    step.Enter? || step.RunTask? || step.Finish?
  }

  predicate Enabled(s: State, step: Step) {
    && s.phase != Destroyed
    && match step
       case Submit(wakes) =>
         Asleep in s.workers ==> wakes < |s.workers| && s.workers[wakes] == Asleep
       case Enter(w) => w < |s.workers| && s.workers[w] == Ready
       case RunTask(w) => w < |s.workers| && s.workers[w].Running?
       case Finish(w) => w < |s.workers| && s.workers[w].Returned?
       case SpuriousWorker(w) => w < |s.workers| && s.workers[w] == Asleep
       case Wait(c) => c < |s.clients| && s.clients[c] != Blocked
       case SpuriousClient(c) => c < |s.clients| && s.clients[c] == Blocked
       case RaiseFlag => s.phase == Live
       case Broadcast => s.phase == Flagged
       case JoinAndFree => s.phase == Joining && forall w :: 0 <= w < |s.workers| ==> s.workers[w] == Exited
  }

  function WakeWorkers(workers: seq<Worker>): (r: seq<Worker>)
    ensures |r| == |workers|
  {
    seq(|workers|, w requires 0 <= w < |workers| => if workers[w] == Asleep then Ready else workers[w])
  }

  function WakeClients(clients: seq<Client>): (r: seq<Client>)
    ensures |r| == |clients|
  {
    seq(|clients|, c requires 0 <= c < |clients| => if clients[c] == Blocked then Woken else clients[c])
  }

  function Apply(s: State, step: Step): State
    requires Enabled(s, step)
  {
    match step
    case Submit(wakes) =>
      s.(d := SubmitSection(s.d, s.submitted),
         submitted := s.submitted + 1,
         workers := if Asleep in s.workers then s.workers[wakes := Ready] else s.workers)
    case Enter(w) =>
      var (outcome, d) := WorkerSection(s.d);
      (match outcome
       case Sleep => s.(d := d, workers := s.workers[w := Asleep])
       case Exit => s.(d := d, workers := s.workers[w := Exited])
       case Run(t) => s.(d := d, workers := s.workers[w := Running(t)], started := s.started + [t]))
    case RunTask(w) =>
      var t := s.workers[w].task;
      s.(workers := s.workers[w := Returned(t)], freed := s.freed + multiset{t})
    case Finish(w) =>
      var (broadcast, d) := FinishSection(s.d);
      s.(d := d,
         workers := s.workers[w := Ready],
         finished := s.finished + multiset{s.workers[w].task},
         clients := if broadcast then WakeClients(s.clients) else s.clients)
    case SpuriousWorker(w) => s.(workers := s.workers[w := Ready])
    case Wait(c) => s.(clients := s.clients[c := if MustWait(s.d) then Blocked else Outside])
    case SpuriousClient(c) => s.(clients := s.clients[c := Woken])
    case RaiseFlag => s.(d := s.d.(shutdown := true), phase := Flagged)
    case Broadcast => s.(workers := WakeWorkers(s.workers), phase := Joining)
    case JoinAndFree =>
      s.(discarded := s.d.queue, freed := s.freed + multiset(s.d.queue),
         d := s.d.(queue := [], taskCount := 0), phase := Destroyed)
  }

  ghost predicate IsRun(s: State, steps: seq<Step>)
    decreases |steps|
  {
    steps == [] || (Enabled(s, steps[0]) && IsRun(Apply(s, steps[0]), steps[1..]))
  }

  ghost function After(s: State, steps: seq<Step>): State
    requires IsRun(s, steps)
    decreases |steps|
  {
    if steps == [] then s else After(Apply(s, steps[0]), steps[1..])
  }

  // --- what is counted ---------------------------------------------------------

  function CountsReady(w: Worker): nat { if w == Ready then 1 else 0 }
  function CountsAsleep(w: Worker): nat { if w == Asleep then 1 else 0 }
  function CountsBusy(w: Worker): nat { if w.Running? || w.Returned? then 1 else 0 }
  function Holds(t: Task): Worker -> nat {
    (w: Worker) => if (w.Running? || w.Returned?) && w.task == t then 1 else 0
  }

  function HoldsReturned(t: Task): Worker -> nat {
    (w: Worker) => if w.Returned? && w.task == t then 1 else 0
  }

  /** Steps a worker can still make by itself before it sleeps or exits. */
  function StepsLeft(w: Worker): nat {
    match w
    case Ready => 1
    case Running(_) => 3
    case Returned(_) => 2
    case Asleep => 0
    case Exited => 0
  }

  function Work(s: State): nat { 3 * |s.d.queue| + Sum(s.workers, StepsLeft) }

  function Serials(n: nat): seq<Task> { seq(n, i => i) }

  // --- the invariant -------------------------------------------------------------

  /** The counters say what the lists and the threads say. */
  ghost predicate CountersAgree(s: State) {
    && s.d.taskCount == |s.d.queue|
    && s.d.active == Sum(s.workers, CountsBusy)
    && (s.phase == Live <==> !s.d.shutdown)
  }

  /** Started, queued and discarded tasks, in that order, are the submissions in theirs. */
  ghost predicate Fifo(s: State) {
    && s.started + s.d.queue + s.discarded == Serials(s.submitted)
    && (s.phase != Destroyed ==> s.discarded == [])
    && (s.phase == Destroyed ==> s.d.queue == [])
  }

  /** A started task is in the hands of one worker or finished; a node is freed when its task has returned or is discarded. */
  ghost predicate ConservedAt(s: State, t: Task) {
    && Sum(s.workers, Holds(t)) + s.finished[t] == (if t in s.started then 1 else 0)
    && s.freed[t] == Sum(s.workers, HoldsReturned(t)) + s.finished[t] + (if t in s.discarded then 1 else 0)
  }

  ghost predicate Conserved(s: State) {
    forall t: Task :: ConservedAt(s, t)
  }

  ghost predicate NoLostWakeup(s: State) {
    s.phase == Live ==>
      Sum(s.workers, CountsAsleep) == 0 || Sum(s.workers, CountsReady) >= |s.d.queue|
  }

  ghost predicate ThreadsPlaced(s: State) {
    && (s.phase == Live ==> Exited !in s.workers)
    && (s.phase == Joining ==> Asleep !in s.workers)
    && (s.phase == Destroyed ==> forall w :: 0 <= w < |s.workers| ==> s.workers[w] == Exited)
  }

  ghost predicate BlockedHaveReason(s: State) {
    s.phase != Destroyed && Blocked in s.clients ==> MustWait(s.d)
  }

  ghost predicate Inv(s: State) {
    && CountersAgree(s)
    && Fifo(s)
    && Conserved(s)
    && NoLostWakeup(s)
    && ThreadsPlaced(s)
    && BlockedHaveReason(s)
  }

  // --- one worker changes its program point ---------------------------------------

  lemma MoveCounts(workers: seq<Worker>, w: nat, to: Worker)
    requires w < |workers|
    ensures var from, moved := workers[w], workers[w := to];
            && Sum(moved, CountsReady) + CountsReady(from) == Sum(workers, CountsReady) + CountsReady(to)
            && Sum(moved, CountsAsleep) + CountsAsleep(from) == Sum(workers, CountsAsleep) + CountsAsleep(to)
            && Sum(moved, CountsBusy) + CountsBusy(from) == Sum(workers, CountsBusy) + CountsBusy(to)
  {
    SumUpdate(workers, CountsReady, w, to);
    SumUpdate(workers, CountsAsleep, w, to);
    SumUpdate(workers, CountsBusy, w, to);
  }

  /** No sleeper in the table is the same as a sleeper count of zero. */
  lemma SleepersCounted(workers: seq<Worker>)
    ensures Asleep in workers <==> Sum(workers, CountsAsleep) > 0
  {}

  lemma InitHolds(threadCount: nat, clientCount: nat)
    ensures Inv(Init(threadCount, clientCount))
  {
    var s := Init(threadCount, clientCount);
    SumZero(s.workers, CountsAsleep);
    SumZero(s.workers, CountsBusy);
    forall t: Task ensures ConservedAt(s, t) {
      SumZero(s.workers, Holds(t));
      SumZero(s.workers, HoldsReturned(t));
    }
  }

  // --- every step keeps the invariant ----------------------------------------------

  lemma CountersKeepByWorker(s: State, step: Step, w: nat)
    requires CountersAgree(s) && Enabled(s, step) && step in {Enter(w), RunTask(w), Finish(w), SpuriousWorker(w)}
    ensures CountersAgree(Apply(s, step))
  {
    MoveCounts(s.workers, w, Apply(s, step).workers[w]);
  }

  lemma CountersKeep(s: State, step: Step)
    requires CountersAgree(s) && Enabled(s, step)
    ensures CountersAgree(Apply(s, step))
  {
    var t := Apply(s, step);
    match step
    case Submit(wakes) => if Asleep in s.workers { MoveCounts(s.workers, wakes, Ready); }
    case Enter(w) => CountersKeepByWorker(s, step, w);
    case RunTask(w) => CountersKeepByWorker(s, step, w);
    case Finish(w) => CountersKeepByWorker(s, step, w);
    case SpuriousWorker(w) => CountersKeepByWorker(s, step, w);
    case Broadcast =>
      SumCompare(s.workers, CountsBusy, t.workers, CountsBusy);
      SumCompare(t.workers, CountsBusy, s.workers, CountsBusy);
    case _ =>
  }

  lemma FifoKeeps(s: State, step: Step)
    requires Fifo(s) && Enabled(s, step)
    ensures Fifo(Apply(s, step))
  {
    var t := Apply(s, step);
    match step
    case Submit(_) =>
      assert t.started + t.d.queue + t.discarded == (s.started + s.d.queue + s.discarded) + [s.submitted];
    case Enter(w) =>
      if s.d.queue != [] && !s.d.shutdown {
        assert t.started + t.d.queue == s.started + s.d.queue;
      }
    case JoinAndFree =>
      assert t.started + t.d.queue + t.discarded == s.started + s.d.queue + s.discarded;
    case _ =>
  }

  /** The front of the queue has not been started, and no queued task is there twice. */
  lemma QueueIsFresh(s: State, i: nat)
    requires Fifo(s) && i < |s.d.queue|
    ensures s.d.queue[i] == |s.started| + i && s.d.queue[i] !in s.started
  {
    var all := s.started + s.d.queue + s.discarded;
    assert all[|s.started| + i] == s.d.queue[i];
    assert forall k :: 0 <= k < |s.started| ==> all[k] == s.started[k];
  }

  lemma {:induction false} BagOfDistinct(q: seq<Task>, t: Task)
    requires forall i, j :: 0 <= i < j < |q| ==> q[i] != q[j]
    ensures multiset(q)[t] == if t in q then 1 else 0
  {
    if q != [] {
      var rest := q[..|q| - 1];
      BagOfDistinct(rest, t);
      assert q == rest + [q[|q| - 1]];
    }
  }

  lemma ConservedByWorker(s: State, step: Step, t: Task)
    requires ConservedAt(s, t) && Fifo(s) && Enabled(s, step) && IsWorkerStep(step)
    ensures ConservedAt(Apply(s, step), t)
  {
    var to := Apply(s, step).workers[step.w];
    SumUpdate(s.workers, Holds(t), step.w, to);
    SumUpdate(s.workers, HoldsReturned(t), step.w, to);
    if s.d.queue != [] {
      QueueIsFresh(s, 0);
    }
  }

  lemma ConservedByWaking(s: State, step: Step, t: Task)
    requires ConservedAt(s, t) && Enabled(s, step) && (step.Submit? || step.SpuriousWorker? || step.Broadcast?)
    ensures ConservedAt(Apply(s, step), t)
  {
    var woken := Apply(s, step).workers;
    SumCompare(s.workers, Holds(t), woken, Holds(t));
    SumCompare(woken, Holds(t), s.workers, Holds(t));
    SumCompare(s.workers, HoldsReturned(t), woken, HoldsReturned(t));
    SumCompare(woken, HoldsReturned(t), s.workers, HoldsReturned(t));
  }

  lemma QueueCounted(s: State, t: Task)
    requires Fifo(s)
    ensures multiset(s.d.queue)[t] == if t in s.d.queue then 1 else 0
  {
    forall i | 0 <= i < |s.d.queue| ensures s.d.queue[i] == |s.started| + i { QueueIsFresh(s, i); }
    BagOfDistinct(s.d.queue, t);
  }

  lemma ConservedKeeps(s: State, step: Step)
    requires Conserved(s) && Fifo(s) && Enabled(s, step)
    ensures Conserved(Apply(s, step))
  {
    forall t: Task ensures ConservedAt(Apply(s, step), t) {
      assert ConservedAt(s, t);
      if IsWorkerStep(step) {
        ConservedByWorker(s, step, t);
      } else if step.Submit? || step.SpuriousWorker? || step.Broadcast? {
        ConservedByWaking(s, step, t);
      } else if step.JoinAndFree? {
        QueueCounted(s, t);
      }
    }
  }

  lemma NoLostWakeupKeeps(s: State, step: Step)
    requires NoLostWakeup(s) && CountersAgree(s) && Enabled(s, step)
    ensures NoLostWakeup(Apply(s, step))
  {
    var t := Apply(s, step);
    SleepersCounted(s.workers);
    match step
    case Submit(wakes) => if Asleep in s.workers { MoveCounts(s.workers, wakes, Ready); }
    case Enter(w) => MoveCounts(s.workers, w, t.workers[w]);
    case RunTask(w) => MoveCounts(s.workers, w, t.workers[w]);
    case Finish(w) => MoveCounts(s.workers, w, t.workers[w]);
    case SpuriousWorker(w) => MoveCounts(s.workers, w, t.workers[w]);
    case _ =>
  }

  lemma ThreadsPlacedKeeps(s: State, step: Step)
    requires ThreadsPlaced(s) && CountersAgree(s) && Enabled(s, step)
    ensures ThreadsPlaced(Apply(s, step))
  {}

  lemma BlockedHaveReasonKeeps(s: State, step: Step)
    requires BlockedHaveReason(s) && CountersAgree(s) && Enabled(s, step)
    ensures BlockedHaveReason(Apply(s, step))
  {}

  lemma StepKeeps(s: State, step: Step)
    requires Inv(s) && Enabled(s, step)
    ensures Inv(Apply(s, step))
  {
    CountersKeep(s, step);
    FifoKeeps(s, step);
    ConservedKeeps(s, step);
    NoLostWakeupKeeps(s, step);
    ThreadsPlacedKeeps(s, step);
    BlockedHaveReasonKeeps(s, step);
  }

  lemma {:induction false} RunKeeps(s: State, steps: seq<Step>)
    requires Inv(s) && IsRun(s, steps)
    ensures Inv(After(s, steps))
    decreases |steps|
  {
    if steps != [] {
      StepKeeps(s, steps[0]);
      RunKeeps(Apply(s, steps[0]), steps[1..]);
    }
  }

  ghost predicate Reachable(s: State) {
    exists threadCount: nat, clientCount: nat, steps: seq<Step> ::
      threadCount > 0 && IsRun(Init(threadCount, clientCount), steps)
      && After(Init(threadCount, clientCount), steps) == s
  }

  lemma ReachableInv(s: State)
    requires Reachable(s)
    ensures Inv(s)
  {
    var n: nat, c: nat, steps: seq<Step> :| n > 0 && IsRun(Init(n, c), steps) && After(Init(n, c), steps) == s;
    InitHolds(n, c);
    RunKeeps(Init(n, c), steps);
  }
}
