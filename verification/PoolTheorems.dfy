/**
 What the invariant of PoolRuns means for the users of the pool: work conservation, order,
 completeness of waiting, progress and shutdown.
 */
module PoolTheorems {
  import opened Slots
  import opened ThreadPool
  import opened PoolRuns

  // --- what the invariant gives ------------------------------------------------------

  /** Work conservation: sleeping workers never leave a task without an awake worker of its own. */
  lemma WorkConserving(s: State)
    requires Reachable(s) && s.phase == Live
    ensures Asleep !in s.workers || Sum(s.workers, CountsReady) >= |s.d.queue|
  {
    ReachableInv(s);
    SleepersCounted(s.workers);
  }

  /**
   Tasks start in submission order, and every submission is in exactly one place, once:
   queued, in the hands of one worker, finished, or discarded by destroy.
   */
  lemma ExactlyOnceInOrder(s: State, t: Task)
    requires Reachable(s)
    ensures s.started == Serials(|s.started|)
    ensures multiset(s.d.queue)[t] + Sum(s.workers, Holds(t)) + s.finished[t] + (if t in s.discarded then 1 else 0)
            == if t < s.submitted then 1 else 0
  {
    ReachableInv(s);
    assert ConservedAt(s, t);
    QueueCounted(s, t);
    var all := s.started + s.d.queue + s.discarded;
    assert s.started == all[..|s.started|];
    if t < s.submitted {
      assert all[t] == t;
      assert t == if t < |s.started| then s.started[t]
                  else if t < |s.started| + |s.d.queue| then s.d.queue[t - |s.started|]
                  else s.discarded[t - |s.started| - |s.d.queue|];
    }
    if t in s.d.queue {
      var i :| 0 <= i < |s.d.queue| && s.d.queue[i] == t;
      QueueIsFresh(s, i);
    }
    forall i | 0 <= i < |s.discarded| ensures s.discarded[i] == |s.started| + |s.d.queue| + i {
      assert all[|s.started| + |s.d.queue| + i] == s.discarded[i];
    }
  }

  /** The counters the program keeps are the length of its list and the tasks taken but not finished. */
  lemma CountersAreExact(s: State)
    requires Reachable(s)
    ensures s.d.taskCount == |s.d.queue|
    ensures s.d.active == Sum(s.workers, CountsBusy) <= |s.workers|
  {
    ReachableInv(s);
    SumAtMost(s.workers, CountsBusy, 1);
  }

  /** No node is freed twice; once destroy has run, every node has been freed. */
  lemma FreedOnce(s: State, t: Task)
    requires Reachable(s)
    ensures s.freed[t] <= 1
    ensures s.phase == Destroyed ==> s.freed[t] == if t < s.submitted then 1 else 0
  {
    ReachableInv(s);
    ExactlyOnceInOrder(s, t);
    assert ConservedAt(s, t);
    SumCompare(s.workers, HoldsReturned(t), s.workers, Holds(t));
    if s.phase == Destroyed {
      SumZero(s.workers, Holds(t));
    }
  }

  lemma IdleHoldNothing(workers: seq<Worker>, t: Task)
    requires Sum(workers, CountsBusy) == 0
    ensures Sum(workers, Holds(t)) == 0
  {}

  /** With nothing active and nothing queued, a live or joining pool has finished every submission. */
  lemma IdleMeansAllDone(s: State, t: Task)
    requires Reachable(s) && s.phase != Destroyed && s.d.active == 0 && s.d.queue == []
    ensures s.finished[t] == if t < s.submitted then 1 else 0
  {
    ReachableInv(s);
    ExactlyOnceInOrder(s, t);
    IdleHoldNothing(s.workers, t);
  }

  /** thread_pool_wait returns only when everything submitted so far has been executed to its end. */
  lemma WaitIsSound(s: State, c: nat, t: Task)
    requires Reachable(s) && Enabled(s, Wait(c)) && Apply(s, Wait(c)).clients[c] == Outside
    requires t < s.submitted
    ensures s.finished[t] == 1
  {
    ReachableInv(s);
    IdleMeansAllDone(s, t);
  }

  /** A client that sleeps in thread_pool_wait has something to wait for, until destroy has ended. */
  lemma BlockedClientHasReason(s: State, c: nat)
    requires Reachable(s) && s.phase != Destroyed && c < |s.clients| && s.clients[c] == Blocked
    ensures s.d.active > 0 || s.d.queue != []
  {
    ReachableInv(s);
    assert Blocked in s.clients;
  }

  // --- progress -----------------------------------------------------------------------

  /** Every step of a worker uses up work. */
  lemma WorkRunsOut(s: State, step: Step)
    requires Enabled(s, step) && IsWorkerStep(step)
    ensures Work(Apply(s, step)) < Work(s)
  {
    SumUpdate(s.workers, StepsLeft, step.w, Apply(s, step).workers[step.w]);
  }

  function WorkerSteps(steps: seq<Step>): nat {
    if steps == [] then 0 else (if IsWorkerStep(steps[0]) then 1 else 0) + WorkerSteps(steps[1..])
  }

  /** What the other threads add to the work of the pool: four per task, one per worker woken. */
  function Supplied(s: State, step: Step): nat {
    match step
    case Submit(_) => 4
    case SpuriousWorker(_) => 1
    case Broadcast => Sum(s.workers, CountsAsleep)
    case _ => 0
  }

  function SuppliedBy(s: State, steps: seq<Step>): nat
    requires IsRun(s, steps)
    decreases |steps|
  {
    if steps == [] then 0 else Supplied(s, steps[0]) + SuppliedBy(Apply(s, steps[0]), steps[1..])
  }

  lemma {:induction false} WakingAll(workers: seq<Worker>)
    ensures Sum(WakeWorkers(workers), StepsLeft) == Sum(workers, StepsLeft) + Sum(workers, CountsAsleep)
  {
    if workers != [] {
      assert WakeWorkers(workers)[1..] == WakeWorkers(workers[1..]);
      WakingAll(workers[1..]);
    }
  }

  lemma StepBounded(s: State, step: Step)
    requires Enabled(s, step)
    ensures Work(Apply(s, step)) + (if IsWorkerStep(step) then 1 else 0) <= Work(s) + Supplied(s, step)
  {
    match step
    case Submit(wakes) => if Asleep in s.workers { SumUpdate(s.workers, StepsLeft, wakes, Ready); }
    case SpuriousWorker(w) => SumUpdate(s.workers, StepsLeft, w, Ready);
    case Broadcast => WakingAll(s.workers);
    case Enter(_) => WorkRunsOut(s, step);
    case RunTask(_) => WorkRunsOut(s, step);
    case Finish(_) => WorkRunsOut(s, step);
    case _ =>
  }

  /**
   Progress under any interleaving: the workers together take no more steps than the pool had
   work for at the start, plus four per task submitted since and one per worker woken without one.
   */
  lemma {:induction false} WorkIsBounded(s: State, steps: seq<Step>)
    requires IsRun(s, steps)
    ensures WorkerSteps(steps) + Work(After(s, steps)) <= Work(s) + SuppliedBy(s, steps)
    decreases |steps|
  {
    if steps != [] {
      StepBounded(s, steps[0]);
      WorkIsBounded(Apply(s, steps[0]), steps[1..]);
    }
  }

  /** Left to themselves, the workers come to rest. */
  lemma {:induction false} WorkersComeToRest(s: State, steps: seq<Step>)
    requires IsRun(s, steps) && WorkerSteps(steps) == |steps|
    ensures |steps| + Work(After(s, steps)) <= Work(s)
    decreases |steps|
  {
    if steps != [] {
      AtMostAll(steps[1..]);
      WorkRunsOut(s, steps[0]);
      WorkersComeToRest(Apply(s, steps[0]), steps[1..]);
    }
  }

  lemma {:induction false} AtMostAll(steps: seq<Step>)
    ensures WorkerSteps(steps) <= |steps|
  {
    if steps != [] {
      AtMostAll(steps[1..]);
    }
  }

  /** No worker can take a step of its own. */
  predicate AtRest(s: State) {
    forall w :: 0 <= w < |s.workers| ==> s.workers[w] == Asleep || s.workers[w] == Exited
  }

  /**
   In a live pool the workers only come to rest with nothing left to do: all tasks done,
   no client blocked. With WorkRunsOut, a client of thread_pool_wait is not left behind.
   */
  lemma RestMeansDone(s: State)
    requires Reachable(s) && s.phase == Live && AtRest(s)
    ensures s.d.queue == [] && s.d.active == 0
    ensures Blocked !in s.clients
    ensures forall t: Task :: s.finished[t] == if t < s.submitted then 1 else 0
  {
    ReachableInv(s);
    SumZero(s.workers, CountsReady);
    SumZero(s.workers, CountsBusy);
    ReachableHasWorkers(s);
    SleepersCounted(s.workers);
    assert s.workers[0] == Asleep;
    forall t: Task ensures s.finished[t] == if t < s.submitted then 1 else 0 {
      IdleMeansAllDone(s, t);
    }
  }

  lemma {:induction false} ThreadsFixed(s: State, steps: seq<Step>)
    requires IsRun(s, steps)
    ensures |After(s, steps).workers| == |s.workers| && |After(s, steps).clients| == |s.clients|
    decreases |steps|
  {
    if steps != [] {
      ThreadsFixed(Apply(s, steps[0]), steps[1..]);
    }
  }

  lemma ReachableHasWorkers(s: State)
    requires Reachable(s)
    ensures |s.workers| > 0
  {
    var n: nat, c: nat, steps: seq<Step> :| n > 0 && IsRun(Init(n, c), steps) && After(Init(n, c), steps) == s;
    ThreadsFixed(Init(n, c), steps);
  }

  // --- shutdown -----------------------------------------------------------------------

  lemma JoiningStep(s: State, step: Step)
    requires s.d.shutdown && s.phase == Joining && Asleep !in s.workers && Enabled(s, step)
    ensures var t := Apply(s, step);
            Sum(t.workers, StepsLeft) + (if IsWorkerStep(step) then 1 else 0) <= Sum(s.workers, StepsLeft)
  {
    match step
    case Enter(w) => SumUpdate(s.workers, StepsLeft, w, Exited);
    case RunTask(w) => SumUpdate(s.workers, StepsLeft, w, Returned(s.workers[w].task));
    case Finish(w) => SumUpdate(s.workers, StepsLeft, w, Ready);
    case _ =>
  }

  lemma DestroyedIsFinal(s: State, steps: seq<Step>)
    requires s.phase == Destroyed && IsRun(s, steps)
    ensures steps == []
  {}

  /**
   After destroy's broadcast no worker sleeps again, whatever the other threads submit or
   wait for, and the workers together can make only as many steps as they have left.
   */
  lemma {:induction false} ShutdownTerminates(s: State, steps: seq<Step>)
    requires Inv(s) && s.phase == Joining && IsRun(s, steps)
    ensures Asleep !in After(s, steps).workers
    ensures WorkerSteps(steps) + Sum(After(s, steps).workers, StepsLeft) <= Sum(s.workers, StepsLeft)
    ensures Sum(s.workers, StepsLeft) <= 3 * |s.workers|
    decreases |steps|
  {
    SumAtMost(s.workers, StepsLeft, 3);
    if steps != [] {
      var t := Apply(s, steps[0]);
      StepKeeps(s, steps[0]);
      assert Asleep !in s.workers && s.d.shutdown;
      JoiningStep(s, steps[0]);
      if t.phase == Joining {
        ShutdownTerminates(t, steps[1..]);
      } else {
        DestroyedIsFinal(t, steps[1..]);
      }
    }
  }

  /** Every worker that has not exited can step; when all have, nothing is active and destroy can go on. */
  lemma ShutdownNeverStuck(s: State)
    requires Reachable(s) && s.phase == Joining
    ensures (exists step :: IsWorkerStep(step) && Enabled(s, step)) || Enabled(s, JoinAndFree)
    ensures Enabled(s, JoinAndFree) ==> s.d.active == 0 && forall t: Task :: Sum(s.workers, Holds(t)) == 0
  {
    ReachableInv(s);
    if w :| 0 <= w < |s.workers| && s.workers[w] != Exited {
      assert Enabled(s, Enter(w)) || Enabled(s, RunTask(w)) || Enabled(s, Finish(w));
    } else {
      SumZero(s.workers, CountsBusy);
      forall t: Task ensures Sum(s.workers, Holds(t)) == 0 { IdleHoldNothing(s.workers, t); }
    }
  }

  // --- clients that destroy leaves behind -------------------------------------------------

  ghost predicate Without(steps: seq<Step>, c: nat) {
    forall k :: 0 <= k < |steps| ==> !steps[k].Submit? && steps[k] != SpuriousClient(c)
  }

  /** Once the flag is up with a task queued, no run wakes a blocked client, short of a spurious wake-up. */
  lemma {:induction false} StaysBlocked(s: State, steps: seq<Step>, c: nat)
    requires IsRun(s, steps) && s.d.shutdown && s.phase != Live && s.d.queue != []
    requires c < |s.clients| && s.clients[c] == Blocked
    requires forall k :: 0 <= k < |steps| ==> steps[k] != SpuriousClient(c)
    ensures c < |After(s, steps).clients| && After(s, steps).clients[c] == Blocked
    decreases |steps|
  {
    if steps != [] {
      if steps[0].JoinAndFree? {
        DestroyedIsFinal(Apply(s, steps[0]), steps[1..]);
      } else {
        assert steps[0] != SpuriousClient(c);
        StaysBlocked(Apply(s, steps[0]), steps[1..], c);
      }
    }
  }

  /** After the flag the queue is only touched by submissions and by the end of destroy. */
  lemma {:induction false} QueueKept(s: State, steps: seq<Step>, c: nat)
    requires IsRun(s, steps) && s.d.shutdown && s.phase != Live && Without(steps, c) && After(s, steps).phase != Destroyed
    ensures After(s, steps).d.queue == s.d.queue
    decreases |steps|
  {
    if steps != [] {
      assert !steps[0].Submit?;
      if steps[0].JoinAndFree? {
        DestroyedIsFinal(Apply(s, steps[0]), steps[1..]);
      } else {
        QueueKept(Apply(s, steps[0]), steps[1..], c);
      }
    }
  }

  /** When destroy has joined the workers, a client that still sleeps was left with a task in the queue. */
  lemma BlockedAtTheJoin(s: State, c: nat)
    requires Inv(s) && Enabled(s, JoinAndFree) && c < |s.clients| && s.clients[c] == Blocked
    ensures s.d.queue != []
  {
    assert Blocked in s.clients;
    SumZero(s.workers, CountsBusy);
  }

  /**
   The limit of thread_pool_wait, exactly. A client is blocked when the flag goes up; nobody submits
   afterwards, and the client has no spurious wake-up. When destroy has joined all workers, the client
   is still blocked if and only if a task was queued when the flag went up.
   */
  lemma StrandedIff(s: State, steps: seq<Step>, c: nat)
    requires Reachable(s) && s.phase == Live && c < |s.clients| && s.clients[c] == Blocked
    requires IsRun(Apply(s, RaiseFlag), steps) && Without(steps, c)
    requires Enabled(After(Apply(s, RaiseFlag), steps), JoinAndFree)
    ensures var t := After(Apply(s, RaiseFlag), steps);
            c < |t.clients| && (t.clients[c] == Blocked <==> s.d.queue != [])
  {
    ReachableInv(s);
    var f := Apply(s, RaiseFlag);
    StepKeeps(s, RaiseFlag);
    RunKeeps(f, steps);
    ThreadsFixed(f, steps);
    if s.d.queue != [] {
      StaysBlocked(f, steps, c);
    } else {
      QueueKept(f, steps, c);
      if After(f, steps).clients[c] == Blocked {
        BlockedAtTheJoin(After(f, steps), c);
      }
    }
  }

  /** A pool with one worker and one client to which one task has been submitted, and not yet run. */
  function OneTask(w: Worker, c: Client, phase: Phase): State {
    State(PoolData([0], 1, 0, phase != Live), [w], [c], phase, 1, [], multiset{}, [], multiset{})
  }

  lemma FirstSubmission()
    ensures Enabled(Init(1, 1), Submit(0)) && Apply(Init(1, 1), Submit(0)) == OneTask(Ready, Outside, Live)
  {
    assert Init(1, 1).workers == [Ready] && Init(1, 1).clients == [Outside];
  }

  lemma ThenWaitAndFlag()
    ensures Enabled(OneTask(Ready, Outside, Live), Wait(0))
    ensures Apply(OneTask(Ready, Outside, Live), Wait(0)) == OneTask(Ready, Blocked, Live)
    ensures Apply(OneTask(Ready, Blocked, Live), RaiseFlag) == OneTask(Ready, Blocked, Flagged)
  {}

  lemma ThenBroadcastAndExit()
    ensures Apply(OneTask(Ready, Blocked, Flagged), Broadcast) == OneTask(Ready, Blocked, Joining)
    ensures Apply(OneTask(Ready, Blocked, Joining), Enter(0)) == OneTask(Exited, Blocked, Joining)
  {
    assert WakeWorkers([Ready]) == [Ready];
  }

  /** It happens: one worker, one client, one task, and destroy before the worker gets to run. */
  lemma StrandedClient()
    ensures var s := OneTask(Exited, Blocked, Joining);
            Reachable(s) && Enabled(s, JoinAndFree) && s.d.queue == [0] && s.clients == [Blocked]
  {
    FirstSubmission();
    ThenWaitAndFlag();
    ThenBroadcastAndExit();
    RunOfOne(OneTask(Ready, Blocked, Joining), Enter(0));
    RunLonger(OneTask(Ready, Blocked, Flagged), Broadcast, [Enter(0)]);
    var tail := [Broadcast] + [Enter(0)];
    RunLonger(OneTask(Ready, Blocked, Live), RaiseFlag, tail);
    RunLonger(OneTask(Ready, Outside, Live), Wait(0), [RaiseFlag] + tail);
    RunLonger(Init(1, 1), Submit(0), [Wait(0)] + ([RaiseFlag] + tail));
    var steps := [Submit(0)] + ([Wait(0)] + ([RaiseFlag] + tail));
    assert IsRun(Init(1, 1), steps) && After(Init(1, 1), steps) == OneTask(Exited, Blocked, Joining);
  }

  lemma RunOfOne(s: State, step: Step)
    requires Enabled(s, step)
    ensures IsRun(s, [step]) && After(s, [step]) == Apply(s, step)
  {
    assert [step][1..] == [];
  }

  lemma RunLonger(s: State, step: Step, rest: seq<Step>)
    requires Enabled(s, step) && IsRun(Apply(s, step), rest)
    ensures IsRun(s, [step] + rest) && After(s, [step] + rest) == After(Apply(s, step), rest)
  {
    assert ([step] + rest)[1..] == rest;
  }
}
