/**
 The thread pool's shared data and the bodies of its critical sections
 (src/core/thread_pool.c). Each section is given twice: as a function on the
 data a thread sees while it holds the mutex, and as a method on the linked
 queue that the program really updates.
 */
module ThreadPool {
  import opened Wrappers

  /** A submission, numbered in the order in which the mutex was taken. */
  type Task = nat

  datatype PoolData = PoolData(queue: seq<Task>, taskCount: int, active: int, shutdown: bool)

  /** What a worker does when it gives the mutex back. */
  datatype Outcome = Sleep | Exit | Run(task: Task)

  datatype Status = Success | InvalidParam | OutOfMemory

  function SubmitSection(d: PoolData, t: Task): PoolData {
    d.(queue := d.queue + [t], taskCount := d.taskCount + 1)
  }

  function WorkerSection(d: PoolData): (Outcome, PoolData) {
    if d.queue == [] && !d.shutdown then (Sleep, d)
    else if d.shutdown then (Exit, d)
    else (Run(d.queue[0]),
          d.(queue := d.queue[1..], taskCount := d.taskCount - 1, active := d.active + 1))
  }

  /** The flag says whether the section ends with a broadcast to the waiters. */
  function FinishSection(d: PoolData): (bool, PoolData) {
    var e := d.(active := d.active - 1);
    (e.active == 0 && e.queue == [], e)
  }

  predicate MustWait(d: PoolData) {
    d.active > 0 || d.queue != []
  }

  class TaskNode {
    const task: Task
    var next: TaskNode?

    constructor (task: Task)
      ensures this.task == task && next == null
    {
      this.task := task;
      next := null;
    }
  }

  class Pool {
    var head: TaskNode?
    var tail: TaskNode?
    var taskCount: int
    var active: int
    var shutdown: bool
    ghost var nodes: seq<TaskNode>

    ghost function NodeAt(i: nat): TaskNode?
      reads this
    {
      if i < |nodes| then nodes[i] else null
    }

    /** The links run through `nodes`, front to back, and end there. */
    ghost predicate Valid()
      reads this, nodes
    {
      && (forall i, j :: 0 <= i < j < |nodes| ==> nodes[i] != nodes[j])
      && (forall i {:trigger nodes[i].next} :: 0 <= i < |nodes| ==> nodes[i].next == NodeAt(i + 1))
      && head == NodeAt(0)
      && tail == (if nodes == [] then null else nodes[|nodes| - 1])
      && taskCount == |nodes|
    }

    ghost function Data(): PoolData
      reads this
    {
      PoolData(seq(|nodes|, i requires 0 <= i < |nodes| reads this => nodes[i].task),
               taskCount, active, shutdown)
    }

    constructor ()
      ensures Valid() && nodes == [] && Data() == PoolData([], 0, 0, false)
    {
      head, tail, taskCount, active, shutdown, nodes := null, null, 0, 0, false, [];
    }

    /** `task` is None for a NULL function; `mallocOk` is malloc's answer. */
    method Submit(task: Option<Task>, mallocOk: bool) returns (status: Status)
      requires Valid()
      modifies this, nodes
      ensures Valid()
      ensures status == if task.None? then InvalidParam else if !mallocOk then OutOfMemory else Success
      ensures status == Success ==> |nodes| == |old(nodes)| + 1 && nodes[..|nodes| - 1] == old(nodes) && fresh(nodes[|nodes| - 1])
      ensures Data() == if status == Success then SubmitSection(old(Data()), task.value) else old(Data())
    {
      if task.None? {
        return InvalidParam;
      }
      if !mallocOk {
        return OutOfMemory;
      }
      var node := new TaskNode(task.value);
      if tail == null {
        head := node;
        tail := node;
      } else {
        tail.next := node;
        tail := node;
      }
      nodes := nodes + [node];
      taskCount := taskCount + 1;
      status := Success;
    }

    method TakeOrLeave() returns (outcome: Outcome)
      requires Valid()
      modifies this
      ensures Valid()
      ensures (outcome, Data()) == WorkerSection(old(Data()))
      ensures nodes == if outcome.Run? then old(nodes)[1..] else old(nodes)
    {
      if head == null && !shutdown {
        return Sleep;
      }
      if shutdown {
        return Exit;
      }
      var node := head;
      assert nodes[0] == node;
      head := node.next;
      if head == null {
        tail := null;
      }
      nodes := nodes[1..];
      taskCount := taskCount - 1;
      active := active + 1;
      outcome := Run(node.task);
      assert Data().queue == old(Data()).queue[1..];
    }

    method Finish() returns (broadcast: bool)
      requires Valid()
      modifies `active
      ensures Valid() && nodes == old(nodes)
      ensures (broadcast, Data()) == FinishSection(old(Data()))
    {
      active := active - 1;
      broadcast := active == 0 && head == null;
      assert Data().queue == old(Data()).queue;
    }

    method WaitCheck() returns (block: bool)
      requires Valid()
      ensures block == MustWait(Data())
    {
      block := active > 0 || head != null;
    }

    /** destroy's last loop: every node still linked is freed, once, from the head on. */
    method FreeRemaining() returns (freed: seq<TaskNode>)
      requires Valid()
      ensures freed == nodes
    {
      freed := [];
      var node := head;
      while node != null
        invariant |freed| <= |nodes| && freed == nodes[..|freed|]
        invariant node == NodeAt(|freed|)
        decreases |nodes| - |freed|
      {
        var next := node.next;
        freed := freed + [node];
        node := next;
      }
    }
  }
}
