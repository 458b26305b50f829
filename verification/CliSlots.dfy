/**
 The command line's table of UEs (src/cli/cli.c, src/cli/cli_parser.c): starting, stopping and
 selecting UEs, and the load test that fills what room there is. A UE is represented by its ue_id.
 */
module CliSlots {
  import opened Wrappers
  import opened Slots

  const MAX_UES: nat := 1024
  const NONE_SELECTED: int := -1

  datatype Status = Success | NotEnoughSlots | NoSlotFound | CreateFailed | StartFailed | NotFound | InvalidParam

  /** What creating and starting the i-th UE of a command comes to. */
  datatype Outcome = Works | CannotCreate | CannotStart

  type Os = nat -> Outcome

  datatype Cli = Cli(slots: seq<Option<nat>>, active: int, selected: int)

  function Occupied(s: Option<nat>): nat { if s.Some? then 1 else 0 }

  predicate IsFree(s: Option<nat>) { s.None? }

  function Fresh(): Cli { Cli(seq(MAX_UES, _ => None), 0, NONE_SELECTED) }

  function Put(c: Cli, slot: nat): Cli
    requires slot < |c.slots|
  {
    c.(slots := c.slots[slot := Some(slot)], active := c.active + 1)
  }

  /** The loop of `ue start` from its i-th turn on; it gives up at the first failure. */
  function StartFrom(c: Cli, i: nat, count: nat, os: Os): (Cli, Status)
    requires i <= count
    decreases count - i
  {
    if i == count then (c, Success) else
    var slot := First(c.slots, IsFree);
    if slot == |c.slots| then (c, NoSlotFound)
    else if os(i).CannotCreate? then (c, CreateFailed)
    else if os(i).CannotStart? then (c, StartFailed)
    else StartFrom(Put(c, slot), i + 1, count, os)
  }

  function Start(c: Cli, count: nat, os: Os): (Cli, Status) {
    if count == 0 || count > MAX_UES - c.active then (c, NotEnoughSlots) else StartFrom(c, 0, count, os)
  }

  predicate Live(c: Cli, id: int) { 0 <= id < |c.slots| && c.slots[id].Some? }

  function Stop(c: Cli, id: int): (Cli, Status) {
    if !Live(c, id) then (c, NotFound)
    else (Cli(c.slots[id := None], c.active - 1, if c.selected == id then NONE_SELECTED else c.selected), Success)
  }

  function StopAll(c: Cli): Cli { Cli(seq(|c.slots|, _ => None), 0, NONE_SELECTED) }

  function Select(c: Cli, id: int): (Cli, Status) {
    if !Live(c, id) then (c, NotFound) else (c.(selected := id), Success)
  }

  /** The load test's loop skips UEs it cannot create, ignores a failed start and stops when the table is full. */
  function LoadFrom(c: Cli, i: nat, count: nat, os: Os): Cli
    requires i <= count
    decreases count - i
  {
    if i == count || c.active >= MAX_UES then c else
    var slot := First(c.slots, IsFree);
    if slot == |c.slots| then c
    else LoadFrom(if os(i).CannotCreate? then c else Put(c, slot), i + 1, count, os)
  }

  function LoadTest(c: Cli, count: nat, os: Os): (Cli, Status) {
    if count == 0 || count > MAX_UES then (c, InvalidParam) else (LoadFrom(c, 0, count, os), Success)
  }

  datatype Op = DoStart(count: nat, os: Os) | DoStop(id: int) | DoStopAll | DoSelect(id: int) | DoLoadTest(count: nat, os: Os) | DoClear

  function Apply(c: Cli, op: Op): (Cli, Status) {
    match op
    case DoStart(count, os) => Start(c, count, os)
    case DoStop(id) => Stop(c, id)
    case DoStopAll => (StopAll(c), Success)
    case DoSelect(id) => Select(c, id)
    case DoLoadTest(count, os) => LoadTest(c, count, os)
    case DoClear => (c.(selected := NONE_SELECTED), Success)
  }

  function After(c: Cli, ops: seq<Op>): Cli
    decreases |ops|
  {
    if ops == [] then c else After(Apply(c, ops[0]).0, ops[1..])
  }

  // --- the invariant ------------------------------------------------------------------------

  ghost predicate Inv(c: Cli) {
    && |c.slots| == MAX_UES
    && c.active == Sum(c.slots, Occupied)
    && (forall i :: 0 <= i < |c.slots| && c.slots[i].Some? ==> c.slots[i].value == i)
    && (c.selected == NONE_SELECTED || Live(c, c.selected))
  }

  lemma EmptyOk(c: Cli)
    requires |c.slots| == MAX_UES && forall i :: 0 <= i < |c.slots| ==> c.slots[i] == None
    requires c.active == 0 && c.selected == NONE_SELECTED
    ensures Inv(c)
  {
    SumZero(c.slots, Occupied);
  }

  lemma PutKeeps(c: Cli)
    requires Inv(c) && First(c.slots, IsFree) < |c.slots|
    ensures Inv(Put(c, First(c.slots, IsFree)))
  {
    var slot := First(c.slots, IsFree);
    SumUpdate(c.slots, Occupied, slot, Some(slot));
  }

  /** The first free slot is found exactly while the counter is below the table's size. */
  lemma RoomIff(c: Cli)
    requires Inv(c)
    ensures First(c.slots, IsFree) < |c.slots| <==> c.active < MAX_UES
    ensures c.active <= MAX_UES
  {
    FirstFree(c.slots, Occupied, IsFree);
    SumFull(c.slots, Occupied);
  }

  /** The number of UEs started before the first one that does not work. */
  function Working(os: Os, i: nat, count: nat): (n: nat)
    requires i <= count
    ensures i + n <= count && (forall k :: i <= k < i + n ==> os(k).Works?) && (i + n < count ==> !os(i + n).Works?)
    decreases count - i
  {
    if i == count || !os(i).Works? then 0 else 1 + Working(os, i + 1, count)
  }

  lemma {:induction false} StartFromKeeps(c: Cli, i: nat, count: nat, os: Os)
    requires Inv(c) && i <= count && count - i <= MAX_UES - c.active
    ensures var (d, status) := StartFrom(c, i, count, os);
            && Inv(d) && d.selected == c.selected && status in {Success, CreateFailed, StartFailed}
            && d.active == c.active + Working(os, i, count)
            && (status == Success <==> i + Working(os, i, count) == count)
    decreases count - i
  {
    RoomIff(c);
    if i < count && os(i).Works? {
      PutKeeps(c);
      StartFromKeeps(Put(c, First(c.slots, IsFree)), i + 1, count, os);
    }
  }

  ghost predicate KeepsUes(c: Cli, d: Cli) {
    |d.slots| == |c.slots| && forall k :: 0 <= k < |c.slots| && c.slots[k].Some? ==> d.slots[k] == c.slots[k]
  }

  lemma {:induction false} StartFromKeepsUes(c: Cli, i: nat, count: nat, os: Os)
    requires i <= count
    ensures KeepsUes(c, StartFrom(c, i, count, os).0)
    decreases count - i
  {
    var slot := First(c.slots, IsFree);
    if i < count && slot < |c.slots| && os(i).Works? {
      StartFromKeepsUes(Put(c, slot), i + 1, count, os);
    }
  }

  /**
   `ue start` never reaches its "no available slots" branch. It adds exactly the UEs that work up to
   the first that does not, leaves the others where they were, and succeeds when all of them work.
   */
  lemma StartOutcome(c: Cli, count: nat, os: Os)
    requires Inv(c)
    ensures var (d, status) := Start(c, count, os);
            && Inv(d) && status != NoSlotFound
            && (status == NotEnoughSlots <==> count == 0 || count > MAX_UES - c.active)
            && (status == Success ==> d.active == c.active + count)
            && (status != NotEnoughSlots ==> d.active == c.active + Working(os, 0, count))
            && KeepsUes(c, d)
  {
    if count != 0 && count <= MAX_UES - c.active {
      StartFromKeepsUes(c, 0, count, os);
      StartFromKeeps(c, 0, count, os);
    }
  }

  lemma {:induction false} LoadFromKeeps(c: Cli, i: nat, count: nat, os: Os)
    requires Inv(c) && i <= count
    ensures var d := LoadFrom(c, i, count, os);
            && Inv(d) && d.selected == c.selected && c.active <= d.active <= c.active + (count - i)
            && KeepsUes(c, d)
    decreases count - i
  {
    RoomIff(c);
    if i < count && c.active < MAX_UES {
      PutKeeps(c);
      LoadFromKeeps(if os(i).CannotCreate? then c else Put(c, First(c.slots, IsFree)), i + 1, count, os);
    }
  }

  /** A load test whose UEs can all be created adds as many as asked for, or as many as there is room for. */
  lemma {:induction false} LoadFillsUp(c: Cli, i: nat, count: nat, os: Os)
    requires Inv(c) && i <= count && forall k :: i <= k < count ==> !os(k).CannotCreate?
    ensures LoadFrom(c, i, count, os).active == if c.active + (count - i) <= MAX_UES then c.active + (count - i) else MAX_UES
    decreases count - i
  {
    RoomIff(c);
    if i < count && c.active < MAX_UES {
      PutKeeps(c);
      LoadFillsUp(Put(c, First(c.slots, IsFree)), i + 1, count, os);
    }
  }

  lemma StopKeeps(c: Cli, id: int)
    requires Inv(c)
    ensures Inv(Stop(c, id).0)
  {
    if Live(c, id) {
      SumUpdate(c.slots, Occupied, id, None);
    }
  }

  lemma StepKeeps(c: Cli, op: Op)
    requires Inv(c)
    ensures Inv(Apply(c, op).0)
  {
    match op
    case DoStart(count, os) => StartOutcome(c, count, os);
    case DoStop(id) => StopKeeps(c, id);
    case DoStopAll => EmptyOk(StopAll(c));
    case DoSelect(id) =>
    case DoLoadTest(count, os) =>
      if 0 < count <= MAX_UES { LoadFromKeeps(c, 0, count, os); }
    case DoClear =>
  }

  lemma {:induction false} RunKeeps(c: Cli, ops: seq<Op>)
    requires Inv(c)
    ensures Inv(After(c, ops))
    decreases |ops|
  {
    if ops != [] {
      StepKeeps(c, ops[0]);
      RunKeeps(Apply(c, ops[0]).0, ops[1..]);
    }
  }

  /** After any commands the counter is the number of UEs, each UE's id is its slot, and the selected UE is live. */
  lemma EveryReachableTableIsSound(c: Cli, ops: seq<Op>)
    requires c == Fresh()
    ensures Inv(After(c, ops))
  {
    EmptyOk(c);
    RunKeeps(c, ops);
  }

  // --- the globals ------------------------------------------------------------------------------

  class Table {
    const slots: array<Option<nat>>
    var active: int
    var selected: int

    ghost function Model(): Cli
      reads this, slots
    {
      Cli(slots[..], active, selected)
    }

    constructor ()
      ensures fresh(slots) && Model() == Fresh()
    {
      slots := new Option<nat>[MAX_UES](_ => None);
      active, selected := 0, NONE_SELECTED;
      new;
      assert slots[..] == Fresh().slots;
    }

    method StartUes(count: nat, os: Os) returns (status: Status)
      modifies slots, `active
      ensures (Model(), status) == Start(old(Model()), count, os)
    {
      if count == 0 || count > MAX_UES - active {
        return NotEnoughSlots;
      }
      var i := 0;
      while i < count
        invariant i <= count && selected == old(selected)
        invariant Start(old(Model()), count, os) == StartFrom(Model(), i, count, os)
      {
        var slot := Scan(slots, IsFree);
        if slot == slots.Length {
          return NoSlotFound;
        }
        if os(i).CannotCreate? {
          return CreateFailed;
        }
        if os(i).CannotStart? {
          return StartFailed;
        }
        ghost var before := Model();
        slots[slot] := Some(slot);
        active := active + 1;
        assert Model() == Put(before, slot);
        i := i + 1;
      }
      status := Success;
    }

    method StopUe(id: int) returns (status: Status)
      modifies this, slots
      ensures (Model(), status) == Stop(old(Model()), id)
    {
      if id < 0 || id >= slots.Length || slots[id] == None {
        return NotFound;
      }
      slots[id] := None;
      active := active - 1;
      if selected == id {
        selected := NONE_SELECTED;
      }
      status := Success;
    }

    method StopEach()
      modifies this, slots
      ensures Model() == StopAll(old(Model()))
    {
      var i := 0;
      while i < slots.Length
        invariant i <= slots.Length && forall k :: 0 <= k < i ==> slots[k] == None
      {
        if slots[i] != None {
          slots[i] := None;
        }
        i := i + 1;
      }
      active := 0;
      selected := NONE_SELECTED;
      assert slots[..] == StopAll(old(Model())).slots;
    }

    method SelectUe(id: int) returns (status: Status)
      modifies `selected
      ensures (Model(), status) == Select(old(Model()), id)
    {
      if id < 0 || id >= slots.Length || slots[id] == None {
        return NotFound;
      }
      selected := id;
      status := Success;
    }

    method RunLoadTest(count: nat, os: Os) returns (status: Status)
      modifies slots, `active
      ensures (Model(), status) == LoadTest(old(Model()), count, os)
    {
      if count == 0 || count > MAX_UES {
        return InvalidParam;
      }
      var i := 0;
      while i < count && active < MAX_UES
        invariant i <= count && selected == old(selected)
        invariant LoadFrom(old(Model()), 0, count, os) == LoadFrom(Model(), i, count, os)
      {
        var slot := Scan(slots, IsFree);
        if slot == slots.Length {
          break;
        }
        ghost var before := Model();
        if !os(i).CannotCreate? {
          slots[slot] := Some(slot);
          active := active + 1;
          assert Model() == Put(before, slot);
        }
        i := i + 1;
      }
      status := Success;
    }
  }
}
