/**
 The resource tracker (src/core/resource_tracker.c): a table of at most 4096 entries that is
 only ever appended to, and statistics that are updated next to it. Handle 0 is NULL.
 */
module Tracker {
  import opened Slots

  const MAX_ENTRIES: nat := 4096
  const WORD: nat := 0x1_0000_0000

  datatype Kind = Memory | Socket | Thread | Mutex | Cond | Timer | Context | Buffer | File

  datatype State = Active | Released | Leaked

  datatype Entry = Entry(kind: Kind, state: State, handle: int, owner: nat, size: nat)

  datatype Stats = Stats(tracked: int, released: int, active: int, bytesAllocated: nat, bytesActive: nat,
                         sockets: int, threads: int, leaks: int)

  /** destroyed lists the entries whose resource was freed or closed; bookkeeping of the model only. */
  datatype Table = Table(on: bool, entries: seq<Entry>, stats: Stats, destroyed: seq<nat>)

  datatype Status = Success | InvalidParam | NotFound | Capacity | AlreadyTracked | NotInitialized

  predicate HasBytes(k: Kind) { k.Memory? || k.Buffer? }

  /** Whether releasing the entry frees or closes something. */
  predicate Destroys(e: Entry) {
    match e.kind
    case Socket => e.handle >= 0
    case Thread => false
    case Timer => false
    case File => false
    case _ => e.handle != 0
  }

  function IsActiveHandle(handle: int): Entry -> bool {
    (e: Entry) => e.handle == handle && e.state.Active?
  }

  function Gone(e: Entry): Entry { e.(state := Released) }

  function Zero(): Stats { Stats(0, 0, 0, 0, 0, 0, 0, 0) }

  function Init(t: Table): Table {
    if t.on then t else Table(true, [], Zero(), [])
  }

  function Track(t: Table, kind: Kind, handle: int, owner: nat, size: nat): (Table, Status) {
    if !t.on then (t, NotInitialized)
    else if handle == 0 && !kind.Mutex? && !kind.Cond? then (t, InvalidParam)
    else if First(t.entries, IsActiveHandle(handle)) < |t.entries| then (t, AlreadyTracked)
    else if |t.entries| >= MAX_ENTRIES then (t, Capacity)
    else (t.(entries := t.entries + [Entry(kind, Active, handle, owner, size)], stats := CountIn(t.stats, kind, size)), Success)
  }

  function CountIn(s: Stats, kind: Kind, size: nat): Stats {
    var bytes := if HasBytes(kind) then size else 0;
    s.(tracked := s.tracked + 1, active := s.active + 1,
       bytesAllocated := (s.bytesAllocated + bytes) % WORD, bytesActive := (s.bytesActive + bytes) % WORD,
       sockets := if kind.Socket? then s.sockets + 1 else s.sockets,
       threads := if kind.Thread? then s.threads + 1 else s.threads)
  }

  function Less(n: int): int { if n > 0 then n - 1 else n }

  /** release_resource_internal on entry i. */
  function ReleaseAt(t: Table, i: nat): Table
    requires i < |t.entries|
  {
    var e, s := t.entries[i], t.stats;
    if !e.state.Active? then t else
    Table(t.on, t.entries[i := Gone(e)],
          s.(released := s.released + 1, active := s.active - 1,
             bytesActive := if HasBytes(e.kind) then (s.bytesActive - e.size) % WORD else s.bytesActive,
             sockets := if e.kind.Socket? then Less(s.sockets) else s.sockets,
             threads := if e.kind.Thread? then Less(s.threads) else s.threads),
          if Destroys(e) then t.destroyed + [i] else t.destroyed)
  }

  function Untrack(t: Table, handle: int): (Table, Status) {
    if !t.on then (t, NotInitialized)
    else if handle == 0 then (t, InvalidParam)
    else
      var i := First(t.entries, IsActiveHandle(handle));
      if i == |t.entries| then (t, NotFound) else
      var e, s := t.entries[i], t.stats;
      (t.(entries := t.entries[i := Gone(e)],
          stats := s.(released := s.released + 1, active := Less(s.active),
                      bytesActive := if HasBytes(e.kind) && s.bytesActive >= e.size then s.bytesActive - e.size else s.bytesActive,
                      sockets := if e.kind.Socket? then Less(s.sockets) else s.sockets,
                      threads := if e.kind.Thread? then Less(s.threads) else s.threads)),
       Success)
  }

  function Release(t: Table, handle: int): (Table, Status) {
    if !t.on then (t, NotInitialized)
    else if handle == 0 then (t, InvalidParam)
    else
      var i := First(t.entries, IsActiveHandle(handle));
      if i == |t.entries| then (t, NotFound) else (ReleaseAt(t, i), Success)
  }

  function UpdateState(t: Table, handle: int, state: State): (Table, Status) {
    if !t.on then (t, NotInitialized)
    else if handle == 0 then (t, InvalidParam)
    else
      var i := First(t.entries, IsActiveHandle(handle));
      if i == |t.entries| then (t, NotFound) else (t.(entries := t.entries[i := t.entries[i].(state := state)]), Success)
  }

  /** The clean-up loops from entry i on: release what is active and selected, and count it. */
  function CleanFrom(t: Table, i: nat, which: Entry -> bool, cleaned: nat): (Table, nat)
    requires i <= |t.entries|
    decreases |t.entries| - i
  {
    if i == |t.entries| then (t, cleaned)
    else if which(t.entries[i]) && t.entries[i].state.Active? then CleanFrom(ReleaseAt(t, i), i + 1, which, cleaned + 1)
    else CleanFrom(t, i + 1, which, cleaned)
  }

  function OfOwner(owner: nat): Entry -> bool { (e: Entry) => e.owner == owner }

  function OfKind(kind: Kind): Entry -> bool { (e: Entry) => e.kind == kind }

  function Clean(t: Table, which: Entry -> bool): (Table, nat) {
    if !t.on then (t, 0) else CleanFrom(t, 0, which, 0)
  }

  function ShutDown(t: Table): Table {
    if !t.on then t else CleanFrom(t, 0, (e: Entry) => true, 0).0.(on := false, entries := [])
  }

  function MarkedLeaked(entries: seq<Entry>): (r: seq<Entry>)
    ensures |r| == |entries|
    ensures forall i :: 0 <= i < |entries| ==> r[i] == if entries[i].state.Active? then entries[i].(state := Leaked) else entries[i]
  {
    seq(|entries|, i requires 0 <= i < |entries| => if entries[i].state.Active? then entries[i].(state := Leaked) else entries[i])
  }

  function ActiveOne(e: Entry): nat { if e.state.Active? then 1 else 0 }

  function CheckLeaks(t: Table): (Table, nat) {
    if !t.on then (t, 0) else
    var n := Sum(t.entries, ActiveOne);
    (t.(entries := MarkedLeaked(t.entries), stats := t.stats.(leaks := n)), n)
  }

  // --- what active entries add up to -------------------------------------------------------------

  function ActiveBytes(e: Entry): nat { if e.state.Active? && HasBytes(e.kind) then e.size else 0 }

  function ActiveSockets(e: Entry): nat { if e.state.Active? && e.kind.Socket? then 1 else 0 }

  function ActiveThreads(e: Entry): nat { if e.state.Active? && e.kind.Thread? then 1 else 0 }

  function EverBytes(e: Entry): nat { if HasBytes(e.kind) then e.size else 0 }

  // --- runs ------------------------------------------------------------------------------------

  datatype Op =
    | DoInit
    | DoTrack(kind: Kind, handle: int, owner: nat, size: nat)
    | DoUntrack(handle: int)
    | DoRelease(handle: int)
    | DoCleanOwner(owner: nat)
    | DoCleanKind(kind: Kind)
    | DoUpdate(handle: int, state: State)
    | DoCheckLeaks
    | DoShutDown

  function Apply(t: Table, op: Op): Table {
    match op
    case DoInit => Init(t)
    case DoTrack(kind, handle, owner, size) => Track(t, kind, handle, owner, size).0
    case DoUntrack(handle) => Untrack(t, handle).0
    case DoRelease(handle) => Release(t, handle).0
    case DoCleanOwner(owner) => Clean(t, OfOwner(owner)).0
    case DoCleanKind(kind) => Clean(t, OfKind(kind)).0
    case DoUpdate(handle, state) => UpdateState(t, handle, state).0
    case DoCheckLeaks => CheckLeaks(t).0
    case DoShutDown => ShutDown(t)
  }

  function After(t: Table, ops: seq<Op>): Table
    decreases |ops|
  {
    if ops == [] then t else After(Apply(t, ops[0]), ops[1..])
  }

  function Unused(): Table { Table(false, [], Zero(), []) }

  /**
   What the statistics go on counting although no active entry stands for it: the entries an update or a leak
   check took out of Active since the last effective init, and the bytes an untrack left in.
   */
  datatype Gap = Gap(entries: nat, bytes: nat, sockets: nat, threads: nat, skipped: nat)

  function NoGap(): Gap { Gap(0, 0, 0, 0, 0) }

  /** The f of the entries that op takes out of Active without releasing them. */
  function TakenOut(t: Table, op: Op, f: Entry -> nat): nat {
    if !t.on then 0 else
    match op
    case DoUpdate(handle, state) =>
      var i := First(t.entries, IsActiveHandle(handle));
      if handle == 0 || i == |t.entries| || state.Active? then 0 else f(t.entries[i])
    case DoCheckLeaks => Sum(t.entries, f)
    case _ => 0
  }

  /** An untrack subtracts no bytes when the counter, which wraps, is below the size. */
  function LeftIn(t: Table, op: Op): nat {
    if !t.on || !op.DoUntrack? || op.handle == 0 then 0 else
    var i := First(t.entries, IsActiveHandle(op.handle));
    if i < |t.entries| && t.stats.bytesActive < ActiveBytes(t.entries[i]) then t.entries[i].size else 0
  }

  function GapAfter(t: Table, g: Gap, op: Op): Gap {
    if op.DoInit? && !t.on then NoGap()
    else Gap(g.entries + TakenOut(t, op, ActiveOne), g.bytes + TakenOut(t, op, ActiveBytes), g.sockets + TakenOut(t, op, ActiveSockets),
             g.threads + TakenOut(t, op, ActiveThreads), g.skipped + LeftIn(t, op))
  }

  function GapOver(t: Table, g: Gap, ops: seq<Op>): Gap
    decreases |ops|
  {
    if ops == [] then g else GapOver(Apply(t, ops[0]), GapAfter(t, g, ops[0]), ops[1..])
  }

  // --- the ledger -----------------------------------------------------------------------------

  predicate CountsOk(t: Table, g: Gap) {
    && t.stats.tracked == t.stats.released + t.stats.active
    && t.stats.active == Sum(t.entries, ActiveOne) + g.entries
    && t.stats.sockets == Sum(t.entries, ActiveSockets) + g.sockets
    && t.stats.threads == Sum(t.entries, ActiveThreads) + g.threads
    && (if t.on then t.stats.tracked == |t.entries| <= MAX_ENTRIES else t.entries == [])
  }

  predicate BytesOk(t: Table, g: Gap) {
    && t.stats.bytesActive == (Sum(t.entries, ActiveBytes) + g.bytes + g.skipped) % WORD
    && (t.on ==> t.stats.bytesAllocated == Sum(t.entries, EverBytes) % WORD)
  }

  ghost predicate HandlesOk(t: Table) {
    forall i, j :: 0 <= i < j < |t.entries| && t.entries[i].state.Active? && t.entries[j].state.Active? ==>
      t.entries[i].handle != t.entries[j].handle
  }

  /** Nothing is destroyed twice, and nothing destroyed is active. */
  ghost predicate DestroyedOk(t: Table) {
    && (forall a :: 0 <= a < |t.destroyed| ==> t.destroyed[a] < |t.entries| && !t.entries[t.destroyed[a]].state.Active?)
    && (forall a, b :: 0 <= a < b < |t.destroyed| ==> t.destroyed[a] != t.destroyed[b])
  }

  ghost predicate Inv(t: Table, g: Gap) {
    CountsOk(t, g) && BytesOk(t, g) && (t.on ==> HandlesOk(t) && DestroyedOk(t))
  }

  lemma TrackKeepsCounts(t: Table, g: Gap, kind: Kind, handle: int, owner: nat, size: nat)
    requires Inv(t, g) && Track(t, kind, handle, owner, size).1 == Success
    ensures CountsOk(Track(t, kind, handle, owner, size).0, g)
  {
    var e := Entry(kind, Active, handle, owner, size);
    SumAppend(t.entries, ActiveOne, e);
    SumAppend(t.entries, ActiveSockets, e);
    SumAppend(t.entries, ActiveThreads, e);
  }

  lemma TrackKeepsBytes(t: Table, g: Gap, kind: Kind, handle: int, owner: nat, size: nat)
    requires Inv(t, g) && Track(t, kind, handle, owner, size).1 == Success
    ensures BytesOk(Track(t, kind, handle, owner, size).0, g)
  {
    var e := Entry(kind, Active, handle, owner, size);
    SumAppend(t.entries, EverBytes, e);
    SumAppend(t.entries, ActiveBytes, e);
    Added(Sum(t.entries, EverBytes), EverBytes(e));
    Added(Sum(t.entries, ActiveBytes) + g.bytes + g.skipped, ActiveBytes(e));
  }

  lemma Added(bytes: nat, more: nat)
    ensures (bytes % WORD + more) % WORD == (bytes + more) % WORD
  {}

  lemma Subtracted(bytes: nat, less: nat)
    requires less <= bytes
    ensures (bytes % WORD - less) % WORD == (bytes - less) % WORD
  {}

  lemma TrackKeeps(t: Table, g: Gap, kind: Kind, handle: int, owner: nat, size: nat)
    requires Inv(t, g)
    ensures Inv(Track(t, kind, handle, owner, size).0, g)
  {
    if Track(t, kind, handle, owner, size).1 == Success {
      TrackKeepsCounts(t, g, kind, handle, owner, size);
      TrackKeepsBytes(t, g, kind, handle, owner, size);
    }
  }

  /** What marking entry i with another state takes from the sums over active entries. */
  lemma SumsWithout(entries: seq<Entry>, i: nat, state: State)
    requires i < |entries| && entries[i].state.Active? && !state.Active?
    ensures var e, rest := entries[i], entries[i := entries[i].(state := state)];
            && Sum(rest, ActiveOne) + ActiveOne(e) == Sum(entries, ActiveOne)
            && Sum(rest, ActiveSockets) + ActiveSockets(e) == Sum(entries, ActiveSockets)
            && Sum(rest, ActiveThreads) + ActiveThreads(e) == Sum(entries, ActiveThreads)
            && Sum(rest, ActiveBytes) + ActiveBytes(e) == Sum(entries, ActiveBytes)
            && Sum(rest, EverBytes) == Sum(entries, EverBytes)
  {
    var x := entries[i].(state := state);
    SumUpdate(entries, ActiveOne, i, x);
    SumUpdate(entries, ActiveSockets, i, x);
    SumUpdate(entries, ActiveThreads, i, x);
    SumUpdate(entries, ActiveBytes, i, x);
    SumUpdate(entries, EverBytes, i, x);
  }

  lemma ReleaseAtKeeps(t: Table, g: Gap, i: nat)
    requires Inv(t, g) && t.on && i < |t.entries|
    ensures Inv(ReleaseAt(t, i), g)
  {
    var e, u := t.entries[i], ReleaseAt(t, i);
    if e.state.Active? {
      SumsWithout(t.entries, i, Released);
      Subtracted(Sum(t.entries, ActiveBytes) + g.bytes + g.skipped, ActiveBytes(e));
      assert u.entries == t.entries[i := e.(state := Released)];
      ReleaseKeepsDestroyed(t, i);
    }
  }

  lemma ReleaseKeepsDestroyed(t: Table, i: nat)
    requires DestroyedOk(t) && i < |t.entries| && t.entries[i].state.Active?
    ensures DestroyedOk(ReleaseAt(t, i))
  {
    var u := ReleaseAt(t, i);
    assert forall k :: 0 <= k < |t.entries| ==> u.entries[k] == if k == i then Gone(t.entries[i]) else t.entries[k];
    assert forall a :: 0 <= a < |t.destroyed| ==> u.destroyed[a] == t.destroyed[a] != i;
  }

  lemma UntrackKeeps(t: Table, g: Gap, handle: int)
    requires Inv(t, g)
    ensures Inv(Untrack(t, handle).0, g.(skipped := g.skipped + LeftIn(t, DoUntrack(handle))))
  {
    var i := First(t.entries, IsActiveHandle(handle));
    if t.on && handle != 0 && i < |t.entries| {
      SumsWithout(t.entries, i, Released);
      UntrackKeepsBytes(t, g, handle, i);
    }
  }

  lemma UntrackKeepsBytes(t: Table, g: Gap, handle: int, i: nat)
    requires Inv(t, g) && t.on && handle != 0 && i == First(t.entries, IsActiveHandle(handle)) < |t.entries|
    ensures BytesOk(Untrack(t, handle).0, g.(skipped := g.skipped + LeftIn(t, DoUntrack(handle))))
  {
    SumsWithout(t.entries, i, Released);
    var e, all := t.entries[i], Sum(t.entries, ActiveBytes) + g.bytes + g.skipped;
    Subtracted(all, ActiveBytes(e));
    if HasBytes(e.kind) && t.stats.bytesActive < e.size {
      assert Sum(Untrack(t, handle).0.entries, ActiveBytes) + g.bytes + (g.skipped + e.size) == all;
    }
  }

  /** What leaves the sums without a release goes into the gap. */
  lemma TakingOutKeeps(t: Table, g: Gap, i: nat, state: State)
    requires Inv(t, g) && t.on && i < |t.entries| && t.entries[i].state.Active? && !state.Active?
    ensures var e := t.entries[i];
            Inv(t.(entries := t.entries[i := e.(state := state)]),
                Gap(g.entries + ActiveOne(e), g.bytes + ActiveBytes(e), g.sockets + ActiveSockets(e), g.threads + ActiveThreads(e), g.skipped))
  {
    SumsWithout(t.entries, i, state);
  }

  /** An update to Active changes nothing; any other takes the entry out. */
  lemma UpdateKeeps(t: Table, g: Gap, handle: int, state: State)
    requires Inv(t, g)
    ensures Inv(UpdateState(t, handle, state).0, GapAfter(t, g, DoUpdate(handle, state)))
  {
    var i := First(t.entries, IsActiveHandle(handle));
    if t.on && handle != 0 && i < |t.entries| {
      if state.Active? {
        assert t.entries[i := t.entries[i].(state := state)] == t.entries;
      } else {
        TakingOutKeeps(t, g, i, state);
      }
    }
  }

  lemma NothingActive(entries: seq<Entry>)
    requires forall i :: 0 <= i < |entries| ==> !entries[i].state.Active?
    ensures Sum(entries, ActiveOne) == Sum(entries, ActiveSockets) == Sum(entries, ActiveThreads) == Sum(entries, ActiveBytes) == 0
  {
    SumZero(entries, ActiveOne);
    SumZero(entries, ActiveSockets);
    SumZero(entries, ActiveThreads);
    SumZero(entries, ActiveBytes);
  }

  lemma SameEver(before: seq<Entry>, after: seq<Entry>)
    requires |before| == |after| && forall i :: 0 <= i < |before| ==> after[i] == before[i].(state := after[i].state)
    ensures Sum(after, EverBytes) == Sum(before, EverBytes)
  {
    SumCompare(before, EverBytes, after, EverBytes);
    SumCompare(after, EverBytes, before, EverBytes);
  }

  lemma CheckLeaksKeeps(t: Table, g: Gap)
    requires Inv(t, g)
    ensures Inv(CheckLeaks(t).0, GapAfter(t, g, DoCheckLeaks))
  {
    if t.on {
      var marked := MarkedLeaked(t.entries);
      NothingActive(marked);
      SameEver(t.entries, marked);
    }
  }

  lemma {:induction false} CleanKeepsInv(t: Table, g: Gap, i: nat, which: Entry -> bool, cleaned: nat)
    requires Inv(t, g) && t.on && i <= |t.entries|
    ensures Inv(CleanFrom(t, i, which, cleaned).0, g)
    decreases |t.entries| - i
  {
    if i < |t.entries| {
      if which(t.entries[i]) && t.entries[i].state.Active? {
        ReleaseAtKeeps(t, g, i);
        CleanKeepsInv(ReleaseAt(t, i), g, i + 1, which, cleaned + 1);
      } else {
        CleanKeepsInv(t, g, i + 1, which, cleaned);
      }
    }
  }

  /**
   The clean-up loops release exactly the active entries they select, free or close exactly those of them that
   hold something to free, and return their number.
   */
  lemma {:induction false} CleanReleases(t: Table, i: nat, which: Entry -> bool, cleaned: nat)
    requires i <= |t.entries|
    ensures var (u, n) := CleanFrom(t, i, which, cleaned);
            && u.on == t.on && |u.entries| == |t.entries|
            && (forall k :: 0 <= k < |t.entries| ==>
                  u.entries[k] == if k >= i && which(t.entries[k]) && t.entries[k].state.Active? then Gone(t.entries[k]) else t.entries[k])
            && (forall k :: k in u.destroyed <==>
                  k in t.destroyed || (i <= k < |t.entries| && which(t.entries[k]) && t.entries[k].state.Active? && Destroys(t.entries[k])))
            && n - cleaned == t.stats.active - u.stats.active
    decreases |t.entries| - i
  {
    if i < |t.entries| {
      if which(t.entries[i]) && t.entries[i].state.Active? {
        CleanReleases(ReleaseAt(t, i), i + 1, which, cleaned + 1);
      } else {
        CleanReleases(t, i + 1, which, cleaned);
      }
    }
  }

  lemma CleanKeeps(t: Table, g: Gap, i: nat, which: Entry -> bool, cleaned: nat)
    requires Inv(t, g) && t.on && i <= |t.entries|
    ensures Inv(CleanFrom(t, i, which, cleaned).0, g) && CleanFrom(t, i, which, cleaned).0.on
  {
    CleanKeepsInv(t, g, i, which, cleaned);
    CleanReleases(t, i, which, cleaned);
  }

  /** The table is emptied and what it did not release stays in the statistics. */
  lemma ShutDownKeeps(t: Table, g: Gap)
    requires Inv(t, g)
    ensures Inv(ShutDown(t), g)
  {
    if t.on {
      var all: Entry -> bool := (e: Entry) => true;
      var u := CleanFrom(t, 0, all, 0).0;
      CleanKeeps(t, g, 0, all, 0);
      CleanReleases(t, 0, all, 0);
      EmptiedKeeps(u, g);
      assert ShutDown(t) == u.(on := false, entries := []);
    }
  }

  lemma EmptiedKeeps(t: Table, g: Gap)
    requires Inv(t, g) && forall i :: 0 <= i < |t.entries| ==> !t.entries[i].state.Active?
    ensures Inv(t.(on := false, entries := []), g)
  {
    NothingActive(t.entries);
  }

  /** Calls that move no entry out of Active by hand leave the gap as it is. */
  lemma SameGap(t: Table, g: Gap, op: Op)
    requires !op.DoInit? && !op.DoUntrack? && !op.DoUpdate? && !op.DoCheckLeaks?
    ensures GapAfter(t, g, op) == g
  {}

  lemma ReleasingKeeps(t: Table, g: Gap, op: Op)
    requires Inv(t, g) && (op.DoRelease? || op.DoCleanOwner? || op.DoCleanKind? || op.DoShutDown?)
    ensures Inv(Apply(t, op), g)
  {
    match op
    case DoRelease(handle) =>
      var i := First(t.entries, IsActiveHandle(handle));
      if t.on && i < |t.entries| { ReleaseAtKeeps(t, g, i); }
    case DoCleanOwner(owner) => if t.on { CleanKeeps(t, g, 0, OfOwner(owner), 0); }
    case DoCleanKind(kind) => if t.on { CleanKeeps(t, g, 0, OfKind(kind), 0); }
    case DoShutDown => ShutDownKeeps(t, g);
  }

  lemma InitKeeps(t: Table, g: Gap)
    requires Inv(t, g)
    ensures Inv(Init(t), GapAfter(t, g, DoInit))
  {}

  lemma UntrackStep(t: Table, g: Gap, handle: int)
    ensures GapAfter(t, g, DoUntrack(handle)) == g.(skipped := g.skipped + LeftIn(t, DoUntrack(handle)))
  {}

  lemma StepKeeps(t: Table, g: Gap, op: Op)
    requires Inv(t, g)
    ensures Inv(Apply(t, op), GapAfter(t, g, op))
  {
    match op
    case DoInit => InitKeeps(t, g);
    case DoTrack(kind, handle, owner, size) =>
      SameGap(t, g, op);
      TrackKeeps(t, g, kind, handle, owner, size);
    case DoUntrack(handle) =>
      UntrackStep(t, g, handle);
      UntrackKeeps(t, g, handle);
    case DoUpdate(handle, state) => UpdateKeeps(t, g, handle, state);
    case DoCheckLeaks => CheckLeaksKeeps(t, g);
    case _ =>
      SameGap(t, g, op);
      ReleasingKeeps(t, g, op);
  }

  lemma {:induction false} RunKeeps(t: Table, g: Gap, ops: seq<Op>)
    requires Inv(t, g)
    ensures Inv(After(t, ops), GapOver(t, g, ops))
    decreases |ops|
  {
    if ops != [] {
      StepKeeps(t, g, ops[0]);
      RunKeeps(Apply(t, ops[0]), GapAfter(t, g, ops[0]), ops[1..]);
    }
  }

  // --- theorems -------------------------------------------------------------------------------

  /** Whatever the calls: tracked = released + active, no active handle twice, nothing destroyed twice. */
  lemma LedgerBalances(ops: seq<Op>)
    ensures var t := After(Unused(), ops);
            && t.stats.tracked == t.stats.released + t.stats.active
            && (t.on ==> t.stats.tracked == |t.entries| <= MAX_ENTRIES && HandlesOk(t) && DestroyedOk(t))
  {
    RunKeeps(Unused(), NoGap(), ops);
  }

  /** The statistics exceed the counts over active entries by exactly the gap. */
  ghost predicate OffBy(t: Table, g: Gap) {
    && t.stats.active == Sum(t.entries, ActiveOne) + g.entries
    && t.stats.sockets == Sum(t.entries, ActiveSockets) + g.sockets
    && t.stats.threads == Sum(t.entries, ActiveThreads) + g.threads
    && t.stats.bytesActive == (Sum(t.entries, ActiveBytes) + g.bytes + g.skipped) % WORD
    && (t.on ==> t.stats.bytesAllocated == Sum(t.entries, EverBytes) % WORD)
  }

  /**
   After any calls the statistics exceed the counts over active entries by exactly what was taken out of Active
   since the last init, and so are right if and only if nothing of that kind was.
   */
  lemma StatisticsAreExactIff(ops: seq<Op>)
    ensures var t, g := After(Unused(), ops), GapOver(Unused(), NoGap(), ops);
            && OffBy(t, g)
            && (t.stats.active == Sum(t.entries, ActiveOne) <==> g.entries == 0)
            && (t.stats.bytesActive == Sum(t.entries, ActiveBytes) <==>
                  Sum(t.entries, ActiveBytes) < WORD && (g.bytes + g.skipped) % WORD == 0)
  {
    ExactAfter(Unused(), NoGap(), ops);
  }

  lemma ExactAfter(t: Table, g: Gap, ops: seq<Op>)
    requires Inv(t, g)
    ensures var u, h := After(t, ops), GapOver(t, g, ops);
            && OffBy(u, h)
            && (u.stats.active == Sum(u.entries, ActiveOne) <==> h.entries == 0)
            && (u.stats.bytesActive == Sum(u.entries, ActiveBytes) <==>
                  Sum(u.entries, ActiveBytes) < WORD && (h.bytes + h.skipped) % WORD == 0)
  {
    RunKeeps(t, g, ops);
    ExactIff(After(t, ops), GapOver(t, g, ops));
  }

  predicate MovesState(op: Op) { op.DoUpdate? || op.DoCheckLeaks? }

  /** Track, untrack, release, clean-up, init and shutdown take nothing out of Active: without the others all counts are exact. */
  lemma StatisticsAreExact(ops: seq<Op>)
    requires forall i :: 0 <= i < |ops| ==> !MovesState(ops[i])
    ensures var t := After(Unused(), ops);
            && t.stats.active == Sum(t.entries, ActiveOne)
            && t.stats.sockets == Sum(t.entries, ActiveSockets)
            && t.stats.threads == Sum(t.entries, ActiveThreads)
  {
    StatisticsAreExactIff(ops);
    NothingTakenOut(Unused(), NoGap(), ops);
  }

  lemma {:induction false} NothingTakenOut(t: Table, g: Gap, ops: seq<Op>)
    requires g.entries == g.bytes == g.sockets == g.threads == 0
    requires forall i :: 0 <= i < |ops| ==> !MovesState(ops[i])
    ensures var h := GapOver(t, g, ops); h.entries == h.bytes == h.sockets == h.threads == 0
    decreases |ops|
  {
    if ops != [] {
      assert !MovesState(ops[0]);
      NothingTakenOut(Apply(t, ops[0]), GapAfter(t, g, ops[0]), ops[1..]);
    }
  }

  lemma ExactIff(t: Table, g: Gap)
    requires Inv(t, g)
    ensures OffBy(t, g)
    ensures t.stats.active == Sum(t.entries, ActiveOne) <==> g.entries == 0
    ensures t.stats.bytesActive == Sum(t.entries, ActiveBytes) <==> Sum(t.entries, ActiveBytes) < WORD && (g.bytes + g.skipped) % WORD == 0
  {
    AddsNothingIff(Sum(t.entries, ActiveBytes), g.bytes + g.skipped);
  }

  lemma AddsNothingIff(bytes: nat, more: nat)
    ensures (bytes + more) % WORD == bytes <==> bytes < WORD && more % WORD == 0
  {
    Added(more, bytes);
  }

  /** What the byte counter stands for fits in 32 bits now and after every call. */
  predicate FitsAlong(t: Table, g: Gap, ops: seq<Op>)
    decreases |ops|
  {
    && Sum(t.entries, ActiveBytes) + g.bytes < WORD
    && (ops != [] ==> FitsAlong(Apply(t, ops[0]), GapAfter(t, g, ops[0]), ops[1..]))
  }

  /** However much is tracked in all: while what is active fits, no untrack leaves bytes in and the counter is the sum. */
  lemma BytesAreExact(ops: seq<Op>)
    requires FitsAlong(Unused(), NoGap(), ops)
    ensures var t, g := After(Unused(), ops), GapOver(Unused(), NoGap(), ops);
            g.skipped == 0 && t.stats.bytesActive == Sum(t.entries, ActiveBytes) + g.bytes
  {
    BytesStayExact(Unused(), NoGap(), ops);
  }

  lemma {:induction false} BytesStayExact(t: Table, g: Gap, ops: seq<Op>)
    requires Inv(t, g) && g.skipped == 0 && FitsAlong(t, g, ops)
    ensures var u, h := After(t, ops), GapOver(t, g, ops);
            h.skipped == 0 && u.stats.bytesActive == Sum(u.entries, ActiveBytes) + h.bytes
    decreases |ops|
  {
    if ops != [] {
      StepKeeps(t, g, ops[0]);
      if ops[0].DoUntrack? {
        var i := First(t.entries, IsActiveHandle(ops[0].handle));
        if i < |t.entries| {
          SumBounds(t.entries, ActiveBytes, i);
        }
      }
      BytesStayExact(Apply(t, ops[0]), GapAfter(t, g, ops[0]), ops[1..]);
    }
  }

  /** Without that bound it may fail with nothing taken out of Active: the counter wraps and the untrack leaves its size in. */
  lemma BytesLeftIn()
    ensures var ops := [DoInit, DoTrack(Memory, 1, 0, WORD - 1), DoTrack(Memory, 2, 0, 1), DoUntrack(1)];
            var t, g := After(Unused(), ops), GapOver(Unused(), NoGap(), ops);
            && g.entries == 0 && g.bytes == 0 && g.skipped == WORD - 1
            && Sum(t.entries, ActiveBytes) == 1 && t.stats.bytesActive == 0
  {
    var o0, o1, o2, o3 := DoInit, DoTrack(Memory, 1, 0, WORD - 1), DoTrack(Memory, 2, 0, 1), DoUntrack(1);
    var a, b := Entry(Memory, Active, 1, 0, WORD - 1), Entry(Memory, Active, 2, 0, 1);
    var t0, t1, t2, t3 := Apply(Unused(), o0), Table(true, [a], Stats(1, 0, 1, WORD - 1, WORD - 1, 0, 0, 0), []),
      Table(true, [a, b], Stats(2, 0, 2, 0, 0, 0, 0, 0), []), Table(true, [Gone(a), b], Stats(2, 1, 1, 0, 0, 0, 0, 0), []);
    TwoTracked(t0, t1, t2, t3, a, b);
    assert [o0, o1, o2, o3][1..] == [o1, o2, o3] && [o1, o2, o3][1..] == [o2, o3] && [o2, o3][1..] == [o3] && [o3][1..] == [];
    var left := NoGap().(skipped := WORD - 1);
    assert GapOver(t3, left, []) == left && After(t3, []) == t3;
    assert GapOver(t2, NoGap(), [o3]) == left && After(t2, [o3]) == t3;
    assert GapOver(t1, NoGap(), [o2, o3]) == left && After(t1, [o2, o3]) == t3;
    assert GapOver(t0, NoGap(), [o1, o2, o3]) == left && After(t0, [o1, o2, o3]) == t3;
    assert GapOver(Unused(), NoGap(), [o0, o1, o2, o3]) == left && After(Unused(), [o0, o1, o2, o3]) == t3;
  }

  lemma TwoTracked(t0: Table, t1: Table, t2: Table, t3: Table, a: Entry, b: Entry)
    requires a == Entry(Memory, Active, 1, 0, WORD - 1) && b == Entry(Memory, Active, 2, 0, 1)
    requires t0 == Init(Unused()) && t1 == Table(true, [a], Stats(1, 0, 1, WORD - 1, WORD - 1, 0, 0, 0), [])
    requires t2 == Table(true, [a, b], Stats(2, 0, 2, 0, 0, 0, 0, 0), [])
    requires t3 == Table(true, [Gone(a), b], Stats(2, 1, 1, 0, 0, 0, 0, 0), [])
    ensures Track(t0, Memory, 1, 0, WORD - 1).0 == t1 && Track(t1, Memory, 2, 0, 1).0 == t2
    ensures Untrack(t2, 1).0 == t3 && LeftIn(t2, DoUntrack(1)) == WORD - 1
    ensures Sum(t3.entries, ActiveBytes) == 1
  {
    FirstIs([a], IsActiveHandle(2), 1);
    FirstIs([a, b], IsActiveHandle(1), 0);
    assert t3.entries[1..] == [b] && [b][1..] == [];
    assert Sum([b], ActiveBytes) == 1;
  }

  /** A leak check takes out every active entry, so from then on the statistics are wrong unless there was none. */
  lemma LeakCheckCost(t: Table, g: Gap)
    requires Inv(t, g) && t.on
    ensures var (u, n) := CheckLeaks(t);
            && n == Sum(t.entries, ActiveOne) && Sum(u.entries, ActiveOne) == 0 && u.stats.active == n + g.entries
            && GapAfter(t, g, DoCheckLeaks).entries == n + g.entries
  {
    NothingActive(MarkedLeaked(t.entries));
  }

  /**
   An entry that is no longer active keeps its place and state in every run up to a shutdown, and what it
   holds is not freed by any later call, shutdown included, unless it was freed before.
   */
  lemma {:induction false} LeftForGood(t: Table, ops: seq<Op>, k: nat)
    requires t.on && k < |t.entries| && !t.entries[k].state.Active?
    requires k !in t.destroyed && DoInit !in ops
    ensures k !in After(t, ops).destroyed
    ensures DoShutDown !in ops ==> After(t, ops).on && k < |After(t, ops).entries| && After(t, ops).entries[k] == t.entries[k]
    decreases |ops|
  {
    if ops != [] {
      var u := Apply(t, ops[0]);
      StepLeaves(t, ops[0], k);
      assert forall op :: op in ops[1..] ==> op in ops;
      if u.on {
        LeftForGood(u, ops[1..], k);
      } else {
        StaysOff(u, ops[1..]);
      }
    }
  }

  lemma StepLeaves(t: Table, op: Op, k: nat)
    requires t.on && k < |t.entries| && !t.entries[k].state.Active? && k !in t.destroyed
    ensures var u := Apply(t, op);
            k !in u.destroyed && (if op.DoShutDown? then !u.on else u.on && k < |u.entries| && u.entries[k] == t.entries[k])
  {
    match op
    case DoCleanOwner(owner) => CleanReleases(t, 0, OfOwner(owner), 0);
    case DoCleanKind(kind) => CleanReleases(t, 0, OfKind(kind), 0);
    case DoShutDown => CleanReleases(t, 0, (e: Entry) => true, 0);
    case _ =>
  }

  lemma {:induction false} StaysOff(t: Table, ops: seq<Op>)
    requires !t.on && DoInit !in ops
    ensures After(t, ops) == t
    decreases |ops|
  {
    if ops != [] {
      assert forall op :: op in ops[1..] ==> op in ops;
      StaysOff(t, ops[1..]);
    }
  }

  /**
   What untracking undoes: a resource tracked and at once untracked leaves the active counts as they were,
   its entry where it was put, and its handle free to be tracked again. The byte counter comes back exactly
   when adding the size did not make it wrap.
   */
  lemma TrackThenUntrack(t: Table, g: Gap, kind: Kind, handle: int, owner: nat, size: nat)
    requires Inv(t, g) && handle != 0 && Track(t, kind, handle, owner, size).1 == Success
    ensures var u := Track(t, kind, handle, owner, size).0;
            var (v, status) := Untrack(u, handle);
            && u.entries == t.entries + [Entry(kind, Active, handle, owner, size)]
            && status == Success && v.entries == t.entries + [Entry(kind, Released, handle, owner, size)]
            && v.stats.active == t.stats.active
            && v.stats.sockets == t.stats.sockets && v.stats.threads == t.stats.threads
            && First(v.entries, IsActiveHandle(handle)) == |v.entries|
            && (size < WORD ==>
                  (v.stats.bytesActive == t.stats.bytesActive <==> !HasBytes(kind) || size == 0 || t.stats.bytesActive + size < WORD))
  {
    var e := Entry(kind, Active, handle, owner, size);
    var u := Track(t, kind, handle, owner, size).0;
    assert First(u.entries, IsActiveHandle(handle)) == |t.entries| by {
      FirstIs(u.entries, IsActiveHandle(handle), |t.entries|);
    }
    assert (t.entries + [e])[|t.entries| := Gone(e)] == t.entries + [Gone(e)];
    FirstIs(t.entries + [Gone(e)], IsActiveHandle(handle), |t.entries| + 1);
  }

  /** A clean-up by owner leaves no active entry of that owner and touches no other entry. */
  lemma CleanOwnerExactly(t: Table, owner: nat, k: nat)
    requires t.on && k < |t.entries|
    ensures var u := Clean(t, OfOwner(owner)).0;
            |u.entries| == |t.entries|
            && u.entries[k] == if t.entries[k].owner == owner && t.entries[k].state.Active? then Gone(t.entries[k]) else t.entries[k]
  {
    CleanReleases(t, 0, OfOwner(owner), 0);
  }

  /**
   After a shutdown the counters stand at what was taken out of Active and nothing else, so they are all zero
   exactly when nothing was; they stay there until the next init.
   */
  lemma ShutDownLeavesTheGap(t: Table, g: Gap)
    requires Inv(t, g)
    ensures var u := ShutDown(t);
            && !u.on && u.entries == [] && u.stats.active == g.entries && u.stats.sockets == g.sockets && u.stats.threads == g.threads
            && u.stats.bytesActive == (g.bytes + g.skipped) % WORD
            && u.stats.released == u.stats.tracked - g.entries && u.stats.tracked == t.stats.tracked
  {
    ShutDownKeeps(t, g);
    ShutDownEmpties(t, g);
    GapAlone(ShutDown(t), g);
  }

  lemma ShutDownEmpties(t: Table, g: Gap)
    requires CountsOk(t, g)
    ensures !ShutDown(t).on && ShutDown(t).entries == [] && ShutDown(t).stats.tracked == t.stats.tracked
  {
    if t.on {
      TrackedStays(t, 0, (e: Entry) => true, 0);
    }
  }

  lemma GapAlone(t: Table, g: Gap)
    requires Inv(t, g) && t.entries == []
    ensures t.stats.active == g.entries && t.stats.sockets == g.sockets && t.stats.threads == g.threads
    ensures t.stats.bytesActive == (g.bytes + g.skipped) % WORD && t.stats.released == t.stats.tracked - g.entries
  {}

  lemma {:induction false} TrackedStays(t: Table, i: nat, which: Entry -> bool, cleaned: nat)
    requires i <= |t.entries|
    ensures CleanFrom(t, i, which, cleaned).0.stats.tracked == t.stats.tracked
    decreases |t.entries| - i
  {
    if i < |t.entries| {
      if which(t.entries[i]) && t.entries[i].state.Active? {
        TrackedStays(ReleaseAt(t, i), i + 1, which, cleaned + 1);
      } else {
        TrackedStays(t, i + 1, which, cleaned);
      }
    }
  }

  // --- the globals ------------------------------------------------------------------------------

  class Resources {
    const slots: array<Entry>
    var on: bool
    var count: nat
    var stats: Stats
    ghost var destroyed: seq<nat>

    ghost predicate Valid()
      reads this
    {
      slots.Length == MAX_ENTRIES && count <= MAX_ENTRIES
    }

    ghost function Model(): Table
      requires Valid()
      reads this, slots
    {
      Table(on, slots[..count], stats, destroyed)
    }

    constructor ()
      ensures Valid() && fresh(slots) && Model() == Unused()
    {
      slots := new Entry[MAX_ENTRIES](_ => Entry(Memory, Active, 0, 0, 0));
      on, count, stats, destroyed := false, 0, Zero(), [];
    }

    method TurnOn()
      requires Valid()
      modifies this
      ensures Valid() && Model() == Init(old(Model()))
    {
      if on {
        return;
      }
      on, count, stats, destroyed := true, 0, Zero(), [];
    }

    method FindIndex(handle: int) returns (i: nat)
      requires Valid()
      ensures i == First(Model().entries, IsActiveHandle(handle))
    {
      i := 0;
      while i < count && !(slots[i].handle == handle && slots[i].state == Active)
        invariant i <= count && forall k :: 0 <= k < i ==> !IsActiveHandle(handle)(slots[k])
      {
        i := i + 1;
      }
      FirstIs(slots[..count], IsActiveHandle(handle), i);
    }

    method TrackHandle(kind: Kind, handle: int, owner: nat, size: nat) returns (status: Status)
      requires Valid()
      modifies this, slots
      ensures Valid() && (Model(), status) == Track(old(Model()), kind, handle, owner, size)
    {
      if !on {
        return NotInitialized;
      }
      if handle == 0 && kind != Mutex && kind != Cond {
        return InvalidParam;
      }
      var i := FindIndex(handle);
      if i < count {
        return AlreadyTracked;
      }
      if count >= MAX_ENTRIES {
        return Capacity;
      }
      AddEntry(Entry(kind, Active, handle, owner, size));
      status := Success;
    }

    method AddEntry(e: Entry)
      requires Valid() && count < MAX_ENTRIES
      modifies slots, `count, `stats
      ensures Valid()
      ensures Model() == old(Model()).(entries := old(Model()).entries + [e], stats := CountIn(old(stats), e.kind, e.size))
    {
      slots[count] := e;
      count := count + 1;
      assert slots[..count] == old(slots[..count]) + [e];
      var bytes := if HasBytes(e.kind) then e.size else 0;
      stats := stats.(tracked := stats.tracked + 1, active := stats.active + 1,
                      bytesAllocated := (stats.bytesAllocated + bytes) % WORD, bytesActive := (stats.bytesActive + bytes) % WORD);
      if e.kind == Socket {
        stats := stats.(sockets := stats.sockets + 1);
      }
      if e.kind == Thread {
        stats := stats.(threads := stats.threads + 1);
      }
    }

    method ReleaseEntry(i: nat)
      requires Valid() && i < count
      modifies this, slots
      ensures Valid() && count == old(count) && Model() == ReleaseAt(old(Model()), i)
    {
      var e := slots[i];
      if e.state != Active {
        return;
      }
      if Destroys(e) {
        destroyed := destroyed + [i];
      }
      slots[i] := Gone(e);
      stats := stats.(released := stats.released + 1, active := stats.active - 1);
      if HasBytes(e.kind) {
        stats := stats.(bytesActive := (stats.bytesActive - e.size) % WORD);
      }
      if e.kind == Socket && stats.sockets > 0 {
        stats := stats.(sockets := stats.sockets - 1);
      }
      if e.kind == Thread && stats.threads > 0 {
        stats := stats.(threads := stats.threads - 1);
      }
      assert slots[..count] == old(slots[..count])[i := Gone(e)];
    }

    method ReleaseHandle(handle: int) returns (status: Status)
      requires Valid()
      modifies this, slots
      ensures Valid() && (Model(), status) == Release(old(Model()), handle)
    {
      if !on {
        return NotInitialized;
      }
      if handle == 0 {
        return InvalidParam;
      }
      var i := FindIndex(handle);
      if i == count {
        return NotFound;
      }
      ReleaseEntry(i);
      status := Success;
    }

    method UntrackHandle(handle: int) returns (status: Status)
      requires Valid()
      modifies this, slots
      ensures Valid() && (Model(), status) == Untrack(old(Model()), handle)
    {
      if !on {
        return NotInitialized;
      }
      if handle == 0 {
        return InvalidParam;
      }
      var i := FindIndex(handle);
      if i == count {
        return NotFound;
      }
      var e := slots[i];
      slots[i] := Gone(e);
      stats := stats.(released := stats.released + 1, active := Less(stats.active));
      if HasBytes(e.kind) && stats.bytesActive >= e.size {
        stats := stats.(bytesActive := stats.bytesActive - e.size);
      }
      if e.kind == Socket && stats.sockets > 0 {
        stats := stats.(sockets := stats.sockets - 1);
      }
      if e.kind == Thread && stats.threads > 0 {
        stats := stats.(threads := stats.threads - 1);
      }
      assert slots[..count] == old(slots[..count])[i := Gone(e)];
      status := Success;
    }

    method SetState(handle: int, state: State) returns (status: Status)
      requires Valid()
      modifies slots
      ensures Valid() && (Model(), status) == UpdateState(old(Model()), handle, state)
    {
      if !on {
        return NotInitialized;
      }
      if handle == 0 {
        return InvalidParam;
      }
      var i := FindIndex(handle);
      if i == count {
        return NotFound;
      }
      slots[i] := slots[i].(state := state);
      assert slots[..count] == old(slots[..count])[i := slots[i]];
      status := Success;
    }

    /** The loop of resource_cleanup_by_owner, resource_cleanup_by_type and resource_tracker_cleanup. */
    method CleanWhere(which: Entry -> bool) returns (cleaned: nat)
      requires Valid()
      modifies this, slots
      ensures Valid() && (Model(), cleaned) == Clean(old(Model()), which)
    {
      cleaned := 0;
      if !on {
        return;
      }
      var i := 0;
      while i < count
        invariant Valid() && i <= count && on
        invariant CleanFrom(old(Model()), 0, which, 0) == CleanFrom(Model(), i, which, cleaned)
      {
        if which(slots[i]) && slots[i].state == Active {
          ReleaseEntry(i);
          cleaned := cleaned + 1;
        }
        i := i + 1;
      }
    }

    method TurnOff()
      requires Valid()
      modifies this, slots
      ensures Valid() && Model() == ShutDown(old(Model()))
    {
      if !on {
        return;
      }
      var cleaned := CleanWhere((e: Entry) => true);
      count := 0;
      on := false;
    }

    method MarkLeaks() returns (leaks: nat)
      requires Valid()
      modifies this, slots
      ensures Valid() && (Model(), leaks) == CheckLeaks(old(Model()))
    {
      leaks := 0;
      if !on {
        return;
      }
      ghost var before := slots[..count];
      var i := 0;
      while i < count
        invariant Valid() && i <= count == |before| && Model() == old(Model()).(entries := slots[..count])
        invariant forall k :: 0 <= k < count ==> slots[k] == if k < i && before[k].state.Active? then before[k].(state := Leaked) else before[k]
        invariant leaks + Sum(before[i..], ActiveOne) == Sum(before, ActiveOne)
      {
        assert before[i..][0] == before[i] && before[i..][1..] == before[i + 1..];
        if slots[i].state == Active {
          slots[i] := slots[i].(state := Leaked);
          leaks := leaks + 1;
        }
        i := i + 1;
      }
      stats := stats.(leaks := leaks);
      assert slots[..count] == MarkedLeaked(before);
    }
  }
}
