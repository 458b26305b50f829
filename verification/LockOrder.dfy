/**
 The three kinds of lock around a UE (src/core/uesim_core.c): one for its state, one for
 its gNB list, one for each gNB. Every operation takes them in that order; any number of
 threads running any operations therefore never deadlock.
 */
module LockOrder {
  import opened GnbConnect
  import opened GnbSet
  import opened Slots

  datatype Lock = StateLock | ListLock | GnbLock(id: nat)

  datatype Action = Take(lock: Lock) | Give(lock: Lock)

  const RANKS: nat := 3

  function Rank(l: Lock): (r: nat)
    ensures r < RANKS
  {
    match l
    case StateLock => 0
    case ListLock => 1
    case GnbLock(_) => 2
  }

  // --- what each operation takes and gives back --------------------------------------------

  function Around(l: Lock, inside: seq<Action>): seq<Action> {
    [Take(l)] + inside + [Give(l)]
  }

  function OneByOne(gnbs: seq<Gnb>): seq<Action> {
    if gnbs == [] then [] else Around(GnbLock(gnbs[0].id), []) + OneByOne(gnbs[1..])
  }

  lemma {:induction false} OneByOneConcat(a: seq<Gnb>, b: seq<Gnb>)
    ensures OneByOne(a + b) == OneByOne(a) + OneByOne(b)
  {
    if a == [] {
      assert a + b == b;
    } else {
      assert (a + b)[1..] == a[1..] + b;
      OneByOneConcat(a[1..], b);
      assert Around(GnbLock(a[0].id), []) + (OneByOne(a[1..]) + OneByOne(b)) == OneByOne(a) + OneByOne(b);
    }
  }

  lemma OneByOneSingle(g: Gnb)
    ensures OneByOne([g]) == Around(GnbLock(g.id), [])
  {}

  function ServingAsSeq(u: Ue): seq<Gnb> {
    if u.serving.Some? then [u.serving.value] else []
  }

  /** The lock operations of one call that finds the UE in state u. */
  ghost function Trace(u: Ue, op: Op): seq<Action>
    requires Enabled(u, op)
  {
    match op
    case DoAdd(_, _, _, _) => Around(ListLock, [])
    case DoRemove(t) =>
      Around(ListLock, if t.Cand? && u.cands[t.i].state.Connected? then Around(GnbLock(u.cands[t.i].id), []) else [])
    case DoSwitch(_) => Around(ListLock, [])
    case DoConnect(t, _) => Around(GnbLock(At(u, t).id), [])
    case DoDisconnect(t) => Around(GnbLock(At(u, t).id), [])
    case DoStart => Around(StateLock, [])
    case DoStop => StopTrace(u)
    case DoAttach(_) =>
      Around(StateLock, if u.serving.Some? && !u.serving.value.state.Connected? then Around(GnbLock(u.serving.value.id), []) else [])
    case DoHandover(env) => Around(StateLock, HandoverTrace(u, env))
    case DoMeasure(_, _) => []
    case DoElsewhere => []
  }

  function StopTrace(u: Ue): seq<Action> {
    Around(StateLock, if u.active then OneByOne(ServingAsSeq(u) + u.cands) else [])
  }

  ghost function HandoverTrace(u: Ue, env: Env): seq<Action>
    requires env.gtpu >= -1
  {
    if Best(u.cands).None? then [] else
    var t := Cand(Best(u.cands).value);
    Around(GnbLock(At(u, t).id), []) + if Connect(u, t, env).1 == Success then Around(ListLock, []) else []
  }

  /** Each lock taken ranks above all held ones; each lock given back is held; nothing is held at the end. */
  ghost predicate Ordered(held: set<Lock>, rest: seq<Action>)
    decreases |rest|
  {
    if rest == [] then held == {} else
    match rest[0]
    case Take(l) => (forall h :: h in held ==> Rank(h) < Rank(l)) && Ordered(held + {l}, rest[1..])
    case Give(l) => l in held && Ordered(held - {l}, rest[1..])
  }

  /** A block that starts and ends without locks of its own can stand in front of anything. */
  lemma AroundOrdered(held: set<Lock>, l: Lock, rest: seq<Action>)
    requires (forall h :: h in held ==> Rank(h) < Rank(l)) && Ordered(held, rest)
    ensures Ordered(held, Around(l, []) + rest)
  {}

  lemma {:induction false} OneByOneOrdered(gnbs: seq<Gnb>, held: set<Lock>, rest: seq<Action>)
    requires (forall h :: h in held ==> Rank(h) < 2) && Ordered(held, rest)
    ensures Ordered(held, OneByOne(gnbs) + rest)
  {
    if gnbs == [] {
      assert OneByOne(gnbs) + rest == rest;
    } else {
      OneByOneOrdered(gnbs[1..], held, rest);
      AroundOrdered(held, GnbLock(gnbs[0].id), OneByOne(gnbs[1..]) + rest);
      assert OneByOne(gnbs) + rest == Around(GnbLock(gnbs[0].id), []) + (OneByOne(gnbs[1..]) + rest);
    }
  }

  lemma LastGive(l: Lock)
    ensures Ordered({l}, [Give(l)])
  {}

  lemma Opens(l: Lock, inside: seq<Action>)
    requires Ordered({l}, inside + [Give(l)])
    ensures Ordered({}, Around(l, inside))
  {
    var all := Around(l, inside);
    assert all == [Take(l)] + (inside + [Give(l)]);
    assert all[0] == Take(l) && all[1..] == inside + [Give(l)];
    assert {} + {l} == {l};
  }

  /** An outer lock, around the locks of at most one gNB and then perhaps the list. */
  lemma NestOrdered(l: Lock, m: Lock, more: seq<Action>)
    requires Rank(l) < Rank(m) && Ordered({l}, more + [Give(l)])
    ensures Ordered({}, Around(l, Around(m, []) + more))
  {
    AroundOrdered({l}, m, more + [Give(l)]);
    assert Around(m, []) + more + [Give(l)] == Around(m, []) + (more + [Give(l)]);
    Opens(l, Around(m, []) + more);
  }

  lemma NestOne(l: Lock, m: Lock)
    requires Rank(l) < Rank(m)
    ensures Ordered({}, Around(l, Around(m, [])))
  {
    LastGive(l);
    assert [] + [Give(l)] == [Give(l)];
    NestOrdered(l, m, []);
    assert Around(m, []) + [] == Around(m, []);
  }

  lemma Alone(l: Lock)
    ensures Ordered({}, Around(l, []))
  {}

  lemma StopOrdered(gnbs: seq<Gnb>)
    ensures Ordered({}, Around(StateLock, OneByOne(gnbs)))
  {
    LastGive(StateLock);
    OneByOneOrdered(gnbs, {StateLock}, [Give(StateLock)]);
    Opens(StateLock, OneByOne(gnbs));
  }

  lemma HandoverOrdered(u: Ue, env: Env)
    requires env.gtpu >= -1
    ensures Ordered({}, Around(StateLock, HandoverTrace(u, env)))
  {
    if Best(u.cands).None? {
      Alone(StateLock);
    } else {
      var t := Cand(Best(u.cands).value);
      var g := GnbLock(At(u, t).id);
      if Connect(u, t, env).1 == Success {
        LastGive(StateLock);
        AroundOrdered({StateLock}, ListLock, [Give(StateLock)]);
        NestOrdered(StateLock, g, Around(ListLock, []));
      } else {
        NestOne(StateLock, g);
        assert Around(g, []) + [] == Around(g, []);
      }
    }
  }

  /** In whatever state a call finds the UE, it respects the order and returns without a lock. */
  lemma TraceIsOrdered(u: Ue, op: Op)
    requires Enabled(u, op)
    ensures Ordered({}, Trace(u, op))
  {
    match op
    case DoAdd(_, _, _, _) => Alone(ListLock);
    case DoRemove(t) =>
      if t.Cand? && u.cands[t.i].state.Connected? {
        NestOne(ListLock, GnbLock(u.cands[t.i].id));
      } else {
        Alone(ListLock);
      }
    case DoSwitch(_) => Alone(ListLock);
    case DoConnect(t, _) => Alone(GnbLock(At(u, t).id));
    case DoDisconnect(t) => Alone(GnbLock(At(u, t).id));
    case DoStart => Alone(StateLock);
    case DoStop =>
      if u.active { StopOrdered(ServingAsSeq(u) + u.cands); } else { Alone(StateLock); }
    case DoAttach(_) =>
      if u.serving.Some? && !u.serving.value.state.Connected? {
        NestOne(StateLock, GnbLock(u.serving.value.id));
      } else {
        Alone(StateLock);
      }
    case DoHandover(env) => HandoverOrdered(u, env);
    case DoMeasure(_, _) =>
    case DoElsewhere =>
  }

  // --- any number of threads ----------------------------------------------------------------

  /** rest[i] is what thread i has still to do in its current call; owner says who holds which lock. */
  datatype System = System(rest: seq<seq<Action>>, owner: map<Lock, nat>)

  datatype Step = Call(thread: nat, u: Ue, op: Op) | Advance(thread: nat)

  predicate CanAdvance(s: System, i: nat) {
    i < |s.rest| && s.rest[i] != [] && (s.rest[i][0].Take? ==> s.rest[i][0].lock !in s.owner)
  }

  /** An idle thread may start any operation, on a UE in any state. */
  predicate CanStep(s: System, step: Step) {
    match step
    case Call(i, u, op) => i < |s.rest| && s.rest[i] == [] && Enabled(u, op)
    case Advance(i) => CanAdvance(s, i)
  }

  ghost function Next(s: System, step: Step): System
    requires CanStep(s, step)
  {
    match step
    case Call(i, u, op) => s.(rest := s.rest[i := Trace(u, op)])
    case Advance(i) =>
      var a := s.rest[i][0];
      System(s.rest[i := s.rest[i][1..]], if a.Take? then s.owner[a.lock := i] else s.owner - {a.lock})
  }

  ghost predicate IsRun(s: System, steps: seq<Step>)
    decreases |steps|
  {
    steps == [] || (CanStep(s, steps[0]) && IsRun(Next(s, steps[0]), steps[1..]))
  }

  ghost function After(s: System, steps: seq<Step>): System
    requires IsRun(s, steps)
    decreases |steps|
  {
    if steps == [] then s else After(Next(s, steps[0]), steps[1..])
  }

  function Idle(threads: nat): System { System(seq(threads, _ => []), map[]) }

  ghost function Held(s: System, i: nat): set<Lock> {
    set l | l in s.owner && s.owner[l] == i
  }

  ghost predicate Inv(s: System) {
    && (forall l :: l in s.owner ==> s.owner[l] < |s.rest|)
    && (forall i :: 0 <= i < |s.rest| ==> Ordered(Held(s, i), s.rest[i]))
  }

  lemma CallKeeps(s: System, i: nat, u: Ue, op: Op)
    requires Inv(s) && CanStep(s, Call(i, u, op))
    ensures Inv(Next(s, Call(i, u, op)))
  {
    var t := Next(s, Call(i, u, op));
    TraceIsOrdered(u, op);
    forall j | 0 <= j < |t.rest| ensures Ordered(Held(t, j), t.rest[j]) {
      assert Held(t, j) == Held(s, j);
      assert Ordered(Held(s, j), s.rest[j]);
    }
  }

  lemma AdvanceKeeps(s: System, i: nat)
    requires Inv(s) && CanAdvance(s, i)
    ensures Inv(Next(s, Advance(i)))
  {
    var t := Next(s, Advance(i));
    var a := s.rest[i][0];
    forall j | 0 <= j < |t.rest| ensures Ordered(Held(t, j), t.rest[j]) {
      assert Ordered(Held(s, i), s.rest[i]) && Ordered(Held(s, j), s.rest[j]);
      if j == i {
        assert Held(t, i) == if a.Take? then Held(s, i) + {a.lock} else Held(s, i) - {a.lock};
      } else {
        assert Held(t, j) == Held(s, j);
      }
    }
  }

  lemma {:induction false} RunKeeps(s: System, steps: seq<Step>)
    requires Inv(s) && IsRun(s, steps)
    ensures Inv(After(s, steps)) && |After(s, steps).rest| == |s.rest|
    decreases |steps|
  {
    if steps != [] {
      match steps[0] {
        case Call(i, u, op) => CallKeeps(s, i, u, op);
        case Advance(i) => AdvanceKeeps(s, i);
      }
      RunKeeps(Next(s, steps[0]), steps[1..]);
    }
  }

  lemma IdleIsSound(threads: nat)
    ensures Inv(Idle(threads))
  {}

  /** Follow a blocked thread to the owner of the lock it wants: the ranks go up, so the chain ends. */
  lemma {:induction false} ChainEnds(s: System, i: nat, floor: nat) returns (j: nat)
    requires Inv(s) && i < |s.rest| && s.rest[i] != [] && floor <= RANKS
    requires s.rest[i][0].Take? ==> Rank(s.rest[i][0].lock) >= floor
    ensures CanAdvance(s, j)
    decreases RANKS - floor
  {
    if CanAdvance(s, i) {
      j := i;
    } else {
      var l := s.rest[i][0].lock;
      var k := s.owner[l];
      assert l in Held(s, k);
      assert Ordered(Held(s, k), s.rest[k]);
      j := ChainEnds(s, k, Rank(l) + 1);
    }
  }

  /** In every reachable state of any number of threads, if some thread is in a call, some thread can advance. */
  lemma NeverDeadlocked(threads: nat, steps: seq<Step>, i: nat) returns (j: nat)
    requires IsRun(Idle(threads), steps)
    requires i < |After(Idle(threads), steps).rest| && After(Idle(threads), steps).rest[i] != []
    ensures CanAdvance(After(Idle(threads), steps), j)
  {
    IdleIsSound(threads);
    RunKeeps(Idle(threads), steps);
    j := ChainEnds(After(Idle(threads), steps), i, 0);
  }

  /** No thread ever waits for a lock it holds, nor holds the locks of two gNBs. */
  lemma NeverRetakes(threads: nat, steps: seq<Step>, i: nat)
    requires IsRun(Idle(threads), steps) && i < |After(Idle(threads), steps).rest|
    ensures var s := After(Idle(threads), steps);
            s.rest[i] != [] && s.rest[i][0].Take? ==>
              && s.rest[i][0].lock !in Held(s, i)
              && (s.rest[i][0].lock.GnbLock? ==> forall h :: h in Held(s, i) ==> !h.GnbLock?)
  {
    IdleIsSound(threads);
    RunKeeps(Idle(threads), steps);
    var s := After(Idle(threads), steps);
    assert Ordered(Held(s, i), s.rest[i]);
  }

  // --- every call returns -------------------------------------------------------------------

  function ToDo(s: System): nat { Sum(s.rest, (r: seq<Action>) => |r|) }

  lemma AdvanceDecreases(s: System, i: nat)
    requires CanAdvance(s, i)
    ensures ToDo(Next(s, Advance(i))) < ToDo(s)
  {
    var f: seq<Action> -> nat := r => |r|;
    SumUpdate(s.rest, f, i, s.rest[i][1..]);
  }

  ghost predicate AllReturned(s: System) {
    s.owner == map[] && forall i :: 0 <= i < |s.rest| ==> s.rest[i] == []
  }

  /** However they are scheduled, the calls in progress need at most ToDo steps between them. */
  lemma {:induction false} SchedulesEnd(s: System, steps: seq<Step>)
    requires IsRun(s, steps) && forall k :: 0 <= k < |steps| ==> steps[k].Advance?
    ensures |steps| + ToDo(After(s, steps)) <= ToDo(s)
    decreases |steps|
  {
    if steps != [] {
      assert steps[0].Advance?;
      AdvanceDecreases(s, steps[0].thread);
      SchedulesEnd(Next(s, steps[0]), steps[1..]);
    }
  }

  /** A reachable state in which no thread can advance is one where every call has returned and every lock is free. */
  lemma RestMeansReturned(threads: nat, steps: seq<Step>)
    requires IsRun(Idle(threads), steps) && forall i :: !CanAdvance(After(Idle(threads), steps), i)
    ensures AllReturned(After(Idle(threads), steps))
  {
    var s := After(Idle(threads), steps);
    IdleIsSound(threads);
    RunKeeps(Idle(threads), steps);
    forall i | 0 <= i < |s.rest| ensures s.rest[i] == [] && Held(s, i) == {} {
      if s.rest[i] != [] {
        var j := ChainEnds(s, i, 0);
      }
      assert Ordered(Held(s, i), s.rest[i]);
    }
    forall l ensures l !in s.owner {
      assert l in s.owner ==> l in Held(s, s.owner[l]);
    }
  }
}
