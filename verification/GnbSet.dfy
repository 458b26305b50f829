/**
 The gNBs of one UE (src/core/uesim_core.c): a serving gNB, at most eight handover
 candidates, and the UE's own copy of the serving gNB's address and sockets. Every
 operation is a function on that state; the properties are proved over all runs.
 */
module GnbSet {
  import opened Wrappers
  import opened GnbConnect

  const MAX_CANDIDATES: nat := 8
  const NO_RSRP: int := -140

  datatype State = Connected | Disconnected | Candidate | Connecting

  datatype Gnb = Gnb(id: nat, kind: nat, ip: nat, port: nat, state: State, ngap: int, gtpu: int, rsrp: int, isServing: bool)

  datatype Ue = Ue(serving: Option<Gnb>, cands: seq<Gnb>, ip: nat, port: nat, ngap: int, gtpu: int, active: bool, lastId: nat)

  /** What calloc and pthread_mutex_init do for a new gNB. */
  datatype Alloc = NoMem | NoMutex | Ready

  /** The connection attempts, then what socket returns for GTP-U (-1 or a descriptor). */
  datatype Env = Env(os: Os, gtpu: int)

  /** The gNB a caller points at. */
  datatype Target = Serving | Cand(i: nat) | Other

  predicate Managed(u: Ue, t: Target) {
    match t
    case Serving => u.serving.Some?
    case Cand(i) => i < |u.cands|
    case Other => false
  }

  function At(u: Ue, t: Target): Gnb
    requires Managed(u, t)
  {
    if t.Serving? then u.serving.value else u.cands[t.i]
  }

  function With(u: Ue, t: Target, g: Gnb): Ue
    requires Managed(u, t)
  {
    if t.Serving? then u.(serving := Some(g)) else u.(cands := u.cands[t.i := g])
  }

  function RemoveAt<T>(s: seq<T>, i: nat): seq<T>
    requires i < |s|
  {
    s[..i] + s[i + 1..]
  }

  predicate Duplicate(cands: seq<Gnb>, ip: nat, port: nat) {
    exists i :: 0 <= i < |cands| && cands[i].ip == ip && cands[i].port == port
  }

  function NewGnb(id: nat, kind: nat, ip: nat, port: nat): Gnb {
    Gnb(id, kind, ip, port, Disconnected, -1, -1, NO_RSRP, false)
  }

  function Add(u: Ue, kind: nat, ip: nat, port: nat, alloc: Alloc): (Ue, Status) {
    if |u.cands| >= MAX_CANDIDATES && u.serving.Some? then (u, Capacity)
    else if alloc.NoMem? then (u, NoMemory)
    else
      var v := u.(lastId := u.lastId + 1);
      var g := NewGnb(v.lastId, kind, ip, port);
      if alloc.NoMutex? then (v, ThreadError)
      else if u.serving.None? then (v.(serving := Some(g.(isServing := true)), ip := ip, port := port), Success)
      else if Duplicate(u.cands, ip, port) then (v, AlreadyExists)
      else (v.(cands := u.cands + [g.(state := Candidate)]), Success)
  }

  function Closed(g: Gnb): Gnb {
    g.(ngap := if g.ngap >= 0 then -1 else g.ngap, gtpu := if g.gtpu >= 0 then -1 else g.gtpu, state := Disconnected)
  }

  function Disconnect(u: Ue, t: Target): Ue
    requires Managed(u, t)
  {
    var g := At(u, t);
    var v := With(u, t, Closed(g));
    if g.isServing then v.(ngap := -1, gtpu := -1) else v
  }

  function Remove(u: Ue, t: Target): (Ue, Status)
    requires t.Other? || Managed(u, t)
  {
    match t
    case Serving => (u, InvalidParam)
    case Other => (u, NotFound)
    case Cand(i) =>
      var v := if u.cands[i].state.Connected? then Disconnect(u, t) else u;
      (v.(cands := RemoveAt(v.cands, i)), Success)
  }

  function Demoted(g: Gnb): Gnb { g.(isServing := false, state := Candidate) }

  function Promoted(g: Gnb): Gnb { g.(isServing := true, state := Connected) }

  function Switch(u: Ue, t: Target): (Ue, Status)
    requires t.Other? || Managed(u, t)
  {
    if !t.Cand? then (u, NotFound) else
    var g := Promoted(u.cands[t.i]);
    var all := if u.serving.Some? && |u.cands| < MAX_CANDIDATES then u.cands + [Demoted(u.serving.value)] else u.cands;
    (Ue(Some(g), RemoveAt(all, t.i), g.ip, g.port, g.ngap, g.gtpu, u.active, u.lastId), Success)
  }

  ghost function ConnectGnb(g: Gnb, env: Env): (Gnb, Status) {
    var r := Retried(env.os);
    if g.state.Connected? then (g, Success)
    else if r.status != Success then (g.(ngap := r.socket, state := Disconnected), r.status)
    else if env.gtpu < 0 then (g.(ngap := -1, gtpu := env.gtpu, state := Disconnected), SocketError)
    else (g.(ngap := r.socket, gtpu := env.gtpu, state := if g.isServing then Connected else Candidate), Success)
  }

  ghost function Connect(u: Ue, t: Target, env: Env): (Ue, Status)
    requires Managed(u, t)
  {
    var (g, status) := ConnectGnb(At(u, t), env);
    var v := With(u, t, g);
    (if status == Success && g.isServing && !At(u, t).state.Connected? then v.(ngap := g.ngap, gtpu := g.gtpu) else v, status)
  }

  function Stop(u: Ue): Ue {
    if !u.active then u else AllClosed(u).(active := false)
  }

  function AllClosed(u: Ue): Ue {
    var v := if u.serving.Some? then Disconnect(u, Serving) else u;
    v.(cands := ClosedAll(v.cands),
       ngap := if v.ngap >= 0 then -1 else v.ngap, gtpu := if v.gtpu >= 0 then -1 else v.gtpu)
  }

  function ClosedAll(s: seq<Gnb>): (r: seq<Gnb>)
    ensures |r| == |s| && forall i :: 0 <= i < |s| ==> r[i] == Closed(s[i])
  {
    seq(|s|, i requires 0 <= i < |s| => Closed(s[i]))
  }

  /** The candidate a handover picks: the first of maximal RSRP above NO_RSRP, if any. */
  function Best(cands: seq<Gnb>): (r: Option<nat>)
    ensures r.None? ==> forall c :: c in cands ==> c.rsrp <= NO_RSRP
    ensures r.Some? ==> r.value < |cands| && cands[r.value].rsrp > NO_RSRP
    ensures r.Some? ==> forall i :: 0 <= i < |cands| ==> cands[i].rsrp <= cands[r.value].rsrp
    ensures r.Some? ==> forall i :: 0 <= i < r.value ==> cands[i].rsrp < cands[r.value].rsrp
  {
    if cands == [] then None else
    var n := |cands| - 1;
    var b := Best(cands[..n]);
    assert cands == cands[..n] + [cands[n]];
    if cands[n].rsrp > (if b.Some? then cands[b.value].rsrp else NO_RSRP) then Some(n) else b
  }

  ghost function Handover(u: Ue, env: Env): (Ue, Status) {
    if Best(u.cands).None? then (u, NotFound) else
    var t := Cand(Best(u.cands).value);
    var (v, status) := Connect(u, t, env);
    if status != Success then (v, status) else Switch(v, t)
  }

  /** What registration and establishment do about the connection: connect the serving gNB unless it is. */
  ghost function Attach(u: Ue, env: Env): (Ue, Status) {
    if u.serving.None? then (u, NotInitialized)
    else if u.serving.value.state.Connected? then (u, Success)
    else Connect(u, Serving, env)
  }

  // --- runs ------------------------------------------------------------------------------

  datatype Op =
    | DoAdd(kind: nat, ip: nat, port: nat, alloc: Alloc)
    | DoRemove(t: Target)
    | DoSwitch(t: Target)
    | DoConnect(t: Target, env: Env)
    | DoDisconnect(t: Target)
    | DoMeasure(t: Target, rsrp: int)
    | DoStart
    | DoStop
    | DoHandover(env: Env)
    | DoAttach(env: Env)
    | DoElsewhere   // another UE takes an identifier

  predicate Enabled(u: Ue, op: Op) {
    match op
    case DoRemove(t) => t.Other? || Managed(u, t)
    case DoSwitch(t) => t.Other? || Managed(u, t)
    case DoConnect(t, env) => Managed(u, t) && env.gtpu >= -1
    case DoDisconnect(t) => Managed(u, t)
    case DoMeasure(t, _) => Managed(u, t)
    case DoHandover(env) => env.gtpu >= -1
    case DoAttach(env) => env.gtpu >= -1
    case _ => true
  }

  ghost function Apply(u: Ue, op: Op): (Ue, Status)
    requires Enabled(u, op)
  {
    match op
    case DoAdd(kind, ip, port, alloc) => Add(u, kind, ip, port, alloc)
    case DoRemove(t) => Remove(u, t)
    case DoSwitch(t) => Switch(u, t)
    case DoConnect(t, env) => Connect(u, t, env)
    case DoDisconnect(t) => (Disconnect(u, t), Success)
    case DoMeasure(t, rsrp) => (With(u, t, At(u, t).(rsrp := rsrp)), Success)
    case DoStart => (u.(active := true), Success)
    case DoStop => (Stop(u), Success)
    case DoHandover(env) => Handover(u, env)
    case DoAttach(env) => Attach(u, env)
    case DoElsewhere => (u.(lastId := u.lastId + 1), Success)
  }

  ghost predicate IsRun(u: Ue, ops: seq<Op>)
    decreases |ops|
  {
    ops == [] || (Enabled(u, ops[0]) && IsRun(Apply(u, ops[0]).0, ops[1..]))
  }

  ghost function After(u: Ue, ops: seq<Op>): Ue
    requires IsRun(u, ops)
    decreases |ops|
  {
    if ops == [] then u else After(Apply(u, ops[0]).0, ops[1..])
  }

  /** uesim_create_ue, with `lastId` identifiers already given out to other UEs. */
  function Created(ip: nat, port: nat, lastId: nat): Ue {
    Ue(None, [], ip, port, -1, -1, false, lastId)
  }

  // --- the invariant ------------------------------------------------------------------------

  /** Identifiers are distinct, and none exceeds the counter. */
  ghost predicate IdsDistinct(u: Ue) {
    && (forall i, j :: 0 <= i < j < |u.cands| ==> u.cands[i].id != u.cands[j].id)
    && (forall i :: 0 <= i < |u.cands| ==> u.cands[i].id <= u.lastId)
    && (u.serving.Some? ==> u.serving.value.id <= u.lastId && forall i :: 0 <= i < |u.cands| ==> u.cands[i].id != u.serving.value.id)
  }

  predicate CandidateShape(c: Gnb) {
    !c.isServing && !c.state.Connected? && c.ngap >= -1 && c.gtpu >= -1
  }

  ghost predicate CandidatesOk(u: Ue) {
    && |u.cands| <= MAX_CANDIDATES
    && (u.serving.None? ==> u.cands == [])
    && (forall i :: 0 <= i < |u.cands| ==> CandidateShape(u.cands[i]))
  }

  /** A serving gNB that is not connected has no sockets left open. */
  predicate ServingOk(u: Ue) {
    u.serving.Some? ==>
      var g := u.serving.value;
      && g.isServing && g.ngap >= -1 && g.gtpu >= -1
      && (!g.state.Connected? ==> g.ngap == g.gtpu == -1)
  }

  /** The UE's own fields repeat those of its serving gNB. */
  predicate MirrorAgrees(u: Ue) {
    match u.serving
    case None => u.ngap == u.gtpu == -1
    case Some(g) => u.ip == g.ip && u.port == g.port && u.ngap == g.ngap && u.gtpu == g.gtpu
  }

  ghost predicate Inv(u: Ue) {
    IdsDistinct(u) && CandidatesOk(u) && ServingOk(u) && MirrorAgrees(u)
  }

  lemma AddKeeps(u: Ue, kind: nat, ip: nat, port: nat, alloc: Alloc)
    requires Inv(u)
    ensures Inv(Add(u, kind, ip, port, alloc).0)
  {}

  lemma RemoveAtElements<T>(s: seq<T>, i: nat)
    requires i < |s|
    ensures |RemoveAt(s, i)| == |s| - 1
    ensures forall j :: 0 <= j < |s| - 1 ==> RemoveAt(s, i)[j] == s[if j < i then j else j + 1]
  {}

  lemma RemoveKeeps(u: Ue, t: Target)
    requires Inv(u) && (t.Other? || Managed(u, t))
    ensures Inv(Remove(u, t).0)
  {}

  lemma SwitchKeepsIds(u: Ue, i: nat)
    requires Inv(u) && i < |u.cands|
    ensures IdsDistinct(Switch(u, Cand(i)).0)
  {
    var all := if |u.cands| < MAX_CANDIDATES then u.cands + [Demoted(u.serving.value)] else u.cands;
    assert forall j, k :: 0 <= j < k < |all| ==> all[j].id != all[k].id;
    RemoveAtElements(all, i);
  }

  lemma SwitchKeepsCandidates(u: Ue, i: nat)
    requires Inv(u) && i < |u.cands|
    ensures CandidatesOk(Switch(u, Cand(i)).0)
  {}

  lemma SwitchKeeps(u: Ue, t: Target)
    requires Inv(u) && (t.Other? || Managed(u, t))
    ensures Inv(Switch(u, t).0)
  {
    if t.Cand? {
      SwitchKeepsIds(u, t.i);
      SwitchKeepsCandidates(u, t.i);
      assert CandidateShape(u.cands[t.i]);
    }
  }

  lemma ConnectKeeps(u: Ue, t: Target, env: Env)
    requires Inv(u) && Managed(u, t) && env.gtpu >= -1
    ensures Inv(Connect(u, t, env).0)
  {
    RetryContract(env.os);
    if t.Cand? {
      assert CandidateShape(u.cands[t.i]);
    }
  }

  lemma DisconnectKeeps(u: Ue, t: Target)
    requires Inv(u) && Managed(u, t)
    ensures Inv(Disconnect(u, t))
  {}

  lemma MeasureKeeps(u: Ue, t: Target, rsrp: int)
    requires Inv(u) && Managed(u, t)
    ensures Inv(With(u, t, At(u, t).(rsrp := rsrp)))
  {}

  lemma StopKeeps(u: Ue)
    requires Inv(u)
    ensures Inv(Stop(u))
  {}

  lemma HandoverKeeps(u: Ue, env: Env)
    requires Inv(u) && env.gtpu >= -1
    ensures Inv(Handover(u, env).0)
  {
    if Best(u.cands).Some? {
      var t := Cand(Best(u.cands).value);
      ConnectKeeps(u, t, env);
      SwitchKeeps(Connect(u, t, env).0, t);
    }
  }

  /** Every operation, successful or not, keeps the set of gNBs in order and the mirror in agreement. */
  lemma StepKeeps(u: Ue, op: Op)
    requires Inv(u) && Enabled(u, op)
    ensures Inv(Apply(u, op).0)
  {
    match op
    case DoAdd(kind, ip, port, alloc) => AddKeeps(u, kind, ip, port, alloc);
    case DoRemove(t) => RemoveKeeps(u, t);
    case DoSwitch(t) => SwitchKeeps(u, t);
    case DoConnect(t, env) => ConnectKeeps(u, t, env);
    case DoDisconnect(t) => DisconnectKeeps(u, t);
    case DoMeasure(t, rsrp) => MeasureKeeps(u, t, rsrp);
    case DoStart =>
    case DoStop => StopKeeps(u);
    case DoHandover(env) => HandoverKeeps(u, env);
    case DoAttach(env) => if u.serving.Some? { ConnectKeeps(u, Serving, env); }
    case DoElsewhere =>
  }

  lemma {:induction false} RunKeeps(u: Ue, ops: seq<Op>)
    requires Inv(u) && IsRun(u, ops)
    ensures Inv(After(u, ops))
    decreases |ops|
  {
    if ops != [] {
      StepKeeps(u, ops[0]);
      RunKeeps(Apply(u, ops[0]).0, ops[1..]);
    }
  }

  /** From creation on, in every state of every run. */
  lemma EveryReachableSetIsSound(ip: nat, port: nat, lastId: nat, ops: seq<Op>)
    requires IsRun(Created(ip, port, lastId), ops)
    ensures Inv(After(Created(ip, port, lastId), ops))
  {
    RunKeeps(Created(ip, port, lastId), ops);
  }

  // --- what an operation does to the set --------------------------------------------------

  ghost predicate Knows(u: Ue, id: nat) {
    (u.serving.Some? && u.serving.value.id == id) || exists i :: 0 <= i < |u.cands| && u.cands[i].id == id
  }

  ghost predicate SameIds(a: seq<Gnb>, b: seq<Gnb>) {
    |a| == |b| && forall i :: 0 <= i < |a| ==> a[i].id == b[i].id
  }

  /** The candidates after a switch: those behind slot i move up, and the old serving gNB, if kept, comes last. */
  lemma SwitchedList(u: Ue, i: nat)
    requires Inv(u) && i < |u.cands|
    ensures var v := Switch(u, Cand(i)).0;
            && |v.cands| == (if |u.cands| < MAX_CANDIDATES then |u.cands| else |u.cands| - 1)
            && (forall k :: 0 <= k < |u.cands| - 1 ==> v.cands[k] == u.cands[if k < i then k else k + 1])
            && (|u.cands| < MAX_CANDIDATES ==> v.cands[|u.cands| - 1] == Demoted(u.serving.value))
  {
    var all := if |u.cands| < MAX_CANDIDATES then u.cands + [Demoted(u.serving.value)] else u.cands;
    RemoveAtElements(all, i);
  }

  lemma SwitchKeepsOthers(u: Ue, i: nat, id: nat)
    requires Inv(u) && i < |u.cands| && Knows(u, id)
    requires |u.cands| < MAX_CANDIDATES || id != u.serving.value.id
    ensures Knows(Switch(u, Cand(i)).0, id)
  {
    var v := Switch(u, Cand(i)).0;
    SwitchedList(u, i);
    if id == u.serving.value.id {
      assert v.cands[|v.cands| - 1].id == id;
    } else {
      var k :| 0 <= k < |u.cands| && u.cands[k].id == id;
      if k < i {
        assert v.cands[k].id == id;
      } else if k > i {
        assert v.cands[k - 1].id == id;
      }
    }
  }

  lemma SwitchAddsNone(u: Ue, i: nat, id: nat)
    requires Inv(u) && i < |u.cands| && Knows(Switch(u, Cand(i)).0, id)
    ensures Knows(u, id) && (|u.cands| == MAX_CANDIDATES ==> id != u.serving.value.id)
  {
    var v := Switch(u, Cand(i)).0;
    SwitchedList(u, i);
    if v.serving.value.id == id {
      assert u.cands[i].id == id;
    } else {
      var k :| 0 <= k < |v.cands| && v.cands[k].id == id;
      var j := if k < i then k else k + 1;
      if j < |u.cands| {
        assert u.cands[j].id == id;
      }
    }
  }

  /**
   A switch makes the named candidate the serving gNB. It loses no gNB while a candidate slot
   is free; with all eight taken it loses exactly the old serving one.
   */
  lemma SwitchConserves(u: Ue, i: nat, id: nat)
    requires Inv(u) && i < |u.cands|
    ensures var (v, status) := Switch(u, Cand(i));
            && status == Success && v.serving.Some? && v.serving.value.id == u.cands[i].id
            && (Knows(v, id) <==> Knows(u, id) && !(|u.cands| == MAX_CANDIDATES && id == u.serving.value.id))
  {
    if Knows(u, id) && !(|u.cands| == MAX_CANDIDATES && id == u.serving.value.id) {
      SwitchKeepsOthers(u, i, id);
    }
    if Knows(Switch(u, Cand(i)).0, id) {
      SwitchAddsNone(u, i, id);
    }
  }

  /** A removal takes away that candidate and no other gNB. */
  lemma RemoveLosesOne(u: Ue, i: nat, id: nat)
    requires Inv(u) && i < |u.cands|
    ensures Knows(Remove(u, Cand(i)).0, id) <==> Knows(u, id) && id != u.cands[i].id
  {
    var v := Remove(u, Cand(i)).0;
    assert CandidateShape(u.cands[i]);
    RemoveAtElements(u.cands, i);
    if Knows(u, id) && id != u.serving.value.id {
      var k :| 0 <= k < |u.cands| && u.cands[k].id == id;
      if k < i {
        assert v.cands[k].id == id;
      } else if k > i {
        assert v.cands[k - 1].id == id;
      }
    }
    if Knows(v, id) && id != u.serving.value.id {
      var k :| 0 <= k < |v.cands| && v.cands[k].id == id;
      assert u.cands[if k < i then k else k + 1].id == id;
    }
  }

  /** An addition adds one gNB with an unused identifier exactly when it succeeds, and never loses one. */
  lemma AddGainsOne(u: Ue, kind: nat, ip: nat, port: nat, alloc: Alloc, id: nat)
    requires Inv(u)
    ensures var (v, status) := Add(u, kind, ip, port, alloc);
            && (Knows(v, id) <==> Knows(u, id) || (status == Success && id == u.lastId + 1))
            && (status == Success ==> !Knows(u, u.lastId + 1))
            && (status == Success <==> alloc.Ready? && |u.cands| < MAX_CANDIDATES && !Duplicate(u.cands, ip, port))
  {
    var (v, status) := Add(u, kind, ip, port, alloc);
    if |v.cands| > |u.cands| {
      assert v.cands[|u.cands|].id == u.lastId + 1;
      if Knows(u, id) && id != u.serving.value.id {
        var k :| 0 <= k < |u.cands| && u.cands[k].id == id;
        assert v.cands[k].id == id;
      }
    }
  }

  /** The same address cannot be added twice as a candidate; next to a serving gNB with that address it can. */
  lemma AddTwice(u: Ue, kind: nat, ip: nat, port: nat)
    requires Inv(u) && Add(u, kind, ip, port, Ready).1 == Success
    ensures var v := Add(u, kind, ip, port, Ready).0;
            |v.cands| < MAX_CANDIDATES ==>
              Add(v, kind, ip, port, Ready).1 == if u.serving.Some? then AlreadyExists else Success
  {
    var v := Add(u, kind, ip, port, Ready).0;
    if u.serving.Some? {
      assert v.cands[|u.cands|].ip == ip && v.cands[|u.cands|].port == port;
    }
  }

  /**
   A handover succeeds exactly when some candidate is above NO_RSRP and the first of maximal RSRP
   can be connected; that one is then serving, connected, and mirrored. Otherwise the serving gNB,
   the mirror and the identifiers all stay as they were.
   */
  lemma HandoverOutcome(u: Ue, env: Env)
    requires Inv(u) && env.gtpu >= -1
    ensures var (v, status) := Handover(u, env);
            var b := Best(u.cands);
            && (status == Success <==> b.Some? && Retried(env.os).status == Success && env.gtpu >= 0)
            && (status == Success ==> v.serving.Some? && v.serving.value.id == u.cands[b.value].id && v.serving.value.state == Connected)
            && (status == Success ==> v.ngap == v.serving.value.ngap >= 0 && v.gtpu == v.serving.value.gtpu >= 0)
            && (status != Success ==> v.serving == u.serving && v.ngap == u.ngap && v.gtpu == u.gtpu)
            && (status != Success ==> SameIds(u.cands, v.cands))
  {
    RetryContract(env.os);
    if Best(u.cands).Some? {
      assert CandidateShape(u.cands[Best(u.cands).value]);
    }
  }

  /** Registration succeeds only with a connected serving gNB, and moves no gNB whatever happens. */
  lemma AttachOutcome(u: Ue, env: Env)
    requires Inv(u) && env.gtpu >= -1
    ensures var (v, status) := Attach(u, env);
            && (status == Success <==> u.serving.Some? && (u.serving.value.state.Connected? || (Retried(env.os).status == Success && env.gtpu >= 0)))
            && (status == Success ==> v.serving.Some? && v.serving.value.state == Connected)
            && v.cands == u.cands && (v.serving.Some? <==> u.serving.Some?)
            && (v.serving.Some? ==> v.serving.value.id == u.serving.value.id)
  {}

  /** A stop closes every socket of an active UE, its gNBs' and its own; an inactive UE it leaves as it is. The set stays. */
  lemma StopClosesAll(u: Ue)
    requires Inv(u)
    ensures var v := Stop(u);
            && !v.active && (forall id :: Knows(v, id) <==> Knows(u, id))
            && (!u.active ==> v == u)
            && (u.active ==>
                  && v.ngap == v.gtpu == -1
                  && (v.serving.Some? ==> v.serving.value.ngap == v.serving.value.gtpu == -1)
                  && (forall i :: 0 <= i < |v.cands| ==> v.cands[i].ngap == v.cands[i].gtpu == -1))
  {}

  // --- a full table is reachable --------------------------------------------------------------

  function AddsFrom(port: nat, k: nat): seq<Op>
    decreases k
  {
    if k == 0 then [] else [DoAdd(0, 0, port, Ready)] + AddsFrom(port + 1, k - 1)
  }

  lemma {:induction false} AddsFill(u: Ue, port: nat, k: nat)
    requires Inv(u) && u.serving.Some? && |u.cands| + k <= MAX_CANDIDATES
    requires forall i :: 0 <= i < |u.cands| ==> u.cands[i].port < port
    ensures IsRun(u, AddsFrom(port, k))
    ensures var v := After(u, AddsFrom(port, k)); |v.cands| == |u.cands| + k && v.serving == u.serving && Inv(v)
    decreases k
  {
    if k > 0 {
      var op := DoAdd(0, 0, port, Ready);
      assert AddsFrom(port, k)[0] == op && AddsFrom(port, k)[1..] == AddsFrom(port + 1, k - 1);
      AddKeeps(u, 0, 0, port, Ready);
      AddsFill(Apply(u, op).0, port + 1, k - 1);
    }
  }

  /** Nine additions fill the table, and then a switch does lose the gNB that was serving. */
  lemma FullTableLosesServing()
    ensures var c, ops := Created(0, 0, 0), AddsFrom(0, 9);
            && IsRun(c, ops) && |After(c, ops).cands| == MAX_CANDIDATES && After(c, ops).serving.Some?
            && var v := Switch(After(c, ops), Cand(0)).0; !Knows(v, After(c, ops).serving.value.id)
  {
    var c, op := Created(0, 0, 0), DoAdd(0, 0, 0, Ready);
    assert AddsFrom(0, 9)[0] == op && AddsFrom(0, 9)[1..] == AddsFrom(1, 8);
    AddKeeps(c, 0, 0, 0, Ready);
    AddsFill(Apply(c, op).0, 1, 8);
    var u := After(c, AddsFrom(0, 9));
    assert u == After(Apply(c, op).0, AddsFrom(1, 8));
    SwitchConserves(u, 0, u.serving.value.id);
  }
}
