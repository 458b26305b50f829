/**
 The same operations on the objects the program updates in place: a UE with an array of
 eight candidate pointers, and gNB contexts that the UE and its callers reach by reference.
 The ghost field `model` is the UE's abstract state; Valid ties it to the objects, and each
 method is proved to move it as its function in GnbSet says. The ghost log of the calling
 thread goes through every method; each lock, unlock, socket and close is entered where it
 happens, and the entries are proved to be those LockOrder and GnbDescriptors speak of.
 */
module GnbObjects {
  import opened Wrappers
  import opened GnbConnect
  import opened GnbSet
  import opened GnbDescriptors
  import opened LockOrder

  /** What the calling thread has locked and unlocked, and opened and closed, in order. */
  datatype Log = Log(locks: seq<Action>, fds: seq<Fd>) {
    function Lock(l: Lock): Log { this.(locks := locks + [Take(l)]) }

    function Unlock(l: Lock): Log { this.(locks := locks + [Give(l)]) }

    function CloseFd(fd: nat): Log { this.(fds := fds + [Shut(fd)]) }

    function OpenFd(fd: nat): Log { this.(fds := fds + [Open(fd)]) }

    /** After these entries. */
    function Then(l: seq<Action>, f: seq<Fd>): Log { Log(locks + l, fds + f) }
  }

  class GnbContext {
    const id: nat
    const kind: nat
    const ip: nat
    const port: nat
    var state: State
    var ngap: int
    var gtpu: int
    var rsrp: int
    var isServing: bool

    constructor (id: nat, kind: nat, ip: nat, port: nat)
      ensures Value() == NewGnb(id, kind, ip, port)
    {
      this.id, this.kind, this.ip, this.port := id, kind, ip, port;
      state, ngap, gtpu, rsrp, isServing := Disconnected, -1, -1, NO_RSRP, false;
    }

    ghost function Value(): Gnb
      reads this
    {
      Gnb(id, kind, ip, port, state, ngap, gtpu, rsrp, isServing)
    }

    method Close(ghost before: Log) returns (ghost log: Log)
      modifies this
      ensures Value() == Closed(old(Value()))
      ensures log == before.Then([], Closes(old(Value())))
    {
      log := before;
      if ngap >= 0 {
        log := log.CloseFd(ngap);
        ngap := -1;
      }
      if gtpu >= 0 {
        log := log.CloseFd(gtpu);
        gtpu := -1;
      }
      state := Disconnected;
    }

    /** The part of uesim_connect_gnb that works on the gNB itself: its lock is still held if it has connected. */
    method Connect(env: Env, ghost before: Log) returns (status: Status, ghost log: Log)
      requires env.gtpu >= -1
      modifies this
      ensures (Value(), status) == ConnectGnb(old(Value()), env)
      ensures log.fds == before.fds + ConnectEvents(old(Value()), env)
      ensures log.locks == before.locks + [Take(GnbLock(id))]
                           + if status == Success && !old(state).Connected? then [] else [Give(GnbLock(id))]
    {
      log := before.Lock(GnbLock(id));
      if state == Connected {
        log := log.Unlock(GnbLock(id));
        status := Success;
        return;
      }
      state := Connecting;
      RetryContract(env.os);
      var r := ConnectWithRetry(env.os);
      log := log.Then([], r.events);
      ngap := r.socket;
      if r.status != Success {
        state := Disconnected;
        log := log.Unlock(GnbLock(id));
        status := r.status;
        return;
      }
      gtpu := env.gtpu;
      if gtpu < 0 {
        log := log.CloseFd(ngap);
        ngap := -1;
        state := Disconnected;
        log := log.Unlock(GnbLock(id));
        status := SocketError;
        return;
      }
      log := log.OpenFd(gtpu);
      state := if isServing then Connected else Candidate;
      status := Success;
    }
  }

  /** The counter all UEs draw gNB identifiers from. */
  class IdCounter {
    var last: nat
  }

  lemma ThenThen(log: Log, a: seq<Action>, b: seq<Action>, c: seq<Fd>, d: seq<Fd>)
    ensures log.Then(a, c).Then(b, d) == log.Then(a + b, c + d)
  {}

  lemma StopParts(log: Log, u: Ue)
    requires u.active
    ensures log.Then(OneByOne(ServingAsSeq(u)), ClosesServing(u)).Then(OneByOne(u.cands), ClosesAll(u.cands)).Then([], ClosesMirror(ServingClosed(u)))
            == log.Then(OneByOne(ServingAsSeq(u) + u.cands), StopEvents(u))
  {
    OneByOneConcat(ServingAsSeq(u), u.cands);
    ThenThen(log, OneByOne(ServingAsSeq(u)), OneByOne(u.cands), ClosesServing(u), ClosesAll(u.cands));
    ThenThen(log, OneByOne(ServingAsSeq(u) + u.cands), [], ClosesServing(u) + ClosesAll(u.cands), ClosesMirror(ServingClosed(u)));
  }

  lemma Bracketed(log: Log, l: Lock, inside: seq<Action>, f: seq<Fd>)
    ensures log.Lock(l).Then(inside, f).Unlock(l) == log.Then(Around(l, inside), f)
  {}

  /** The first i candidates have been disconnected. */
  ghost predicate PartlyClosed(before: seq<Gnb>, i: nat, now: seq<Gnb>) {
    |now| == |before| && forall k :: 0 <= k < |now| ==> now[k] == if k < i then Closed(before[k]) else before[k]
  }

  lemma NextOfAll(before: seq<Gnb>, i: nat, now: seq<Gnb>)
    requires i < |before| && PartlyClosed(before, i, now)
    ensures PartlyClosed(before, i + 1, now[i := Closed(now[i])]) && now[i].id == before[i].id
    ensures OneByOne(before[..i + 1]) == OneByOne(before[..i]) + Around(GnbLock(now[i].id), [])
    ensures ClosesAll(before[..i + 1]) == ClosesAll(before[..i]) + Closes(now[i])
  {
    assert before[..i + 1] == before[..i] + [before[i]] && before[..i + 1][..i] == before[..i];
    OneByOneConcat(before[..i], [before[i]]);
    OneByOneSingle(before[i]);
  }

  lemma AllOfAll(before: seq<Gnb>, now: seq<Gnb>)
    requires PartlyClosed(before, |before|, now)
    ensures now == ClosedAll(before) && before[..|before|] == before
  {}

  class UeContext {
    const slots: array<GnbContext?>
    const ids: IdCounter
    var serving: GnbContext?
    var n: nat
    var ip: nat
    var port: nat
    var ngap: int
    var gtpu: int
    var active: bool
    ghost var members: seq<GnbContext>
    ghost var model: Ue

    /** The first n slots hold the candidates, the others are null. */
    ghost predicate Holds()
      reads this, slots
    {
      && slots.Length == MAX_CANDIDATES
      && n == |members| <= MAX_CANDIDATES
      && (forall k :: 0 <= k < |members| ==> slots[k] == members[k])
      && (forall k :: |members| <= k < MAX_CANDIDATES ==> slots[k] == null)
    }

    ghost predicate Apart()
      reads this
    {
      && (forall i, j :: 0 <= i < j < |members| ==> members[i] != members[j])
      && (forall i :: 0 <= i < |members| ==> members[i] != serving)
    }

    ghost predicate Shows()
      reads this, members, serving
    {
      && (serving == null <==> model.serving.None?)
      && (serving != null ==> serving.Value() == model.serving.value)
      && |members| == |model.cands|
      && (forall k :: 0 <= k < |members| ==> members[k].Value() == model.cands[k])
    }

    ghost predicate OwnFields()
      reads this
    {
      ip == model.ip && port == model.port && ngap == model.ngap && gtpu == model.gtpu && active == model.active
    }

    ghost predicate Valid()
      reads this, slots, members, serving
    {
      Holds() && Apart() && Shows() && OwnFields()
    }

    /** g is the gNB that t names. */
    ghost predicate Points(g: GnbContext, t: Target)
      reads this
    {
      match t
      case Serving => g == serving
      case Cand(i) => i < |members| && members[i] == g
      case Other => g != serving && g !in members
    }

    constructor (ids: IdCounter, ip: nat, port: nat)
      ensures Valid() && this.ids == ids && model == Created(ip, port, ids.last)
    {
      slots := new GnbContext?[MAX_CANDIDATES](i => null);
      this.ids := ids;
      serving, n, this.ip, this.port, ngap, gtpu, active, members := null, 0, ip, port, -1, -1, false, [];
      model := Created(ip, port, ids.last);
    }

    method IsDuplicate(ip: nat, port: nat) returns (dup: bool)
      requires Valid()
      ensures dup == Duplicate(model.cands, ip, port)
    {
      var i := 0;
      while i < n
        invariant i <= n
        invariant forall j :: 0 <= j < i ==> !(model.cands[j].ip == ip && model.cands[j].port == port)
      {
        var g := slots[i];
        assert g == members[i] && g.Value() == model.cands[i];
        if g != null && g.ip == ip && g.port == port {
          return true;
        }
        i := i + 1;
      }
      dup := false;
    }

    /** candidate_gnbs[num_candidate_gnbs++] = g */
    method Append(g: GnbContext)
      requires Holds() && n < MAX_CANDIDATES
      modifies slots, `n, `members
      ensures Holds() && members == old(members) + [g]
    {
      slots[n] := g;
      n := n + 1;
      members := members + [g];
    }

    /** The shift that closes the gap at slot i. */
    method CloseGap(i: nat)
      requires Holds() && i < |members|
      modifies slots, `n, `members
      ensures Holds() && members == RemoveAt(old(members), i)
    {
      var j := i;
      while j + 1 < n
        invariant i <= j < n == old(n) && members == old(members)
        invariant forall k :: 0 <= k < MAX_CANDIDATES ==> slots[k] == old(slots[if i <= k < j then k + 1 else k])
      {
        slots[j] := slots[j + 1];
        j := j + 1;
      }
      slots[n - 1] := null;
      n := n - 1;
      members := RemoveAt(members, i);
    }

    /** Other UEs may have drawn identifiers since this one last did. */
    method AddGnb(kind: nat, ip: nat, port: nat, alloc: Alloc, ghost before: Log) returns (status: Status, ghost log: Log)
      requires Valid()
      modifies this, slots, ids
      ensures Valid() && log == before.Then(Trace(old(model), DoAdd(kind, ip, port, alloc)), [])
      ensures (model, status) == Add(old(model).(lastId := old(ids.last)), kind, ip, port, alloc)
      ensures model.lastId == ids.last
    {
      log := before.Lock(ListLock);
      model := model.(lastId := ids.last);
      if n >= MAX_CANDIDATES && serving != null {
        log := log.Unlock(ListLock);
        status := Capacity;
        return;
      }
      if alloc.NoMem? {
        log := log.Unlock(ListLock);
        status := NoMemory;
        return;
      }
      ids.last := ids.last + 1;
      model := model.(lastId := ids.last);
      if alloc.NoMutex? {
        log := log.Unlock(ListLock);
        status := ThreadError;
        return;
      }
      var gnb := new GnbContext(ids.last, kind, ip, port);
      status, log := Place(gnb, log);
    }

    /** The rest of uesim_add_gnb, with the list still locked. */
    method Place(gnb: GnbContext, ghost before: Log) returns (status: Status, ghost log: Log)
      requires Valid() && gnb !in members && gnb != serving && (serving == null || n < MAX_CANDIDATES)
      modifies this, slots, gnb
      ensures Valid() && log == before.Unlock(ListLock)
      ensures var u, g := old(model), old(gnb.Value());
              if u.serving.None? then
                model == u.(serving := Some(g.(isServing := true)), ip := g.ip, port := g.port) && status == Success
              else if Duplicate(u.cands, g.ip, g.port) then model == u && status == AlreadyExists
              else model == u.(cands := u.cands + [g.(state := Candidate)]) && status == Success
    {
      log := before;
      if serving == null {
        TakeFirst(gnb);
      } else {
        var dup := IsDuplicate(gnb.ip, gnb.port);
        if dup {
          log := log.Unlock(ListLock);
          status := AlreadyExists;
          return;
        }
        TakeCandidate(gnb);
      }
      log := log.Unlock(ListLock);
      status := Success;
    }

    /** The first gNB of a UE becomes the serving one. */
    method TakeFirst(gnb: GnbContext)
      requires Valid() && serving == null && gnb !in members
      modifies `serving, `ip, `port, `model, gnb
      ensures Valid()
      ensures model == old(model).(serving := Some(old(gnb.Value()).(isServing := true)), ip := gnb.ip, port := gnb.port)
    {
      gnb.isServing := true;
      serving := gnb;
      ip, port := gnb.ip, gnb.port;
      model := model.(serving := Some(gnb.Value()), ip := gnb.ip, port := gnb.port);
    }

    method TakeCandidate(gnb: GnbContext)
      requires Valid() && n < MAX_CANDIDATES && gnb !in members && gnb != serving
      modifies slots, `n, `members, `model, gnb
      ensures Valid()
      ensures model == old(model).(cands := old(model).cands + [old(gnb.Value()).(state := Candidate)])
    {
      gnb.state := Candidate;
      Append(gnb);
      model := model.(cands := model.cands + [gnb.Value()]);
    }

    method Find(g: GnbContext, ghost t: Target) returns (i: nat)
      requires Holds() && Apart() && Points(g, t)
      ensures i <= n && (i < n <==> t.Cand?) && (t.Cand? ==> i == t.i)
    {
      i := 0;
      while i < n && slots[i] != g
        invariant i <= n
        invariant forall k :: 0 <= k < i ==> members[k] != g
      {
        i := i + 1;
      }
    }

    method DisconnectGnb(g: GnbContext, ghost t: Target, ghost before: Log) returns (ghost log: Log)
      requires Valid() && Points(g, t) && !t.Other?
      modifies `ngap, `gtpu, `model, g
      ensures Valid() && model == Disconnect(old(model), t)
      ensures log == before.Then(Around(GnbLock(g.id), []), Closes(old(g.Value())))
      ensures At(old(model), t) == old(g.Value())
    {
      log := before.Lock(GnbLock(g.id));
      model := Disconnect(model, t);
      log := g.Close(log);
      if g.isServing {
        ngap := -1;
        gtpu := -1;
      }
      log := log.Unlock(GnbLock(g.id));
    }

    method RemoveGnb(g: GnbContext, ghost t: Target, ghost before: Log) returns (status: Status, ghost log: Log)
      requires Valid() && Points(g, t)
      modifies this, slots, g
      ensures Valid() && (model, status) == Remove(old(model), t)
      ensures log == before.Then(Trace(old(model), DoRemove(t)), Events(old(model), DoRemove(t)))
    {
      log := before.Lock(ListLock);
      if serving == g {
        log := log.Unlock(ListLock);
        status := InvalidParam;
        return;
      }
      var i := Find(g, t);
      if i == n {
        log := log.Unlock(ListLock);
        status := NotFound;
        return;
      }
      if g.state == Connected {
        log := DisconnectGnb(g, t, log);
      }
      DropCandidate(i);
      log := log.Unlock(ListLock);
      status := Success;
    }

    method DropCandidate(i: nat)
      requires Valid() && i < n
      modifies slots, `n, `members, `model
      ensures Valid() && model == old(model).(cands := RemoveAt(old(model).cands, i))
    {
      RemoveAtElements(members, i);
      RemoveAtElements(model.cands, i);
      CloseGap(i);
      model := model.(cands := RemoveAt(model.cands, i));
    }

    method SwitchServing(g: GnbContext, ghost t: Target, ghost before: Log) returns (status: Status, ghost log: Log)
      requires Valid() && Points(g, t)
      modifies this, slots, g, serving
      ensures Valid() && (model, status) == Switch(old(model), t)
      ensures log == before.Then(Around(ListLock, []), [])
    {
      log := before.Lock(ListLock);
      var i := Find(g, t);
      if i == n {
        log := log.Unlock(ListLock);
        status := NotFound;
        return;
      }
      if serving != null {
        DemoteServing();
      }
      ghost var all := if model.serving.Some? && |model.cands| < MAX_CANDIDATES then model.cands + [Demoted(model.serving.value)] else model.cands;
      PromoteCandidate(g, i, all);
      log := log.Unlock(ListLock);
      status := Success;
    }

    method TakeOver(g: GnbContext)
      modifies `serving, `ip, `port, `ngap, `gtpu, g
      ensures serving == g && g.Value() == Promoted(old(g.Value()))
      ensures ip == g.ip && port == g.port && ngap == g.ngap && gtpu == g.gtpu
    {
      g.isServing := true;
      g.state := Connected;
      serving := g;
      ip, port, ngap, gtpu := g.ip, g.port, g.ngap, g.gtpu;
    }

    /** g leaves its candidate slot and becomes the serving gNB; the list then reads `all` but for slot i. */
    method PromoteCandidate(g: GnbContext, i: nat, ghost all: seq<Gnb>)
      requires Holds() && i < n && members[i] == g && active == model.active
      requires forall j, k :: 0 <= j < k < |members| ==> members[j] != members[k]
      requires |all| == |members| && forall k :: 0 <= k < |all| && k != i ==> members[k].Value() == all[k]
      modifies this, slots, g
      ensures Valid()
      ensures var v := Promoted(old(g.Value()));
              model == Ue(Some(v), RemoveAt(all, i), v.ip, v.port, v.ngap, v.gtpu, old(model).active, old(model).lastId)
    {
      RemoveAtElements(members, i);
      RemoveAtElements(all, i);
      TakeOver(g);
      CloseGap(i);
      model := Ue(Some(g.Value()), RemoveAt(all, i), ip, port, ngap, gtpu, model.active, model.lastId);
    }

    /** The old serving gNB becomes the last candidate if a slot is free. */
    method DemoteServing()
      requires Valid() && serving != null
      modifies slots, `n, `members, serving
      ensures Holds() && serving.Value() == Demoted(old(serving.Value()))
      ensures members == if |old(members)| < MAX_CANDIDATES then old(members) + [serving] else old(members)
    {
      serving.isServing := false;
      serving.state := Candidate;
      if n < MAX_CANDIDATES {
        Append(serving);
      }
    }

    method ConnectTo(g: GnbContext, ghost t: Target, env: Env, ghost before: Log) returns (status: Status, ghost log: Log)
      requires Valid() && Points(g, t) && !t.Other? && env.gtpu >= -1
      modifies `ngap, `gtpu, `model, g
      ensures Valid() && (model, status) == Connect(old(model), t, env)
      ensures log == before.Then(Around(GnbLock(g.id), []), ConnectEvents(old(g.Value()), env))
      ensures At(old(model), t) == old(g.Value())
    {
      model := Connect(model, t, env).0;
      var connected := g.state == Connected;
      status, log := g.Connect(env, before);
      if status == Success && !connected {
        if g.isServing {
          ngap := g.ngap;
          gtpu := g.gtpu;
        }
        log := log.Unlock(GnbLock(g.id));
      }
    }

    /** Registration, and the other procedures that only need a connection, inside uesim_execute_procedure. */
    method AttachServing(env: Env, ghost before: Log) returns (status: Status, ghost log: Log)
      requires Valid() && env.gtpu >= -1
      modifies `ngap, `gtpu, `model, serving
      ensures Valid() && (model, status) == Attach(old(model), env)
      ensures log == before.Then(Trace(old(model), DoAttach(env)), Events(old(model), DoAttach(env)))
    {
      log := before.Lock(StateLock);
      if serving == null {
        status := NotInitialized;
      } else if serving.state == Connected {
        status := Success;
      } else {
        status, log := ConnectTo(serving, Serving, env, log);
      }
      log := log.Unlock(StateLock);
    }

    method Start(ghost before: Log) returns (ghost log: Log)
      requires Valid()
      modifies `active, `model
      ensures Valid() && model == Apply(old(model), DoStart).0
      ensures log == before.Then(Trace(old(model), DoStart), [])
    {
      log := before.Lock(StateLock);
      if active {
        log := log.Unlock(StateLock);
        return;
      }
      active := true;
      model := model.(active := true);
      log := log.Unlock(StateLock);
    }

    /** No candidate has is_serving set, as EveryReachableSetIsSound says of every UE. */
    method Stop(ghost before: Log) returns (ghost log: Log)
      requires Valid() && forall k :: 0 <= k < |model.cands| ==> !model.cands[k].isServing
      modifies `ngap, `gtpu, `model, `active, serving, members
      ensures Valid() && members == old(members) && serving == old(serving)
      ensures model == GnbSet.Stop(old(model))
      ensures log == before.Then(StopTrace(old(model)), StopEvents(old(model)))
    {
      log := before.Lock(StateLock);
      if !active {
        log := log.Unlock(StateLock);
        return;
      }
      log := CloseDown(log);
      log := log.Unlock(StateLock);
      Bracketed(before, StateLock, OneByOne(ServingAsSeq(old(model)) + old(model).cands), StopEvents(old(model)));
    }

    method CloseDown(ghost before: Log) returns (ghost log: Log)
      requires Valid() && active && forall k :: 0 <= k < |model.cands| ==> !model.cands[k].isServing
      modifies `ngap, `gtpu, `model, `active, serving, members
      ensures Valid() && model == AllClosed(old(model)).(active := false)
      ensures log == before.Then(OneByOne(ServingAsSeq(old(model)) + old(model).cands), StopEvents(old(model)))
    {
      log := CloseConnections(before);
      SetInactive();
    }

    method SetInactive()
      requires Valid()
      modifies `active, `model
      ensures Valid() && model == old(model).(active := false)
    {
      active := false;
      model := model.(active := false);
    }

    method CloseConnections(ghost before: Log) returns (ghost log: Log)
      requires Valid() && active && forall k :: 0 <= k < |model.cands| ==> !model.cands[k].isServing
      modifies `ngap, `gtpu, `model, serving, members
      ensures Valid() && model == AllClosed(old(model))
      ensures log == before.Then(OneByOne(ServingAsSeq(old(model)) + old(model).cands), StopEvents(old(model)))
    {
      ghost var u := model;
      log := DisconnectServing(before);
      log := DisconnectAll(log);
      log := CloseOwn(log);
      StopParts(before, u);
    }

    method DisconnectServing(ghost before: Log) returns (ghost log: Log)
      requires Valid()
      modifies `ngap, `gtpu, `model, serving
      ensures Valid() && model == ServingClosed(old(model))
      ensures log == before.Then(OneByOne(ServingAsSeq(old(model))), ClosesServing(old(model)))
    {
      log := before;
      if serving != null {
        OneByOneSingle(model.serving.value);
        log := DisconnectGnb(serving, Serving, log);
      }
    }

    method CloseOwn(ghost before: Log) returns (ghost log: Log)
      requires Valid()
      modifies `ngap, `gtpu, `model
      ensures Valid()
      ensures var u := old(model);
              model == u.(ngap := if u.ngap >= 0 then -1 else u.ngap, gtpu := if u.gtpu >= 0 then -1 else u.gtpu)
      ensures log == before.Then([], ClosesMirror(old(model)))
    {
      log := before;
      if ngap >= 0 {
        log := log.CloseFd(ngap);
        ngap := -1;
      }
      if gtpu >= 0 {
        log := log.CloseFd(gtpu);
        gtpu := -1;
      }
      model := model.(ngap := ngap, gtpu := gtpu);
    }

    /** The loop of Stop over the candidates. */
    method DisconnectAll(ghost before: Log) returns (ghost log: Log)
      requires Valid() && forall k :: 0 <= k < |model.cands| ==> !model.cands[k].isServing
      modifies `ngap, `gtpu, `model, members
      ensures Valid() && model == old(model).(cands := ClosedAll(old(model).cands))
      ensures log == before.Then(OneByOne(old(model).cands), ClosesAll(old(model).cands))
    {
      log := before;
      ghost var cands := model.cands;
      var i := 0;
      while i < n
        invariant i <= n && Valid() && model == old(model).(cands := model.cands)
        invariant PartlyClosed(cands, i, model.cands)
        invariant log == before.Then(OneByOne(cands[..i]), ClosesAll(cands[..i]))
      {
        log := DisconnectNext(cands, i, before, log);
        i := i + 1;
      }
      AllOfAll(cands, model.cands);
    }

    method DisconnectNext(ghost cands: seq<Gnb>, i: nat, ghost start: Log, ghost before: Log) returns (ghost log: Log)
      requires Valid() && i < n && PartlyClosed(cands, i, model.cands) && !cands[i].isServing
      requires before == start.Then(OneByOne(cands[..i]), ClosesAll(cands[..i]))
      modifies `ngap, `gtpu, `model, members
      ensures Valid() && model == old(model).(cands := model.cands) && PartlyClosed(cands, i + 1, model.cands)
      ensures log == start.Then(OneByOne(cands[..i + 1]), ClosesAll(cands[..i + 1]))
    {
      NextOfAll(cands, i, model.cands);
      ThenThen(start, OneByOne(cands[..i]), Around(GnbLock(cands[i].id), []), ClosesAll(cands[..i]), Closes(cands[i]));
      log := DisconnectGnb(slots[i], Cand(i), before);
    }

    method SelectBest() returns (best: GnbContext?, ghost at: Option<nat>)
      requires Valid()
      ensures at == Best(model.cands)
      ensures best == if at.None? then null else members[at.value]
    {
      best, at := null, None;
      var bestRsrp := NO_RSRP;
      var i := 0;
      while i < n
        invariant i <= n && at == Best(model.cands[..i])
        invariant best == if at.None? then null else members[at.value]
        invariant bestRsrp == if at.None? then NO_RSRP else model.cands[at.value].rsrp
      {
        assert model.cands[..i + 1][..i] == model.cands[..i];
        var candidate := slots[i];
        assert candidate == members[i] && candidate.Value() == model.cands[i];
        if candidate != null && candidate.rsrp > bestRsrp {
          bestRsrp, best, at := candidate.rsrp, candidate, Some(i);
        }
        i := i + 1;
      }
      assert model.cands[..n] == model.cands;
    }

    /** The handover procedure inside uesim_execute_procedure. */
    method HandOver(env: Env, ghost before: Log) returns (status: Status, ghost log: Log)
      requires Valid() && env.gtpu >= -1
      modifies this, slots, serving, members
      ensures Valid() && (model, status) == Handover(old(model), env)
      ensures log == before.Then(Trace(old(model), DoHandover(env)), Events(old(model), DoHandover(env)))
    {
      log := before.Lock(StateLock);
      status, log := MoveToBest(env, log);
      log := log.Unlock(StateLock);
    }

    method MoveToBest(env: Env, ghost before: Log) returns (status: Status, ghost log: Log)
      requires Valid() && env.gtpu >= -1
      modifies this, slots, serving, members
      ensures Valid() && (model, status) == Handover(old(model), env)
      ensures log == before.Then(HandoverTrace(old(model), env), Events(old(model), DoHandover(env)))
    {
      log := before;
      if n == 0 {
        status := NotFound;
        return;
      }
      var best, at := SelectBest();
      if best == null {
        status := NotFound;
        return;
      }
      status, log := MoveTo(best, at.value, env, log);
    }

    method MoveTo(best: GnbContext, ghost i: nat, env: Env, ghost before: Log) returns (status: Status, ghost log: Log)
      requires Valid() && Points(best, Cand(i)) && env.gtpu >= -1
      modifies this, slots, serving, members
      ensures Valid()
      ensures var (v, s) := Connect(old(model), Cand(i), env);
              && (model, status) == (if s != Success then (v, s) else Switch(v, Cand(i)))
              && log == before.Then(Around(GnbLock(best.id), []) + if s == Success then Around(ListLock, []) else [],
                                    ConnectEvents(old(model).cands[i], env))
      ensures best.id == old(model).cands[i].id
    {
      status, log := ConnectTo(best, Cand(i), env, before);
      if status != Success {
        return;
      }
      status, log := SwitchServing(best, Cand(i), log);
    }
  }
}
