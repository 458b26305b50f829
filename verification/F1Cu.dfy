/**
 The mock CU-CP (src/mock_core/mock_cu_cp.c): 16 DU connections set up by F1 Setup and 1024
 UE contexts that are created before the DU is asked and never given up.
 */
module F1Cu {
  import opened Wrappers
  import opened F1Messages
  import opened Slots

  const MAX_DUS: nat := 16
  const MAX_UES: nat := 1024

  /** cell is the first served cell's identity, 0 when the DU announced no cell. */
  datatype Conn = Conn(active: bool, duId: nat, cell: nat)

  datatype Ue = Ue(active: bool, cuId: nat, duUeId: nat, du: nat, ranId: nat, cell: nat, tunnels: seq<Drb>)

  datatype Cu = Cu(conns: seq<Conn>, numConns: int, ues: seq<Ue>, numUes: int, nextId: nat,
                   created: nat, released: nat, setupOk: nat, setupFailed: nat)

  function NoConn(): Conn { Conn(false, 0, 0) }

  function NoUe(): Ue { Ue(false, 0, 0, 0, 0, 0, []) }

  function Fresh(): Cu {
    Cu(seq(MAX_DUS, _ => NoConn()), 0, seq(MAX_UES, _ => NoUe()), 0, 1, 0, 0, 0, 0)
  }

  function ConnActive(c: Conn): nat { if c.active then 1 else 0 }

  predicate ConnFree(c: Conn) { !c.active }

  function ConnOf(duId: nat): Conn -> bool { (c: Conn) => c.active && c.duId == duId }

  function UeActive(u: Ue): nat { if u.active then 1 else 0 }

  predicate UeFree(u: Ue) { !u.active }

  function HasCuId(cuId: nat): Ue -> bool { (u: Ue) => u.active && u.cuId == cuId }

  /** F1 Setup: the slot of that DU, else a free one, else a failure. */
  function F1Setup(c: Cu, duId: nat, cell: nat): (Cu, bool) {
    var i := First(c.conns, ConnOf(duId));
    var j := First(c.conns, ConnFree);
    if i < |c.conns| then (c.(conns := c.conns[i := Conn(true, duId, cell)], setupOk := c.setupOk + 1), true)
    else if j < |c.conns| then
      (c.(conns := c.conns[j := Conn(true, duId, cell)], numConns := c.numConns + 1, setupOk := c.setupOk + 1), true)
    else (c.(setupFailed := c.setupFailed + 1), false)
  }

  /** A context for a new UE of the DU in slot i and the request for it, unless all contexts are taken. */
  function RequestContext(c: Cu, i: nat, ranId: nat): (Cu, Option<Msg>)
    requires i < |c.conns|
  {
    var k := First(c.ues, UeFree);
    if k == |c.ues| then (c, None) else
    var conn := c.conns[i];
    (c.(ues := c.ues[k := Ue(true, c.nextId, 0, conn.duId, ranId, conn.cell, [])],
        numUes := c.numUes + 1, nextId := (c.nextId + 1) % ID_RANGE, created := c.created + 1),
     Some(SetupRequest(c.nextId, ranId, conn.cell, [1])))
  }

  function Answered(c: Cu, m: Msg): Cu
    requires m.SetupResponse?
  {
    var k := First(c.ues, HasCuId(m.cuId));
    if k == |c.ues| then c else
    c.(ues := c.ues[k := c.ues[k].(duUeId := m.duId, tunnels := if |m.tunnels| <= MAX_DRBS then m.tunnels else m.tunnels[..MAX_DRBS])])
  }

  /** A UE Context Release Complete is only counted. */
  function Handle(c: Cu, m: Msg): Cu {
    match m
    case SetupResponse(_, _, _) => Answered(c, m)
    case ReleaseComplete(_, _) => c.(released := c.released + 1)
    case _ => c
  }

  // --- the invariant ------------------------------------------------------------------------

  ghost predicate ConnsDistinct(c: Cu) {
    forall i, j :: 0 <= i < j < |c.conns| && c.conns[i].active && c.conns[j].active ==> c.conns[i].duId != c.conns[j].duId
  }

  ghost predicate CuIdsOk(c: Cu) {
    && (forall i :: 0 <= i < |c.ues| && c.ues[i].active ==> 0 < c.ues[i].cuId < c.nextId)
    && (forall i, j :: 0 <= i < j < |c.ues| && c.ues[i].active && c.ues[j].active ==> c.ues[i].cuId != c.ues[j].cuId)
  }

  predicate Counts(c: Cu) {
    && |c.conns| == MAX_DUS && |c.ues| == MAX_UES
    && c.numConns == Sum(c.conns, ConnActive)
    && c.numUes == c.created == Sum(c.ues, UeActive)
    && c.nextId == c.created + 1 <= MAX_UES + 1
  }

  ghost predicate Inv(c: Cu) {
    Counts(c) && ConnsDistinct(c) && CuIdsOk(c)
  }

  lemma UnusedOk(c: Cu)
    requires |c.conns| == MAX_DUS && forall i :: 0 <= i < |c.conns| ==> c.conns[i] == NoConn()
    requires |c.ues| == MAX_UES && forall i :: 0 <= i < |c.ues| ==> c.ues[i] == NoUe()
    requires c.numConns == c.numUes == c.created == 0 && c.nextId == 1
    ensures Inv(c)
  {
    NoneConnected(c.conns);
    NoneActive(c.ues);
  }

  lemma FreshOk(c: Cu)
    requires c == Fresh()
    ensures Inv(c) && forall i :: 0 <= i < |c.ues| ==> !c.ues[i].active
  {
    UnusedOk(c);
  }

  lemma NoneConnected(conns: seq<Conn>)
    requires forall i :: 0 <= i < |conns| ==> conns[i] == NoConn()
    ensures Sum(conns, ConnActive) == 0
  {}

  lemma NoneActive(ues: seq<Ue>)
    requires forall i :: 0 <= i < |ues| ==> ues[i] == NoUe()
    ensures Sum(ues, UeActive) == 0
  {}

  lemma F1SetupKeeps(c: Cu, duId: nat, cell: nat)
    requires Inv(c)
    ensures Inv(F1Setup(c, duId, cell).0)
  {
    var i := First(c.conns, ConnOf(duId));
    var j := First(c.conns, ConnFree);
    if i < |c.conns| {
      SumUpdate(c.conns, ConnActive, i, Conn(true, duId, cell));
    } else if j < |c.conns| {
      SumUpdate(c.conns, ConnActive, j, Conn(true, duId, cell));
    }
  }

  lemma RequestKeeps(c: Cu, i: nat, ranId: nat)
    requires Inv(c) && i < |c.conns|
    ensures Inv(RequestContext(c, i, ranId).0)
  {
    var k := First(c.ues, UeFree);
    FirstFree(c.ues, UeActive, UeFree);
    if k < |c.ues| {
      SumUpdate(c.ues, UeActive, k, RequestContext(c, i, ranId).0.ues[k]);
    }
  }

  lemma HandleKeeps(c: Cu, m: Msg)
    requires Inv(c)
    ensures Inv(Handle(c, m))
  {
    if m.SetupResponse? {
      var k := First(c.ues, HasCuId(m.cuId));
      if k < |c.ues| {
        SumUpdate(c.ues, UeActive, k, Handle(c, m).ues[k]);
      }
    }
  }

  /** F1 Setup fails only for a DU that is not connected while all 16 slots are. */
  lemma SetupFailsIff(c: Cu, duId: nat, cell: nat)
    requires Inv(c)
    ensures F1Setup(c, duId, cell).1 <==>
              c.numConns < MAX_DUS || exists i :: 0 <= i < |c.conns| && c.conns[i].active && c.conns[i].duId == duId
  {
    FirstFree(c.conns, ConnActive, ConnFree);
    SumFull(c.conns, ConnActive);
    var i := First(c.conns, ConnOf(duId));
    if k :| 0 <= k < |c.conns| && c.conns[k].active && c.conns[k].duId == duId {
      assert ConnOf(duId)(c.conns[k]);
    }
    if i < |c.conns| {
      assert c.conns[i].active && c.conns[i].duId == duId;
    }
  }

  /** A context is created, with an identifier no context has, exactly while one of the 1024 is free. */
  lemma RequestSentIff(c: Cu, i: nat, ranId: nat)
    requires Inv(c) && i < |c.conns|
    ensures RequestContext(c, i, ranId).1.Some? <==> c.created < MAX_UES
  {
    FirstFree(c.ues, UeActive, UeFree);
    SumFull(c.ues, UeActive);
  }

  // --- the object -----------------------------------------------------------------------------

  class CuServer {
    const conns: array<Conn>
    const ues: array<Ue>
    var numConns: int
    var numUes: int
    var nextId: nat
    var created: nat
    var released: nat
    var setupOk: nat
    var setupFailed: nat

    ghost function Model(): Cu
      reads this, conns, ues
    {
      Cu(conns[..], numConns, ues[..], numUes, nextId, created, released, setupOk, setupFailed)
    }

    constructor ()
      ensures fresh(conns) && fresh(ues) && Model() == Fresh()
    {
      conns := new Conn[MAX_DUS](_ => NoConn());
      ues := new Ue[MAX_UES](_ => NoUe());
      numConns, numUes, nextId, created, released, setupOk, setupFailed := 0, 0, 1, 0, 0, 0, 0;
      new;
      assert conns[..] == Fresh().conns;
      assert ues[..] == Fresh().ues;
    }

    method HandleF1Setup(duId: nat, cell: nat) returns (ok: bool)
      modifies this, conns
      ensures (Model(), ok) == F1Setup(old(Model()), duId, cell)
    {
      var i := Scan(conns, ConnOf(duId));
      if i == conns.Length {
        i := Scan(conns, ConnFree);
        if i == conns.Length {
          setupFailed := setupFailed + 1;
          return false;
        }
        numConns := numConns + 1;
      }
      conns[i] := Conn(true, duId, cell);
      setupOk := setupOk + 1;
      ok := true;
    }

    method SendContextRequest(i: nat, ranId: nat) returns (m: Option<Msg>)
      requires i < conns.Length
      modifies this, ues
      ensures (Model(), m) == RequestContext(old(Model()), i, ranId)
    {
      var k := Scan(ues, UeFree);
      if k == ues.Length {
        return None;
      }
      var id := nextId;
      nextId := (nextId + 1) % ID_RANGE;
      ues[k] := Ue(true, id, 0, conns[i].duId, ranId, conns[i].cell, []);
      numUes := numUes + 1;
      created := created + 1;
      m := Some(SetupRequest(id, ranId, conns[i].cell, [1]));
    }

    method Process(m: Msg)
      modifies this, ues
      ensures Model() == Handle(old(Model()), m)
    {
      match m {
        case SetupResponse(cuId, duId, tunnels) =>
          var k := Scan(ues, HasCuId(cuId));
          if k < ues.Length {
            ues[k] := ues[k].(duUeId := duId, tunnels := if |tunnels| <= MAX_DRBS then tunnels else tunnels[..MAX_DRBS]);
          }
        case ReleaseComplete(_, _) =>
          released := released + 1;
        case _ =>
      }
    }
  }
}
