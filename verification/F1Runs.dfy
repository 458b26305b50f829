/**
 A CU-CP and any number of DUs over a network that loses, repeats and reorders messages.
 `net` holds every packet ever sent: receiving one does not remove it, and none need ever be
 received. Release commands and resets may also come from outside.
 */
module F1Runs {
  import opened Wrappers
  import opened F1Messages
  import opened Slots
  import Cu = F1Cu
  import Du = F1Du

  /** A message on the association with the DU of that gNB-DU ID; DUs have distinct IDs. */
  datatype Packet = Packet(du: nat, msg: Msg)

  datatype Sys = Sys(cu: Cu.Cu, dus: seq<Du.Du>, net: set<Packet>)

  datatype Step =
    | SetUpDu(du: nat, cell: nat)
    | AskContext(conn: nat, ranId: nat)
    | AtDu(p: Packet)
    | AtCu(p: Packet)
    | Inject(p: Packet)

  predicate Enabled(s: Sys, step: Step) {
    match step
    case SetUpDu(du, _) => du < |s.dus|
    case AskContext(conn, _) => conn < |s.cu.conns| && s.cu.conns[conn].active
    case AtDu(p) => p in s.net && p.du < |s.dus| && Du.Storable(p.msg)
    case AtCu(p) => p in s.net
    case Inject(p) => p.msg.ReleaseCommand? || p.msg.ResetRequest?
  }

  function Sent(du: nat, answers: seq<Msg>): set<Packet> {
    set m | m in answers :: Packet(du, m)
  }

  function Next(s: Sys, step: Step): Sys
    requires Enabled(s, step)
  {
    match step
    case SetUpDu(du, cell) => s.(cu := Cu.F1Setup(s.cu, du, cell).0)
    case AskContext(conn, ranId) =>
      var (cu, m) := Cu.RequestContext(s.cu, conn, ranId);
      Sys(cu, s.dus, if m.Some? then s.net + {Packet(s.cu.conns[conn].duId, m.value)} else s.net)
    case AtDu(p) =>
      var (d, answers) := Du.Handle(s.dus[p.du], p.msg);
      Sys(s.cu, s.dus[p.du := d], s.net + Sent(p.du, answers))
    case AtCu(p) => s.(cu := Cu.Handle(s.cu, p.msg))
    case Inject(p) => s.(net := s.net + {p})
  }

  predicate IsRun(s: Sys, steps: seq<Step>)
    decreases |steps|
  {
    steps == [] || (Enabled(s, steps[0]) && IsRun(Next(s, steps[0]), steps[1..]))
  }

  function After(s: Sys, steps: seq<Step>): Sys
    requires IsRun(s, steps)
    decreases |steps|
  {
    if steps == [] then s else After(Next(s, steps[0]), steps[1..])
  }

  ghost predicate IsStart(s: Sys) {
    s.cu == Cu.Fresh() && s.net == {} && forall j :: 0 <= j < |s.dus| ==> s.dus[j] == Du.Fresh()
  }

  // --- the invariant ------------------------------------------------------------------------

  ghost predicate GivenBy(s: Sys, du: nat, duId: nat, cuId: nat) {
    du < |s.dus| && Du.Given(s.dus[du], duId, cuId)
  }

  /** The tunnels are those the DU derives from that identifier. */
  predicate TunnelsOf(duId: nat, tunnels: seq<Drb>) {
    |tunnels| <= MAX_DRBS && forall k :: 0 <= k < |tunnels| ==> tunnels[k].id < 256 && tunnels[k].teid == Teid(duId, tunnels[k].id)
  }

  predicate OwnedByCu(c: Cu.Cu, du: nat, cuId: nat) {
    exists i :: 0 <= i < |c.ues| && c.ues[i].active && c.ues[i].cuId == cuId && c.ues[i].du == du
  }

  /** The CU-CP has a context of that DU with those identities. */
  predicate Describes(c: Cu.Cu, du: nat, cuId: nat, ranId: nat, cell: nat) {
    exists i :: 0 <= i < |c.ues| && c.ues[i].active && c.ues[i].cuId == cuId && c.ues[i].du == du
                && c.ues[i].ranId == ranId && c.ues[i].cell == cell
  }

  /** What is known of a packet on its way, or long gone. */
  ghost predicate PacketOk(s: Sys, p: Packet) {
    match p.msg
    case SetupRequest(cuId, ranId, cell, drbs) => drbs == [1] && Describes(s.cu, p.du, cuId, ranId, cell)
    case SetupResponse(cuId, duId, tunnels) =>
      GivenBy(s, p.du, duId, cuId) && TunnelsOf(duId, tunnels) && OwnedByCu(s.cu, p.du, cuId)
    case _ => true
  }

  ghost predicate ContextOk(s: Sys, u: Cu.Ue) {
    u.active ==>
      && (u.duUeId != 0 ==> GivenBy(s, u.du, u.duUeId, u.cuId))
      && TunnelsOf(u.duUeId, u.tunnels)
  }

  ghost predicate Agrees(s: Sys) {
    && (forall p :: p in s.net ==> PacketOk(s, p))
    && (forall i :: 0 <= i < |s.cu.ues| ==> ContextOk(s, s.cu.ues[i]))
  }

  /** Every active DU context serves a context of the CU-CP, with its identities and its one bearer. */
  ghost predicate DusAgree(s: Sys) {
    forall j, i :: 0 <= j < |s.dus| && 0 <= i < |s.dus[j].ues| ==> DuContextOk(s.cu, j, s.dus[j].ues[i])
  }

  predicate DuContextOk(c: Cu.Cu, j: nat, u: Du.Ue) {
    u.active ==> u.drbs == [1] && Describes(c, j, u.cuId, u.ranId, u.cell)
  }

  ghost predicate Holds(s: Sys) {
    && Cu.Inv(s.cu)
    && (forall j :: 0 <= j < |s.dus| ==> Du.Inv(s.dus[j]))
    && Agrees(s)
  }

  ghost predicate Inv(s: Sys) {
    Holds(s) && DusAgree(s)
  }

  /** The contexts of `t` own what those of `s` do. */
  ghost predicate KeepsOwners(c: Cu.Cu, e: Cu.Cu) {
    && (forall du: nat, cuId: nat :: OwnedByCu(c, du, cuId) ==> OwnedByCu(e, du, cuId))
    && (forall du: nat, cuId: nat, ranId: nat, cell: nat :: Describes(c, du, cuId, ranId, cell) ==> Describes(e, du, cuId, ranId, cell))
  }

  /** A packet or context that is all right stays so when DUs only give out more and the CU keeps its owners. */
  ghost predicate Grows(s: Sys, t: Sys) {
    && |t.dus| == |s.dus|
    && (forall du: nat, duId: nat, cuId: nat :: GivenBy(s, du, duId, cuId) ==> GivenBy(t, du, duId, cuId))
    && KeepsOwners(s.cu, t.cu)
  }

  lemma SetUpKeeps(s: Sys, du: nat, cell: nat)
    requires Inv(s) && Enabled(s, SetUpDu(du, cell))
    ensures Holds(Next(s, SetUpDu(du, cell)))
  {
    Cu.F1SetupKeeps(s.cu, du, cell);
    var t := Next(s, SetUpDu(du, cell));
    assert t.cu.ues == s.cu.ues;
    assert KeepsOwners(s.cu, t.cu);
    assert Grows(s, t);
    forall p | p in t.net ensures PacketOk(t, p) {
      assert PacketOk(s, p);
    }
    forall i | 0 <= i < |t.cu.ues| ensures ContextOk(t, t.cu.ues[i]) {
      assert ContextOk(s, s.cu.ues[i]);
    }
  }

  /** A context the CU-CP keeps, at its place and with its identities, keeps what it owns. */
  lemma SameIdentities(c: Cu.Cu, e: Cu.Cu)
    requires |c.ues| == |e.ues|
    requires forall i :: 0 <= i < |c.ues| && c.ues[i].active ==>
               e.ues[i] == c.ues[i].(duUeId := e.ues[i].duUeId, tunnels := e.ues[i].tunnels)
    ensures KeepsOwners(c, e)
  {
    forall du: nat, cuId: nat | OwnedByCu(c, du, cuId) ensures OwnedByCu(e, du, cuId) {
      var i :| 0 <= i < |c.ues| && c.ues[i].active && c.ues[i].cuId == cuId && c.ues[i].du == du;
      assert e.ues[i].active && e.ues[i].cuId == cuId && e.ues[i].du == du;
    }
    forall du: nat, cuId: nat, ranId: nat, cell: nat | Describes(c, du, cuId, ranId, cell)
      ensures Describes(e, du, cuId, ranId, cell) {
      var i :| 0 <= i < |c.ues| && c.ues[i].active && c.ues[i].cuId == cuId && c.ues[i].du == du
               && c.ues[i].ranId == ranId && c.ues[i].cell == cell;
      assert e.ues[i].active && e.ues[i].cuId == cuId && e.ues[i].du == du && e.ues[i].ranId == ranId && e.ues[i].cell == cell;
    }
  }

  lemma RequestOwners(c: Cu.Cu, conn: nat, ranId: nat)
    requires Cu.Inv(c) && conn < |c.conns|
    ensures var (e, m) := Cu.RequestContext(c, conn, ranId);
            KeepsOwners(c, e) && (m.Some? ==> Describes(e, c.conns[conn].duId, m.value.cuId, m.value.ranId, m.value.cell))
  {
    var (e, m) := Cu.RequestContext(c, conn, ranId);
    SameIdentities(c, e);
    if m.Some? {
      var k := First(c.ues, Cu.UeFree);
      assert e.ues[k].active && e.ues[k].cuId == m.value.cuId;
    }
  }

  lemma AskKeeps(s: Sys, conn: nat, ranId: nat)
    requires Inv(s) && Enabled(s, AskContext(conn, ranId))
    ensures Holds(Next(s, AskContext(conn, ranId)))
  {
    Cu.RequestKeeps(s.cu, conn, ranId);
    RequestOwners(s.cu, conn, ranId);
    var t := Next(s, AskContext(conn, ranId));
    assert Grows(s, t);
    forall p | p in t.net ensures PacketOk(t, p) {
      assert p in s.net ==> PacketOk(s, p);
    }
    forall i | 0 <= i < |t.cu.ues| ensures ContextOk(t, t.cu.ues[i]) {
      assert t.cu.ues[i] == s.cu.ues[i] || t.cu.ues[i].tunnels == [];
      assert ContextOk(s, s.cu.ues[i]);
    }
  }

  lemma DuGrows(s: Sys, p: Packet)
    requires Enabled(s, AtDu(p))
    ensures Grows(s, Next(s, AtDu(p)))
  {
    var t := Next(s, AtDu(p));
    forall du: nat, duId: nat, cuId: nat | GivenBy(s, du, duId, cuId) ensures GivenBy(t, du, duId, cuId) {
      if du == p.du {
        Du.GivenStays(s.dus[du], p.msg, duId, cuId);
      }
    }
  }

  /** The DU's answer names an identifier it has just given to that very CU id. */
  lemma AnswerOk(s: Sys, p: Packet, m: Msg)
    requires Inv(s) && Enabled(s, AtDu(p)) && m in Du.Handle(s.dus[p.du], p.msg).1
    ensures PacketOk(Next(s, AtDu(p)), Packet(p.du, m))
  {
    var d := s.dus[p.du];
    if m.SetupResponse? {
      assert PacketOk(s, p);
      assert Du.Inv(d);
      var e := Du.Setup(d, p.msg).0;
      assert Du.GivenAt(e, m.duId, m.cuId, |d.owners|);
      assert Next(s, AtDu(p)).dus[p.du] == e;
    }
  }

  lemma AtDuKeeps(s: Sys, p: Packet)
    requires Inv(s) && Enabled(s, AtDu(p))
    ensures Holds(Next(s, AtDu(p)))
  {
    var t := Next(s, AtDu(p));
    Du.HandleKeeps(s.dus[p.du], p.msg);
    DuGrows(s, p);
    forall q | q in t.net ensures PacketOk(t, q) {
      if q in s.net {
        assert PacketOk(s, q);
      } else {
        AnswerOk(s, p, q.msg);
      }
    }
    forall i | 0 <= i < |t.cu.ues| ensures ContextOk(t, t.cu.ues[i]) {
      assert ContextOk(s, s.cu.ues[i]);
    }
  }

  lemma HandleOwners(c: Cu.Cu, m: Msg)
    ensures KeepsOwners(c, Cu.Handle(c, m))
  {
    SameIdentities(c, Cu.Handle(c, m));
  }

  /** The context a response is stored in is the one, of that DU, that the request was sent for. */
  lemma StoredOk(s: Sys, p: Packet, i: nat)
    requires Inv(s) && Enabled(s, AtCu(p)) && i < |s.cu.ues|
    ensures ContextOk(s, Cu.Handle(s.cu, p.msg).ues[i])
  {}

  lemma AtCuKeeps(s: Sys, p: Packet)
    requires Inv(s) && Enabled(s, AtCu(p))
    ensures Holds(Next(s, AtCu(p)))
  {
    var t := Next(s, AtCu(p));
    Cu.HandleKeeps(s.cu, p.msg);
    HandleOwners(s.cu, p.msg);
    assert Grows(s, t);
    forall q | q in t.net ensures PacketOk(t, q) {
      assert PacketOk(s, q);
    }
    forall i | 0 <= i < |t.cu.ues| ensures ContextOk(t, t.cu.ues[i]) {
      StoredOk(s, p, i);
    }
  }

  lemma InjectKeeps(s: Sys, p: Packet)
    requires Inv(s) && Enabled(s, Inject(p))
    ensures Holds(Next(s, Inject(p)))
  {}

  /** The DU's contexts after a message: kept, given up, or made from a request the CU-CP stands behind. */
  lemma HandledContextOk(s: Sys, p: Packet, i: nat)
    requires Inv(s) && Enabled(s, AtDu(p)) && i < |Du.Handle(s.dus[p.du], p.msg).0.ues|
    ensures DuContextOk(s.cu, p.du, Du.Handle(s.dus[p.du], p.msg).0.ues[i])
  {
    var d := s.dus[p.du];
    assert DuContextOk(s.cu, p.du, d.ues[i]);
    assert PacketOk(s, p);
  }

  lemma ContextsStayOk(s: Sys, t: Sys, j: nat, i: nat)
    requires DusAgree(s) && KeepsOwners(s.cu, t.cu) && j < |s.dus| && i < |s.dus[j].ues|
    ensures DuContextOk(t.cu, j, s.dus[j].ues[i])
  {
    assert DuContextOk(s.cu, j, s.dus[j].ues[i]);
  }

  lemma DusAgreeKeeps(s: Sys, step: Step)
    requires Inv(s) && Enabled(s, step)
    ensures DusAgree(Next(s, step))
  {
    var t := Next(s, step);
    assert KeepsOwners(s.cu, t.cu) by {
      match step {
        case AskContext(conn, ranId) => RequestOwners(s.cu, conn, ranId);
        case AtCu(p) => HandleOwners(s.cu, p.msg);
        case _ => assert t.cu.ues == s.cu.ues; SameIdentities(s.cu, t.cu);
      }
    }
    forall j, i | 0 <= j < |t.dus| && 0 <= i < |t.dus[j].ues| ensures DuContextOk(t.cu, j, t.dus[j].ues[i]) {
      if step.AtDu? && j == step.p.du {
        HandledContextOk(s, step.p, i);
      } else {
        ContextsStayOk(s, t, j, i);
      }
    }
  }

  lemma {:induction false} RunKeeps(s: Sys, steps: seq<Step>)
    requires Inv(s) && IsRun(s, steps)
    ensures Inv(After(s, steps))
    decreases |steps|
  {
    if steps != [] {
      match steps[0] {
        case SetUpDu(du, cell) => SetUpKeeps(s, du, cell);
        case AskContext(conn, ranId) => AskKeeps(s, conn, ranId);
        case AtDu(p) => AtDuKeeps(s, p);
        case AtCu(p) => AtCuKeeps(s, p);
        case Inject(p) => InjectKeeps(s, p);
      }
      DusAgreeKeeps(s, steps[0]);
      RunKeeps(Next(s, steps[0]), steps[1..]);
    }
  }

  lemma QuietOk(s: Sys)
    requires Cu.Inv(s.cu) && s.net == {}
    requires forall j :: 0 <= j < |s.dus| ==> Du.Inv(s.dus[j])
    requires forall i :: 0 <= i < |s.cu.ues| ==> !s.cu.ues[i].active
    requires forall j, i :: 0 <= j < |s.dus| && 0 <= i < |s.dus[j].ues| ==> !s.dus[j].ues[i].active
    ensures Inv(s)
  {}

  lemma StartOk(s: Sys)
    requires IsStart(s)
    ensures Inv(s)
  {
    Cu.FreshOk(s.cu);
    forall j | 0 <= j < |s.dus| ensures Du.Inv(s.dus[j]) && forall i :: 0 <= i < |s.dus[j].ues| ==> !s.dus[j].ues[i].active {
      Du.FreshOk(s.dus[j]);
    }
    QuietOk(s);
  }

  ghost predicate Reachable(s: Sys) {
    exists start, steps :: IsStart(start) && IsRun(start, steps) && s == After(start, steps)
  }

  lemma ReachableOk(s: Sys)
    requires Reachable(s)
    ensures Inv(s)
  {
    var start, steps :| IsStart(start) && IsRun(start, steps) && s == After(start, steps);
    StartOk(start);
    RunKeeps(start, steps);
  }

  // --- identity agreement -------------------------------------------------------------------

  /** A CU-CP context that names a DU id holds one that its DU gave out for this very CU id. */
  lemma IdentityAgreement(s: Sys, i: nat)
    requires Reachable(s) && i < |s.cu.ues| && s.cu.ues[i].active && s.cu.ues[i].duUeId != 0
    ensures GivenBy(s, s.cu.ues[i].du, s.cu.ues[i].duUeId, s.cu.ues[i].cuId)
  {
    ReachableOk(s);
    assert ContextOk(s, s.cu.ues[i]);
  }

  /** Every active DU context serves a CU-CP context of that DU with the same CU id, RAN UE id and cell. */
  lemma DuContextsAreAskedFor(s: Sys, j: nat, i: nat)
    requires Reachable(s) && j < |s.dus| && i < |s.dus[j].ues| && s.dus[j].ues[i].active
    ensures Describes(s.cu, j, s.dus[j].ues[i].cuId, s.dus[j].ues[i].ranId, s.dus[j].ues[i].cell)
  {
    ReachableOk(s);
    assert DuContextOk(s.cu, j, s.dus[j].ues[i]);
  }

  /** So two contexts of one DU never share a DU id, until that DU's 32-bit counter has gone round. */
  lemma DuIdsNotShared(s: Sys, i: nat, j: nat)
    requires Reachable(s) && i < j < |s.cu.ues| && s.cu.ues[i].active && s.cu.ues[j].active
    requires s.cu.ues[i].duUeId != 0 && s.cu.ues[i].du == s.cu.ues[j].du
    requires s.cu.ues[i].du < |s.dus| ==> |s.dus[s.cu.ues[i].du].owners| < ID_RANGE
    ensures s.cu.ues[i].duUeId != s.cu.ues[j].duUeId
  {
    ReachableOk(s);
    IdentityAgreement(s, i);
    if s.cu.ues[i].duUeId == s.cu.ues[j].duUeId {
      IdentityAgreement(s, j);
      Du.GivenOnce(s.dus[s.cu.ues[i].du], s.cu.ues[i].duUeId, s.cu.ues[i].cuId, s.cu.ues[j].cuId);
    }
  }

  /** Nor do they store a common tunnel id while their DU ids are below 2^24. */
  lemma TunnelsNotShared(s: Sys, i: nat, j: nat, k: nat, l: nat)
    requires Reachable(s) && i < j < |s.cu.ues| && s.cu.ues[i].active && s.cu.ues[j].active
    requires 0 < s.cu.ues[i].duUeId < 0x100_0000 && s.cu.ues[j].duUeId < 0x100_0000 && s.cu.ues[i].du == s.cu.ues[j].du
    requires s.cu.ues[i].du < |s.dus| ==> |s.dus[s.cu.ues[i].du].owners| < ID_RANGE
    requires k < |s.cu.ues[i].tunnels| && l < |s.cu.ues[j].tunnels|
    ensures s.cu.ues[i].tunnels[k].teid != s.cu.ues[j].tunnels[l].teid
  {
    ReachableOk(s);
    DuIdsNotShared(s, i, j);
    var u, v := s.cu.ues[i], s.cu.ues[j];
    assert ContextOk(s, u) && ContextOk(s, v);
    TeidsCoincide(u.duUeId, u.tunnels[k].id, v.duUeId, v.tunnels[l].id);
  }

  /** The books of every DU, in every reachable state. */
  lemma DuLedgerBalances(s: Sys, j: nat)
    requires Reachable(s) && j < |s.dus|
    ensures var d := s.dus[j];
            d.num == Sum(d.ues, Du.IsActive) && d.created == d.released + d.num + d.dropped
  {
    ReachableOk(s);
    assert Du.Inv(s.dus[j]);
  }

  /** And of the CU-CP: 1024 contexts and 16 connections at most, no DU connected twice. */
  lemma CuLedgerBalances(s: Sys)
    requires Reachable(s)
    ensures s.cu.numUes == s.cu.created == Sum(s.cu.ues, Cu.UeActive) <= Cu.MAX_UES
    ensures s.cu.numConns == Sum(s.cu.conns, Cu.ConnActive) <= Cu.MAX_DUS
    ensures Cu.ConnsDistinct(s.cu)
  {
    ReachableOk(s);
    SumFull(s.cu.conns, Cu.ConnActive);
  }
}
