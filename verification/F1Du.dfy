/**
 The mock DU (src/mock_core/mock_du.c): a table of 1024 UE contexts, filled by UE Context
 Setup, emptied by UE Context Release and by F1 Reset.
 */
module F1Du {
  import opened F1Messages
  import opened Slots

  const MAX_UES: nat := 1024

  datatype Ue = Ue(active: bool, duId: nat, cuId: nat, ranId: nat, cell: nat, drbs: seq<nat>)

  /**
   nextId wraps at 32 bits. Two fields are bookkeeping of the model only: owners[k] is the CU id
   that the k-th context was created for, dropped counts the contexts a reset discarded.
   */
  datatype Du = Du(ues: seq<Ue>, num: int, nextId: nat, created: nat, released: nat, owners: seq<nat>, dropped: nat)

  function NoUe(): Ue { Ue(false, 0, 0, 0, 0, []) }

  function Fresh(): Du { Du(seq(MAX_UES, _ => NoUe()), 0, 1, 0, 0, [], 0) }

  function IsActive(u: Ue): nat { if u.active then 1 else 0 }

  predicate IsFree(u: Ue) { !u.active }

  function HasCuId(cuId: nat): Ue -> bool { (u: Ue) => u.active && u.cuId == cuId }

  predicate Storable(m: Msg) {
    m.SetupRequest? ==> |m.drbs| <= MAX_DRBS && forall i :: 0 <= i < |m.drbs| ==> m.drbs[i] < 256
  }

  function Setup(d: Du, m: Msg): (Du, Msg)
    requires m.SetupRequest? && Storable(m)
  {
    var i := First(d.ues, IsFree);
    if i == |d.ues| then (d, SetupFailure) else
    (d.(ues := d.ues[i := Ue(true, d.nextId, m.cuId, m.ranId, m.cell, m.drbs)],
        num := d.num + 1,
        nextId := (d.nextId + 1) % ID_RANGE,
        created := d.created + 1,
        owners := d.owners + [m.cuId]),
     SetupResponse(m.cuId, d.nextId, Tunnels(d.nextId, m.drbs)))
  }

  function Release(d: Du, m: Msg): (Du, Msg)
    requires m.ReleaseCommand?
  {
    var i := First(d.ues, HasCuId(m.cuId));
    (if i == |d.ues| then d
     else d.(ues := d.ues[i := d.ues[i].(active := false)], num := d.num - 1, released := d.released + 1),
     ReleaseComplete(m.cuId, m.duId))
  }

  function Emptied(ues: seq<Ue>): (r: seq<Ue>)
    ensures |r| == |ues| && forall i :: 0 <= i < |ues| ==> r[i] == ues[i].(active := false)
  {
    seq(|ues|, i requires 0 <= i < |ues| => ues[i].(active := false))
  }

  function Reset(d: Du): (Du, Msg) {
    (d.(ues := Emptied(d.ues), num := 0, dropped := d.dropped + Sum(d.ues, IsActive)), ResetResponse)
  }

  /** Messages a DU has no context handler for leave its contexts alone and get no such answer. */
  function Handle(d: Du, m: Msg): (Du, seq<Msg>)
    requires Storable(m)
  {
    match m
    case SetupRequest(_, _, _, _) => (Setup(d, m).0, [Setup(d, m).1])
    case ReleaseCommand(_, _) => (Release(d, m).0, [Release(d, m).1])
    case ResetRequest => (Reset(d).0, [Reset(d).1])
    case _ => (d, [])
  }

  // --- the invariant ------------------------------------------------------------------------

  /** duId is the identifier the DU gave to the k-th context, which was created for cuId. */
  predicate GivenAt(d: Du, duId: nat, cuId: nat, k: nat) {
    k < |d.owners| && d.owners[k] == cuId && duId == (k + 1) % ID_RANGE
  }

  ghost predicate Given(d: Du, duId: nat, cuId: nat) {
    exists k :: GivenAt(d, duId, cuId, k)
  }

  /** Active contexts are those of distinct creations. */
  ghost predicate ContextsOk(d: Du, which: seq<nat>) {
    && |which| == |d.ues|
    && (forall i :: 0 <= i < |d.ues| && d.ues[i].active ==> GivenAt(d, d.ues[i].duId, d.ues[i].cuId, which[i]))
    && (forall i, j :: 0 <= i < j < |d.ues| && d.ues[i].active && d.ues[j].active ==> which[i] != which[j])
  }

  predicate Ledger(d: Du) {
    && |d.ues| == MAX_UES
    && d.num == Sum(d.ues, IsActive)
    && d.created == d.released + d.num + d.dropped
    && d.created == |d.owners|
    && d.nextId == (|d.owners| + 1) % ID_RANGE
  }

  ghost predicate Inv(d: Du) {
    Ledger(d) && exists which :: ContextsOk(d, which)
  }

  lemma UnusedOk(d: Du)
    requires |d.ues| == MAX_UES && forall i :: 0 <= i < |d.ues| ==> !d.ues[i].active
    requires d.num == d.created == d.released == d.dropped == 0 && d.nextId == 1 && d.owners == []
    ensures Inv(d)
  {
    SumZero(d.ues, IsActive);
    assert ContextsOk(d, seq(|d.ues|, _ => 0));
  }

  lemma FreshOk(d: Du)
    requires d == Fresh()
    ensures Inv(d) && forall i :: 0 <= i < |d.ues| ==> !d.ues[i].active
  {
    UnusedOk(d);
  }

  lemma WrapNext(n: nat)
    ensures (n % ID_RANGE + 1) % ID_RANGE == (n + 1) % ID_RANGE
  {}

  lemma SetupKeeps(d: Du, m: Msg)
    requires Inv(d) && m.SetupRequest? && Storable(m)
    ensures Inv(Setup(d, m).0)
  {
    var i := First(d.ues, IsFree);
    if i < |d.ues| {
      var e := Setup(d, m).0;
      SumUpdate(d.ues, IsActive, i, e.ues[i]);
      WrapNext(|d.owners| + 1);
      SetupKeepsContexts(d, m);
    }
  }

  lemma SetupKeepsContexts(d: Du, m: Msg)
    requires Inv(d) && m.SetupRequest? && Storable(m)
    ensures exists which :: ContextsOk(Setup(d, m).0, which)
  {
    var which :| ContextsOk(d, which);
    var i := First(d.ues, IsFree);
    if i < |d.ues| {
      assert ContextsOk(Setup(d, m).0, which[i := |d.owners|]);
    } else {
      assert Setup(d, m).0 == d;
    }
  }

  lemma ReleaseKeeps(d: Du, m: Msg)
    requires Inv(d) && m.ReleaseCommand?
    ensures Inv(Release(d, m).0)
  {
    var i := First(d.ues, HasCuId(m.cuId));
    if i < |d.ues| {
      SumUpdate(d.ues, IsActive, i, d.ues[i].(active := false));
      var which :| ContextsOk(d, which);
      assert ContextsOk(Release(d, m).0, which);
    }
  }

  lemma ResetKeeps(d: Du)
    requires Inv(d)
    ensures Inv(Reset(d).0)
  {
    SumZero(Emptied(d.ues), IsActive);
    var which :| ContextsOk(d, which);
    assert ContextsOk(Reset(d).0, which);
  }

  /** Any message, wherever it comes from, keeps the ledger: created = released + active + dropped. */
  lemma HandleKeeps(d: Du, m: Msg)
    requires Inv(d) && Storable(m)
    ensures Inv(Handle(d, m).0)
  {
    match m
    case SetupRequest(_, _, _, _) => SetupKeeps(d, m);
    case ReleaseCommand(_, _) => ReleaseKeeps(d, m);
    case ResetRequest => ResetKeeps(d);
    case _ =>
  }

  /** Identifiers once given stay given, to the same CU id. */
  lemma GivenStays(d: Du, m: Msg, duId: nat, cuId: nat)
    requires Storable(m) && Given(d, duId, cuId)
    ensures Given(Handle(d, m).0, duId, cuId)
  {
    var k: nat :| GivenAt(d, duId, cuId, k);
    assert GivenAt(Handle(d, m).0, duId, cuId, k);
  }

  /** While fewer than 2^32 contexts have been created, an identifier is given once and is never 0. */
  lemma GivenOnce(d: Du, duId: nat, cuId: nat, other: nat)
    requires |d.owners| < ID_RANGE && Given(d, duId, cuId) && Given(d, duId, other)
    ensures cuId == other && duId != 0
  {}

  /** Under the same bound no two active contexts share an identifier. */
  lemma ActiveIdsDistinct(d: Du, i: nat, j: nat)
    requires Inv(d) && |d.owners| < ID_RANGE
    requires i < j < |d.ues| && d.ues[i].active && d.ues[j].active
    ensures d.ues[i].duId != d.ues[j].duId
  {}

  /** A setup is refused exactly when all contexts are in use. */
  lemma RefusedWhenFull(d: Du, m: Msg)
    requires Inv(d) && m.SetupRequest? && Storable(m)
    ensures Setup(d, m).1.SetupFailure? <==> d.num == MAX_UES
  {
    FirstFree(d.ues, IsActive, IsFree);
    SumFull(d.ues, IsActive);
  }

  // --- the object -----------------------------------------------------------------------------

  class DuServer {
    const ues: array<Ue>
    var num: int
    var nextId: nat
    var created: nat
    var released: nat
    ghost var owners: seq<nat>
    ghost var dropped: nat

    ghost function Model(): Du
      reads this, ues
    {
      Du(ues[..], num, nextId, created, released, owners, dropped)
    }

    constructor ()
      ensures fresh(ues) && Model() == Fresh()
    {
      ues := new Ue[MAX_UES](_ => NoUe());
      num, nextId, created, released, owners, dropped := 0, 1, 0, 0, [], 0;
      new;
      assert ues[..] == Fresh().ues;
    }

    method SetupContext(m: Msg) returns (answer: Msg)
      requires m.SetupRequest? && Storable(m)
      modifies this, ues
      ensures (Model(), answer) == Setup(old(Model()), m)
    {
      var i := Scan(ues, IsFree);
      if i == ues.Length {
        return SetupFailure;
      }
      var id := nextId;
      nextId := (nextId + 1) % ID_RANGE;
      ues[i] := Ue(true, id, m.cuId, m.ranId, m.cell, m.drbs);
      num := num + 1;
      created := created + 1;
      owners := owners + [m.cuId];
      answer := SetupResponse(m.cuId, id, Tunnels(id, m.drbs));
    }

    method ReleaseContext(m: Msg) returns (answer: Msg)
      requires m.ReleaseCommand?
      modifies this, ues
      ensures (Model(), answer) == Release(old(Model()), m)
    {
      var i := Scan(ues, HasCuId(m.cuId));
      if i < ues.Length {
        ues[i] := ues[i].(active := false);
        num := num - 1;
        released := released + 1;
      }
      answer := ReleaseComplete(m.cuId, m.duId);
    }

    method ResetAll() returns (answer: Msg)
      modifies this, ues
      ensures (Model(), answer) == Reset(old(Model()))
    {
      ghost var before := ues[..];
      var i := 0;
      while i < ues.Length
        invariant i <= ues.Length && Model() == old(Model()).(ues := ues[..])
        invariant forall k :: 0 <= k < ues.Length ==> ues[k] == if k < i then before[k].(active := false) else before[k]
      {
        ues[i] := ues[i].(active := false);
        i := i + 1;
      }
      assert ues[..] == Emptied(before);
      num := 0;
      dropped := dropped + Sum(before, IsActive);
      answer := ResetResponse;
    }

    method Process(m: Msg) returns (answers: seq<Msg>)
      requires Storable(m)
      modifies this, ues
      ensures (Model(), answers) == Handle(old(Model()), m)
    {
      answers := [];
      match m {
        case SetupRequest(_, _, _, _) =>
          var r := SetupContext(m);
          answers := [r];
        case ReleaseCommand(_, _) =>
          var r := ReleaseContext(m);
          answers := [r];
        case ResetRequest =>
          var r := ResetAll();
          answers := [r];
        case _ =>
      }
    }
  }
}
