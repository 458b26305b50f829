/**
 The mock CU-UP's bearer contexts (src/mock_core/mock_cu_up.c; Bearer Context Setup and
 Release of section 8.3.1 of 3GPP TS 38.463): 64 slots, filled in order of the first free one.
 */
module CuUp {
  import opened Slots

  const MAX_CONTEXTS: nat := 64
  const MAX_SESSIONS: nat := 256
  const ID_RANGE: nat := 0x1_0000_0000

  datatype Context = Context(active: bool, upId: nat, cpId: nat, ranId: nat, sessions: seq<nat>)

  /** given[k] is the CU-CP id of the k-th context; it is bookkeeping of the model only. */
  datatype State = State(contexts: seq<Context>, num: int, nextId: nat, created: nat, released: nat, sessionsSetUp: nat, given: seq<nat>)

  datatype Msg =
    | SetupRequest(cpId: nat, ranId: nat, sessions: seq<nat>)
    | SetupResponse(cpId: nat, upId: nat, sessions: seq<nat>)
    | SetupFailure
    | ReleaseCommand(cpId: nat, upId: nat)
    | ReleaseComplete(cpId: nat, upId: nat)
    | OtherMsg

  function NoContext(): Context { Context(false, 0, 0, 0, []) }

  function Fresh(): State { State(seq(MAX_CONTEXTS, _ => NoContext()), 0, 1, 0, 0, 0, []) }

  function IsActive(c: Context): nat { if c.active then 1 else 0 }

  predicate IsFree(c: Context) { !c.active }

  function HasCpId(cpId: nat): Context -> bool { (c: Context) => c.active && c.cpId == cpId }

  function AtMost(s: seq<nat>, n: nat): seq<nat> { if |s| <= n then s else s[..n] }

  function Setup(s: State, m: Msg): (State, Msg)
    requires m.SetupRequest?
  {
    var i := First(s.contexts, IsFree);
    if i == |s.contexts| then (s, SetupFailure) else
    var kept := AtMost(m.sessions, MAX_SESSIONS);
    (State(s.contexts[i := Context(true, s.nextId, m.cpId, m.ranId, kept)], s.num + 1, (s.nextId + 1) % ID_RANGE,
           s.created + 1, s.released, s.sessionsSetUp + |kept|, s.given + [m.cpId]),
     SetupResponse(m.cpId, s.nextId, kept))
  }

  function Release(s: State, m: Msg): (State, Msg)
    requires m.ReleaseCommand?
  {
    var i := First(s.contexts, HasCpId(m.cpId));
    (if i == |s.contexts| then s
     else s.(contexts := s.contexts[i := s.contexts[i].(active := false)], num := s.num - 1, released := s.released + 1),
     ReleaseComplete(m.cpId, m.upId))
  }

  function Handle(s: State, m: Msg): (State, seq<Msg>) {
    match m
    case SetupRequest(_, _, _) => (Setup(s, m).0, [Setup(s, m).1])
    case ReleaseCommand(_, _) => (Release(s, m).0, [Release(s, m).1])
    case _ => (s, [])
  }

  function After(s: State, msgs: seq<Msg>): State
    decreases |msgs|
  {
    if msgs == [] then s else After(Handle(s, msgs[0]).0, msgs[1..])
  }

  /** The identifier of the k-th context ever created. */
  function GivenId(k: nat): nat { (k + 1) % ID_RANGE }

  // --- the ledger -----------------------------------------------------------------------------

  predicate Ledger(s: State) {
    && |s.contexts| == MAX_CONTEXTS
    && s.num == Sum(s.contexts, IsActive)
    && s.created == s.released + s.num
    && s.created == |s.given|
    && s.nextId == GivenId(|s.given|)
  }

  /** An active context carries the identifier of one creation, for the CU-CP id it was created with. */
  predicate CreatedAt(s: State, c: Context, k: nat) {
    k < |s.given| && s.given[k] == c.cpId && c.upId == GivenId(k)
  }

  ghost predicate DistinctCreations(s: State, which: seq<nat>) {
    && |which| == |s.contexts|
    && (forall i :: 0 <= i < |s.contexts| && s.contexts[i].active ==> CreatedAt(s, s.contexts[i], which[i]))
    && (forall i, j :: 0 <= i < j < |s.contexts| && s.contexts[i].active && s.contexts[j].active ==> which[i] != which[j])
  }

  ghost predicate Inv(s: State) {
    Ledger(s) && exists which :: DistinctCreations(s, which)
  }

  /** A server as it is created: no context in use, all counters at their start. */
  ghost predicate Unused(s: State) {
    && |s.contexts| == MAX_CONTEXTS && (forall i :: 0 <= i < |s.contexts| ==> !s.contexts[i].active)
    && s.num == s.created == s.released == 0 && s.nextId == 1 && s.given == []
  }

  lemma FreshIsUnused()
    ensures Unused(Fresh())
  {}

  lemma UnusedOk(s: State)
    requires Unused(s)
    ensures Inv(s)
  {
    SumZero(s.contexts, IsActive);
    assert DistinctCreations(s, seq(|s.contexts|, _ => 0));
  }

  lemma SetupKeepsLedger(s: State, m: Msg)
    requires Ledger(s) && m.SetupRequest?
    ensures Ledger(Setup(s, m).0)
  {
    var i := First(s.contexts, IsFree);
    if i < |s.contexts| {
      SumUpdate(s.contexts, IsActive, i, Setup(s, m).0.contexts[i]);
    }
  }

  lemma SetupKeeps(s: State, m: Msg)
    requires Inv(s) && m.SetupRequest?
    ensures Inv(Setup(s, m).0)
  {
    SetupKeepsLedger(s, m);
    SetupKeepsCreations(s, m);
  }

  lemma SetupKeepsCreations(s: State, m: Msg)
    requires Inv(s) && m.SetupRequest?
    ensures exists which :: DistinctCreations(Setup(s, m).0, which)
  {
    var which :| DistinctCreations(s, which);
    var i := First(s.contexts, IsFree);
    if i < |s.contexts| {
      assert DistinctCreations(Setup(s, m).0, which[i := |s.given|]);
    } else {
      assert Setup(s, m).0 == s;
    }
  }

  lemma ReleaseKeeps(s: State, m: Msg)
    requires Inv(s) && m.ReleaseCommand?
    ensures Inv(Release(s, m).0)
  {
    var which :| DistinctCreations(s, which);
    var i := First(s.contexts, HasCpId(m.cpId));
    if i < |s.contexts| {
      SumUpdate(s.contexts, IsActive, i, s.contexts[i].(active := false));
      assert DistinctCreations(Release(s, m).0, which);
    }
  }

  lemma HandleKeeps(s: State, m: Msg)
    requires Inv(s)
    ensures Inv(Handle(s, m).0)
  {
    if m.SetupRequest? {
      SetupKeeps(s, m);
    } else if m.ReleaseCommand? {
      ReleaseKeeps(s, m);
    }
  }

  lemma {:induction false} RunKeeps(s: State, msgs: seq<Msg>)
    requires Inv(s)
    ensures Inv(After(s, msgs))
    decreases |msgs|
  {
    if msgs != [] {
      HandleKeeps(s, msgs[0]);
      RunKeeps(Handle(s, msgs[0]).0, msgs[1..]);
    }
  }

  lemma Balanced(t: State)
    requires Inv(t)
    ensures t.num == Sum(t.contexts, IsActive) <= MAX_CONTEXTS && t.created == t.released + t.num
  {
    SumFull(t.contexts, IsActive);
  }

  /**
   After any messages whatever: the count is the number of active contexts, created = released + active,
   and, until 2^32 contexts have been created, active contexts have distinct identifiers.
   */
  lemma LedgerBalances(s: State, msgs: seq<Msg>, i: nat, j: nat)
    requires Unused(s)
    ensures var t := After(s, msgs);
            && t.num == Sum(t.contexts, IsActive) <= MAX_CONTEXTS && t.created == t.released + t.num
            && (i < j < |t.contexts| && t.contexts[i].active && t.contexts[j].active && t.created < ID_RANGE
                ==> t.contexts[i].upId != t.contexts[j].upId)
  {
    UnusedOk(s);
    RunKeeps(s, msgs);
    Balanced(After(s, msgs));
    IdsDistinct(After(s, msgs), i, j);
  }

  lemma IdsDistinct(t: State, i: nat, j: nat)
    requires Inv(t)
    ensures i < j < |t.contexts| && t.contexts[i].active && t.contexts[j].active && t.created < ID_RANGE
            ==> t.contexts[i].upId != t.contexts[j].upId
  {}

  /** A new context's identifier was used before, by a live or a released context, exactly when the 32-bit counter has gone round. */
  lemma IdsReusedIff(s: State, m: Msg)
    requires Inv(s) && m.SetupRequest? && Setup(s, m).1.SetupResponse?
    ensures (exists k :: 0 <= k < |s.given| && Setup(s, m).1.upId == GivenId(k)) <==> |s.given| >= ID_RANGE
  {
    if |s.given| >= ID_RANGE {
      var k := |s.given| - ID_RANGE;
      assert GivenId(k) == GivenId(|s.given|);
    }
  }

  /** Refused exactly when all 64 slots are in use. */
  lemma RefusedWhenFull(s: State, m: Msg)
    requires Inv(s) && m.SetupRequest?
    ensures Setup(s, m).1.SetupFailure? <==> s.num == MAX_CONTEXTS
  {
    FirstFree(s.contexts, IsActive, IsFree);
    SumFull(s.contexts, IsActive);
  }

  class CuUpServer {
    const contexts: array<Context>
    var num: int
    var nextId: nat
    var created: nat
    var released: nat
    var sessionsSetUp: nat
    ghost var given: seq<nat>

    ghost function Model(): State
      reads this, contexts
    {
      State(contexts[..], num, nextId, created, released, sessionsSetUp, given)
    }

    constructor ()
      ensures fresh(contexts) && Model() == Fresh()
    {
      contexts := new Context[MAX_CONTEXTS](_ => NoContext());
      num, nextId, created, released, sessionsSetUp, given := 0, 1, 0, 0, 0, [];
      new;
      assert contexts[..] == Fresh().contexts;
    }

    method SetUp(m: Msg) returns (answer: Msg)
      requires m.SetupRequest?
      modifies this, contexts
      ensures (Model(), answer) == Setup(old(Model()), m)
    {
      var i := Scan(contexts, IsFree);
      if i == contexts.Length {
        return SetupFailure;
      }
      var id := nextId;
      nextId := (nextId + 1) % ID_RANGE;
      num := num + 1;
      created := created + 1;
      var kept := CopySessions(m.sessions);
      contexts[i] := Context(true, id, m.cpId, m.ranId, kept);
      given := given + [m.cpId];
      answer := SetupResponse(m.cpId, id, kept);
    }

    /** Copies and counts the PDU sessions, as far as the context has room. */
    method CopySessions(sessions: seq<nat>) returns (kept: seq<nat>)
      modifies `sessionsSetUp
      ensures kept == AtMost(sessions, MAX_SESSIONS) && sessionsSetUp == old(sessionsSetUp) + |kept|
    {
      kept := [];
      var i := 0;
      while i < |sessions| && i < MAX_SESSIONS
        invariant i <= |sessions| && i <= MAX_SESSIONS && kept == sessions[..i] && sessionsSetUp == old(sessionsSetUp) + i
      {
        kept := kept + [sessions[i]];
        sessionsSetUp := sessionsSetUp + 1;
        i := i + 1;
      }
    }

    method Process(m: Msg) returns (answers: seq<Msg>)
      modifies this, contexts
      ensures (Model(), answers) == Handle(old(Model()), m)
    {
      answers := [];
      if m.SetupRequest? {
        var r := SetUp(m);
        answers := [r];
      } else if m.ReleaseCommand? {
        var i := Scan(contexts, HasCpId(m.cpId));
        if i < contexts.Length {
          contexts[i] := contexts[i].(active := false);
          num := num - 1;
          released := released + 1;
        }
        answers := [ReleaseComplete(m.cpId, m.upId)];
      }
    }
  }
}
