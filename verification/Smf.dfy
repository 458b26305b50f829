/**
 The mock SMF's sessions (src/mock_core/mock_smf.c): a table of 1024 * 16 slots, UE addresses
 handed out in a circle over the configured pool, and tunnel ids computed from UE and session.
 */
module Smf {
  import opened Wrappers
  import opened Slots

  const MAX_SESSIONS: nat := 1024 * 16
  const WORD: nat := 0x1_0000_0000

  datatype Session = Session(active: bool, pduId: nat, amfId: nat, ip: nat, teid: nat)

  /** The configured pool, and next_ue_ip as configured: the defaults start at the beginning, other configurations need not. */
  datatype Pool = Pool(start: nat, end: nat, first: nat)

  /** addresses lists all addresses handed out so far; it is bookkeeping of the model only. */
  datatype State = State(sessions: seq<Session>, num: int, created: nat, released: nat, pool: Pool, nextIp: nat, addresses: seq<nat>)

  function NoSession(): Session { Session(false, 0, 0, 0, 0) }

  function Fresh(pool: Pool): State {
    State(seq(MAX_SESSIONS, _ => NoSession()), 0, 0, 0, pool, pool.first, [])
  }

  function IsActive(s: Session): nat { if s.active then 1 else 0 }

  predicate IsFree(s: Session) { !s.active }

  function IsSession(pduId: nat, amfId: nat): Session -> bool {
    (s: Session) => s.active && s.pduId == pduId && s.amfId == amfId
  }

  /** Both operations of the increment are on 32 bits. */
  function Advance(pool: Pool, ip: nat): nat {
    var n := (ip + 1) % WORD;
    if n > pool.end then pool.start else n
  }

  /** (uint32_t)amf_ue_id * 1000 + pdu_session_id */
  function Teid(amfId: nat, pduId: nat): nat {
    ((amfId % WORD) * 1000 + pduId) % WORD
  }

  function Create(s: State, amfId: nat, pduId: nat): (State, Option<nat>) {
    var i := First(s.sessions, IsFree);
    if i == |s.sessions| then (s, None) else
    (State(s.sessions[i := Session(true, pduId, amfId, s.nextIp, Teid(amfId, pduId))], s.num + 1, s.created + 1, s.released,
           s.pool, Advance(s.pool, s.nextIp), s.addresses + [s.nextIp]),
     Some(i))
  }

  function Release(s: State, pduId: nat, amfId: nat): State {
    var i := First(s.sessions, IsSession(pduId, amfId));
    if i == |s.sessions| then s
    else s.(sessions := s.sessions[i := s.sessions[i].(active := false)], num := s.num - 1, released := s.released + 1)
  }

  function Find(s: State, pduId: nat, amfId: nat): Option<nat> {
    var i := First(s.sessions, IsSession(pduId, amfId));
    if i == |s.sessions| then None else Some(i)
  }

  datatype Op = DoCreate(amfId: nat, pduId: nat) | DoRelease(pduId: nat, amfId: nat)

  function Apply(s: State, op: Op): State {
    match op
    case DoCreate(amfId, pduId) => Create(s, amfId, pduId).0
    case DoRelease(pduId, amfId) => Release(s, pduId, amfId)
  }

  function After(s: State, ops: seq<Op>): State
    decreases |ops|
  {
    if ops == [] then s else After(Apply(s, ops[0]), ops[1..])
  }

  // --- the ledger and the addresses -----------------------------------------------------------

  /** The first address is in the pool, and the address after the last one is found to be past the end. */
  predicate PoolOk(p: Pool) {
    p.start <= p.first <= p.end < WORD && (p.end < WORD - 1 || p.start == 0)
  }

  function Size(p: Pool): nat
    requires PoolOk(p)
  {
    p.end - p.start + 1
  }

  /** The n-th address from the first one on, round and round. */
  function Turn(p: Pool, n: nat): nat
    requires PoolOk(p)
  {
    p.start + (p.first - p.start + n) % Size(p)
  }

  predicate Ledger(s: State) {
    && |s.sessions| == MAX_SESSIONS
    && s.num == Sum(s.sessions, IsActive)
    && s.created == s.released + s.num
    && s.created == |s.addresses|
  }

  ghost predicate RoundRobin(s: State)
    requires PoolOk(s.pool)
  {
    && s.nextIp == Turn(s.pool, |s.addresses|)
    && forall k :: 0 <= k < |s.addresses| ==> s.addresses[k] == Turn(s.pool, k)
  }

  /** Each active session stands for one creation, with the address handed out then and the tunnel id of its key. */
  ghost predicate CreationsOk(s: State, which: seq<nat>) {
    && |which| == |s.sessions|
    && (forall i :: 0 <= i < |s.sessions| && s.sessions[i].active ==> CreatedAs(s, s.sessions[i], which[i]))
    && (forall i, j :: 0 <= i < j < |s.sessions| && s.sessions[i].active && s.sessions[j].active ==> which[i] != which[j])
  }

  predicate CreatedAs(s: State, e: Session, k: nat) {
    k < |s.addresses| && e.ip == s.addresses[k] && e.teid == Teid(e.amfId, e.pduId)
  }

  ghost predicate Inv(s: State) {
    && Ledger(s)
    && (PoolOk(s.pool) ==> RoundRobin(s))
    && exists which :: CreationsOk(s, which)
  }

  lemma Gap(p: nat, q: nat, size: nat)
    ensures p < q ==> p * size + size <= q * size
  {
    if p < q {
      var d := q - p - 1;
      assert q * size == (p + 1 + d) * size == p * size + size + d * size;
    }
  }

  lemma Unique(size: nat, p: nat, t: nat, q: nat, r: nat)
    requires r < size && t < size && p * size + t == q * size + r
    ensures p == q && t == r
  {
    Gap(p, q, size);
    Gap(q, p, size);
  }

  lemma Divided(n: nat, size: nat)
    requires size > 0
    ensures n == (n / size) * size + n % size
  {}

  lemma Remainder(n: nat, size: nat, q: nat, r: nat)
    requires r < size && n == q * size + r
    ensures n % size == r
  {
    Divided(n, size);
    Unique(size, n / size, n % size, q, r);
  }

  lemma NextInCircle(n: nat, size: nat)
    requires size > 0
    ensures (n + 1) % size == if n % size + 1 == size then 0 else n % size + 1
  {
    var q, r := n / size, n % size;
    Divided(n, size);
    if r + 1 == size {
      assert (q + 1) * size == q * size + size;
      Remainder(n + 1, size, q + 1, 0);
    } else {
      Remainder(n + 1, size, q, r + 1);
    }
  }

  lemma AdvanceIsCircle(p: Pool, n: nat)
    requires PoolOk(p)
    ensures p.start <= Turn(p, n) <= p.end && Advance(p, Turn(p, n)) == Turn(p, n + 1)
  {
    NextInCircle(p.first - p.start + n, Size(p));
  }

  lemma CreateKeepsBooks(s: State, amfId: nat, pduId: nat)
    requires Inv(s)
    ensures var t := Create(s, amfId, pduId).0; Ledger(t) && (PoolOk(t.pool) ==> RoundRobin(t))
  {
    var i := First(s.sessions, IsFree);
    if i < |s.sessions| {
      SumUpdate(s.sessions, IsActive, i, Create(s, amfId, pduId).0.sessions[i]);
      if PoolOk(s.pool) {
        AdvanceIsCircle(s.pool, |s.addresses|);
      }
    }
  }

  lemma CreateKeepsCreations(s: State, amfId: nat, pduId: nat)
    requires Inv(s)
    ensures exists which :: CreationsOk(Create(s, amfId, pduId).0, which)
  {
    var which :| CreationsOk(s, which);
    var i := First(s.sessions, IsFree);
    if i < |s.sessions| {
      assert CreationsOk(Create(s, amfId, pduId).0, which[i := |s.addresses|]);
    } else {
      assert Create(s, amfId, pduId).0 == s;
    }
  }

  lemma CreateKeeps(s: State, amfId: nat, pduId: nat)
    requires Inv(s)
    ensures Inv(Create(s, amfId, pduId).0)
  {
    CreateKeepsBooks(s, amfId, pduId);
    CreateKeepsCreations(s, amfId, pduId);
  }

  lemma ReleaseKeeps(s: State, pduId: nat, amfId: nat)
    requires Inv(s)
    ensures Inv(Release(s, pduId, amfId))
  {
    var which :| CreationsOk(s, which);
    var i := First(s.sessions, IsSession(pduId, amfId));
    if i < |s.sessions| {
      SumUpdate(s.sessions, IsActive, i, s.sessions[i].(active := false));
      assert CreationsOk(Release(s, pduId, amfId), which);
    }
  }

  lemma {:induction false} RunKeeps(s: State, ops: seq<Op>)
    requires Inv(s)
    ensures Inv(After(s, ops)) && After(s, ops).pool == s.pool
    decreases |ops|
  {
    if ops != [] {
      match ops[0] {
        case DoCreate(amfId, pduId) => CreateKeeps(s, amfId, pduId);
        case DoRelease(pduId, amfId) => ReleaseKeeps(s, pduId, amfId);
      }
      RunKeeps(Apply(s, ops[0]), ops[1..]);
    }
  }

  lemma FreshOk(s: State)
    requires s == Fresh(s.pool)
    ensures Inv(s)
  {
    UnusedOk(s);
  }

  lemma UnusedOk(s: State)
    requires |s.sessions| == MAX_SESSIONS && forall i :: 0 <= i < |s.sessions| ==> !s.sessions[i].active
    requires s.num == s.created == s.released == 0 && s.addresses == [] && s.nextIp == s.pool.first
    ensures Inv(s)
  {
    SumZero(s.sessions, IsActive);
    if PoolOk(s.pool) {
      Remainder(s.pool.first - s.pool.start, Size(s.pool), 0, s.pool.first - s.pool.start);
    }
    assert CreationsOk(s, seq(|s.sessions|, _ => 0));
  }

  /** For any configuration: the counter counts the active sessions, and created = released + active. */
  lemma LedgerBalances(s: State, ops: seq<Op>)
    requires s == Fresh(s.pool)
    ensures var t := After(s, ops); t.num == Sum(t.sessions, IsActive) && t.created == t.released + t.num == |t.addresses|
  {
    FreshOk(s);
    RunKeeps(s, ops);
  }

  /** The k-th session ever created has the k-th address in turn, however many were released in between. */
  lemma AddressLaw(s: State, ops: seq<Op>, k: nat)
    requires s == Fresh(s.pool) && PoolOk(s.pool) && k < |After(s, ops).addresses|
    ensures After(s, ops).addresses[k] == Turn(s.pool, k)
    ensures s.pool.first == s.pool.start ==> Turn(s.pool, k) == s.pool.start + k % Size(s.pool)
  {
    FreshOk(s);
    RunKeeps(s, ops);
  }

  lemma Apart(j: nat, k: nat, size: nat)
    requires size > 0 && j < k && j % size == k % size
    ensures k - j >= size
  {
    var p, q := j / size, k / size;
    Divided(j, size);
    Divided(k, size);
    Gap(p, q, size);
    Gap(q, p, size);
  }

  lemma TurnsDistinct(p: Pool, j: nat, k: nat)
    requires PoolOk(p) && j < k && k - j < Size(p)
    ensures Turn(p, j) != Turn(p, k)
  {
    var off := p.first - p.start;
    if (off + j) % Size(p) == (off + k) % Size(p) {
      Apart(off + j, off + k, Size(p));
    }
  }

  /** As many consecutive sessions as the pool has addresses get different ones. */
  lemma ConsecutiveAddressesDistinct(s: State, ops: seq<Op>, j: nat, k: nat)
    requires s == Fresh(s.pool) && PoolOk(s.pool) && j < k < |After(s, ops).addresses| && k - j < Size(s.pool)
    ensures After(s, ops).addresses[j] != After(s, ops).addresses[k]
  {
    AddressLaw(s, ops, j);
    AddressLaw(s, ops, k);
    TurnsDistinct(s.pool, j, k);
  }

  /** The new session is found under its key, with the next address in turn and the tunnel id of its key. */
  lemma CreatedSession(s: State, amfId: nat, pduId: nat)
    requires Inv(s) && PoolOk(s.pool) && Create(s, amfId, pduId).1.Some?
    ensures var (t, slot) := Create(s, amfId, pduId);
            && slot.value < |t.sessions| && Find(t, pduId, amfId).Some?
            && t.sessions[slot.value] == Session(true, pduId, amfId, Turn(s.pool, s.created), Teid(amfId, pduId))
  {
    var (t, slot) := Create(s, amfId, pduId);
    assert IsSession(pduId, amfId)(t.sessions[slot.value]);
  }

  /** Every active session has an address of the pool; until the pool has gone round no two share one. */
  lemma ActiveAddresses(s: State, ops: seq<Op>, i: nat, j: nat)
    requires s == Fresh(s.pool) && PoolOk(s.pool)
    requires i < j < |After(s, ops).sessions| && After(s, ops).sessions[i].active && After(s, ops).sessions[j].active
    ensures var t := After(s, ops);
            && s.pool.start <= t.sessions[i].ip <= s.pool.end
            && (t.created <= Size(s.pool) ==> t.sessions[i].ip != t.sessions[j].ip)
  {
    FreshOk(s);
    RunKeeps(s, ops);
    var t := After(s, ops);
    var which :| CreationsOk(t, which);
    var k, l := which[i], which[j];
    assert CreatedAs(t, t.sessions[i], k) && CreatedAs(t, t.sessions[j], l);
    AdvanceIsCircle(s.pool, k);
    if t.created <= Size(s.pool) {
      TurnsDistinct(s.pool, if k < l then k else l, if k < l then l else k);
    }
  }

  // --- exactly which pools hold their addresses -------------------------------------------------

  /** n sessions created and released one after the other. */
  function Cycles(n: nat): seq<Op> {
    if n == 0 then [] else [DoCreate(0, 0), DoRelease(0, 0)] + Cycles(n - 1)
  }

  /** The next n addresses. */
  function Walk(p: Pool, ip: nat, n: nat): (r: seq<nat>)
    ensures |r| == n
    decreases n
  {
    if n == 0 then [] else [ip] + Walk(p, Advance(p, ip), n - 1)
  }

  predicate Unused(s: State) {
    s.sessions != [] && forall i :: 0 <= i < |s.sessions| ==> !s.sessions[i].active
  }

  lemma OneCycle(s: State)
    requires Unused(s)
    ensures var t := Release(Create(s, 0, 0).0, 0, 0);
            Unused(t) && t.pool == s.pool && t.nextIp == Advance(s.pool, s.nextIp) && t.addresses == s.addresses + [s.nextIp]
  {
    FirstIs(s.sessions, IsFree, 0);
    var t := Create(s, 0, 0).0;
    FirstIs(t.sessions, IsSession(0, 0), 0);
  }

  lemma {:induction false} CyclesWalk(s: State, n: nat)
    requires Unused(s)
    ensures After(s, Cycles(n)).addresses == s.addresses + Walk(s.pool, s.nextIp, n)
    decreases n
  {
    if n > 0 {
      var t := Release(Create(s, 0, 0).0, 0, 0);
      var rest := Cycles(n - 1);
      OneCycle(s);
      CyclesWalk(t, n - 1);
      assert Cycles(n)[1..] == [DoRelease(0, 0)] + rest && Cycles(n)[1..][1..] == rest;
      assert After(s, Cycles(n)) == After(t, rest);
      assert s.addresses + ([s.nextIp] + Walk(s.pool, t.nextIp, n - 1)) == (s.addresses + [s.nextIp]) + Walk(s.pool, t.nextIp, n - 1);
    }
  }

  /** A pool that ends at the last 32-bit address is walked past its end, to 0. */
  lemma {:induction false} WalkWraps(p: Pool, ip: nat, n: nat, k: nat)
    requires p.end == WORD - 1 && ip < WORD && ip + k <= WORD && k < n
    ensures Walk(p, ip, n)[k] == (ip + k) % WORD
    decreases n
  {
    if k > 0 && ip + 1 < WORD {
      WalkWraps(p, ip + 1, n - 1, k - 1);
    } else if k > 0 {
      assert Advance(p, ip) == 0 && k == 1;
    }
  }

  ghost predicate StaysInPool(s: State) {
    forall ops, k :: 0 <= k < |After(s, ops).addresses| ==> s.pool.start <= After(s, ops).addresses[k] <= s.pool.end
  }

  lemma BadPoolIsLeft(s: State)
    requires Unused(s) && s.addresses == [] && s.nextIp == s.pool.first
    requires s.pool.first < WORD && s.pool.end < WORD && !PoolOk(s.pool)
    ensures !StaysInPool(s)
  {
    var p := s.pool;
    var k := if p.start <= p.first <= p.end then WORD - p.first else 0;
    CyclesWalk(s, k + 1);
    if k > 0 {
      WalkWraps(p, p.first, k + 1, k);
    }
    assert After(s, Cycles(k + 1)).addresses[k] == Walk(p, p.first, k + 1)[k];
  }

  /**
   Over all runs, the addresses handed out belong to the configured pool if and only if the first
   one does and the pool does not end at the last 32-bit address without starting at 0.
   */
  lemma PoolLawIff(s: State)
    requires s == Fresh(s.pool) && s.pool.first < WORD && s.pool.end < WORD
    ensures StaysInPool(s) <==> PoolOk(s.pool)
  {
    if PoolOk(s.pool) {
      forall ops, k | 0 <= k < |After(s, ops).addresses|
        ensures s.pool.start <= After(s, ops).addresses[k] <= s.pool.end {
        AddressLaw(s, ops, k);
        AdvanceIsCircle(s.pool, k);
      }
    } else {
      BadPoolIsLeft(s);
    }
  }

  // --- tunnel ids ----------------------------------------------------------------------------

  /** The first UE id whose tunnel ids meet those of a smaller one. */
  const FIRST_REPEAT: nat := 12_884_902

  lemma TeidIs(u: nat, p: nat)
    requires p <= 255 && u < FIRST_REPEAT
    ensures Teid(u, p) == (u * 1000 + p) % WORD && u * 1000 + p < 3 * WORD
  {}

  lemma TeidsDistinct(u: nat, p: nat, v: nat, q: nat)
    requires p <= 255 && q <= 255 && u < FIRST_REPEAT && v < FIRST_REPEAT
    ensures Teid(u, p) == Teid(v, q) <==> u == v && p == q
  {
    TeidIs(u, p);
    TeidIs(v, q);
    var x, y := u * 1000 + p, v * 1000 + q;
    var i, j := x / WORD, y / WORD;
    assert x == i * WORD + x % WORD && y == j * WORD + y % WORD && i < 3 && j < 3;
    if Teid(u, p) == Teid(v, q) {
      NoWrap(u - v, p - q, i - j);
    }
  }

  /** 2^32 leaves 296 on division by 1000, and twice as much 592: too far from 0 for two session ids to bridge. */
  lemma NoWrap(e: int, r: int, d: int)
    requires 1000 * e + r == d * WORD && -255 <= r <= 255 && -2 <= d <= 2
    ensures e == 0 && r == 0
  {
    assert d == 1 ==> 1000 * (e - 4_294_967) == 296 - r;
    assert d == 2 ==> 1000 * (e - 8_589_934) == 592 - r;
    assert d == -1 ==> 1000 * (e + 4_294_967) == -296 - r;
    assert d == -2 ==> 1000 * (e + 8_589_934) == -592 - r;
  }

  lemma TeidsCollide()
    ensures Teid(FIRST_REPEAT, 0) == Teid(0, 112)
  {}

  ghost predicate TeidsInjective(n: nat) {
    forall u, p, v, q :: 0 <= u < n && 0 <= v < n && 0 <= p <= 255 && 0 <= q <= 255 && Teid(u, p) == Teid(v, q) ==> u == v && p == q
  }

  /** The initial tunnel ids of all UE ids below n and all 8-bit session ids are distinct if and only if n is at most FIRST_REPEAT. */
  lemma TeidsInjectiveIff(n: nat)
    ensures TeidsInjective(n) <==> n <= FIRST_REPEAT
  {
    if n <= FIRST_REPEAT {
      forall u, p, v, q | 0 <= u < n && 0 <= v < n && 0 <= p <= 255 && 0 <= q <= 255 && Teid(u, p) == Teid(v, q) ensures u == v && p == q {
        TeidsDistinct(u, p, v, q);
      }
    } else {
      TeidsCollide();
    }
  }

  /** Active sessions of different keys have different tunnel ids, as long as the UE ids are below FIRST_REPEAT. */
  lemma ActiveTunnelsDistinct(s: State, ops: seq<Op>, i: nat, j: nat)
    requires s == Fresh(s.pool)
    requires i < j < |After(s, ops).sessions| && After(s, ops).sessions[i].active && After(s, ops).sessions[j].active
    requires After(s, ops).sessions[i].amfId < FIRST_REPEAT && After(s, ops).sessions[j].amfId < FIRST_REPEAT
    requires After(s, ops).sessions[i].pduId <= 255 && After(s, ops).sessions[j].pduId <= 255
    ensures var a, b := After(s, ops).sessions[i], After(s, ops).sessions[j];
            a.teid == b.teid <==> a.amfId == b.amfId && a.pduId == b.pduId
  {
    FreshOk(s);
    RunKeeps(s, ops);
    var t := After(s, ops);
    var which :| CreationsOk(t, which);
    assert CreatedAs(t, t.sessions[i], which[i]) && CreatedAs(t, t.sessions[j], which[j]);
    TeidsDistinct(t.sessions[i].amfId, t.sessions[i].pduId, t.sessions[j].amfId, t.sessions[j].pduId);
  }

  // --- a session comes and goes ----------------------------------------------------------------

  function Holds(pduId: nat, amfId: nat): Session -> nat {
    (s: Session) => if s.active && s.pduId == pduId && s.amfId == amfId then 1 else 0
  }

  /** Create adds one session for its key and none for another; Release takes one away if there is one. */
  lemma KeyCounts(s: State, amfId: nat, pduId: nat, a: nat, p: nat)
    ensures var (t, slot) := Create(s, amfId, pduId);
            Sum(t.sessions, Holds(p, a)) == Sum(s.sessions, Holds(p, a)) + (if slot.Some? && a == amfId && p == pduId then 1 else 0)
    ensures Sum(Release(s, pduId, amfId).sessions, Holds(p, a))
            == Sum(s.sessions, Holds(p, a)) - (if Find(s, pduId, amfId).Some? && a == amfId && p == pduId then 1 else 0)
    ensures Find(s, p, a).Some? <==> Sum(s.sessions, Holds(p, a)) > 0
  {
    var f := Holds(p, a);
    var i := First(s.sessions, IsFree);
    if i < |s.sessions| {
      SumUpdate(s.sessions, f, i, Create(s, amfId, pduId).0.sessions[i]);
    }
    var j := First(s.sessions, IsSession(pduId, amfId));
    if j < |s.sessions| {
      SumUpdate(s.sessions, f, j, s.sessions[j].(active := false));
    }
    var k := First(s.sessions, IsSession(p, a));
    if k < |s.sessions| {
      SumBounds(s.sessions, f, k);
    } else {
      SumZero(s.sessions, f);
    }
  }

  class SmfServer {
    const sessions: array<Session>
    const pool: Pool
    var num: int
    var created: nat
    var released: nat
    var nextIp: nat
    ghost var addresses: seq<nat>

    ghost function Model(): State
      reads this, sessions
    {
      State(sessions[..], num, created, released, pool, nextIp, addresses)
    }

    constructor (pool: Pool)
      ensures fresh(sessions) && this.pool == pool && Model() == Fresh(pool)
    {
      sessions := new Session[MAX_SESSIONS](_ => NoSession());
      this.pool := pool;
      num, created, released, nextIp, addresses := 0, 0, 0, pool.first, [];
      new;
      assert sessions[..] == Fresh(pool).sessions;
    }

    method CreateSession(amfId: nat, pduId: nat) returns (slot: Option<nat>)
      modifies this, sessions
      ensures (Model(), slot) == Create(old(Model()), amfId, pduId)
    {
      var i := Scan(sessions, IsFree);
      if i == sessions.Length {
        return None;
      }
      sessions[i] := Session(true, pduId, amfId, nextIp, Teid(amfId, pduId));
      addresses := addresses + [nextIp];
      nextIp := (nextIp + 1) % WORD;
      if nextIp > pool.end {
        nextIp := pool.start;
      }
      num := num + 1;
      created := created + 1;
      slot := Some(i);
    }

    method ReleaseSession(pduId: nat, amfId: nat)
      modifies this, sessions
      ensures Model() == Release(old(Model()), pduId, amfId)
    {
      var i := Scan(sessions, IsSession(pduId, amfId));
      if i < sessions.Length {
        sessions[i] := sessions[i].(active := false);
        num := num - 1;
        released := released + 1;
      }
    }

    method FindSession(pduId: nat, amfId: nat) returns (slot: Option<nat>)
      ensures slot == Find(Model(), pduId, amfId)
    {
      var i := Scan(sessions, IsSession(pduId, amfId));
      slot := if i == sessions.Length then None else Some(i);
    }
  }
}
