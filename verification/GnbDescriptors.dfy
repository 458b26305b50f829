/**
 The sockets of one UE (src/core/uesim_core.c): which descriptors each operation opens and closes, and
 which of them the UE still knows of afterwards. The program leaks some; the ledger says exactly when.
 */
module GnbDescriptors {
  import opened Wrappers
  import opened GnbConnect
  import opened GnbSet

  function Fds(g: Gnb): set<nat> {
    (if g.ngap >= 0 then {g.ngap} else {}) + (if g.gtpu >= 0 then {g.gtpu} else {})
  }

  ghost predicate HeldIn(gnbs: seq<Gnb>, fd: nat) {
    exists i :: 0 <= i < |gnbs| && fd in Fds(gnbs[i])
  }

  /** Some gNB of the UE has it. */
  ghost predicate IsHeld(u: Ue, fd: nat) {
    (u.serving.Some? && fd in Fds(u.serving.value)) || HeldIn(u.cands, fd)
  }

  predicate Tidy(g: Gnb) { g.ngap >= 0 ==> g.ngap != g.gtpu }

  /** No descriptor is held twice. */
  ghost predicate Distinct(u: Ue) {
    && (u.serving.Some? ==> Tidy(u.serving.value) && forall i :: 0 <= i < |u.cands| ==> Fds(u.serving.value) !! Fds(u.cands[i]))
    && (forall i :: 0 <= i < |u.cands| ==> Tidy(u.cands[i]))
    && (forall i, j :: 0 <= i < j < |u.cands| ==> Fds(u.cands[i]) !! Fds(u.cands[j]))
  }

  /** What is open is held by one gNB or lost, and not both. */
  ghost predicate Accounted(u: Ue, open: set<nat>, lost: set<nat>) {
    && Distinct(u)
    && (forall fd :: fd in open <==> IsHeld(u, fd) || fd in lost)
    && (forall fd :: fd in lost ==> !IsHeld(u, fd))
  }

  // --- what each operation does with descriptors ---------------------------------------------

  function Closes(g: Gnb): seq<Fd> {
    (if g.ngap >= 0 then [Shut(g.ngap)] else []) + (if g.gtpu >= 0 then [Shut(g.gtpu)] else [])
  }

  function ClosesAll(gnbs: seq<Gnb>): seq<Fd> {
    if gnbs == [] then [] else ClosesAll(gnbs[..|gnbs| - 1]) + Closes(gnbs[|gnbs| - 1])
  }

  ghost function ConnectEvents(g: Gnb, env: Env): seq<Fd>
    requires env.gtpu >= -1
  {
    var r := Retried(env.os);
    if g.state.Connected? then []
    else if r.status != Success || r.socket < 0 then r.events
    else r.events + [if env.gtpu < 0 then Shut(r.socket) else Open(env.gtpu)]
  }

  function ClosesServing(u: Ue): seq<Fd> {
    if u.serving.Some? then Closes(u.serving.value) else []
  }

  function ServingClosed(u: Ue): Ue {
    if u.serving.Some? then Disconnect(u, Serving) else u
  }

  /** The UE's own copies, as they stand once the serving gNB is disconnected. */
  function ClosesMirror(u: Ue): seq<Fd> {
    (if u.ngap >= 0 then [Shut(u.ngap)] else []) + (if u.gtpu >= 0 then [Shut(u.gtpu)] else [])
  }

  function StopEvents(u: Ue): seq<Fd> {
    if u.active then ClosesServing(u) + ClosesAll(u.cands) + ClosesMirror(ServingClosed(u)) else []
  }

  ghost function Events(u: Ue, op: Op): seq<Fd>
    requires Enabled(u, op)
  {
    match op
    case DoRemove(t) => if t.Cand? && u.cands[t.i].state.Connected? then Closes(u.cands[t.i]) else []
    case DoConnect(t, env) => ConnectEvents(At(u, t), env)
    case DoDisconnect(t) => Closes(At(u, t))
    case DoStop => StopEvents(u)
    case DoHandover(env) => if Best(u.cands).Some? then ConnectEvents(u.cands[Best(u.cands).value], env) else []
    case DoAttach(env) => if u.serving.Some? then ConnectEvents(u.serving.value, env) else []
    case _ => []
  }

  // --- what each operation loses ----------------------------------------------------------------

  /** A connection overwrites ngap_socket at the first attempt, and gtpu_socket once connected. */
  ghost function Overwritten(g: Gnb, env: Env): set<nat> {
    if g.state.Connected? then {}
    else if Retried(env.os).status == Success then Fds(g)
    else if g.ngap >= 0 then {g.ngap} else {}
  }

  /** A switch with every slot taken drops the old serving gNB, unclosed. */
  function Crowded(u: Ue): set<nat> {
    if u.serving.Some? && |u.cands| >= MAX_CANDIDATES then Fds(u.serving.value) else {}
  }

  /** The descriptors left open that no gNB of the UE has any more after op. */
  ghost function Lost(u: Ue, op: Op): set<nat>
    requires Enabled(u, op)
  {
    match op
    case DoRemove(t) => if t.Cand? && !u.cands[t.i].state.Connected? then Fds(u.cands[t.i]) else {}
    case DoConnect(t, env) => Overwritten(At(u, t), env)
    case DoSwitch(t) => if t.Cand? then Crowded(u) else {}
    case DoHandover(env) =>
      if Best(u.cands).None? then {} else
      Overwritten(u.cands[Best(u.cands).value], env) + if Handover(u, env).1 == Success then Crowded(u) else {}
    case DoAttach(env) => if u.serving.Some? then Overwritten(u.serving.value, env) else {}
    case _ => {}
  }

  // --- closing -------------------------------------------------------------------------------------

  lemma ShutOne(open: set<nat>, fd: nat)
    requires fd in open
    ensures Honest(open, [Shut(fd)]) && NoStrayClose(open, [Shut(fd)]) && Play(open, [Shut(fd)]) == open - {fd}
  {
    assert Play(open - {fd}, []) == open - {fd};
  }

  lemma OpenOne(open: set<nat>, fd: nat)
    ensures (Honest(open, [Open(fd)]) <==> fd !in open) && NoStrayClose(open, [Open(fd)]) && Play(open, [Open(fd)]) == open + {fd}
  {
    assert Play(open + {fd}, []) == open + {fd};
  }

  lemma CloseEffect(open: set<nat>, g: Gnb)
    requires Fds(g) <= open && Tidy(g)
    ensures Honest(open, Closes(g)) && NoStrayClose(open, Closes(g)) && Play(open, Closes(g)) == open - Fds(g)
  {
    var first := if g.ngap >= 0 then [Shut(g.ngap)] else [];
    var second := if g.gtpu >= 0 then [Shut(g.gtpu)] else [];
    PlayConcat(open, first, second);
    if g.ngap >= 0 {
      ShutOne(open, g.ngap);
    }
    var rest := Play(open, first);
    if g.gtpu >= 0 {
      ShutOne(rest, g.gtpu);
    }
    assert Closes(g) == first + second;
  }

  lemma {:induction false} CloseAllEffect(open: set<nat>, gnbs: seq<Gnb>)
    requires forall i :: 0 <= i < |gnbs| ==> Tidy(gnbs[i]) && Fds(gnbs[i]) <= open
    requires forall i, j :: 0 <= i < j < |gnbs| ==> Fds(gnbs[i]) !! Fds(gnbs[j])
    ensures Honest(open, ClosesAll(gnbs)) && NoStrayClose(open, ClosesAll(gnbs))
    ensures forall fd :: fd in Play(open, ClosesAll(gnbs)) <==> fd in open && !HeldIn(gnbs, fd)
  {
    if gnbs != [] {
      var n := |gnbs| - 1;
      var init := gnbs[..n];
      CloseAllEffect(open, init);
      var rest := Play(open, ClosesAll(init));
      assert forall fd :: HeldIn(init, fd) ==> fd !in Fds(gnbs[n]);
      PlayConcat(open, ClosesAll(init), Closes(gnbs[n]));
      CloseEffect(rest, gnbs[n]);
      forall fd: nat ensures HeldIn(gnbs, fd) <==> HeldIn(init, fd) || fd in Fds(gnbs[n]) {
        if HeldIn(init, fd) {
          var i :| 0 <= i < n && fd in Fds(init[i]);
          assert fd in Fds(gnbs[i]);
        }
        if HeldIn(gnbs, fd) && fd !in Fds(gnbs[n]) {
          var i :| 0 <= i < |gnbs| && fd in Fds(gnbs[i]);
          assert fd in Fds(init[i]);
        }
      }
    }
  }

  // --- connecting ----------------------------------------------------------------------------------

  ghost function Gained(g: Gnb, env: Env): set<nat>
    requires env.gtpu >= -1
  {
    var r := Retried(env.os);
    if !g.state.Connected? && r.status == Success && r.socket >= 0 && env.gtpu >= 0 then {r.socket, env.gtpu} else {}
  }

  /** A connection keeps open exactly the pair it stores, and closes nothing else's. */
  lemma ConnectEffect(open: set<nat>, g: Gnb, env: Env)
    requires env.gtpu >= -1 && Honest(open, ConnectEvents(g, env)) && Fds(g) <= open && Tidy(g)
    ensures NoStrayClose(open, ConnectEvents(g, env)) && Play(open, ConnectEvents(g, env)) == open + Gained(g, env)
    ensures Gained(g, env) !! open
    ensures var c := ConnectGnb(g, env).0; Tidy(c) && Fds(c) == Fds(g) - Overwritten(g, env) + Gained(g, env)
  {
    var r := Retried(env.os);
    RetryContract(env.os);
    if !g.state.Connected? {
      if r.status == Success {
        var last := if env.gtpu < 0 then Shut(r.socket) else Open(env.gtpu);
        PlayConcat(open, r.events, [last]);
        RetryLedger(env.os, open);
        if env.gtpu < 0 {
          ShutOne(open + {r.socket}, r.socket);
        } else {
          OpenOne(open + {r.socket}, env.gtpu);
        }
      } else {
        RetryLedger(env.os, open);
      }
    }
  }

  // --- one gNB changes -----------------------------------------------------------------------------

  lemma HeldElsewhere(u: Ue, t: Target, g: Gnb, fd: nat)
    requires Distinct(u) && Managed(u, t)
    ensures IsHeld(With(u, t, g), fd) <==> fd in Fds(g) || (IsHeld(u, fd) && fd !in Fds(At(u, t)))
  {
    var v := With(u, t, g);
    if t.Cand? {
      assert v.cands[t.i] == g;
      if HeldIn(v.cands, fd) && fd !in Fds(g) {
        var j :| 0 <= j < |v.cands| && fd in Fds(v.cands[j]);
        assert fd in Fds(u.cands[j]);
      }
      if HeldIn(u.cands, fd) && fd !in Fds(At(u, t)) {
        var j :| 0 <= j < |u.cands| && fd in Fds(u.cands[j]);
        assert fd in Fds(v.cands[j]);
      }
    }
  }

  lemma HeldAt(u: Ue, t: Target, fd: nat)
    requires Managed(u, t) && fd in Fds(At(u, t))
    ensures IsHeld(u, fd)
  {}

  lemma HeldAtOnce(u: Ue, open: set<nat>, lost: set<nat>, t: Target)
    requires Accounted(u, open, lost) && Managed(u, t)
    ensures Fds(At(u, t)) <= open && Tidy(At(u, t))
  {
    forall fd | fd in Fds(At(u, t)) ensures fd in open { HeldAt(u, t, fd); }
  }

  /** The gNB at t keeps, closes, drops or gains descriptors; the others are not touched. */
  lemma Replaced(u: Ue, open: set<nat>, lost: set<nat>, t: Target, g: Gnb, closed: set<nat>, dropped: set<nat>, gained: set<nat>)
    requires Accounted(u, open, lost) && Managed(u, t) && Tidy(g)
    requires closed <= Fds(At(u, t)) && dropped <= Fds(At(u, t)) && closed !! dropped && gained !! open
    requires Fds(g) == Fds(At(u, t)) - closed - dropped + gained
    ensures Accounted(With(u, t, g), open - closed + gained, lost + dropped)
  {
    var v := With(u, t, g);
    forall fd: nat ensures fd in open - closed + gained <==> IsHeld(v, fd) || fd in lost + dropped {
      HeldElsewhere(u, t, g, fd);
      if fd in Fds(At(u, t)) { HeldAt(u, t, fd); }
    }
    forall fd: nat | fd in lost + dropped ensures !IsHeld(v, fd) {
      HeldElsewhere(u, t, g, fd);
      if fd in Fds(At(u, t)) { HeldAt(u, t, fd); }
    }
    StaysDistinct(u, open, lost, t, g, gained);
  }

  lemma StaysDistinct(u: Ue, open: set<nat>, lost: set<nat>, t: Target, g: Gnb, gained: set<nat>)
    requires Accounted(u, open, lost) && Managed(u, t) && Tidy(g) && gained !! open && Fds(g) <= Fds(At(u, t)) + gained
    ensures Distinct(With(u, t, g))
  {
    forall i | 0 <= i < |u.cands| && t != Cand(i) ensures Fds(g) !! Fds(u.cands[i]) {
      HeldAtOnce(u, open, lost, Cand(i));
    }
    if u.serving.Some? && t != Serving {
      HeldAtOnce(u, open, lost, Serving);
    }
  }

  /** Sameness of the gNBs is all that matters. */
  lemma SameGnbs(u: Ue, v: Ue, open: set<nat>, lost: set<nat>)
    requires Accounted(u, open, lost) && v.serving == u.serving && v.cands == u.cands
    ensures Accounted(v, open, lost)
  {
    assert forall fd: nat :: IsHeld(v, fd) <==> IsHeld(u, fd);
  }

  /** What a step must show: nothing closed that is not open, and what is open afterwards is held or lost. */
  ghost predicate Settled(v: Ue, open: set<nat>, lost: set<nat>, events: seq<Fd>) {
    NoStrayClose(open, events) && Accounted(v, Play(open, events), lost)
  }

  lemma ConnectSettles(u: Ue, open: set<nat>, lost: set<nat>, t: Target, env: Env)
    requires Accounted(u, open, lost) && Managed(u, t) && env.gtpu >= -1 && Honest(open, ConnectEvents(At(u, t), env))
    ensures Settled(Connect(u, t, env).0, open, lost + Overwritten(At(u, t), env), ConnectEvents(At(u, t), env))
  {
    var g := At(u, t);
    var c := ConnectGnb(g, env).0;
    HeldAtOnce(u, open, lost, t);
    ConnectEffect(open, g, env);
    Replaced(u, open, lost, t, c, {}, Overwritten(g, env), Gained(g, env));
    assert open - {} + Gained(g, env) == open + Gained(g, env);
    SameGnbs(With(u, t, c), Connect(u, t, env).0, open + Gained(g, env), lost + Overwritten(g, env));
  }

  lemma DisconnectSettles(u: Ue, open: set<nat>, lost: set<nat>, t: Target)
    requires Accounted(u, open, lost) && Managed(u, t)
    ensures Settled(Disconnect(u, t), open, lost, Closes(At(u, t)))
  {
    var g := At(u, t);
    HeldAtOnce(u, open, lost, t);
    CloseEffect(open, g);
    assert Fds(Closed(g)) == {};
    Replaced(u, open, lost, t, Closed(g), Fds(g), {}, {});
    assert open - Fds(g) + {} == open - Fds(g) && lost + {} == lost;
    SameGnbs(With(u, t, Closed(g)), Disconnect(u, t), open - Fds(g), lost);
  }

  // --- a gNB leaves ---------------------------------------------------------------------------------

  lemma HeldWithout(gnbs: seq<Gnb>, i: nat, fd: nat)
    requires i < |gnbs| && forall j, k :: 0 <= j < k < |gnbs| ==> Fds(gnbs[j]) !! Fds(gnbs[k])
    ensures HeldIn(RemoveAt(gnbs, i), fd) <==> HeldIn(gnbs, fd) && fd !in Fds(gnbs[i])
  {
    var rest := RemoveAt(gnbs, i);
    RemoveAtElements(gnbs, i);
    if HeldIn(rest, fd) {
      var k :| 0 <= k < |rest| && fd in Fds(rest[k]);
      assert fd in Fds(gnbs[if k < i then k else k + 1]);
    }
    if HeldIn(gnbs, fd) && fd !in Fds(gnbs[i]) {
      var k :| 0 <= k < |gnbs| && fd in Fds(gnbs[k]);
      assert fd in Fds(rest[if k < i then k else k - 1]);
    }
  }

  /** A candidate leaves the list with what it has. */
  lemma DropSettles(u: Ue, open: set<nat>, lost: set<nat>, i: nat)
    requires Accounted(u, open, lost) && i < |u.cands|
    ensures Accounted(u.(cands := RemoveAt(u.cands, i)), open, lost + Fds(u.cands[i]))
  {
    var v := u.(cands := RemoveAt(u.cands, i));
    RemoveAtElements(u.cands, i);
    forall fd: nat ensures IsHeld(v, fd) <==> IsHeld(u, fd) && fd !in Fds(u.cands[i]) {
      HeldWithout(u.cands, i, fd);
    }
    forall fd | fd in Fds(u.cands[i]) ensures IsHeld(u, fd) { HeldAt(u, Cand(i), fd); }
  }

  lemma RemoveSettles(u: Ue, open: set<nat>, lost: set<nat>, t: Target)
    requires Accounted(u, open, lost) && Enabled(u, DoRemove(t))
    ensures Settled(Remove(u, t).0, open, lost + Lost(u, DoRemove(t)), Events(u, DoRemove(t)))
  {
    if t.Cand? {
      if u.cands[t.i].state.Connected? {
        DisconnectSettles(u, open, lost, t);
        var v := Disconnect(u, t);
        assert v.cands[t.i] == Closed(u.cands[t.i]) && Fds(v.cands[t.i]) == {};
        DropSettles(v, Play(open, Closes(u.cands[t.i])), lost, t.i);
        assert lost + {} == lost;
      } else {
        DropSettles(u, open, lost, t.i);
      }
    } else {
      assert lost + {} == lost;
    }
  }

  // --- the serving gNB changes ------------------------------------------------------------------------

  /** The same gNBs with the same descriptors, the serving one now also last of the list. */
  lemma HeldAppended(gnbs: seq<Gnb>, g: Gnb, fd: nat)
    ensures HeldIn(gnbs + [g], fd) <==> HeldIn(gnbs, fd) || fd in Fds(g)
  {
    var all := gnbs + [g];
    assert all[|gnbs|] == g;
    if HeldIn(gnbs, fd) {
      var i :| 0 <= i < |gnbs| && fd in Fds(gnbs[i]);
      assert fd in Fds(all[i]);
    }
  }

  lemma SwitchHolds(u: Ue, i: nat, fd: nat)
    requires Distinct(u) && i < |u.cands| && u.serving.Some?
    ensures IsHeld(Switch(u, Cand(i)).0, fd) <==> IsHeld(u, fd) && fd !in Crowded(u)
  {
    var g := u.cands[i];
    var all := if |u.cands| < MAX_CANDIDATES then u.cands + [Demoted(u.serving.value)] else u.cands;
    assert forall j, k :: 0 <= j < k < |all| ==> Fds(all[j]) !! Fds(all[k]);
    HeldWithout(all, i, fd);
    assert Fds(Demoted(u.serving.value)) == Fds(u.serving.value) && Fds(Promoted(g)) == Fds(g);
    if |u.cands| < MAX_CANDIDATES {
      HeldAppended(u.cands, Demoted(u.serving.value), fd);
    }
    assert fd in Fds(g) ==> HeldIn(u.cands, fd);
    if fd in Fds(u.serving.value) {
      HeldNotTwice(u, fd);
    }
  }

  lemma HeldNotTwice(u: Ue, fd: nat)
    requires Distinct(u) && u.serving.Some? && fd in Fds(u.serving.value)
    ensures !HeldIn(u.cands, fd)
  {}

  lemma SwitchStaysDistinct(u: Ue, i: nat)
    requires Distinct(u) && i < |u.cands| && u.serving.Some?
    ensures Distinct(Switch(u, Cand(i)).0)
  {
    var all := if |u.cands| < MAX_CANDIDATES then u.cands + [Demoted(u.serving.value)] else u.cands;
    RemoveAtElements(all, i);
    assert Fds(Demoted(u.serving.value)) == Fds(u.serving.value) && Fds(Promoted(u.cands[i])) == Fds(u.cands[i]);
    assert forall j, k :: 0 <= j < k < |all| ==> Fds(all[j]) !! Fds(all[k]);
  }

  lemma SwitchSettles(u: Ue, open: set<nat>, lost: set<nat>, i: nat)
    requires Accounted(u, open, lost) && i < |u.cands| && u.serving.Some?
    ensures Accounted(Switch(u, Cand(i)).0, open, lost + Crowded(u))
  {
    forall fd: nat ensures IsHeld(Switch(u, Cand(i)).0, fd) <==> IsHeld(u, fd) && fd !in Crowded(u) {
      SwitchHolds(u, i, fd);
    }
    forall fd | fd in Crowded(u) ensures IsHeld(u, fd) { HeldAt(u, Serving, fd); }
    SwitchStaysDistinct(u, i);
  }

  lemma HandoverSettles(u: Ue, open: set<nat>, lost: set<nat>, env: Env)
    requires Inv(u) && Accounted(u, open, lost) && env.gtpu >= -1 && Honest(open, Events(u, DoHandover(env)))
    ensures Settled(Handover(u, env).0, open, lost + Lost(u, DoHandover(env)), Events(u, DoHandover(env)))
  {
    if Best(u.cands).Some? {
      var i := Best(u.cands).value;
      var events, dropped := ConnectEvents(u.cands[i], env), Overwritten(u.cands[i], env);
      ConnectSettles(u, open, lost, Cand(i), env);
      var (v, status) := Connect(u, Cand(i), env);
      if status == Success {
        SwitchSettles(v, Play(open, events), lost + dropped, i);
        assert Crowded(v) == Crowded(u) && lost + dropped + Crowded(u) == lost + (dropped + Crowded(u));
      } else {
        assert lost + (dropped + {}) == lost + dropped;
      }
    } else {
      assert lost + {} == lost;
    }
  }

  // --- stopping ------------------------------------------------------------------------------------

  /** The serving gNB, then the candidates; the UE's own copies are gone by then, so nothing is closed twice. */
  lemma StopSettles(u: Ue, open: set<nat>, lost: set<nat>)
    requires Inv(u) && u.active && Accounted(u, open, lost)
    ensures Honest(open, StopEvents(u)) && Settled(Stop(u), open, lost, StopEvents(u)) && Play(open, StopEvents(u)) == lost
  {
    var v := ServingClosed(u);
    var first, second := ClosesServing(u), ClosesAll(u.cands);
    if u.serving.Some? {
      DisconnectSettles(u, open, lost, Serving);
      HeldAtOnce(u, open, lost, Serving);
      CloseEffect(open, u.serving.value);
      assert Fds(v.serving.value) == {};
    }
    var mid := Play(open, first);
    forall i | 0 <= i < |v.cands| ensures Tidy(v.cands[i]) && Fds(v.cands[i]) <= mid { HeldAtOnce(v, mid, lost, Cand(i)); }
    CloseAllEffect(mid, v.cands);
    PlayConcat(open, first, second);
    assert v.ngap < 0 && v.gtpu < 0;
    assert StopEvents(u) == first + second;
    assert Play(open, first + second) == lost;
    StoppedHolds(u, lost);
  }

  lemma StoppedHolds(u: Ue, lost: set<nat>)
    requires u.active
    ensures Accounted(Stop(u), lost, lost)
  {
    var v := Stop(u);
    assert v.serving.Some? ==> Fds(v.serving.value) == {};
    assert forall i :: 0 <= i < |v.cands| ==> Fds(v.cands[i]) == {};
  }

  // --- runs ----------------------------------------------------------------------------------------

  lemma Unmoved(u: Ue, v: Ue, open: set<nat>, lost: set<nat>)
    requires Accounted(u, open, lost) && v.serving == u.serving && v.cands == u.cands
    ensures Settled(v, open, lost + {}, [])
  {
    assert lost + {} == lost && Play(open, []) == open;
    SameGnbs(u, v, open, lost);
  }

  lemma AddSettles(u: Ue, open: set<nat>, lost: set<nat>, kind: nat, ip: nat, port: nat, alloc: Alloc)
    requires Inv(u) && Accounted(u, open, lost)
    ensures Accounted(Add(u, kind, ip, port, alloc).0, open, lost)
  {
    var v := Add(u, kind, ip, port, alloc).0;
    forall fd: nat ensures IsHeld(v, fd) <==> IsHeld(u, fd) {
      if |v.cands| > |u.cands| {
        HeldAppended(u.cands, v.cands[|u.cands|], fd);
      }
    }
  }

  lemma MeasureSettles(u: Ue, open: set<nat>, lost: set<nat>, t: Target, rsrp: int)
    requires Accounted(u, open, lost) && Managed(u, t)
    ensures Accounted(With(u, t, At(u, t).(rsrp := rsrp)), open, lost)
  {
    var g := At(u, t);
    HeldAtOnce(u, open, lost, t);
    Replaced(u, open, lost, t, g.(rsrp := rsrp), {}, {}, {});
    assert open - {} + {} == open && lost + {} == lost;
  }

  /** No step closes a descriptor that is not open, and what it leaves open is held by one gNB or is lost as Lost says. */
  lemma StepSettles(u: Ue, open: set<nat>, lost: set<nat>, op: Op)
    requires Inv(u) && Enabled(u, op) && Accounted(u, open, lost) && Honest(open, Events(u, op))
    ensures Settled(Apply(u, op).0, open, lost + Lost(u, op), Events(u, op))
  {
    match op
    case DoAdd(kind, ip, port, alloc) =>
      AddSettles(u, open, lost, kind, ip, port, alloc);
      Unmoved(Add(u, kind, ip, port, alloc).0, Add(u, kind, ip, port, alloc).0, open, lost);
    case DoRemove(t) => RemoveSettles(u, open, lost, t);
    case DoSwitch(t) =>
      if t.Cand? {
        SwitchSettles(u, open, lost, t.i);
      } else {
        Unmoved(u, u, open, lost);
      }
    case DoConnect(t, env) => ConnectSettles(u, open, lost, t, env);
    case DoDisconnect(t) =>
      DisconnectSettles(u, open, lost, t);
      assert lost + {} == lost;
    case DoMeasure(t, rsrp) =>
      MeasureSettles(u, open, lost, t, rsrp);
      assert lost + {} == lost;
    case DoStart => Unmoved(u, u.(active := true), open, lost);
    case DoStop =>
      assert lost + {} == lost;
      if u.active { StopSettles(u, open, lost); } else { Unmoved(u, u, open, lost); }
    case DoHandover(env) => HandoverSettles(u, open, lost, env);
    case DoAttach(env) =>
      if u.serving.Some? && !u.serving.value.state.Connected? {
        ConnectSettles(u, open, lost, Serving, env);
      } else {
        Unmoved(u, u, open, lost);
      }
    case DoElsewhere => Unmoved(u, u.(lastId := u.lastId + 1), open, lost);
  }

  /** All descriptor events of a run, in order. */
  ghost function EventsOf(u: Ue, ops: seq<Op>): seq<Fd>
    requires IsRun(u, ops)
    decreases |ops|
  {
    if ops == [] then [] else Events(u, ops[0]) + EventsOf(Apply(u, ops[0]).0, ops[1..])
  }

  ghost function LostOver(u: Ue, ops: seq<Op>): set<nat>
    requires IsRun(u, ops)
    decreases |ops|
  {
    if ops == [] then {} else Lost(u, ops[0]) + LostOver(Apply(u, ops[0]).0, ops[1..])
  }

  lemma {:induction false} RunSettles(u: Ue, open: set<nat>, lost: set<nat>, ops: seq<Op>)
    requires Inv(u) && IsRun(u, ops) && Accounted(u, open, lost) && Honest(open, EventsOf(u, ops))
    ensures Settled(After(u, ops), open, lost + LostOver(u, ops), EventsOf(u, ops))
    decreases |ops|
  {
    if ops == [] {
      assert lost + {} == lost;
    } else {
      var now, rest := Events(u, ops[0]), EventsOf(Apply(u, ops[0]).0, ops[1..]);
      var more := LostOver(Apply(u, ops[0]).0, ops[1..]);
      PlayConcat(open, now, rest);
      StepSettles(u, open, lost, ops[0]);
      StepKeeps(u, ops[0]);
      RunSettles(Apply(u, ops[0]).0, Play(open, now), lost + Lost(u, ops[0]), ops[1..]);
      assert lost + Lost(u, ops[0]) + more == lost + (Lost(u, ops[0]) + more);
    }
  }

  /**
   Over every run of a new UE: no descriptor is closed unless it is open; none is held twice; and those open at the
   end are the ones its gNBs hold and, apart from them, the ones lost on the way. So nothing leaks exactly when no
   step of the run loses anything.
   */
  lemma LeaksExactly(ip: nat, port: nat, lastId: nat, ops: seq<Op>)
    requires IsRun(Created(ip, port, lastId), ops) && Honest({}, EventsOf(Created(ip, port, lastId), ops))
    ensures var u, events := After(Created(ip, port, lastId), ops), EventsOf(Created(ip, port, lastId), ops);
            var lost := LostOver(Created(ip, port, lastId), ops);
            && NoStrayClose({}, events) && Distinct(u)
            && (forall fd :: fd in Play({}, events) <==> IsHeld(u, fd) || fd in lost)
            && (forall fd :: fd in lost ==> !IsHeld(u, fd))
            && ((forall fd :: fd in Play({}, events) <==> IsHeld(u, fd)) <==> lost == {})
  {
    var c := Created(ip, port, lastId);
    RunSettles(c, {}, {}, ops);
    var lost := LostOver(c, ops);
    assert {} + lost == lost;
    if lost != {} {
      var fd :| fd in lost;
    }
  }

  /** A stop of the active UE closes everything but what was lost before. */
  lemma StopLeavesTheLost(ip: nat, port: nat, lastId: nat, ops: seq<Op>)
    requires IsRun(Created(ip, port, lastId), ops) && Honest({}, EventsOf(Created(ip, port, lastId), ops))
    requires After(Created(ip, port, lastId), ops).active
    ensures var u, events := After(Created(ip, port, lastId), ops), EventsOf(Created(ip, port, lastId), ops);
            NoStrayClose({}, events + StopEvents(u)) && Play({}, events + StopEvents(u)) == LostOver(Created(ip, port, lastId), ops)
  {
    var c := Created(ip, port, lastId);
    RunSettles(c, {}, {}, ops);
    EveryReachableSetIsSound(ip, port, lastId, ops);
    var u, events, lost := After(c, ops), EventsOf(c, ops), LostOver(c, ops);
    assert {} + lost == lost;
    PlayConcat({}, events, StopEvents(u));
    StopSettles(u, Play({}, events), lost);
  }

  /** It does happen: a candidate is connected and then removed, and its two sockets stay open with no owner. */
  lemma RemovalLeaks()
    ensures var env := Env((k: nat) => Connects(3), 4);
            var ops := [DoAdd(0, 1, 1, Ready), DoAdd(0, 1, 2, Ready), DoConnect(Cand(0), env), DoRemove(Cand(0))];
            var c := Created(1, 1, 0);
            && IsRun(c, ops) && Honest({}, EventsOf(c, ops))
            && Play({}, EventsOf(c, ops)) == {3, 4} && forall fd :: !IsHeld(After(c, ops), fd)
  {
    var env := Env((k: nat) => Connects(3), 4);
    var o0, o1, o2, o3 := DoAdd(0, 1, 1, Ready), DoAdd(0, 1, 2, Ready), DoConnect(Cand(0), env), DoRemove(Cand(0));
    var c := Created(1, 1, 0);
    var s, g := NewGnb(1, 0, 1, 1).(isServing := true), NewGnb(2, 0, 1, 2).(state := Candidate);
    var u1 := Ue(Some(s), [], 1, 1, -1, -1, false, 1);
    var u2 := Ue(Some(s), [g], 1, 1, -1, -1, false, 2);
    var u3 := Ue(Some(s), [g.(ngap := 3, gtpu := 4)], 1, 1, -1, -1, false, 2);
    var u4 := Ue(Some(s), [], 1, 1, -1, -1, false, 2);
    assert Add(c, 0, 1, 1, Ready).0 == u1;
    assert Add(u1, 0, 1, 2, Ready).0 == u2;
    ConnectsAtOnce(u2, u3, g, env);
    assert Remove(u3, Cand(0)).0 == u4;
    assert [o0, o1, o2, o3][1..] == [o1, o2, o3] && [o1, o2, o3][1..] == [o2, o3] && [o2, o3][1..] == [o3] && [o3][1..] == [];
    assert IsRun(u4, []) && After(u4, []) == u4 && EventsOf(u4, []) == [];
    assert IsRun(u3, [o3]) && After(u3, [o3]) == u4 && EventsOf(u3, [o3]) == [];
    assert IsRun(u2, [o2, o3]) && After(u2, [o2, o3]) == u4 && EventsOf(u2, [o2, o3]) == [Open(3), Open(4)];
    assert IsRun(u1, [o1, o2, o3]) && After(u1, [o1, o2, o3]) == u4 && EventsOf(u1, [o1, o2, o3]) == [Open(3), Open(4)];
    assert IsRun(c, [o0, o1, o2, o3]) && After(c, [o0, o1, o2, o3]) == u4 && EventsOf(c, [o0, o1, o2, o3]) == [Open(3), Open(4)];
    PlayConcat({}, [Open(3)], [Open(4)]);
    OpenOne({}, 3);
    OpenOne({3}, 4);
    assert [Open(3), Open(4)] == [Open(3)] + [Open(4)] && {3} + {4} == {3, 4};
  }

  lemma ConnectsAtOnce(u: Ue, v: Ue, g: Gnb, env: Env)
    requires env.gtpu == 4 && env.os(0) == Connects(3) && g.ngap == g.gtpu == -1 && g.state.Candidate? && !g.isServing
    requires u.cands == [g] && v == u.(cands := [g.(ngap := 3, gtpu := 4)])
    ensures Connect(u, Cand(0), env).0 == v && ConnectEvents(g, env) == [Open(3), Open(4)]
  {
    assert FirstConnect(env.os, 0) == 0;
    assert Turns(env.os, 1) == Turns(env.os, 0) + [Open(3)];
    assert [g][0 := g.(ngap := 3, gtpu := 4)] == [g.(ngap := 3, gtpu := 4)];
  }
}
