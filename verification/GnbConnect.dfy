/**
 Opening the NGAP connection to a gNB (connect_with_retry in src/core/uesim_core.c).
 What socket, fcntl, connect and select answer is an oracle, one answer per attempt.
 */
module GnbConnect {

  const MAX_RETRIES: nat := 3

  datatype Status =
    | Success | InvalidParam | NoMemory | ThreadError | SocketError | Timeout | NotFound | AlreadyExists | Capacity | NotInitialized

  /** What the system makes of one turn of the loop; fd is the descriptor socket returned. */
  datatype Attempt = NoSocket | NonblockFails(fd: nat) | Connects(fd: nat) | Fails(fd: nat)

  type Os = nat -> Attempt

  /** A descriptor handed out by the system, or closed. */
  datatype Fd = Open(fd: nat) | Shut(fd: nat)

  /** What the call did with descriptors, in order, and the one it leaves in ngap_socket. */
  datatype Outcome = Outcome(status: Status, socket: int, events: seq<Fd>)

  /** The answer to the attempt that ends the loop, or MAX_RETRIES. */
  function FirstConnect(os: Os, k: nat): (r: nat)
    requires k <= MAX_RETRIES
    ensures k <= r <= MAX_RETRIES && (r < MAX_RETRIES ==> os(r).Connects?)
    ensures forall i :: k <= i < r ==> !os(i).Connects?
    decreases MAX_RETRIES - k
  {
    if k == MAX_RETRIES || os(k).Connects? then k else FirstConnect(os, k + 1)
  }

  function Turn(a: Attempt): seq<Fd> {
    if a.NoSocket? then [] else if a.Connects? then [Open(a.fd)] else [Open(a.fd), Shut(a.fd)]
  }

  /** What attempts 0 .. k-1 do. */
  function Turns(os: Os, k: nat): seq<Fd> {
    if k == 0 then [] else Turns(os, k - 1) + Turn(os(k - 1))
  }

  ghost predicate SomeFailed(os: Os, k: nat) { exists i :: 0 <= i < k && os(i).Fails? }

  /** Three attempts at most. */
  ghost function Retried(os: Os): Outcome {
    var k := FirstConnect(os, 0);
    if k < MAX_RETRIES then Outcome(Success, os(k).fd, Turns(os, k + 1))
    else Outcome(if SomeFailed(os, k) then Timeout else SocketError, -1, Turns(os, k))
  }

  method ConnectWithRetry(os: Os) returns (r: Outcome)
    ensures r == Retried(os)
  {
    var retries, lastError := 0, SocketError;
    var events: seq<Fd> := [];
    while retries < MAX_RETRIES
      invariant retries <= MAX_RETRIES
      invariant FirstConnect(os, 0) == FirstConnect(os, retries)
      invariant events == Turns(os, retries)
      invariant lastError == if SomeFailed(os, retries) then Timeout else SocketError
    {
      match os(retries) {
        case NoSocket =>
        case NonblockFails(fd) =>
          events := events + [Open(fd), Shut(fd)];
        case Connects(fd) =>
          return Outcome(Success, fd, events + [Open(fd)]);
        case Fails(fd) =>
          events := events + [Open(fd), Shut(fd)];
          lastError := Timeout;
      }
      retries := retries + 1;
    }
    r := Outcome(lastError, -1, events);
  }

  // --- descriptors --------------------------------------------------------------------------

  /** The descriptors open after the events, starting from `open`. */
  function Play(open: set<nat>, events: seq<Fd>): set<nat>
    decreases |events|
  {
    if events == [] then open else
    Play(match events[0] case Open(fd) => open + {fd} case Shut(fd) => open - {fd}, events[1..])
  }

  /** The system hands out no descriptor that is open. */
  predicate Honest(open: set<nat>, events: seq<Fd>)
    decreases |events|
  {
    events == [] ||
    match events[0]
    case Open(fd) => fd !in open && Honest(open + {fd}, events[1..])
    case Shut(fd) => Honest(open - {fd}, events[1..])
  }

  /** The program closes no descriptor that is not open. */
  predicate NoStrayClose(open: set<nat>, events: seq<Fd>)
    decreases |events|
  {
    events == [] ||
    match events[0]
    case Open(fd) => NoStrayClose(open + {fd}, events[1..])
    case Shut(fd) => fd in open && NoStrayClose(open - {fd}, events[1..])
  }

  lemma {:induction false} PlayConcat(open: set<nat>, a: seq<Fd>, b: seq<Fd>)
    ensures Play(open, a + b) == Play(Play(open, a), b)
    ensures Honest(open, a + b) <==> Honest(open, a) && Honest(Play(open, a), b)
    ensures NoStrayClose(open, a + b) <==> NoStrayClose(open, a) && NoStrayClose(Play(open, a), b)
    decreases |a|
  {
    if a == [] {
      assert a + b == b;
    } else {
      assert (a + b)[1..] == a[1..] + b;
      var next := match a[0] case Open(fd) => open + {fd} case Shut(fd) => open - {fd};
      PlayConcat(next, a[1..], b);
    }
  }

  lemma TurnCloses(open: set<nat>, a: Attempt)
    requires Honest(open, Turn(a))
    ensures NoStrayClose(open, Turn(a)) && Play(open, Turn(a)) == if a.Connects? then open + {a.fd} else open
    ensures a.Connects? ==> a.fd !in open
  {
    if a.Connects? {
      assert Turn(a)[1..] == [];
    } else if !a.NoSocket? {
      assert Turn(a)[1..] == [Shut(a.fd)] && [Shut(a.fd)][1..] == [];
      assert open + {a.fd} - {a.fd} == open;
      assert Play(open, []) == open;
      assert Play(open + {a.fd}, [Shut(a.fd)]) == open;
    }
  }

  lemma {:induction false} TurnsClose(os: Os, k: nat, open: set<nat>)
    requires Honest(open, Turns(os, k)) && forall i :: 0 <= i < k ==> !os(i).Connects?
    ensures NoStrayClose(open, Turns(os, k)) && Play(open, Turns(os, k)) == open
  {
    if k > 0 {
      PlayConcat(open, Turns(os, k - 1), Turn(os(k - 1)));
      TurnsClose(os, k - 1, open);
      TurnCloses(open, os(k - 1));
    }
  }

  lemma {:induction false} TurnsAtMost(os: Os, k: nat)
    ensures |Turns(os, k)| <= 2 * k
  {
    if k > 0 {
      TurnsAtMost(os, k - 1);
    }
  }

  /** At most three descriptors are opened; a failure leaves a negative socket, and success is exactly some attempt connecting. */
  lemma RetryContract(os: Os)
    ensures var r := Retried(os);
            && |r.events| <= 2 * MAX_RETRIES
            && (r.status == Success <==> r.socket >= 0)
            && (r.status == Success <==> exists i :: 0 <= i < MAX_RETRIES && os(i).Connects?)
            && (r.status == Timeout <==> r.socket < 0 && SomeFailed(os, MAX_RETRIES))
            && r.status in {Success, Timeout, SocketError} && r.socket >= -1
  {
    var k := FirstConnect(os, 0);
    TurnsAtMost(os, if k < MAX_RETRIES then k + 1 else k);
  }

  /** Every descriptor opened on the way is closed again while it is open, except the one returned, which was not open before. */
  lemma RetryLedger(os: Os, open: set<nat>)
    requires Honest(open, Retried(os).events)
    ensures var r := Retried(os);
            && NoStrayClose(open, r.events)
            && Play(open, r.events) == (if r.socket >= 0 then open + {r.socket} else open)
            && (r.socket >= 0 ==> r.socket !in open)
  {
    var k := FirstConnect(os, 0);
    if k < MAX_RETRIES {
      PlayConcat(open, Turns(os, k), Turn(os(k)));
      TurnsClose(os, k, open);
      TurnCloses(open, os(k));
    } else {
      TurnsClose(os, k, open);
    }
  }
}
