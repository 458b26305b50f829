/**
 The F1AP messages the mock CU-CP and DU exchange, as values (src/mock_core/mock_cu_cp.c,
 src/mock_core/mock_du.c; procedures of sections 8.2.1, 8.2.3, 8.3.1 and 8.3.3 of 3GPP TS 38.473).
 */
module F1Messages {

  const ID_RANGE: nat := 0x1_0000_0000
  const MAX_DRBS: nat := 8

  /** A radio bearer with the tunnel the DU assigned to it. */
  datatype Drb = Drb(id: nat, teid: nat)

  datatype Msg =
    | SetupRequest(cuId: nat, ranId: nat, cell: nat, drbs: seq<nat>)
    | SetupResponse(cuId: nat, duId: nat, tunnels: seq<Drb>)
    | SetupFailure
    | ReleaseCommand(cuId: nat, duId: nat)
    | ReleaseComplete(cuId: nat, duId: nat)
    | ResetRequest
    | ResetResponse

  /** (du_id << 8 | drb_id) in 32 bits, for a drb_id of 8 bits. */
  function Teid(duId: nat, drb: nat): (t: nat)
    requires drb < 256
    ensures t < ID_RANGE
  {
    (duId * 256) % ID_RANGE + drb
  }

  function Tunnels(duId: nat, drbs: seq<nat>): (r: seq<Drb>)
    requires forall i :: 0 <= i < |drbs| ==> drbs[i] < 256
    ensures |r| == |drbs| && forall i :: 0 <= i < |drbs| ==> r[i] == Drb(drbs[i], Teid(duId, drbs[i]))
  {
    seq(|drbs|, i requires 0 <= i < |drbs| => Drb(drbs[i], Teid(duId, drbs[i])))
  }

  /** Two tunnel ids coincide exactly when the bearers do and the DU ids agree in their low 24 bits. */
  lemma TeidsCoincide(d: nat, b: nat, e: nat, c: nat)
    requires b < 256 && c < 256
    ensures Teid(d, b) == Teid(e, c) <==> b == c && d % 0x100_0000 == e % 0x100_0000
  {
    Shifted(d);
    Shifted(e);
  }

  lemma Shifted(d: nat)
    ensures (d * 256) % ID_RANGE == (d % 0x100_0000) * 256
  {}
}
