/**
 GTP-U framing (section 5.1 of 3GPP TS 29.281): the header the UPF writes in front of user data
 (src/mock_core/mock_upf.c) and the two parsers that read it, the UPF's and the mock gNB's
 (src/mock_gnb/mock_gnb_server.c). Nothing is said about the version bits of the first octet.
 */
module Gtpu {
  import opened Wrappers
  import opened Wire

  const HEADER_SIZE: nat := 8
  const BUFFER_SIZE: nat := 65536
  const G_PDU: nat := 255
  const FLAGS: nat := 0x11

  datatype Status = Success | InvalidParam | Protocol

  datatype Header = Header(messageType: nat, length: nat, teid: nat)

  function HeaderFields(teid: nat, len: nat): seq<Field> {
    [U8(FLAGS), U8(G_PDU), U16(len), U32(teid)]
  }

  function Packet(teid: nat, data: seq<Byte>): seq<Byte> {
    EncodeAll(HeaderFields(teid, |data|)) + data
  }

  lemma HeaderBytes(teid: nat, len: nat)
    ensures EncodeAll(HeaderFields(teid, len)) == [FLAGS, G_PDU] + Two(len) + Four(teid)
  {
    EncodeCons(U32(teid), []);
    EncodeCons(U16(len), [U32(teid)]);
    EncodeCons(U8(G_PDU), [U16(len), U32(teid)]);
    EncodeCons(U8(FLAGS), [U8(G_PDU), U16(len), U32(teid)]);
  }

  lemma EncodeCons(f: Field, rest: seq<Field>)
    ensures EncodeAll([f] + rest) == Encode(f) + EncodeAll(rest)
  {}

  /** The UPF's parser: bytes combined by shifts. */
  function ParseAtUpf(d: seq<Byte>): Option<Header> {
    if |d| < HEADER_SIZE then None
    else Some(Header(d[1] as nat, (d[2] as nat) * 0x100 + d[3] as nat,
                     (d[4] as nat) * 0x100_0000 + (d[5] as nat) * 0x1_0000 + (d[6] as nat) * 0x100 + d[7] as nat))
  }

  datatype Endian = Little | Big

  /** A word loaded from memory, first byte first or last. */
  function Load(e: Endian, d: seq<Byte>): nat {
    if d == [] then 0
    else if e.Little? then (d[0] as nat) + 256 * Load(e, d[1..])
    else Load(e, d[..|d| - 1]) * 256 + d[|d| - 1] as nat
  }

  function Reversed(d: seq<Byte>): seq<Byte> {
    if d == [] then [] else Reversed(d[1..]) + [d[0]]
  }

  /** ntohs and ntohl: they turn the bytes round on a little-endian host. */
  function NetworkToHost(e: Endian, d: seq<Byte>): nat {
    Load(e, if e.Little? then Reversed(d) else d)
  }

  /** The mock gNB's parser: 16- and 32-bit loads in host order, converted. */
  function ParseAtGnb(e: Endian, d: seq<Byte>): Option<Header> {
    if |d| < HEADER_SIZE then None
    else Some(Header(d[1] as nat, NetworkToHost(e, d[2..4]), NetworkToHost(e, d[4..8])))
  }

  lemma {:induction false} LoadReversed(d: seq<Byte>)
    ensures Load(Little, Reversed(d)) == Load(Big, d)
  {
    if d != [] {
      var n := |d| - 1;
      LoadReversed(d[..n]);
      ReversedAppend(d[..n], d[n]);
      assert d == d[..n] + [d[n]];
      assert Reversed(d) == [d[n]] + Reversed(d[..n]);
      assert Reversed(d)[1..] == Reversed(d[..n]);
    }
  }

  lemma {:induction false} ReversedAppend(d: seq<Byte>, b: Byte)
    ensures Reversed(d + [b]) == [b] + Reversed(d)
  {
    if d == [] {
      assert d + [b] == [b];
      assert [b][1..] == [];
    } else {
      assert (d + [b])[1..] == d[1..] + [b];
      ReversedAppend(d[1..], b);
    }
  }

  lemma LoadTwo(d: seq<Byte>)
    requires |d| == 2
    ensures Load(Big, d) == Number2(d)
  {
    assert Load(Big, d[..1]) == Load(Big, d[..1][..0]) * 256 + d[0] as nat;
  }

  lemma LoadFour(d: seq<Byte>)
    requires |d| == 4
    ensures Load(Big, d) == Number4(d)
  {
    LoadTwo(d[..2]);
    assert d[..3][..2] == d[..2];
    assert Load(Big, d[..3]) == Load(Big, d[..2]) * 256 + d[2] as nat;
  }

  /** Both parsers read the same type, length and tunnel id out of every buffer, on hosts of either byte order. */
  lemma ParsersAgree(e: Endian, d: seq<Byte>)
    ensures ParseAtGnb(e, d) == ParseAtUpf(d)
    ensures ParseAtGnb(e, d).Some? <==> |d| >= 8
  {
    if |d| >= HEADER_SIZE {
      LoadReversed(d[2..4]);
      LoadReversed(d[4..8]);
      LoadTwo(d[2..4]);
      LoadFour(d[4..8]);
    }
  }

  predicate Accepted(len: nat) { 1 <= len <= BUFFER_SIZE - HEADER_SIZE }

  /** For every payload the sender accepts, both parsers recover what it put in, and the payload follows the header. */
  lemma FramingRoundTrip(e: Endian, teid: nat, data: seq<Byte>)
    requires Accepted(|data|) && teid < 0x1_0000_0000
    ensures var p := Packet(teid, data);
            && ParseAtUpf(p) == ParseAtGnb(e, p) == Some(Header(G_PDU, |data|, teid))
            && p[HEADER_SIZE..] == data
  {
    ParsersAgree(e, Packet(teid, data));
    ParsedBack(teid, data);
  }

  lemma ParsedBack(teid: nat, data: seq<Byte>)
    requires |data| < 0x1_0000 && teid < 0x1_0000_0000
    ensures var p := Packet(teid, data);
            ParseAtUpf(p) == Some(Header(G_PDU, |data|, teid)) && p[HEADER_SIZE..] == data
  {
    var p := Packet(teid, data);
    HeaderBytes(teid, |data|);
    assert p[2..] == Two(|data|) + (Four(teid) + data);
    assert p[4..] == Four(teid) + data;
    Number2Of(|data|, Four(teid) + data);
    Number4Of(teid, data);
    AtFour(p, teid);
  }

  lemma AtFour(p: seq<Byte>, teid: nat)
    requires |p| >= HEADER_SIZE && Number4(p[4..]) == teid
    ensures (p[4] as nat) * 0x100_0000 + (p[5] as nat) * 0x1_0000 + (p[6] as nat) * 0x100 + p[7] as nat == teid
  {
    assert p[4..][0] == p[4] && p[4..][1] == p[5] && p[4..][2] == p[6] && p[4..][3] == p[7];
  }

  /** upf_send_gtpu_data up to the send. */
  method Send(teid: nat, data: seq<Byte>) returns (status: Status, packet: seq<Byte>)
    requires teid < 0x1_0000_0000
    ensures status == if |data| == 0 then InvalidParam else if |data| > BUFFER_SIZE - HEADER_SIZE then Protocol else Success
    ensures packet == if status == Success then Packet(teid, data) else []
  {
    packet := [];
    if |data| == 0 {
      return InvalidParam, [];
    }
    if HEADER_SIZE + |data| > BUFFER_SIZE {
      return Protocol, [];
    }
    packet := Build(teid, data);
    status := Success;
  }

  method Build(teid: nat, data: seq<Byte>) returns (packet: seq<Byte>)
    requires teid < 0x1_0000_0000 && Accepted(|data|)
    ensures packet == Packet(teid, data)
  {
    var out := new Writer(BUFFER_SIZE);
    out.Put(FLAGS);
    out.Put(G_PDU);
    out.Copy(Two(|data|));
    out.Copy(Four(teid));
    HeaderWritten(teid, |data|, out.Written());
    out.Copy(data);
    packet := out.buffer[..out.offset];
  }

  lemma HeaderWritten(teid: nat, len: nat, written: seq<Byte>)
    requires written == [] + [FLAGS] + [G_PDU] + Two(len) + Four(teid)
    ensures written == EncodeAll(HeaderFields(teid, len))
  {
    HeaderBytes(teid, len);
    assert [] + [FLAGS] + [G_PDU] == [FLAGS, G_PDU];
  }
}
