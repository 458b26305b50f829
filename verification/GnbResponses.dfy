/**
 The responses the mock gNB generates (src/mock_gnb/mock_gnb_response.c). Each generator is a
 list of fields and a buffer size; the frame puts category, type, transaction and length in front.
 */
module GnbResponses {
  import opened Wrappers
  import opened Wire

  datatype Response =
    | MacRar(rapid: nat, timingAdvance: nat, tcRnti: nat, ulGrant: nat, backoff: nat)
    | MacUlGrant(tbSize: nat, mcs: nat)
    | RlcStatus(ackSn: nat, nacks: seq<nat>)
    | RrcSetup(tid: nat, bearer: seq<Byte>, cellGroup: seq<Byte>, nas: seq<Byte>)
    | RrcReject(waitTime: nat)
    | RrcReconfiguration(tid: nat, bearer: seq<Byte>, cellGroup: seq<Byte>, meas: seq<Byte>, nas: seq<Byte>)
    | RrcSecurityMode(ciphering: nat, integrity: nat)
    | RrcHandover(tid: nat, pci: nat, cell: nat, cRnti: nat, bearer: seq<Byte>, rach: seq<Byte>)
    | RrcRelease(cause: nat)
    | RrcMeasConfig(config: seq<Byte>)
    | RegAccept(result: nat, guti: seq<Byte>, tac: nat, plmn: nat, t3412: nat, t3402: nat, nssai: seq<Byte>, slicing: seq<Byte>)
    | RegReject(cause: nat)
    | AuthRequest(ngksi: nat, rand: seq<Byte>, autn: seq<Byte>, authType: nat)
    | NasSecurityMode(ngksi: nat, ciphering: nat, integrity: nat, capability: seq<Byte>)
    | PduAccept(session: nat, sessionType: nat, ip: nat, qfi: nat, fiveQi: nat, ambrUl: nat, ambrDl: nat, snssai: seq<Byte>)
    | PduRelease(session: nat, cause: nat)
    | DlTransport(pdu: seq<Byte>)

  function NackFields(nacks: seq<nat>): (r: seq<Field>)
    ensures |r| == 2 * |nacks|
  {
    if nacks == [] then [] else [U16(nacks[0]), U8(0)] + NackFields(nacks[1..])
  }

  function Fields(r: Response): seq<Field> {
    match r
    case MacRar(rapid, ta, rnti, grant, backoff) =>
      [U8(0x80 + rapid % 64), U8((ta / 16) % 256), U8((ta % 16) * 16 + (rnti / 256) % 16), U8(rnti % 256), U32(grant), U8(backoff % 16), U8(0)]
    case MacUlGrant(tbSize, mcs) => [U16(tbSize), U8(mcs), U8(0)]
    case RlcStatus(ackSn, nacks) => [U16(ackSn)] + NackFields(nacks)
    case RrcSetup(tid, bearer, cellGroup, nas) => [U8(tid), Lv8(bearer), Lv8(cellGroup), Lv16(nas)]
    case RrcReject(waitTime) => [U8(waitTime)]
    case RrcReconfiguration(tid, bearer, cellGroup, meas, nas) => [U8(tid), Lv16(bearer), Lv16(cellGroup), Lv16(meas), Lv16(nas)]
    case RrcSecurityMode(ciphering, integrity) => [U8(ciphering), U8(integrity)]
    case RrcHandover(tid, pci, cell, cRnti, bearer, rach) => [U8(tid), U16(pci), U32(cell), U16(cRnti), Lv8(bearer), Lv8(rach)]
    case RrcRelease(cause) => [U8(cause)]
    case RrcMeasConfig(config) => [Raw(config)]
    case RegAccept(result, guti, tac, plmn, t3412, t3402, nssai, slicing) =>
      [U8(result), Raw(guti), U16(tac), U32(plmn), U32(t3412), U32(t3402), Lv16(nssai), Lv16(slicing)]
    case RegReject(cause) => [U8(cause)]
    case AuthRequest(ngksi, rand, autn, authType) => [U8(ngksi), Raw(rand), Raw(autn), U8(authType)]
    case NasSecurityMode(ngksi, ciphering, integrity, capability) => [U8(ngksi), U8(ciphering), U8(integrity), Lv16(capability)]
    case PduAccept(session, sessionType, ip, qfi, fiveQi, ambrUl, ambrDl, snssai) =>
      [U8(session), U8(sessionType), U32(ip), U8(qfi), U8(fiveQi), U16(ambrUl), U16(ambrDl), Lv16(snssai)]
    case PduRelease(session, cause) => [U8(session), U8(cause)]
    case DlTransport(pdu) => [Raw(pdu)]
  }

  function Payload(r: Response): seq<Byte> { EncodeAll(Fields(r)) }

  /** The number of bytes the generator sets aside for the payload. */
  function Allocation(r: Response): nat {
    match r
    case MacRar(_, _, _, _, _) => 10
    case MacUlGrant(_, _) => 4
    case RlcStatus(_, nacks) => 2 + |nacks| * 3
    case RrcSetup(_, bearer, cellGroup, nas) => 2 + |bearer| + 1 + |cellGroup| + 2 + |nas|
    case RrcReject(_) => 1
    case RrcReconfiguration(_, bearer, cellGroup, meas, nas) => 1 + 2 + |bearer| + 2 + |cellGroup| + 2 + |meas| + 2 + |nas|
    case RrcSecurityMode(_, _) => 2
    case RrcHandover(_, _, _, _, bearer, rach) => 1 + 2 + 4 + 2 + 1 + 2 + |bearer| + 1 + |rach|
    case RrcRelease(_) => 1
    case RrcMeasConfig(config) => |config|
    case RegAccept(_, _, _, _, _, _, nssai, slicing) => 1 + 24 + 2 + 4 + 4 + 4 + 2 + |nssai| + 2 + |slicing|
    case RegReject(_) => 1
    case AuthRequest(_, _, _, _) => 34
    case NasSecurityMode(_, _, _, capability) => 1 + 1 + 1 + 2 + |capability|
    case PduAccept(_, _, _, _, _, _, _, snssai) => 1 + 1 + 4 + 1 + 1 + 2 + 2 + 2 + |snssai|
    case PduRelease(_, _) => 2
    case DlTransport(pdu) => |pdu|
  }

  /** The category and the type; types repeat between MAC and RLC, and between 5GMM and 5GSM. */
  function Code(r: Response): (nat, nat) {
    match r
    case MacRar(_, _, _, _, _) => (0, 0)
    case MacUlGrant(_, _) => (0, 1)
    case RlcStatus(_, _) => (0, 0)
    case RrcSetup(_, _, _, _) => (1, 0)
    case RrcReject(_) => (1, 1)
    case RrcReconfiguration(_, _, _, _, _) => (1, 3)
    case RrcSecurityMode(_, _) => (1, 6)
    case RrcHandover(_, _, _, _, _, _) => (1, 9)
    case RrcRelease(_) => (1, 5)
    case RrcMeasConfig(_) => (1, 8)
    case RegAccept(_, _, _, _, _, _, _, _) => (2, 0)
    case RegReject(_) => (2, 1)
    case AuthRequest(_, _, _, _) => (2, 2)
    case NasSecurityMode(_, _, _, _) => (2, 5)
    case PduAccept(_, _, _, _, _, _, _, _) => (2, 0)
    case PduRelease(_, _) => (2, 4)
    case DlTransport(_) => (2, 7)
  }

  /** The sizes of the arrays in the generators' arguments. */
  predicate FixedSizes(r: Response) {
    match r
    case RegAccept(_, guti, _, _, _, _, _, _) => |guti| == 24
    case AuthRequest(_, rand, autn, _) => |rand| == 16 && |autn| == 16
    case PduAccept(_, _, _, _, _, _, _, snssai) => |snssai| <= 4
    case _ => true
  }

  /** The widths the MAC RAR has room for: 6-bit RAPID, 12-bit timing advance and TC-RNTI, 4-bit backoff. */
  predicate Packable(r: Response) {
    r.MacRar? ==> r.rapid < 64 && r.timingAdvance < 4096 && r.tcRnti < 4096 && r.backoff < 16
  }

  ghost predicate Encodable(r: Response) {
    FixedSizes(r) && Packable(r) && AllFit(Fields(r)) && |Payload(r)| < 0x1_0000_0000
  }

  // --- sizes --------------------------------------------------------------------------------

  function SizeOf(f: Field): (n: nat)
    ensures n == |Encode(f)|
  {
    match f
    case U8(_) => 1
    case U16(_) => 2
    case U32(_) => 4
    case Raw(s) => |s|
    case Lv8(s) => 1 + |s|
    case Lv16(s) => 2 + |s|
  }

  function SizeOfAll(fs: seq<Field>): (n: nat)
    ensures n == |EncodeAll(fs)|
  {
    if fs == [] then 0 else SizeOf(fs[0]) + SizeOfAll(fs[1..])
  }

  lemma SizeOf1(a: Field, rest: seq<Field>)
    ensures SizeOfAll([a] + rest) == SizeOf(a) + SizeOfAll(rest)
  {}

  lemma {:induction false} NackSize(nacks: seq<nat>)
    ensures SizeOfAll(NackFields(nacks)) == 3 * |nacks|
  {
    if nacks != [] {
      var rest := NackFields(nacks[1..]);
      NackSize(nacks[1..]);
      SizeOf1(U8(0), rest);
      SizeOf1(U16(nacks[0]), [U8(0)] + rest);
      assert [U16(nacks[0])] + ([U8(0)] + rest) == NackFields(nacks);
    }
  }

  function SizeAt(fs: seq<Field>, i: nat): nat { if i < |fs| then SizeOf(fs[i]) else 0 }

  lemma SizeStep(fs: seq<Field>, i: nat)
    requires i <= |fs|
    ensures SizeOfAll(fs[i..]) == SizeAt(fs, i) + if i < |fs| then SizeOfAll(fs[i + 1..]) else 0
  {}

  lemma SizeOfShort(fs: seq<Field>)
    requires |fs| <= 4
    ensures SizeOfAll(fs) == SizeAt(fs, 0) + SizeAt(fs, 1) + SizeAt(fs, 2) + SizeAt(fs, 3)
  {}

  lemma SizeOfTail(fs: seq<Field>)
    requires 4 <= |fs| <= 8
    ensures SizeOfAll(fs[4..]) == SizeAt(fs, 4) + SizeAt(fs, 5) + SizeAt(fs, 6) + SizeAt(fs, 7)
  {
    SizeStep(fs, 4);
    if |fs| > 4 { SizeStep(fs, 5); }
    if |fs| > 5 { SizeStep(fs, 6); }
    if |fs| > 6 { SizeStep(fs, 7); }
    if |fs| > 7 { SizeStep(fs, 8); }
  }

  lemma SizeOfLong(fs: seq<Field>)
    requires 4 <= |fs| <= 8
    ensures SizeOfAll(fs) == SizeAt(fs, 0) + SizeAt(fs, 1) + SizeAt(fs, 2) + SizeAt(fs, 3)
                             + SizeAt(fs, 4) + SizeAt(fs, 5) + SizeAt(fs, 6) + SizeAt(fs, 7)
  {
    SizeStep(fs, 0);
    assert fs[0..] == fs;
    SizeStep(fs, 1);
    SizeStep(fs, 2);
    SizeStep(fs, 3);
    SizeOfTail(fs);
  }

  lemma SmallAllocation(r: Response)
    requires FixedSizes(r) && |Fields(r)| <= 4 && !r.RlcStatus?
    ensures SizeOfAll(Fields(r)) == Allocation(r)
  {
    SizeOfShort(Fields(r));
  }

  lemma LargeAllocationDuCu(r: Response)
    requires |Fields(r)| > 4 && !r.RlcStatus? && Code(r).0 < 2
    ensures SizeOfAll(Fields(r)) + (if r.RrcHandover? then 2 else 0) == Allocation(r)
  {
    SizeOfLong(Fields(r));
  }

  lemma LargeAllocationCore(r: Response)
    requires FixedSizes(r) && |Fields(r)| > 4 && Code(r).0 == 2
    ensures SizeOfAll(Fields(r)) == Allocation(r)
  {
    SizeOfLong(Fields(r));
  }

  /** A generator fills its buffer exactly; only the handover command leaves two bytes unused. */
  lemma AllocationIsExact(r: Response)
    requires FixedSizes(r)
    ensures |Payload(r)| + (if r.RrcHandover? then 2 else 0) == Allocation(r)
  {
    if r.RlcStatus? {
      NackSize(r.nacks);
      SizeOf1(U16(r.ackSn), NackFields(r.nacks));
    } else if |Fields(r)| <= 4 {
      SmallAllocation(r);
    } else if Code(r).0 < 2 {
      LargeAllocationDuCu(r);
    } else {
      LargeAllocationCore(r);
    }
    assert SizeOfAll(Fields(r)) == |Payload(r)|;
  }

  // --- the frame -----------------------------------------------------------------------------

  function HeaderFields(transaction: nat, r: Response): seq<Field> {
    [U16(Code(r).0), U16(Code(r).1), U32(transaction), U32(|Payload(r)|)]
  }

  function Frame(transaction: nat, r: Response): seq<Byte> {
    EncodeAll(HeaderFields(transaction, r)) + Payload(r)
  }

  lemma HeaderFits(transaction: nat, r: Response)
    requires transaction < 0x1_0000_0000 && |Payload(r)| < 0x1_0000_0000
    ensures AllFit(HeaderFields(transaction, r))
  {}

  lemma SameHeader(t: nat, a: Response, u: nat, b: Response)
    requires t < 0x1_0000_0000 && u < 0x1_0000_0000 && |Payload(a)| < 0x1_0000_0000 && |Payload(b)| < 0x1_0000_0000
    requires Frame(t, a) == Frame(u, b)
    ensures HeaderFields(t, a) == HeaderFields(u, b) && Payload(a) == Payload(b)
  {
    HeaderFits(t, a);
    HeaderFits(u, b);
    RoundTrip(HeaderFields(t, a), Payload(a));
    RoundTrip(HeaderFields(u, b), Payload(b));
    HeaderShapes(t, a);
    HeaderShapes(u, b);
  }

  lemma HeaderShapes(t: nat, r: Response)
    ensures ShapesOf(HeaderFields(t, r)) == [S16, S16, S32, S32]
  {
    ShapesOf4(U16(Code(r).0), U16(Code(r).1), U32(t), U32(|Payload(r)|), []);
    assert HeaderFields(t, r) + [] == HeaderFields(t, r);
  }

  lemma ShapesOf1(a: Field, rest: seq<Field>)
    ensures ShapesOf([a] + rest) == [ShapeOf(a)] + ShapesOf(rest)
  {}

  lemma ShapesOf4(a: Field, b: Field, c: Field, d: Field, rest: seq<Field>)
    ensures ShapesOf([a, b, c, d] + rest) == [ShapeOf(a), ShapeOf(b), ShapeOf(c), ShapeOf(d)] + ShapesOf(rest)
  {
    ShapesOf1(d, rest);
    ShapesOf1(c, [d] + rest);
    ShapesOf1(b, [c] + ([d] + rest));
    ShapesOf1(a, [b] + ([c] + ([d] + rest)));
    assert [a, b, c, d] + rest == [a] + ([b] + ([c] + ([d] + rest)));
  }

  /** Which generator made it. */
  datatype Kind = KRar | KUlGrant | KStatus | KSetup | KReject | KReconf | KSecMode | KHandover | KRelease | KMeas
                | KRegAccept | KRegReject | KAuth | KNasSec | KPduAccept | KPduRelease | KDl

  function KindOf(r: Response): Kind {
    match r
    case MacRar(_, _, _, _, _) => KRar
    case MacUlGrant(_, _) => KUlGrant
    case RlcStatus(_, _) => KStatus
    case RrcSetup(_, _, _, _) => KSetup
    case RrcReject(_) => KReject
    case RrcReconfiguration(_, _, _, _, _) => KReconf
    case RrcSecurityMode(_, _) => KSecMode
    case RrcHandover(_, _, _, _, _, _) => KHandover
    case RrcRelease(_) => KRelease
    case RrcMeasConfig(_) => KMeas
    case RegAccept(_, _, _, _, _, _, _, _) => KRegAccept
    case RegReject(_) => KRegReject
    case AuthRequest(_, _, _, _) => KAuth
    case NasSecurityMode(_, _, _, _) => KNasSec
    case PduAccept(_, _, _, _, _, _, _, _) => KPduAccept
    case PduRelease(_, _) => KPduRelease
    case DlTransport(_) => KDl
  }

  /** Where two generators share a code, the payload length tells them apart. */
  lemma CodeAndLengthTell(a: Response, b: Response)
    requires FixedSizes(a) && FixedSizes(b) && Code(a) == Code(b) && |Payload(a)| == |Payload(b)|
    ensures KindOf(a) == KindOf(b)
  {
    AllocationIsExact(a);
    AllocationIsExact(b);
  }

  lemma {:induction false} NackShapes(a: seq<nat>, b: seq<nat>)
    requires |a| == |b|
    ensures ShapesOf(NackFields(a)) == ShapesOf(NackFields(b))
  {
    if a != [] {
      NackShapes(a[1..], b[1..]);
      NackShape1(a[0], NackFields(a[1..]));
      NackShape1(b[0], NackFields(b[1..]));
    }
  }

  lemma NackShape1(n: nat, rest: seq<Field>)
    ensures ShapesOf([U16(n), U8(0)] + rest) == [S16, S8] + ShapesOf(rest)
  {}

  /** Field by field the same shape gives the same list of shapes. */
  lemma {:induction false} ShapesEqual(fs: seq<Field>, gs: seq<Field>)
    requires |fs| == |gs| && forall i :: 0 <= i < |fs| ==> ShapeOf(fs[i]) == ShapeOf(gs[i])
    ensures ShapesOf(fs) == ShapesOf(gs)
  {
    if fs != [] {
      ShapesEqual(fs[1..], gs[1..]);
    }
  }

  ghost predicate SameShapeEach(f: seq<Field>, g: seq<Field>) {
    |f| == |g| && forall i :: 0 <= i < |f| ==> ShapeOf(f[i]) == ShapeOf(g[i])
  }

  lemma DuShapes(a: Response, b: Response)
    requires FixedSizes(a) && FixedSizes(b) && KindOf(a) == KindOf(b) && Allocation(a) == Allocation(b) && Code(a).0 == 0 && !a.RlcStatus?
    ensures SameShapeEach(Fields(a), Fields(b))
  {}

  lemma CuShapes(a: Response, b: Response)
    requires FixedSizes(a) && FixedSizes(b) && KindOf(a) == KindOf(b) && Allocation(a) == Allocation(b) && Code(a).0 == 1
    ensures SameShapeEach(Fields(a), Fields(b))
  {}

  lemma CoreShapes(a: Response, b: Response)
    requires FixedSizes(a) && FixedSizes(b) && KindOf(a) == KindOf(b) && Allocation(a) == Allocation(b) && Code(a).0 == 2
    ensures SameShapeEach(Fields(a), Fields(b))
  {}

  lemma SameShapes(a: Response, b: Response)
    requires FixedSizes(a) && FixedSizes(b) && KindOf(a) == KindOf(b) && |Payload(a)| == |Payload(b)|
    ensures ShapesOf(Fields(a)) == ShapesOf(Fields(b))
  {
    AllocationIsExact(a);
    AllocationIsExact(b);
    if a.RlcStatus? {
      NackShapes(a.nacks, b.nacks);
      ShapesOf1(U16(a.ackSn), NackFields(a.nacks));
      ShapesOf1(U16(b.ackSn), NackFields(b.nacks));
    } else {
      if Code(a).0 == 0 {
        DuShapes(a, b);
      } else if Code(a).0 == 1 {
        CuShapes(a, b);
      } else {
        CoreShapes(a, b);
      }
      ShapesEqual(Fields(a), Fields(b));
    }
  }

  lemma {:induction false} NacksTell(a: seq<nat>, b: seq<nat>)
    requires NackFields(a) == NackFields(b)
    ensures a == b
  {
    if a != [] {
      assert NackFields(a)[0] == U16(a[0]) && NackFields(b)[0] == U16(b[0]);
      assert NackFields(a)[2..] == NackFields(a[1..]) && NackFields(b)[2..] == NackFields(b[1..]);
      NacksTell(a[1..], b[1..]);
      assert a == [a[0]] + a[1..] && b == [b[0]] + b[1..];
    }
  }

  /** The ten bytes of a MAC RAR determine what is left of its fields after masking. */
  lemma RarTells(a: Response, b: Response)
    requires a.MacRar? && b.MacRar? && Fields(a) == Fields(b)
    ensures a.rapid % 64 == b.rapid % 64 && a.timingAdvance % 4096 == b.timingAdvance % 4096
    ensures a.tcRnti % 4096 == b.tcRnti % 4096 && a.ulGrant == b.ulGrant && a.backoff % 16 == b.backoff % 16
  {
    var f, g := Fields(a), Fields(b);
    assert f[0] == g[0] && f[1] == g[1] && f[2] == g[2] && f[3] == g[3] && f[4] == g[4] && f[5] == g[5];
    Nibbles(a.timingAdvance, a.tcRnti);
    Nibbles(b.timingAdvance, b.tcRnti);
  }

  lemma Nibbles(ta: nat, rnti: nat)
    ensures var mid := (ta % 16) * 16 + (rnti / 256) % 16;
            ta % 4096 == ((ta / 16) % 256) * 16 + mid / 16 && rnti % 4096 == (mid % 16) * 256 + rnti % 256
  {
    HighBits(ta);
    LowBits(rnti);
    Halves(ta % 16, (rnti / 256) % 16);
  }

  lemma Halves(x: nat, y: nat)
    requires x < 16 && y < 16
    ensures (x * 16 + y) / 16 == x && (x * 16 + y) % 16 == y
  {}

  lemma HighBits(n: nat)
    ensures n % 4096 == ((n / 16) % 256) * 16 + n % 16
  {}

  lemma LowBits(n: nat)
    ensures n % 4096 == ((n / 256) % 16) * 256 + n % 256
  {}

  lemma StatusTells(a: Response, b: Response)
    requires a.RlcStatus? && b.RlcStatus? && Fields(a) == Fields(b)
    ensures a == b
  {
    assert Fields(a)[0] == Fields(b)[0] == U16(a.ackSn);
    assert Fields(a)[1..] == NackFields(a.nacks) && Fields(b)[1..] == NackFields(b.nacks);
    NacksTell(a.nacks, b.nacks);
  }

  lemma PackedRarTells(a: Response, b: Response)
    requires a.MacRar? && b.MacRar? && Fields(a) == Fields(b) && Packable(a) && Packable(b)
    ensures a == b
  {
    RarTells(a, b);
    Unmasked(a.rapid, b.rapid, 64);
    Unmasked(a.timingAdvance, b.timingAdvance, 4096);
    Unmasked(a.tcRnti, b.tcRnti, 4096);
    Unmasked(a.backoff, b.backoff, 16);
  }

  lemma Unmasked(x: nat, y: nat, m: nat)
    requires x < m && y < m && x % m == y % m
    ensures x == y
  {}

  lemma FieldsTell(a: Response, b: Response)
    requires KindOf(a) == KindOf(b) && Fields(a) == Fields(b) && Packable(a) && Packable(b)
    ensures a == b
  {
    if a.MacRar? {
      PackedRarTells(a, b);
    } else if a.RlcStatus? {
      StatusTells(a, b);
    } else {
      OtherFieldsTell(a, b);
    }
  }

  lemma OtherFieldsTell(a: Response, b: Response)
    requires KindOf(a) == KindOf(b) && Fields(a) == Fields(b) && !a.MacRar? && !a.RlcStatus?
    ensures a == b
  {}

  /**
   Header and payload determine the response: no two different encodable responses, of whatever
   kinds, and no two transactions have the same bytes.
   */
  lemma UniquelyDecodable(t: nat, a: Response, u: nat, b: Response)
    requires t < 0x1_0000_0000 && u < 0x1_0000_0000 && Encodable(a) && Encodable(b)
    requires Frame(t, a) == Frame(u, b)
    ensures t == u && a == b
  {
    SameHeader(t, a, u, b);
    var h, k := HeaderFields(t, a), HeaderFields(u, b);
    assert h[0] == k[0] && h[1] == k[1] && h[2] == k[2];
    CodeAndLengthTell(a, b);
    SameShapes(a, b);
    SameFields(a, b);
    FieldsTell(a, b);
  }

  lemma SameFields(a: Response, b: Response)
    requires AllFit(Fields(a)) && AllFit(Fields(b)) && Payload(a) == Payload(b) && ShapesOf(Fields(a)) == ShapesOf(Fields(b))
    ensures Fields(a) == Fields(b)
  {
    ReadBackIff(Fields(a));
    ReadBackIff(Fields(b));
  }

  /** A block too long for its length byte spoils the reading back. */
  lemma TooLongIsLost(r: Response)
    requires !AllFit(Fields(r))
    ensures DecodeAll(ShapesOf(Fields(r)), Payload(r)) != Some((Fields(r), []))
  {
    ReadBackIff(Fields(r));
  }

  /** Such a response exists: an RRC setup whose bearer configuration has 256 bytes, one more than its length byte can say. */
  lemma LongBearerIsLost()
    ensures var r := RrcSetup(0, seq(256, _ => 0), [], []);
            && FixedSizes(r) && Packable(r) && !AllFit(Fields(r))
            && DecodeAll(ShapesOf(Fields(r)), Payload(r)) != Some((Fields(r), []))
  {
    var r := RrcSetup(0, seq(256, _ => 0), [], []);
    assert !Fits(Fields(r)[1]);
    TooLongIsLost(r);
  }

  lemma HeaderSize(t: nat, r: Response)
    ensures |EncodeAll(HeaderFields(t, r))| == 12
  {
    SizeOfShort(HeaderFields(t, r));
    assert SizeOfAll(HeaderFields(t, r)) == |EncodeAll(HeaderFields(t, r))|;
  }

  lemma FrameIs(t: nat, r: Response, written: seq<Byte>)
    requires written == [] + EncodeAll(HeaderFields(t, r)) + Payload(r)
    ensures written == Frame(t, r) && |written| == 12 + |Payload(r)|
  {
    HeaderSize(t, r);
  }

  // --- the generators -----------------------------------------------------------------------

  /** The generators with a variable part ask for memory; the others use a buffer of their own or the caller's. */
  predicate AsksForMemory(r: Response) {
    r.RlcStatus? || r.RrcSetup? || r.RrcReconfiguration? || r.RrcHandover? || r.RegAccept? || r.NasSecurityMode? || r.PduAccept?
  }

  method Generate(transaction: nat, r: Response, mallocOk: bool, frameOk: bool) returns (frame: Option<array<Byte>>)
    requires FixedSizes(r)
    ensures frame.Some? <==> (AsksForMemory(r) ==> mallocOk) && frameOk
    ensures frame.Some? ==> fresh(frame.value) && frame.value[..] == Frame(transaction, r)
  {
    if AsksForMemory(r) && !mallocOk {
      return None;
    }
    AllocationIsExact(r);
    var data := new Writer(Allocation(r));
    data.PutAll(Fields(r));
    frame := Build(transaction, r, data, frameOk);
  }

  /** build_response: 12 bytes of header and a copy of what was written. */
  method Build(transaction: nat, r: Response, data: Writer, frameOk: bool) returns (frame: Option<array<Byte>>)
    requires data.Valid() && data.Written() == [] + Payload(r)
    ensures frame.Some? <==> frameOk
    ensures frame.Some? ==> fresh(frame.value) && frame.value[..] == Frame(transaction, r)
  {
    if !frameOk {
      return None;
    }
    var payload := data.buffer[..data.offset];
    assert payload == Payload(r);
    HeaderSize(transaction, r);
    var out := new Writer(12 + |payload|);
    out.PutAll(HeaderFields(transaction, r));
    out.Copy(payload);
    FrameIs(transaction, r, out.Written());
    frame := Some(out.buffer);
  }
}
