/**
 Byte strings built field by field: big-endian numbers, fixed-length blocks, and blocks
 behind a length of one or two bytes. The mock gNB's generators (src/mock_gnb/mock_gnb_response.c)
 and the GTP-U header (src/mock_core/mock_upf.c) are lists of such fields.
 */
module Wire {
  import opened Wrappers

  type Byte = b: int | 0 <= b < 256

  datatype Field = U8(v: nat) | U16(v: nat) | U32(v: nat) | Raw(s: seq<Byte>) | Lv8(s: seq<Byte>) | Lv16(s: seq<Byte>)

  /** What a reader knows of a field beforehand. */
  datatype Shape = S8 | S16 | S32 | SRaw(n: nat) | SLv8 | SLv16

  function ShapeOf(f: Field): Shape {
    match f
    case U8(_) => S8
    case U16(_) => S16
    case U32(_) => S32
    case Raw(s) => SRaw(|s|)
    case Lv8(_) => SLv8
    case Lv16(_) => SLv16
  }

  function ShapesOf(fs: seq<Field>): (r: seq<Shape>) {
    if fs == [] then [] else [ShapeOf(fs[0])] + ShapesOf(fs[1..])
  }

  /** The value, or the length, is within the bytes the field has for it. */
  predicate Fits(f: Field) {
    match f
    case U8(v) => v < 0x100
    case U16(v) => v < 0x1_0000
    case U32(v) => v < 0x1_0000_0000
    case Raw(_) => true
    case Lv8(s) => |s| < 0x100
    case Lv16(s) => |s| < 0x1_0000
  }

  function Low(n: nat): Byte { n % 256 }

  function Two(n: nat): (r: seq<Byte>)
    ensures |r| == 2
  {
    [Low(n / 0x100), Low(n)]
  }

  function Four(n: nat): (r: seq<Byte>)
    ensures |r| == 4
  {
    [Low(n / 0x100_0000), Low(n / 0x1_0000), Low(n / 0x100), Low(n)]
  }

  /** Too long a block has its length truncated, but is written in full. */
  function Encode(f: Field): seq<Byte> {
    match f
    case U8(v) => [Low(v)]
    case U16(v) => Two(v)
    case U32(v) => Four(v)
    case Raw(s) => s
    case Lv8(s) => [Low(|s|)] + s
    case Lv16(s) => Two(|s|) + s
  }

  function EncodeAll(fs: seq<Field>): seq<Byte> {
    if fs == [] then [] else Encode(fs[0]) + EncodeAll(fs[1..])
  }

  function Number2(d: seq<Byte>): nat
    requires |d| >= 2
  {
    (d[0] as nat) * 0x100 + d[1] as nat
  }

  function Number4(d: seq<Byte>): nat
    requires |d| >= 4
  {
    (d[0] as nat) * 0x100_0000 + (d[1] as nat) * 0x1_0000 + (d[2] as nat) * 0x100 + d[3] as nat
  }

  /** One field off the front, and the rest. */
  function Take(shape: Shape, d: seq<Byte>): Option<(Field, seq<Byte>)> {
    match shape
    case S8 => if |d| < 1 then None else Some((U8(d[0]), d[1..]))
    case S16 => if |d| < 2 then None else Some((U16(Number2(d)), d[2..]))
    case S32 => if |d| < 4 then None else Some((U32(Number4(d)), d[4..]))
    case SRaw(n) => if |d| < n then None else Some((Raw(d[..n]), d[n..]))
    case SLv8 =>
      if |d| < 1 || |d| < 1 + d[0] as nat then None
      else Some((Lv8(d[1..1 + d[0] as nat]), d[1 + d[0] as nat..]))
    case SLv16 =>
      if |d| < 2 || |d| < 2 + Number2(d) then None else Some((Lv16(d[2..2 + Number2(d)]), d[2 + Number2(d)..]))
  }

  function DecodeAll(shapes: seq<Shape>, d: seq<Byte>): Option<(seq<Field>, seq<Byte>)> {
    if shapes == [] then Some(([], d)) else
    match Take(shapes[0], d)
    case None => None
    case Some((f, rest)) =>
      match DecodeAll(shapes[1..], rest)
      case None => None
      case Some((fs, end)) => Some(([f] + fs, end))
  }

  lemma Number2Of(n: nat, rest: seq<Byte>)
    requires n < 0x1_0000
    ensures Number2(Two(n) + rest) == n
  {}

  lemma TwoSteps(n: nat)
    ensures n / 0x1_0000 == n / 0x100 / 0x100
  {}

  lemma ThreeSteps(n: nat)
    ensures n / 0x100_0000 == n / 0x100 / 0x100 / 0x100
  {
    TwoSteps(n / 0x100);
  }

  /** Four digits to the base of 256. */
  lemma FourDigits(n: nat, n1: nat, n2: nat, n3: nat)
    requires n1 == n / 0x100 && n2 == n1 / 0x100 && n3 == n2 / 0x100 < 0x100
    ensures (Low(n3) as nat) * 0x100_0000 + (Low(n2) as nat) * 0x1_0000 + (Low(n1) as nat) * 0x100 + Low(n) as nat == n
  {
    assert Low(n3) == n3 && n2 == n3 * 0x100 + Low(n2) && n1 == n2 * 0x100 + Low(n1) && n == n1 * 0x100 + Low(n);
  }

  lemma Number4Of(n: nat, rest: seq<Byte>)
    requires n < 0x1_0000_0000
    ensures Number4(Four(n) + rest) == n
  {
    TwoSteps(n);
    ThreeSteps(n);
    FourDigits(n, n / 0x100, n / 0x100 / 0x100, n / 0x100 / 0x100 / 0x100);
  }

  lemma Split(a: seq<Byte>, b: seq<Byte>)
    ensures (a + b)[..|a|] == a && (a + b)[|a|..] == b
  {}

  lemma Assoc(a: seq<Byte>, b: seq<Byte>, c: seq<Byte>)
    ensures a + b + c == a + (b + c)
  {}

  lemma TakeEncoded(f: Field, rest: seq<Byte>)
    requires Fits(f)
    ensures Take(ShapeOf(f), Encode(f) + rest) == Some((f, rest))
  {
    Split(Encode(f), rest);
    match f
    case U8(v) =>
    case U16(v) => Number2Of(v, rest);
    case U32(v) => Number4Of(v, rest);
    case Raw(s) =>
    case Lv8(s) =>
      assert (Encode(f) + rest)[1..1 + |s|] == s;
    case Lv16(s) =>
      assert Encode(f) + rest == Two(|s|) + (s + rest);
      Number2Of(|s|, s + rest);
      assert (Encode(f) + rest)[2..2 + |s|] == s;
  }

  ghost predicate AllFit(fs: seq<Field>) { forall i :: 0 <= i < |fs| ==> Fits(fs[i]) }

  lemma DecodeCons(shape: Shape, shapes: seq<Shape>, d: seq<Byte>, f: Field, rest: seq<Byte>, fs: seq<Field>, end: seq<Byte>)
    requires Take(shape, d) == Some((f, rest)) && DecodeAll(shapes, rest) == Some((fs, end))
    ensures DecodeAll([shape] + shapes, d) == Some(([f] + fs, end))
  {}

  /** Fields that fit are read back as they were written, whatever follows them. */
  lemma {:induction false} RoundTrip(fs: seq<Field>, rest: seq<Byte>)
    requires AllFit(fs)
    ensures DecodeAll(ShapesOf(fs), EncodeAll(fs) + rest) == Some((fs, rest))
  {
    if fs == [] {
      assert EncodeAll(fs) + rest == rest;
    } else {
      var more := EncodeAll(fs[1..]) + rest;
      Assoc(Encode(fs[0]), EncodeAll(fs[1..]), rest);
      TakeEncoded(fs[0], more);
      RoundTrip(fs[1..], rest);
      DecodeCons(ShapeOf(fs[0]), ShapesOf(fs[1..]), Encode(fs[0]) + more, fs[0], more, fs[1..], rest);
      assert [fs[0]] + fs[1..] == fs;
    }
  }

  lemma TakenFits(shape: Shape, d: seq<Byte>)
    ensures Take(shape, d).Some? ==> Fits(Take(shape, d).value.0)
  {}

  /** Whatever is read fits. */
  lemma {:induction false} DecodedFits(shapes: seq<Shape>, d: seq<Byte>)
    ensures DecodeAll(shapes, d).Some? ==> AllFit(DecodeAll(shapes, d).value.0)
  {
    if shapes != [] && Take(shapes[0], d).Some? {
      TakenFits(shapes[0], d);
      DecodedFits(shapes[1..], Take(shapes[0], d).value.1);
    }
  }

  /** A list of fields is read back exactly when each value and each length fits its bytes. */
  lemma ReadBackIff(fs: seq<Field>)
    ensures DecodeAll(ShapesOf(fs), EncodeAll(fs)) == Some((fs, [])) <==> AllFit(fs)
  {
    DecodedFits(ShapesOf(fs), EncodeAll(fs));
    if AllFit(fs) {
      RoundTrip(fs, []);
      assert EncodeAll(fs) + [] == EncodeAll(fs);
    }
  }

  lemma EncodedLength(a: seq<Byte>, b: seq<Byte>, c: seq<Byte>, d: seq<Byte>)
    requires c + d == a + b
    ensures |c| + |d| == |a| + |b|
  {}

  /** A buffer of fixed size and the moving offset of the generators. */
  class Writer {
    const buffer: array<Byte>
    var offset: nat

    ghost predicate Valid()
      reads this
    {
      offset <= buffer.Length
    }

    ghost function Written(): seq<Byte>
      requires Valid()
      reads this, buffer
    {
      buffer[..offset]
    }

    constructor (size: nat)
      ensures Valid() && fresh(buffer) && buffer.Length == size && Written() == []
    {
      buffer := new Byte[size](_ => 0);
      offset := 0;
    }

    method Put(b: Byte)
      requires Valid() && offset < buffer.Length
      modifies this, buffer
      ensures Valid() && Written() == old(Written()) + [b]
    {
      buffer[offset] := b;
      offset := offset + 1;
    }

    /** memcpy to the current offset. */
    method Copy(s: seq<Byte>)
      requires Valid() && offset + |s| <= buffer.Length
      modifies this, buffer
      ensures Valid() && Written() == old(Written()) + s
    {
      var i := 0;
      while i < |s|
        invariant i <= |s| && offset == old(offset)
        invariant buffer[..offset + i] == old(buffer[..offset]) + s[..i]
      {
        buffer[offset + i] := s[i];
        i := i + 1;
      }
      offset := offset + |s|;
    }

    method PutField(f: Field)
      requires Valid() && offset + |Encode(f)| <= buffer.Length
      modifies this, buffer
      ensures Valid() && Written() == old(Written()) + Encode(f)
    {
      ghost var before := Written();
      match f {
        case U8(v) =>
          Put(Low(v));
        case U16(v) =>
          Copy(Two(v));
        case U32(v) =>
          Copy(Four(v));
        case Raw(s) =>
          Copy(s);
        case Lv8(s) =>
          Put(Low(|s|));
          Copy(s);
          Assoc(before, [Low(|s|)], s);
        case Lv16(s) =>
          Copy(Two(|s|));
          Copy(s);
          Assoc(before, Two(|s|), s);
      }
    }

    /** Every write stays inside the buffer when the fields' bytes fit into what is left of it. */
    method PutAll(fs: seq<Field>)
      requires Valid() && offset + |EncodeAll(fs)| <= buffer.Length
      modifies this, buffer
      ensures Valid() && Written() == old(Written()) + EncodeAll(fs)
    {
      ghost var before := Written();
      var i := 0;
      while i < |fs|
        invariant i <= |fs| && Valid()
        invariant Written() + EncodeAll(fs[i..]) == before + EncodeAll(fs)
      {
        assert fs[i..][0] == fs[i] && fs[i..][1..] == fs[i + 1..];
        Assoc(Written(), Encode(fs[i]), EncodeAll(fs[i + 1..]));
        EncodedLength(before, EncodeAll(fs), Written(), EncodeAll(fs[i..]));
        PutField(fs[i]);
        i := i + 1;
      }
      assert Written() + [] == Written();
    }
  }
}
