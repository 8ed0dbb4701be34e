/**
 Messages on the wire: a 32-byte header in little-endian order, then the payload.
 */
module Wire {

  newtype Byte = x: int | 0 <= x < 256

  const DELIM: nat := 0x5ADB0BB1
  const HEADER: nat := 32

  datatype Message = Message(unitType: nat, packageType: nat, source: nat, target: nat, payload: seq<Byte>)

  /** Fields within their widths: 32-bit enums and size, 64-bit ids. */
  predicate Fits(m: Message) {
    && m.unitType < 0x1_0000_0000 && m.packageType < 0x1_0000_0000 && |m.payload| < 0x1_0000_0000
    && m.source < 0x1_0000_0000_0000_0000 && m.target < 0x1_0000_0000_0000_0000
  }

  predicate AllFit(ms: seq<Message>) {
    forall i :: 0 <= i < |ms| ==> Fits(ms[i])
  }

  function LittleEndian(n: nat, width: nat): (s: seq<Byte>)
    ensures |s| == width
  {
    if width == 0 then [] else [(n % 256) as Byte] + LittleEndian(n / 256, width - 1)
  }

  function Number(s: seq<Byte>): nat {
    if s == [] then 0 else s[0] as nat + 256 * Number(s[1..])
  }

  function Power(width: nat): (p: nat)
    ensures p > 0
  {
    if width == 0 then 1 else 256 * Power(width - 1)
  }

  lemma {:induction false} NumberOfLittleEndian(n: nat, width: nat)
    requires n < Power(width)
    ensures Number(LittleEndian(n, width)) == n
  {
    if width > 0 {
      NumberOfLittleEndian(n / 256, width - 1);
      assert LittleEndian(n, width)[1..] == LittleEndian(n / 256, width - 1);
    }
  }

  /** The lowest byte comes first. */
  lemma {:induction false} ByteAt(n: nat, width: nat, i: nat)
    requires i < width
    ensures LittleEndian(n, width)[i] as nat == n / Power(i) % 256
  {
    if i > 0 {
      ByteAt(n / 256, width - 1, i - 1);
      DividedTwice(n, Power(i - 1));
    }
  }

  lemma DividedTwice(n: nat, d: nat)
    requires d > 0
    ensures n / 256 / d == n / (256 * d)
  {
    var a := n / 256;
    var q, r := a / d, a % d;
    assert a == d * q + r && n == 256 * a + n % 256;
    assert 256 * (d * q) == (256 * d) * q;
    Quotient(n, 256 * d, q, 256 * r + n % 256);
  }

  lemma Quotient(n: nat, d: nat, q: nat, r: nat)
    requires n == d * q + r && r < d
    ensures n / d == q
  {
    var k := n / d - q;
    assert n == d * (n / d) + n % d && d * k == d * (n / d) - d * q;
    SmallMultiple(d, k);
  }

  lemma SmallMultiple(d: int, k: int)
    requires 0 - d < d * k < d
    ensures k == 0
  {
    assert k > 0 ==> d * k >= d;
    assert k < 0 ==> d * k <= 0 - d;
  }

  lemma Widths()
    ensures Power(4) == 0x1_0000_0000 && Power(8) == 0x1_0000_0000_0000_0000
  {
    assert Power(2) == 65536;
  }

  function Header(m: Message): (s: seq<Byte>)
    ensures |s| == HEADER
  {
    LittleEndian(DELIM, 4) + LittleEndian(m.unitType, 4) + LittleEndian(|m.payload|, 4) + LittleEndian(m.packageType, 4)
    + LittleEndian(m.source, 8) + LittleEndian(m.target, 8)
  }

  function Encode(m: Message): seq<Byte> {
    Header(m) + m.payload
  }

  function EncodeAll(ms: seq<Message>): seq<Byte> {
    if ms == [] then [] else Encode(ms[0]) + EncodeAll(ms[1..])
  }

  /** A field of the header at the start of `s`. */
  function Field(s: seq<Byte>, from: nat, width: nat): nat
    requires from + width <= |s|
  {
    Number(s[from..from + width])
  }

  function PayloadSize(s: seq<Byte>): nat
    requires HEADER <= |s|
  {
    Field(s, 8, 4)
  }

  predicate HasMessage(s: seq<Byte>) {
    HEADER <= |s| && HEADER + PayloadSize(s) <= |s|
  }

  function FirstMessage(s: seq<Byte>): Message
    requires HasMessage(s)
  {
    Message(Field(s, 4, 4), Field(s, 12, 4), Field(s, 16, 8), Field(s, 24, 8), s[HEADER..HEADER + PayloadSize(s)])
  }

  lemma HeaderFields(m: Message, s: seq<Byte>)
    requires Fits(m) && HEADER <= |s| && s[..HEADER] == Header(m)
    ensures Field(s, 0, 4) == DELIM && Field(s, 4, 4) == m.unitType && Field(s, 8, 4) == |m.payload|
    ensures Field(s, 12, 4) == m.packageType && Field(s, 16, 8) == m.source && Field(s, 24, 8) == m.target
  {
    Widths();
    var h := Header(m);
    assert s[0..4] == h[0..4] == LittleEndian(DELIM, 4);
    assert s[4..8] == h[4..8] == LittleEndian(m.unitType, 4);
    assert s[8..12] == h[8..12] == LittleEndian(|m.payload|, 4);
    assert s[12..16] == h[12..16] == LittleEndian(m.packageType, 4);
    assert s[16..24] == h[16..24] == LittleEndian(m.source, 8);
    assert s[24..32] == h[24..32] == LittleEndian(m.target, 8);
    NumberOfLittleEndian(DELIM, 4);
    NumberOfLittleEndian(m.unitType, 4);
    NumberOfLittleEndian(|m.payload|, 4);
    NumberOfLittleEndian(m.packageType, 4);
    NumberOfLittleEndian(m.source, 8);
    NumberOfLittleEndian(m.target, 8);
  }

  /** Byte i of a message: delimiter, sender's type, payload's size, package's type, both ids, payload. */
  lemma EncodedByte(m: Message, i: nat)
    requires i < HEADER + |m.payload|
    ensures |Encode(m)| == HEADER + |m.payload|
    ensures Encode(m)[i] as nat ==
            if i < 4 then DELIM / Power(i) % 256
            else if i < 8 then m.unitType / Power(i - 4) % 256
            else if i < 12 then |m.payload| / Power(i - 8) % 256
            else if i < 16 then m.packageType / Power(i - 12) % 256
            else if i < 24 then m.source / Power(i - 16) % 256
            else if i < 32 then m.target / Power(i - 24) % 256
            else m.payload[i - 32] as nat
  {
    if i < 4 { ByteAt(DELIM, 4, i); }
    else if i < 8 { ByteAt(m.unitType, 4, i - 4); }
    else if i < 12 { ByteAt(|m.payload|, 4, i - 8); }
    else if i < 16 { ByteAt(m.packageType, 4, i - 12); }
    else if i < 24 { ByteAt(m.source, 8, i - 16); }
    else if i < 32 { ByteAt(m.target, 8, i - 24); }
  }

  /** What was encoded first is what is read first. */
  lemma FirstIsEncoded(m: Message, rest: seq<Byte>)
    requires Fits(m)
    ensures var s := Encode(m) + rest;
            HasMessage(s) && FirstMessage(s) == m && s[HEADER + PayloadSize(s)..] == rest
  {
    var s := Encode(m) + rest;
    assert s[..HEADER] == Header(m);
    HeaderFields(m, s);
  }
}
