/** The STUN client of crates/voicersd/src/network/stun.rs: the binding request it sends and the
    parser for binding responses (RFC 8489, sections 5, 14, 14.1 and 14.2).  Bytes are integers. */
module Stun {
  import opened Core

  type byte = b: int | 0 <= b < 256
  type TransactionId = t: seq<byte> | |t| == 12 witness seq(12, _ => 0)

  const BINDING_REQUEST: nat := 0x0001
  const BINDING_SUCCESS: nat := 0x0101
  const MAPPED_ADDRESS: nat := 0x0001
  const XOR_MAPPED_ADDRESS: nat := 0x0020
  const COOKIE: seq<byte> := [0x21, 0x12, 0xA4, 0x42]
  const COOKIE_HIGH: nat := 0x2112

  datatype Result<+T> = Ok(value: T) | Err(error: Error)
  datatype Error =
    | ShortHeader | UnexpectedType | TruncatedResponse | WrongCookie | WrongTransaction
    | TruncatedAttribute | NoMappedAddress
    | InvalidAddress | TruncatedIpv4 | TruncatedIpv6 | UnsupportedFamily

  datatype Address = Ipv4(octets: seq<byte>, port: nat) | Ipv6(octets: seq<byte>, port: nat)

  predicate IsAddress(a: Address) {
    a.port < 65536 && |a.octets| == if a.Ipv4? then 4 else 16
  }

  // --- words ---------------------------------------------------------------------------------

  function U16(hi: byte, lo: byte): (n: nat)
    ensures n < 65536
  {
    hi * 256 + lo
  }

  function Be16(n: nat): (b: seq<byte>)
    requires n < 65536
    ensures |b| == 2 && U16(b[0], b[1]) == n
  {
    [n / 256, n % 256]
  }

  lemma Be16Inverts(hi: byte, lo: byte)
    ensures Be16(U16(hi, lo)) == [hi, lo]
  {
  }

  /** Bitwise exclusive or of naturals. */
  function Xor(a: nat, b: nat): nat
    decreases a + b
  {
    if a == 0 && b == 0 then 0 else (a + b) % 2 + 2 * Xor(a / 2, b / 2)
  }

  lemma XorDigits(a: nat, b: nat)
    ensures Xor(a, b) / 2 == Xor(a / 2, b / 2) && Xor(a, b) % 2 == (a + b) % 2
  {
  }

  lemma {:induction false} XorTwice(a: nat, b: nat)
    ensures Xor(Xor(a, b), b) == a
    decreases a + b
  {
    if a != 0 || b != 0 {
      XorTwice(a / 2, b / 2);
      XorDigits(a, b);
      var x := Xor(a, b);
      XorDigits(x, b);
      Digits(a, Xor(x, b), x, b);
    }
  }

  lemma Digits(a: nat, y: nat, x: nat, b: nat)
    requires y / 2 == a / 2 && y % 2 == (x + b) % 2 && x % 2 == (a + b) % 2
    ensures y == a
  {
  }

  lemma {:induction false} XorFits(a: nat, b: nat, bits: nat)
    requires a < Two(bits) && b < Two(bits)
    ensures Xor(a, b) < Two(bits)
    decreases bits
  {
    if bits > 0 && (a != 0 || b != 0) {
      XorFits(a / 2, b / 2, bits - 1);
    }
  }

  function Two(n: nat): nat { if n == 0 then 1 else 2 * Two(n - 1) }

  lemma WordSizes()
    ensures Two(8) == 256 && Two(16) == 65536
  {
    assert Two(4) == 16;
    assert Two(8) == 256;
    assert Two(12) == 4096;
  }

  function XorByte(a: byte, b: byte): byte {
    WordSizes();
    XorFits(a, b, 8);
    Xor(a, b)
  }

  function XorPort(p: nat): (q: nat)
    requires p < 65536
    ensures q < 65536
  {
    WordSizes();
    XorFits(p, COOKIE_HIGH, 16);
    Xor(p, COOKIE_HIGH)
  }

  /** Mask the leading octets, as zipping the two sequences does. */
  function Masked(octets: seq<byte>, mask: seq<byte>): (r: seq<byte>)
    ensures |r| == |octets|
  {
    seq(|octets|, i requires 0 <= i < |octets| =>
      if i < |mask| then XorByte(octets[i], mask[i]) else octets[i])
  }

  // --- addresses -----------------------------------------------------------------------------

  function ParseAddress(value: seq<byte>, xored: bool, id: TransactionId): Result<Address> {
    if |value| < 4 || value[0] != 0 then Err(InvalidAddress)
    else
      var plain := U16(value[2], value[3]);
      var port := if xored then XorPort(plain) else plain;
      if value[1] == 0x01 then
        if |value| < 8 then Err(TruncatedIpv4)
        else
          var octets := value[4..8];
          Ok(Ipv4(if xored then Masked(octets, COOKIE) else octets, port))
      else if value[1] == 0x02 then
        if |value| < 20 then Err(TruncatedIpv6)
        else
          var octets := value[4..20];
          Ok(Ipv6(if xored then Masked(octets, COOKIE + id) else octets, port))
      else Err(UnsupportedFamily)
  }

  /** Sections 14.1 and 14.2: the value of a MAPPED-ADDRESS or XOR-MAPPED-ADDRESS attribute. */
  function EncodeAddress(a: Address, xored: bool, id: TransactionId): seq<byte>
    requires IsAddress(a)
  {
    [0, if a.Ipv4? then 0x01 else 0x02]
    + Be16(if xored then XorPort(a.port) else a.port)
    + (if xored then Masked(a.octets, COOKIE + id) else a.octets)
  }

  lemma MaskPrefix(octets: seq<byte>, mask: seq<byte>, more: seq<byte>)
    requires |octets| <= |mask|
    ensures Masked(octets, mask + more) == Masked(octets, mask)
  {
  }

  // --- addresses on the wire -------------------------------------------------------------------

  /** Bit number i of a natural, counted from the lowest. */
  function BitAt(n: nat, i: nat): nat
    decreases i
  {
    if i == 0 then n % 2 else BitAt(n / 2, i - 1)
  }

  /** Exclusive or sets a bit exactly when one operand has it and the other does not. */
  lemma {:induction false} XorBits(a: nat, b: nat, i: nat)
    ensures BitAt(Xor(a, b), i) == if BitAt(a, i) != BitAt(b, i) then 1 else 0
    decreases i
  {
    XorDigits(a, b);
    if i == 0 {
      LowestBit(a, b);
    } else {
      XorBits(a / 2, b / 2, i - 1);
      HigherBit(a, i);
      HigherBit(b, i);
      HigherBit(Xor(a, b), i);
    }
  }

  lemma LowestBit(a: nat, b: nat)
    ensures (a + b) % 2 == if a % 2 != b % 2 then 1 else 0
  {
  }

  lemma HigherBit(n: nat, i: nat)
    requires i > 0
    ensures BitAt(n, i) == BitAt(n / 2, i - 1)
  {
  }

  /** Each bit of `x` is that of `y`, turned over where `m` has it set. */
  predicate MaskedBy(x: byte, y: byte, m: byte) {
    forall i: nat :: i < 8 ==> BitAt(x, i) == if BitAt(y, i) != BitAt(m, i) then 1 else 0
  }

  /** Numbers of a width with the same bits are the same. */
  lemma {:induction false} SameBits(x: nat, y: nat, width: nat)
    requires x < Two(width) && y < Two(width)
    requires forall i: nat :: i < width ==> BitAt(x, i) == BitAt(y, i)
    ensures x == y
    decreases width
  {
    if width > 0 {
      assert BitAt(x, 0) == BitAt(y, 0);
      forall i: nat | i < width - 1 ensures BitAt(x / 2, i) == BitAt(y / 2, i) {
        assert BitAt(x, i + 1) == BitAt(y, i + 1);
      }
      SameBits(x / 2, y / 2, width - 1);
    }
  }

  lemma MaskIsXor(x: byte, y: byte, m: byte)
    ensures MaskedBy(x, y, m) <==> x == XorByte(y, m)
  {
    var z := XorByte(y, m);
    forall i: nat | i < 8 ensures BitAt(z, i) == if BitAt(y, i) != BitAt(m, i) then 1 else 0 {
      XorBits(y, m, i);
    }
    WordSizes();
    if MaskedBy(x, y, m) { SameBits(x, z, 8); }
  }

  /** The exclusive or of two-byte words is that of their bytes. */
  lemma XorWords(a: byte, b: byte, c: byte, d: byte)
    ensures Xor(a * 256 + b, c * 256 + d) == XorByte(a, c) * 256 + XorByte(b, d)
  {
    WordSizes();
    XorShifted(a, b, c, d, 8);
    ShiftedByte(a);
    ShiftedByte(c);
    ShiftedByte(Xor(a, c));
  }

  lemma Half(p: nat, b: nat)
    ensures (2 * p + b) / 2 == p + b / 2 && (2 * p + b) % 2 == b % 2
  {
  }

  lemma XorStep(x: nat, y: nat)
    ensures Xor(x, y) == 2 * Xor(x / 2, y / 2) + (x + y) % 2
  {
  }

  lemma SameParity(p: nat, b: nat, q: nat, d: nat)
    ensures (2 * p + b + (2 * q + d)) % 2 == (b + d) % 2
  {
    assert 2 * p + b + (2 * q + d) == 2 * (p + q) + (b + d);
    Half(p + q, b + d);
  }

  /** One more low digit below `b` and `d`. */
  lemma XorLonger(p: nat, b: nat, q: nat, d: nat, r: nat)
    requires Xor(p + b / 2, q + d / 2) == r + Xor(b / 2, d / 2)
    ensures Xor(2 * p + b, 2 * q + d) == 2 * r + Xor(b, d)
  {
    Half(p, b);
    Half(q, d);
    XorStep(2 * p + b, 2 * q + d);
    XorStep(b, d);
    SameParity(p, b, q, d);
  }

  function Shifted(a: nat, n: nat): nat { if n == 0 then a else 2 * Shifted(a, n - 1) }

  lemma {:induction false} XorShifted(a: nat, b: nat, c: nat, d: nat, n: nat)
    requires b < Two(n) && d < Two(n)
    ensures Xor(Shifted(a, n) + b, Shifted(c, n) + d) == Shifted(Xor(a, c), n) + Xor(b, d)
    decreases n
  {
    if n > 0 {
      var p, q, r := Shifted(a, n - 1), Shifted(c, n - 1), Shifted(Xor(a, c), n - 1);
      HalfFits(b, n);
      HalfFits(d, n);
      XorShifted(a, b / 2, c, d / 2, n - 1);
      XorLonger(p, b, q, d, r);
      ShiftedOnce(a, n);
      ShiftedOnce(c, n);
      ShiftedOnce(Xor(a, c), n);
    } else {
      NotShifted(a, b, c, d);
    }
  }

  lemma NotShifted(a: nat, b: nat, c: nat, d: nat)
    requires b < Two(0) && d < Two(0)
    ensures Xor(Shifted(a, 0) + b, Shifted(c, 0) + d) == Shifted(Xor(a, c), 0) + Xor(b, d)
  {
  }

  lemma HalfFits(b: nat, n: nat)
    requires n > 0 && b < Two(n)
    ensures b / 2 < Two(n - 1)
  {
  }

  lemma ShiftedOnce(a: nat, n: nat)
    requires n > 0
    ensures Shifted(a, n) == 2 * Shifted(a, n - 1)
  {
  }

  lemma ShiftedByte(a: nat)
    ensures Shifted(a, 8) == a * 256
  {
    assert Shifted(a, 1) == 2 * a && Shifted(a, 2) == 4 * a && Shifted(a, 3) == 8 * a && Shifted(a, 4) == 16 * a;
    assert Shifted(a, 5) == 32 * a && Shifted(a, 6) == 64 * a && Shifted(a, 7) == 128 * a;
  }

  /** The magic cookie and the transaction id: what an XOR-MAPPED-ADDRESS is masked with. */
  function Mask(id: TransactionId): seq<byte> { [0x21, 0x12, 0xA4, 0x42] + id }

  /** How sections 14.1 and 14.2 lay an address out: a zero byte, the family, two bytes of port and four or
      sixteen of address, in network order; in an XOR-MAPPED-ADDRESS port and address are masked, each from
      the first byte of the mask on. */
  predicate OnTheWire(v: seq<byte>, a: Address, xored: bool, id: TransactionId)
    requires IsAddress(a)
  {
    && |v| == 4 + |a.octets| && v[0] == 0 && v[1] == (if a.Ipv4? then 1 else 2)
    && (exists hi: byte, lo: byte :: hi * 256 + lo == a.port && PortBytes(v[2], v[3], hi, lo, xored, id))
    && forall i :: 0 <= i < |a.octets| ==>
         if xored then MaskedBy(v[4 + i], a.octets[i], Mask(id)[i]) else v[4 + i] == a.octets[i]
  }

  predicate PortBytes(x: byte, y: byte, hi: byte, lo: byte, xored: bool, id: TransactionId) {
    if xored then MaskedBy(x, hi, Mask(id)[0]) && MaskedBy(y, lo, Mask(id)[1]) else x == hi && y == lo
  }

  lemma CookieHalf(c: byte, d: byte)
    requires c == 0x21 && d == 0x12
    ensures COOKIE_HIGH == c * 256 + d
  {
  }

  /** Unmasking a port unmasks its bytes with the first two of the cookie. */
  lemma PortOfBytes(x: byte, y: byte, c: byte, d: byte)
    requires c == 0x21 && d == 0x12
    ensures XorPort(x * 256 + y) == XorByte(x, c) * 256 + XorByte(y, d)
  {
    CookieHalf(c, d);
    XorWords(x, y, c, d);
  }

  lemma Unmask(x: byte, y: byte, m: byte)
    requires MaskedBy(x, y, m)
    ensures XorByte(x, m) == y
  {
    MaskIsXor(x, y, m);
    XorTwice(y, m);
  }

  lemma PortOnTheWire(x: byte, y: byte, hi: byte, lo: byte, c: byte, d: byte)
    requires c == 0x21 && d == 0x12 && MaskedBy(x, hi, c) && MaskedBy(y, lo, d)
    ensures XorPort(U16(x, y)) == hi * 256 + lo
  {
    Unmask(x, hi, c);
    Unmask(y, lo, d);
    PortOfBytes(x, y, c, d);
  }

  lemma OctetsOnTheWire(wire: seq<byte>, octets: seq<byte>, mask: seq<byte>)
    requires |wire| == |octets| <= |mask|
    requires forall i :: 0 <= i < |octets| ==> MaskedBy(wire[i], octets[i], mask[i])
    ensures Masked(wire, mask) == octets
  {
    forall i | 0 <= i < |octets| ensures Masked(wire, mask)[i] == octets[i] {
      Unmask(wire[i], octets[i], mask[i]);
    }
  }

  /** The parser reads every address back from the wire, under either attribute, whatever follows it. */
  lemma WireIsRead(v: seq<byte>, a: Address, xored: bool, id: TransactionId, extra: seq<byte>)
    requires IsAddress(a) && OnTheWire(v, a, xored, id)
    ensures ParseAddress(v + extra, xored, id) == Ok(a)
  {
    var hi: byte, lo: byte :| hi * 256 + lo == a.port && PortBytes(v[2], v[3], hi, lo, xored, id);
    var n := |a.octets|;
    assert (v + extra)[4..4 + n] == v[4..];
    if xored {
      PortOnTheWire(v[2], v[3], hi, lo, Mask(id)[0], Mask(id)[1]);
      OctetsOnTheWire(v[4..], a.octets, Mask(id));
      assert COOKIE + id == Mask(id);
      if a.Ipv4? { MaskPrefix(v[4..], COOKIE, id); }
    } else {
      assert v[4..] == a.octets;
    }
  }

  lemma MaskedPort(port: nat, hi: byte, lo: byte, c: byte, d: byte)
    requires port == hi * 256 + lo && c == 0x21 && d == 0x12
    ensures port < 65536
    ensures var b := Be16(XorPort(port)); MaskedBy(b[0], hi, c) && MaskedBy(b[1], lo, d)
  {
    PortOfBytes(hi, lo, c, d);
    Be16Inverts(XorByte(hi, c), XorByte(lo, d));
    MaskIsXor(XorByte(hi, c), hi, c);
    MaskIsXor(XorByte(lo, d), lo, d);
  }

  lemma MaskedOctets(octets: seq<byte>, mask: seq<byte>)
    requires |octets| <= |mask|
    ensures forall i :: 0 <= i < |octets| ==> MaskedBy(Masked(octets, mask)[i], octets[i], mask[i])
  {
    forall i | 0 <= i < |octets| ensures MaskedBy(Masked(octets, mask)[i], octets[i], mask[i]) {
      MaskIsXor(Masked(octets, mask)[i], octets[i], mask[i]);
    }
  }

  /** And the encoding used to state the round trips is the one on the wire. */
  lemma EncodingIsOnTheWire(a: Address, xored: bool, id: TransactionId)
    requires IsAddress(a)
    ensures OnTheWire(EncodeAddress(a, xored, id), a, xored, id)
  {
    var v := EncodeAddress(a, xored, id);
    var hi: byte, lo: byte := a.port / 256, a.port % 256;
    if xored {
      MaskedPort(a.port, hi, lo, Mask(id)[0], Mask(id)[1]);
      MaskedOctets(a.octets, Mask(id));
      assert COOKIE + id == Mask(id);
    }
    assert PortBytes(v[2], v[3], hi, lo, xored, id);
  }

  /** Every address survives encoding, under either attribute, whatever follows it in the value. */
  lemma AddressRoundTrip(a: Address, xored: bool, id: TransactionId, extra: seq<byte>)
    requires IsAddress(a)
    ensures ParseAddress(EncodeAddress(a, xored, id) + extra, xored, id) == Ok(a)
  {
    EncodingIsOnTheWire(a, xored, id);
    WireIsRead(EncodeAddress(a, xored, id), a, xored, id, extra);
  }

  /** What the parser accepts as an address, and what it says otherwise. */
  lemma AddressErrors(v: seq<byte>, xored: bool, id: TransactionId)
    ensures var r := ParseAddress(v, xored, id);
            && (r.Ok? <==> |v| >= 4 && v[0] == 0 && ((v[1] == 1 && |v| >= 8) || (v[1] == 2 && |v| >= 20)))
            && (r == Err(InvalidAddress) <==> |v| < 4 || v[0] != 0)
            && (r == Err(TruncatedIpv4) <==> 4 <= |v| < 8 && v[0] == 0 && v[1] == 1)
            && (r == Err(TruncatedIpv6) <==> 4 <= |v| < 20 && v[0] == 0 && v[1] == 2)
            && (r == Err(UnsupportedFamily) <==> |v| >= 4 && v[0] == 0 && v[1] != 1 && v[1] != 2)
  {
  }

  // --- attributes ----------------------------------------------------------------------------

  /** (len + 3) with its two low bits cleared. */
  function Padded(len: nat): (p: nat)
    ensures len <= p < len + 4 && p % 4 == 0
  {
    len + 3 - (len + 3) % 4
  }

  /** An attribute as it lies in a message.  Padding bytes may have any value; only at the very end of
      a message can some of them be missing. */
  datatype Attribute = Attribute(kind: nat, value: seq<byte>, padding: seq<byte>)

  predicate IsAttribute(a: Attribute) {
    a.kind < 65536 && |a.value| < 65536 && |a.value| + |a.padding| <= Padded(|a.value|)
  }

  predicate FullyPadded(a: Attribute) {
    |a.value| + |a.padding| == Padded(|a.value|)
  }

  function EncodeAttribute(a: Attribute): seq<byte>
    requires IsAttribute(a)
  {
    Be16(a.kind) + Be16(|a.value|) + a.value + a.padding
  }

  predicate AreAttributes(attrs: seq<Attribute>) {
    forall i :: 0 <= i < |attrs| ==> IsAttribute(attrs[i])
  }

  function EncodeAttributes(attrs: seq<Attribute>): seq<byte>
    requires AreAttributes(attrs)
  {
    if attrs == [] then [] else EncodeAttribute(attrs[0]) + EncodeAttributes(attrs[1..])
  }

  /** Attributes are fully padded, except that the last may run into the end of the message. */
  predicate LaidOut(attrs: seq<Attribute>, rest: seq<byte>) {
    forall i :: 0 <= i < |attrs| ==> FullyPadded(attrs[i]) || (i == |attrs| - 1 && rest == [])
  }

  /** An attribute header that announces more bytes than the message still holds. */
  predicate CutOff(rest: seq<byte>) {
    |rest| >= 4 && 4 + U16(rest[2], rest[3]) > |rest|
  }

  /** What one attribute does to the search: end it, or go on with a new candidate. */
  datatype Verdict = Stop(result: Result<Address>) | Continue(mapped: Option<Address>)

  type Judge = (nat, seq<byte>, Option<Address>) -> Verdict

  function AddressJudge(id: TransactionId): Judge {
    (kind: nat, value: seq<byte>, mapped: Option<Address>) =>
      if kind == XOR_MAPPED_ADDRESS then Stop(ParseAddress(value, true, id))
      else if kind == MAPPED_ADDRESS then
        match ParseAddress(value, false, id)
        case Err(e) => Stop(Err(e))
        case Ok(a) => Continue(Some(a))
      else Continue(mapped)
  }

  function Found(mapped: Option<Address>): Result<Address> {
    if mapped.Some? then Ok(mapped.value) else Err(NoMappedAddress)
  }

  /** What a list of attributes says, each judged in turn; `cut` when the message then breaks off. */
  function Resolve(attrs: seq<Attribute>, cut: bool, mapped: Option<Address>, judge: Judge): Result<Address> {
    if attrs == [] then
      if cut then Err(TruncatedAttribute) else Found(mapped)
    else
      match judge(attrs[0].kind, attrs[0].value, mapped)
      case Stop(r) => r
      case Continue(m) => Resolve(attrs[1..], cut, m, judge)
  }

  /** The parser's loop from `offset` on. */
  function Scan(attrs: seq<byte>, offset: nat, mapped: Option<Address>, judge: Judge): Result<Address>
    decreases |attrs| - offset
  {
    if offset + 4 > |attrs| then Found(mapped)
    else
      var len := U16(attrs[offset + 2], attrs[offset + 3]);
      var start := offset + 4;
      if start + len > |attrs| then Err(TruncatedAttribute)
      else
        match judge(U16(attrs[offset], attrs[offset + 1]), attrs[start..start + len], mapped)
        case Stop(r) => r
        case Continue(m) => Scan(attrs, start + Padded(len), m, judge)
  }

  /** A whole attribute at the head of `b`, and where the next one begins. */
  predicate StartsWhole(b: seq<byte>) {
    |b| >= 4 && !CutOff(b)
  }

  function End(b: seq<byte>): (end: nat)
    requires StartsWhole(b)
    ensures 4 + U16(b[2], b[3]) <= end <= |b|
  {
    var end := 4 + Padded(U16(b[2], b[3]));
    if end <= |b| then end else |b|
  }

  function Head(b: seq<byte>): Attribute
    requires StartsWhole(b)
  {
    var len := U16(b[2], b[3]);
    Attribute(U16(b[0], b[1]), b[4..4 + len], b[4 + len..End(b)])
  }

  /** Any byte string read as attributes, up to less than a header or a cut-off one. */
  function Split(b: seq<byte>): (seq<Attribute>, seq<byte>)
    decreases |b|
  {
    if StartsWhole(b) then
      var (attrs, rest) := Split(b[End(b)..]);
      ([Head(b)] + attrs, rest)
    else ([], b)
  }

  lemma HeadFits(b: seq<byte>)
    requires StartsWhole(b)
    ensures IsAttribute(Head(b))
  {
  }

  lemma CutInFour(b: seq<byte>, m: nat, e: nat)
    requires 4 <= m <= e <= |b|
    ensures b[..e] == [b[0], b[1]] + [b[2], b[3]] + b[4..m] + b[m..e]
  {
  }

  lemma EncodedHead(b: seq<byte>)
    requires StartsWhole(b)
    ensures IsAttribute(Head(b)) && EncodeAttribute(Head(b)) == b[..End(b)]
  {
    HeadFits(b);
    Be16Inverts(b[0], b[1]);
    Be16Inverts(b[2], b[3]);
    CutInFour(b, 4 + U16(b[2], b[3]), End(b));
  }

  lemma EncodeFirst(a: Attribute, attrs: seq<Attribute>)
    requires IsAttribute(a) && AreAttributes(attrs)
    ensures AreAttributes([a] + attrs)
    ensures EncodeAttributes([a] + attrs) == EncodeAttribute(a) + EncodeAttributes(attrs)
  {
    assert ([a] + attrs)[1..] == attrs;
  }

  lemma Rejoin(b: seq<byte>, end: nat, first: seq<byte>, middle: seq<byte>, rest: seq<byte>)
    requires end <= |b| && first == b[..end] && middle + rest == b[end..]
    ensures (first + middle) + rest == b
  {
    assert (first + middle) + rest == first + (middle + rest);
  }

  lemma HeadIs(b: seq<byte>, a: Attribute, end: nat)
    requires StartsWhole(b)
    requires a.kind == U16(b[0], b[1]) && |a.value| == U16(b[2], b[3])
    requires end == if 4 + Padded(|a.value|) <= |b| then 4 + Padded(|a.value|) else |b|
    requires a.value == b[4..4 + |a.value|] && a.padding == b[4 + |a.value|..end]
    ensures Head(b) == a && End(b) == end
  {
  }

  /** Every byte string is such a layout: nothing is lost and nothing is read twice. */
  lemma {:induction false} SplitIsALayout(b: seq<byte>)
    ensures var (attrs, rest) := Split(b);
            && AreAttributes(attrs) && LaidOut(attrs, rest)
            && (|rest| < 4 || CutOff(rest))
            && EncodeAttributes(attrs) + rest == b
    decreases |b|
  {
    if StartsWhole(b) {
      var a, end := Head(b), End(b);
      SplitIsALayout(b[end..]);
      var (attrs, rest) := Split(b[end..]);
      EncodedHead(b);
      EncodeFirst(a, attrs);
      Rejoin(b, end, EncodeAttribute(a), EncodeAttributes(attrs), rest);
      LaidOutStep(a, attrs, rest, b[end..]);
    } else {
      assert EncodeAttributes([]) + b == b;
    }
  }

  lemma EncodingIsNotEmpty(attrs: seq<Attribute>)
    requires AreAttributes(attrs)
    ensures EncodeAttributes(attrs) == [] <==> attrs == []
  {
  }

  lemma LaidOutStep(a: Attribute, attrs: seq<Attribute>, rest: seq<byte>, tail: seq<byte>)
    requires AreAttributes(attrs) && LaidOut(attrs, rest) && EncodeAttributes(attrs) + rest == tail
    requires FullyPadded(a) || tail == []
    ensures LaidOut([a] + attrs, rest)
  {
    if !FullyPadded(a) {
      EncodingIsNotEmpty(attrs);
    }
  }

  /** A layout has no other reading: what is written as attributes splits back into them. */
  lemma {:induction false} SplitInvertsEncoding(attrs: seq<Attribute>, rest: seq<byte>)
    requires AreAttributes(attrs) && LaidOut(attrs, rest) && (|rest| < 4 || CutOff(rest))
    ensures Split(EncodeAttributes(attrs) + rest) == (attrs, rest)
    decreases |attrs|
  {
    if attrs == [] {
      assert EncodeAttributes(attrs) + rest == rest;
    } else {
      var a, more := attrs[0], attrs[1..];
      var tail := EncodeAttributes(more) + rest;
      var b := EncodeAttribute(a) + tail;
      assert EncodeAttributes(attrs) + rest == b;
      FirstAttribute(a, tail);
      SplitInvertsEncoding(more, rest);
      if !FullyPadded(a) {
        assert more == [] && tail == [];
      }
      var end := |b| - |tail|;
      assert b[4 + |a.value|..end] == a.padding && b[end..] == tail;
      HeadIs(b, a, end);
      assert [a] + more == attrs;
    }
  }

  lemma Leading(head: seq<byte>, value: seq<byte>, padding: seq<byte>, tail: seq<byte>)
    requires |head| == 4
    ensures var all := head + value + padding + tail;
            && |all| >= 4 + |value| && all[4..4 + |value|] == value
            && all[0] == head[0] && all[1] == head[1] && all[2] == head[2] && all[3] == head[3]
  {
  }

  lemma FirstAttribute(a: Attribute, tail: seq<byte>)
    requires IsAttribute(a)
    ensures var all := EncodeAttribute(a) + tail;
            && |all| >= 4 + |a.value| && all[4..4 + |a.value|] == a.value
            && U16(all[0], all[1]) == a.kind && U16(all[2], all[3]) == |a.value|
  {
    HeadBytes(a.kind, |a.value|);
    Leading(Be16(a.kind) + Be16(|a.value|), a.value, a.padding, tail);
  }

  lemma ScanFirst(b: seq<byte>, offset: nat, kind: nat, value: seq<byte>, mapped: Option<Address>, judge: Judge)
    requires offset + 4 + |value| <= |b| && b[offset + 4..offset + 4 + |value|] == value
    requires U16(b[offset], b[offset + 1]) == kind && U16(b[offset + 2], b[offset + 3]) == |value|
    ensures Scan(b, offset, mapped, judge) ==
            var v := judge(kind, value, mapped);
            if v.Stop? then v.result else Scan(b, offset + 4 + Padded(|value|), v.mapped, judge)
  {
  }

  lemma ReadFirst(b: seq<byte>, offset: nat) returns (a: Attribute, end: nat)
    requires offset + 4 <= |b| && !CutOff(b[offset..])
    ensures offset + 4 + |a.value| <= |b| && b[offset + 4..offset + 4 + |a.value|] == a.value
    ensures U16(b[offset], b[offset + 1]) == a.kind && U16(b[offset + 2], b[offset + 3]) == |a.value|
    ensures offset < end <= |b|
    ensures end == offset + 4 + Padded(|a.value|) || end == |b| < offset + 4 + Padded(|a.value|)
    ensures Split(b[offset..]) == ([a] + Split(b[end..]).0, Split(b[end..]).1)
  {
    var c := b[offset..];
    assert c[0] == b[offset] && c[1] == b[offset + 1] && c[2] == b[offset + 2] && c[3] == b[offset + 3];
    a, end := Head(c), offset + End(c);
    assert c[End(c)..] == b[end..];
  }

  lemma ScanStep(b: seq<byte>, offset: nat, a: Attribute, end: nat, attrs: seq<Attribute>, cut: bool,
                 mapped: Option<Address>, judge: Judge)
    requires offset + 4 + |a.value| <= |b| && b[offset + 4..offset + 4 + |a.value|] == a.value
    requires U16(b[offset], b[offset + 1]) == a.kind && U16(b[offset + 2], b[offset + 3]) == |a.value|
    requires end == offset + 4 + Padded(|a.value|) || end == |b| < offset + 4 + Padded(|a.value|)
    requires var v := judge(a.kind, a.value, mapped);
             v.Continue? ==> Scan(b, end, v.mapped, judge) == Resolve(attrs, cut, v.mapped, judge)
    ensures Scan(b, offset, mapped, judge) == Resolve([a] + attrs, cut, mapped, judge)
  {
    ScanFirst(b, offset, a.kind, a.value, mapped, judge);
    ResolveFirst(a, attrs, cut, mapped, judge);
    var verdict := judge(a.kind, a.value, mapped);
    if verdict.Continue? {
      ScanBeyond(b, end, offset + 4 + Padded(|a.value|), verdict.mapped, judge);
    }
  }

  /** The loop over bytes is the walk over the attributes those bytes are. */
  lemma {:induction false} ScanIsResolve(b: seq<byte>, offset: nat, mapped: Option<Address>, judge: Judge)
    requires offset <= |b|
    ensures var (attrs, rest) := Split(b[offset..]);
            Scan(b, offset, mapped, judge) == Resolve(attrs, CutOff(rest), mapped, judge)
    decreases |b| - offset
  {
    if offset + 4 <= |b| && !CutOff(b[offset..]) {
      var a, end := ReadFirst(b, offset);
      var (attrs, rest) := Split(b[end..]);
      var verdict := judge(a.kind, a.value, mapped);
      if verdict.Continue? {
        ScanIsResolve(b, end, verdict.mapped, judge);
      }
      ScanStep(b, offset, a, end, attrs, CutOff(rest), mapped, judge);
    } else {
      ScanStops(b, offset, mapped, judge);
    }
  }

  lemma ScanStops(b: seq<byte>, offset: nat, mapped: Option<Address>, judge: Judge)
    requires offset <= |b|
    requires offset + 4 > |b| || CutOff(b[offset..])
    ensures Scan(b, offset, mapped, judge) == Resolve([], CutOff(b[offset..]), mapped, judge)
    ensures Split(b[offset..]) == ([], b[offset..])
  {
  }

  lemma ResolveFirst(a: Attribute, attrs: seq<Attribute>, cut: bool, mapped: Option<Address>, judge: Judge)
    ensures Resolve([a] + attrs, cut, mapped, judge) ==
            var v := judge(a.kind, a.value, mapped);
            if v.Stop? then v.result else Resolve(attrs, cut, v.mapped, judge)
  {
    assert ([a] + attrs)[1..] == attrs;
  }

  /** Padding that the message no longer holds ends the scan like its end does. */
  lemma ScanBeyond(b: seq<byte>, i: nat, j: nat, mapped: Option<Address>, judge: Judge)
    requires i == j || |b| == i < j
    ensures Scan(b, i, mapped, judge) == Scan(b, j, mapped, judge)
  {
  }

  // --- whole messages ------------------------------------------------------------------------

  function Request(id: TransactionId): seq<byte> {
    Be16(BINDING_REQUEST) + [0, 0] + COOKIE + id
  }

  function Parse(response: seq<byte>, id: TransactionId): Result<Address> {
    if |response| < 20 then Err(ShortHeader)
    else if U16(response[0], response[1]) != BINDING_SUCCESS then Err(UnexpectedType)
    else
      var length := U16(response[2], response[3]);
      if |response| < 20 + length then Err(TruncatedResponse)
      else if response[4..8] != COOKIE then Err(WrongCookie)
      else if response[8..20] != id then Err(WrongTransaction)
      else Scan(response[20..20 + length], 0, None, AddressJudge(id))
  }

  /** Section 5: a success response around `body`, possibly followed by bytes it does not claim. */
  function Response(id: TransactionId, body: seq<byte>, extra: seq<byte>): seq<byte>
    requires |body| < 65536
  {
    Be16(BINDING_SUCCESS) + Be16(|body|) + COOKIE + id + body + extra
  }

  lemma Slices(head: seq<byte>, id: TransactionId, body: seq<byte>, extra: seq<byte>)
    requires |head| == 4
    ensures var r := head + COOKIE + id + body + extra;
            && |r| == 20 + |body| + |extra| && r[..4] == head && r[4..8] == COOKIE
            && r[8..20] == id && r[20..20 + |body|] == body
  {
    var r := head + COOKIE + id + body + extra;
    assert r == head + (COOKIE + (id + (body + extra)));
    assert r[8..] == id + (body + extra);
    assert r[20..] == body + extra;
  }

  lemma HeadBytes(kind: nat, length: nat)
    requires kind < 65536 && length < 65536
    ensures var h := Be16(kind) + Be16(length);
            |h| == 4 && U16(h[0], h[1]) == kind && U16(h[2], h[3]) == length
  {
    var k, l := Be16(kind), Be16(length);
    var h := k + l;
    assert h[0] == k[0] && h[1] == k[1] && h[2] == l[0] && h[3] == l[1];
  }

  lemma ParseAccepts(r: seq<byte>, id: TransactionId, length: nat)
    requires |r| >= 20 + length && |r[..4]| == 4
    requires var h := r[..4]; U16(h[0], h[1]) == BINDING_SUCCESS && U16(h[2], h[3]) == length
    requires r[4..8] == COOKIE && r[8..20] == id
    ensures Parse(r, id) == Scan(r[20..20 + length], 0, None, AddressJudge(id))
  {
    var h := r[..4];
    assert r[0] == h[0] && r[1] == h[1] && r[2] == h[2] && r[3] == h[3];
  }

  lemma ResponseIsScanned(id: TransactionId, body: seq<byte>, extra: seq<byte>)
    requires |body| < 65536
    ensures Parse(Response(id, body, extra), id) == Scan(body, 0, None, AddressJudge(id))
  {
    var head := Be16(BINDING_SUCCESS) + Be16(|body|);
    HeadBytes(BINDING_SUCCESS, |body|);
    Slices(head, id, body, extra);
    ParseAccepts(head + COOKIE + id + body + extra, id, |body|);
  }

  /** Only a success response with the magic cookie and this transaction id is ever accepted. */
  lemma AcceptedIsAResponse(b: seq<byte>, id: TransactionId)
    requires Parse(b, id).Ok?
    ensures |b| >= 20 && b[0] == 0x01 && b[1] == 0x01
    ensures b[4..8] == [0x21, 0x12, 0xA4, 0x42] && b[8..20] == id
    ensures var hi: nat, lo: nat := b[2], b[3];
            var n := hi * 256 + lo;
            && 20 + n <= |b|
            && b == Response(id, b[20..20 + n], b[20 + n..])
  {
    var n := U16(b[2], b[3]);
    Be16Inverts(b[0], b[1]);
    Be16Inverts(b[2], b[3]);
    InSix(b, 20 + n);
  }

  lemma InSix(b: seq<byte>, m: nat)
    requires 20 <= m <= |b|
    ensures b == [b[0], b[1]] + [b[2], b[3]] + b[4..8] + b[8..20] + b[20..m] + b[m..]
  {
  }

  /** What is wrong with a header is said in this order; a sound one leaves it to the attributes. */
  lemma HeaderErrors(b: seq<byte>, id: TransactionId)
    ensures |b| < 20 ==> Parse(b, id) == Err(ShortHeader)
    ensures |b| >= 20 && !(b[0] == 1 && b[1] == 1) ==> Parse(b, id) == Err(UnexpectedType)
    ensures |b| >= 20 && b[0] == 1 && b[1] == 1 ==>
              var hi: nat, lo: nat := b[2], b[3];
              var n := hi * 256 + lo;
              if |b| < 20 + n then Parse(b, id) == Err(TruncatedResponse)
              else if b[4..8] != [0x21, 0x12, 0xA4, 0x42] then Parse(b, id) == Err(WrongCookie)
              else if b[8..20] != id then Parse(b, id) == Err(WrongTransaction)
              else Parse(b, id) == Scan(b[20..20 + n], 0, None, AddressJudge(id))
  {
  }

  /** The request, and the bytes of it that an accepted response repeats. */
  lemma AcceptedEchoesRequest(b: seq<byte>, id: TransactionId)
    requires Parse(b, id).Ok?
    ensures Request(id) == [0x00, 0x01, 0x00, 0x00, 0x21, 0x12, 0xA4, 0x42] + id
    ensures |b| >= 20 && b[4..20] == Request(id)[4..20]
  {
    RequestBytes(id);
    AcceptedIsAResponse(b, id);
    LastSixteen(b, [0x00, 0x01, 0x00, 0x00], [0x21, 0x12, 0xA4, 0x42], id);
  }

  lemma RequestBytes(id: TransactionId)
    ensures Request(id) == [0x00, 0x01, 0x00, 0x00] + [0x21, 0x12, 0xA4, 0x42] + id
  {
    assert Be16(BINDING_REQUEST) == [0x00, 0x01];
  }

  lemma LastSixteen(b: seq<byte>, head: seq<byte>, cookie: seq<byte>, id: TransactionId)
    requires |b| >= 20 && |head| == 4 && |cookie| == 4 && b[4..8] == cookie && b[8..20] == id
    ensures b[4..20] == (head + cookie + id)[4..20]
  {
    assert b[4..20] == b[4..8] + b[8..20];
    assert (head + cookie + id)[4..20] == cookie + id;
  }

  /** The parser is exact on every well-headed message: it returns what the attributes say. */
  lemma ParserReadsEveryMessage(id: TransactionId, body: seq<byte>, extra: seq<byte>)
    requires |body| < 65536
    ensures var (attrs, rest) := Split(body);
            Parse(Response(id, body, extra), id) == Resolve(attrs, CutOff(rest), None, AddressJudge(id))
  {
    ResponseIsScanned(id, body, extra);
    assert body[0..] == body;
    ScanIsResolve(body, 0, None, AddressJudge(id));
  }

  // --- which attribute wins ------------------------------------------------------------------

  predicate Harmless(a: Attribute, id: TransactionId) {
    && a.kind != 0x0020
    && (a.kind == 0x0001 ==> ParseAddress(a.value, false, id).Ok?)
  }

  lemma {:induction false} ResolveSkips(attrs: seq<Attribute>, k: nat, cut: bool,
                                        mapped: Option<Address>, id: TransactionId) returns (m: Option<Address>)
    requires k <= |attrs|
    requires forall i :: 0 <= i < k ==> Harmless(attrs[i], id)
    ensures Resolve(attrs, cut, mapped, AddressJudge(id)) == Resolve(attrs[k..], cut, m, AddressJudge(id))
    ensures (forall i :: 0 <= i < k ==> attrs[i].kind != 0x0001) ==> m == mapped
    decreases k
  {
    if k == 0 {
      m := mapped;
      assert attrs[0..] == attrs;
    } else {
      var now := if attrs[0].kind == 0x0001 then Some(ParseAddress(attrs[0].value, false, id).value)
                 else mapped;
      forall i | 0 <= i < k - 1 ensures Harmless(attrs[1..][i], id) { assert attrs[1..][i] == attrs[i + 1]; }
      m := ResolveSkips(attrs[1..], k - 1, cut, now, id);
      assert attrs[1..][k - 1..] == attrs[k..];
    }
  }

  /** The first XOR-MAPPED-ADDRESS decides, wherever it stands among well-formed MAPPED-ADDRESSes and
      attributes of any other kind, and whatever follows it. */
  lemma XorMappedWins(attrs: seq<Attribute>, k: nat, cut: bool, id: TransactionId)
    requires k < |attrs| && attrs[k].kind == 0x0020
    requires forall i :: 0 <= i < k ==> Harmless(attrs[i], id)
    ensures Resolve(attrs, cut, None, AddressJudge(id)) == ParseAddress(attrs[k].value, true, id)
  {
    var m := ResolveSkips(attrs, k, cut, None, id);
    assert attrs[k..][0] == attrs[k];
  }

  /** A malformed MAPPED-ADDRESS ahead of every XOR-MAPPED-ADDRESS rejects the response. */
  lemma MalformedMappedRejects(attrs: seq<Attribute>, k: nat, cut: bool, id: TransactionId)
    requires k < |attrs| && attrs[k].kind == 0x0001 && ParseAddress(attrs[k].value, false, id).Err?
    requires forall i :: 0 <= i < k ==> Harmless(attrs[i], id)
    ensures Resolve(attrs, cut, None, AddressJudge(id)) == Err(ParseAddress(attrs[k].value, false, id).error)
  {
    var m := ResolveSkips(attrs, k, cut, None, id);
    assert attrs[k..][0] == attrs[k];
  }

  /** Without XOR-MAPPED-ADDRESS the last of the well-formed MAPPED-ADDRESSes is the answer. */
  lemma LastMappedWins(attrs: seq<Attribute>, k: nat, id: TransactionId)
    requires k < |attrs| && attrs[k].kind == 0x0001
    requires forall i :: 0 <= i < |attrs| ==> Harmless(attrs[i], id)
    requires forall i :: k < i < |attrs| ==> attrs[i].kind != 0x0001
    ensures Resolve(attrs, false, None, AddressJudge(id)) == ParseAddress(attrs[k].value, false, id)
  {
    var m := ResolveSkips(attrs, k, false, None, id);
    var rest := attrs[k..];
    assert rest[0] == attrs[k] && rest[1..] == attrs[k + 1..];
    var tail := attrs[k + 1..];
    var n := ResolveSkips(tail, |tail|, false, Some(ParseAddress(attrs[k].value, false, id).value), id);
    assert tail[|tail|..] == [];
  }

  lemma NoMappedRejects(attrs: seq<Attribute>, id: TransactionId)
    requires forall i :: 0 <= i < |attrs| ==> attrs[i].kind != 0x0001 && attrs[i].kind != 0x0020
    ensures Resolve(attrs, false, None, AddressJudge(id)) == Err(NoMappedAddress)
  {
    var m := ResolveSkips(attrs, |attrs|, false, None, id);
    assert attrs[|attrs|..] == [];
  }

  lemma PaddedResponse(id: TransactionId, attrs: seq<Attribute>, extra: seq<byte>)
    requires AreAttributes(attrs) && |EncodeAttributes(attrs)| < 65536
    requires forall i :: 0 <= i < |attrs| ==> FullyPadded(attrs[i])
    ensures Parse(Response(id, EncodeAttributes(attrs), extra), id) == Resolve(attrs, false, None, AddressJudge(id))
  {
    var body := EncodeAttributes(attrs);
    ParserReadsEveryMessage(id, body, extra);
    SplitInvertsEncoding(attrs, []);
    assert body + [] == body;
  }

  /** Round trip: a success response that carries `a` as XOR-MAPPED-ADDRESS, among any other fully
      padded attributes before it (MAPPED-ADDRESS well-formed) and after it, parses back to `a`. */
  lemma ResponseRoundTrip(id: TransactionId, a: Address, attrs: seq<Attribute>, k: nat, extra: seq<byte>)
    requires IsAddress(a) && AreAttributes(attrs) && k < |attrs|
    requires attrs[k].kind == 0x0020 && OnTheWire(attrs[k].value, a, true, id)
    requires forall i :: 0 <= i < |attrs| ==> FullyPadded(attrs[i])
    requires forall i :: 0 <= i < k ==> Harmless(attrs[i], id)
    requires |EncodeAttributes(attrs)| < 65536
    ensures Parse(Response(id, EncodeAttributes(attrs), extra), id) == Ok(a)
  {
    PaddedResponse(id, attrs, extra);
    XorMappedWins(attrs, k, false, id);
    WireIsRead(attrs[k].value, a, true, id, []);
    assert attrs[k].value + [] == attrs[k].value;
  }

  /** The same for MAPPED-ADDRESS, where there is no XOR-MAPPED-ADDRESS: the last one is read back. */
  lemma MappedRoundTrip(id: TransactionId, a: Address, attrs: seq<Attribute>, k: nat, extra: seq<byte>)
    requires IsAddress(a) && AreAttributes(attrs) && k < |attrs|
    requires attrs[k].kind == 0x0001 && OnTheWire(attrs[k].value, a, false, id)
    requires forall i :: 0 <= i < |attrs| ==> FullyPadded(attrs[i]) && Harmless(attrs[i], id)
    requires forall i :: k < i < |attrs| ==> attrs[i].kind != 0x0001
    requires |EncodeAttributes(attrs)| < 65536
    ensures Parse(Response(id, EncodeAttributes(attrs), extra), id) == Ok(a)
  {
    PaddedResponse(id, attrs, extra);
    LastMappedWins(attrs, k, id);
    WireIsRead(attrs[k].value, a, false, id, []);
    assert attrs[k].value + [] == attrs[k].value;
  }

  // --- the client itself ---------------------------------------------------------------------

  method CopyInto(dest: array<byte>, at: nat, bytes: seq<byte>)
    requires at + |bytes| <= dest.Length
    modifies dest
    ensures dest[..] == old(dest[..at]) + bytes + old(dest[at + |bytes|..])
  {
    forall i | 0 <= i < |bytes| {
      dest[at + i] := bytes[i];
    }
  }

  method StunBindingRequest(id: TransactionId) returns (request: array<byte>)
    ensures fresh(request) && request[..] == Request(id)
  {
    request := new byte[20](_ => 0);
    FilledIn(request[..], Be16(BINDING_REQUEST), COOKIE, id);
    CopyInto(request, 0, Be16(BINDING_REQUEST));
    CopyInto(request, 4, COOKIE);
    CopyInto(request, 8, id);
  }

  /** Filling in the parts of a blank header one after the other. */
  lemma FilledIn(blank: seq<byte>, kind: seq<byte>, cookie: seq<byte>, id: TransactionId)
    requires |blank| == 20 && |kind| == 2 && |cookie| == 4 && forall i :: 0 <= i < 20 ==> blank[i] == 0
    ensures var b := blank[..0] + kind + blank[2..];
            var c := b[..4] + cookie + b[8..];
            c[..8] + id + c[20..] == kind + [0, 0] + cookie + id
  {
    var b := blank[..0] + kind + blank[2..];
    assert b[..4] == kind + [0, 0];
    var c := b[..4] + cookie + b[8..];
    assert c[..8] == kind + [0, 0] + cookie && c[20..] == [];
  }

  method MaskInPlace(octets: array<byte>, from: nat, mask: seq<byte>)
    requires from <= octets.Length
    modifies octets
    ensures octets[..] == old(octets[..from]) + Masked(old(octets[from..]), mask)
  {
    ghost var was := octets[..];
    var i := 0;
    while from + i < octets.Length && i < |mask|
      invariant from + i <= octets.Length && i <= |mask|
      invariant forall k :: 0 <= k < from ==> octets[k] == was[k]
      invariant forall k :: 0 <= k < i ==> octets[from + k] == XorByte(was[from + k], mask[k])
      invariant forall k :: from + i <= k < octets.Length ==> octets[k] == was[k]
    {
      octets[from + i] := XorByte(octets[from + i], mask[i]);
      i := i + 1;
    }
    forall k | 0 <= k < octets.Length ensures octets[k] == (was[..from] + Masked(was[from..], mask))[k] {
      if k >= from { assert octets[from + (k - from)] == octets[k]; }
    }
  }

  method ParseStunAddress(value: seq<byte>, xored: bool, id: TransactionId) returns (r: Result<Address>)
    ensures r == ParseAddress(value, xored, id)
  {
    if |value| < 4 || value[0] != 0 {
      return Err(InvalidAddress);
    }
    var port := U16(value[2], value[3]);
    if xored {
      port := XorPort(port);
    }
    if value[1] == 0x01 {
      if |value| < 8 {
        return Err(TruncatedIpv4);
      }
      var octets := new byte[4](i requires 0 <= i < 4 => value[4 + i]);
      assert octets[..] == value[4..8];
      if xored {
        MaskInPlace(octets, 0, COOKIE);
        assert octets[..] == Masked(value[4..8], COOKIE);
      }
      return Ok(Ipv4(octets[..], port));
    } else if value[1] == 0x02 {
      if |value| < 20 {
        return Err(TruncatedIpv6);
      }
      var octets := new byte[16](i requires 0 <= i < 16 => value[4 + i]);
      assert octets[..] == value[4..20];
      if xored {
        MaskInPlace(octets, 0, COOKIE);
        MaskInPlace(octets, 4, id);
        MaskInTwoParts(value[4..20], id);
      }
      return Ok(Ipv6(octets[..], port));
    }
    return Err(UnsupportedFamily);
  }

  lemma MaskInTwoParts(octets: seq<byte>, id: TransactionId)
    requires |octets| == 16
    ensures [] + Masked(octets[0..], COOKIE) == octets[..0] + Masked(octets, COOKIE) == Masked(octets, COOKIE)
    ensures Masked(octets, COOKIE)[..4] + Masked(Masked(octets, COOKIE)[4..], id) == Masked(octets, COOKIE + id)
  {
    assert octets[0..] == octets;
  }

  /** The parser: in bounds and terminating on every byte string, and equal to `Parse` on all of them. */
  method ParseStunBindingResponse(response: seq<byte>, id: TransactionId) returns (r: Result<Address>)
    ensures r == Parse(response, id)
  {
    if |response| < 20 {
      return Err(ShortHeader);
    }
    if U16(response[0], response[1]) != BINDING_SUCCESS {
      return Err(UnexpectedType);
    }
    var length := U16(response[2], response[3]);
    if |response| < 20 + length {
      return Err(TruncatedResponse);
    }
    if response[4..8] != COOKIE {
      return Err(WrongCookie);
    }
    if response[8..20] != id {
      return Err(WrongTransaction);
    }
    r := ScanAttributes(response[20..20 + length], id);
  }

  /** One attribute: it ends the search, replaces the candidate, or is passed over. */
  method Weigh(kind: nat, value: seq<byte>, mapped: Option<Address>, id: TransactionId) returns (v: Verdict)
    ensures v == AddressJudge(id)(kind, value, mapped)
  {
    if kind == XOR_MAPPED_ADDRESS {
      var parsed := ParseStunAddress(value, true, id);
      return Stop(parsed);
    }
    if kind == MAPPED_ADDRESS {
      var parsed := ParseStunAddress(value, false, id);
      return if parsed.Ok? then Continue(Some(parsed.value)) else Stop(parsed);
    }
    return Continue(mapped);
  }

  method ScanAttributes(attrs: seq<byte>, id: TransactionId) returns (r: Result<Address>)
    ensures r == Scan(attrs, 0, None, AddressJudge(id))
  {
    var mapped: Option<Address> := None;
    var offset := 0;
    ghost var judge := AddressJudge(id);
    while offset + 4 <= |attrs|
      invariant Scan(attrs, offset, mapped, judge) == Scan(attrs, 0, None, judge)
      decreases |attrs| - offset
    {
      var kind := U16(attrs[offset], attrs[offset + 1]);
      var len := U16(attrs[offset + 2], attrs[offset + 3]);
      var start := offset + 4;
      if start + len > |attrs| {
        return Err(TruncatedAttribute);
      }
      var value := attrs[start..start + len];
      var verdict := Weigh(kind, value, mapped, id);
      ScanFirst(attrs, offset, kind, value, mapped, judge);
      if verdict.Stop? {
        return verdict.result;
      }
      mapped := verdict.mapped;
      offset := start + Padded(len);
    }
    return Found(mapped);
  }
}
