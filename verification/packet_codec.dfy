/** The two text encodings of an envelope packet: lower-case hex towards the
    database and Base64 (section 4 of RFC 4648) towards the client. Text is
    modelled as its ASCII codes. */
module PacketCodec {
  import opened Bytes

  const MAX_PACKET: nat := 65536

  // ---------------------------------------------------------------- hex

  function HexDigit(n: nat): (c: byte)
    requires n < 16
  {
    if n < 10 then 48 + n else 87 + n
  }

  /** What from_chars in base 16 accepts: either case. The result 16 stands for "no digit". */
  function HexValue(c: byte): (r: nat)
    ensures r <= 16
  {
    if 48 <= c <= 57 then c - 48
    else if 97 <= c <= 102 then c - 87
    else if 65 <= c <= 70 then c - 55
    else 16
  }

  function Hex(bytes: seq<byte>): (s: seq<byte>)
    ensures |s| == 2 * |bytes|
  {
    if bytes == [] then []
    else [HexDigit(bytes[0] / 16), HexDigit(bytes[0] % 16)] + Hex(bytes[1..])
  }

  function HexByte(c: byte, d: byte): (r: Option<byte>) {
    if HexValue(c) == 16 || HexValue(d) == 16 then None else Some(16 * HexValue(c) + HexValue(d))
  }

  function Unhex(s: seq<byte>): (r: Option<seq<byte>>) {
    if s == [] then Some([])
    else if |s| == 1 then None
    else
      var b, rest := HexByte(s[0], s[1]), Unhex(s[2..]);
      if b.None? || rest.None? then None else Some([b.value] + rest.value)
  }

  /** What the repository accepts as a stored packet. */
  function StoredPacket(s: seq<byte>): (r: Option<seq<byte>>) {
    if s == [] || |s| % 2 != 0 || |s| > 2 * MAX_PACKET then None else Unhex(s)
  }

  lemma {:induction false} HexByteOfDigits(b: byte)
    ensures HexByte(HexDigit(b / 16), HexDigit(b % 16)) == Some(b)
  {
  }

  lemma {:induction false} UnhexInvertsHex(bytes: seq<byte>)
    ensures Unhex(Hex(bytes)) == Some(bytes)
  {
    if bytes != [] {
      UnhexInvertsHex(bytes[1..]);
      HexByteOfDigits(bytes[0]);
      assert Hex(bytes)[2..] == Hex(bytes[1..]);
      assert bytes == [bytes[0]] + bytes[1..];
    }
  }

  /** Comparing the stored hex with the request's hex is comparing the bytes. */
  lemma {:induction false} HexInjective(a: seq<byte>, b: seq<byte>)
    ensures Hex(a) == Hex(b) <==> a == b
  {
    UnhexInvertsHex(a);
    UnhexInvertsHex(b);
  }

  /** The repository reads back exactly the packets of 1 to 65536 bytes. */
  lemma {:induction false} StoredPacketRoundTrip(bytes: seq<byte>)
    ensures StoredPacket(Hex(bytes)) == (if 1 <= |bytes| <= 65536 then Some(bytes) else None)
  {
    UnhexInvertsHex(bytes);
  }

  lemma {:induction false} HexSplit(bytes: seq<byte>, i: nat)
    requires i < |bytes|
    ensures Hex(bytes[i..]) == [HexDigit(bytes[i] / 16), HexDigit(bytes[i] % 16)] + Hex(bytes[i + 1..])
  {
  }

  method EncodeHex(bytes: seq<byte>) returns (hex: seq<byte>)
    ensures hex == Hex(bytes)
  {
    hex := [];
    assert bytes[0..] == bytes;
    for i := 0 to |bytes|
      invariant hex + Hex(bytes[i..]) == Hex(bytes)
    {
      HexSplit(bytes, i);
      hex := hex + [HexDigit(bytes[i] / 16)] + [HexDigit(bytes[i] % 16)];
    }
  }

  function Prepend(bytes: seq<byte>, r: Option<seq<byte>>): (p: Option<seq<byte>>) {
    if r.Some? then Some(bytes + r.value) else None
  }

  lemma {:induction false} UnhexSplit(hex: seq<byte>, i: nat, bytes: seq<byte>)
    requires i + 2 <= |hex|
    ensures Prepend(bytes, Unhex(hex[i..])) ==
      var b := HexByte(hex[i], hex[i + 1]);
      if b.Some? then Prepend(bytes + [b.value], Unhex(hex[i + 2..])) else None
  {
    var rest := hex[i..];
    assert rest[2..] == hex[i + 2..] && rest[0] == hex[i] && rest[1] == hex[i + 1];
    var b, tail := HexByte(hex[i], hex[i + 1]), Unhex(hex[i + 2..]);
    if b.Some? && tail.Some? {
      assert bytes + ([b.value] + tail.value) == (bytes + [b.value]) + tail.value;
    }
  }

  method DecodePacketHex(hex: seq<byte>) returns (r: Option<seq<byte>>)
    ensures r == StoredPacket(hex)
  {
    if hex == [] || |hex| % 2 != 0 || |hex| > 2 * MAX_PACKET { return None; }
    var bytes: seq<byte> := [];
    var i := 0;
    assert hex[0..] == hex;
    assert Unhex(hex).Some? ==> bytes + Unhex(hex).value == Unhex(hex).value;
    while i < |hex|
      invariant 0 <= i <= |hex| && i % 2 == 0
      invariant Unhex(hex) == Prepend(bytes, Unhex(hex[i..]))
    {
      UnhexSplit(hex, i, bytes);
      var b := HexByte(hex[i], hex[i + 1]);
      if b.None? { return None; }
      bytes := bytes + [b.value];
      i := i + 2;
    }
    assert hex[i..] == [] && Unhex([]) == Some([]) && bytes + [] == bytes;
    return Some(bytes);
  }

  // ------------------------------------------------------------- base64

  /** The Base64 alphabet; 64 is the padding sign. */
  function Char64(n: nat): (c: byte)
    requires n <= 64
  {
    if n < 26 then 65 + n else if n < 52 then 71 + n else if n < 62 then n - 4
    else if n == 62 then 43 else if n == 63 then 47 else 61
  }

  /** Inverse of Char64; 65 stands for "not in the alphabet". */
  function Value64(c: byte): (n: nat)
    ensures n <= 65 && (n <= 64 ==> Char64(n) == c)
  {
    if 65 <= c <= 90 then c - 65 else if 97 <= c <= 122 then c - 71 else if 48 <= c <= 57 then c + 4
    else if c == 43 then 62 else if c == 47 then 63 else if c == 61 then 64 else 65
  }

  datatype Quad = Quad(a: nat, b: nat, c: nat, d: nat)

  ghost predicate Digits(q: Quad) {
    q.a < 64 && q.b < 64 && q.c <= 64 && q.d <= 64
  }

  /** The four six-bit digits of up to three bytes, 64 standing for padding. */
  function Split(p: nat, q: nat, r: nat, count: nat): (s: Quad)
    requires p < 256 && q < 256 && r < 256
    ensures Digits(s)
  {
    Quad(p / 4, p % 4 * 16 + q / 16, if count > 1 then q % 16 * 4 + r / 64 else 64, if count > 2 then r % 64 else 64)
  }

  /** Strict inverse of Split: unused bits must be zero. */
  function Join(s: Quad): (r: Option<seq<byte>>)
    requires Digits(s)
    ensures r.Some? ==> 1 <= |r.value| <= 3
  {
    if s.d < 64 && s.c < 64 then Some([4 * s.a + s.b / 16, s.b % 16 * 16 + s.c / 4, s.c % 4 * 64 + s.d])
    else if s.d == 64 && s.c < 64 && s.c % 4 == 0 then Some([4 * s.a + s.b / 16, s.b % 16 * 16 + s.c / 4])
    else if s.d == 64 && s.c == 64 && s.b % 16 == 0 then Some([4 * s.a + s.b / 16])
    else None
  }

  /** The digits cut out of the 24-bit value by shifts and masks are those of the bytes. */
  lemma {:induction false} SixBitDigits(p: nat, q: nat, r: nat)
    requires p < 256 && q < 256 && r < 256
    ensures var v := p * 65536 + q * 256 + r;
      && v / 262144 == p / 4 && v / 4096 % 64 == p % 4 * 16 + q / 16
      && v / 64 % 64 == q % 16 * 4 + r / 64 && v % 64 == r % 64
  {
    var v := p * 65536 + q * 256 + r;
    assert v / 262144 == p / 4;
    assert v / 4096 == p * 16 + q / 16;
    assert v / 64 == p * 1024 + q * 4 + r / 64;
  }

  lemma {:induction false} JoinOfSplit(p: byte, q: byte, r: byte, count: nat)
    requires count >= 1 && (count < 2 ==> q == 0) && (count < 3 ==> r == 0)
    ensures Join(Split(p, q, r, count)) ==
      Some(if count == 1 then [p] else if count == 2 then [p, q] else [p, q, r])
  {
    var s := Split(p, q, r, 3);
    assert 4 * s.a + s.b / 16 == p && s.b % 16 == q / 16;
    assert s.c / 4 == q % 16 && s.c % 4 == r / 64;
  }

  lemma {:induction false} SplitOfJoin(s: Quad)
    requires Digits(s)
    ensures Join(s).Some? ==> var b := Join(s).value; Split(At(b, 0), At(b, 1), At(b, 2), |b|) == s
  {
    var c, d := if s.c < 64 then s.c else 0, if s.d < 64 then s.d else 0;
    var p, q, r: nat := 4 * s.a + s.b / 16, s.b % 16 * 16 + c / 4, c % 4 * 64 + d;
    if Join(s).Some? {
      var b := Join(s).value;
      assert At(b, 0) == p && At(b, 1) == q && At(b, 2) == r;
    }
    assert p / 4 == s.a && p % 4 == s.b / 16 && q / 16 == s.b % 16;
    assert q % 16 == c / 4 && r / 64 == c % 4 && r % 64 == d;
  }

  function At(bytes: seq<byte>, i: nat): (v: byte) {
    if i < |bytes| then bytes[i] else 0
  }

  function Text(s: Quad): (t: seq<byte>)
    requires Digits(s)
    ensures |t| == 4
  {
    [Char64(s.a), Char64(s.b), Char64(s.c), Char64(s.d)]
  }

  function FromText(t: seq<byte>, i: nat): (s: Option<Quad>)
    requires i + 4 <= |t|
    ensures s.Some? ==> Digits(s.value)
  {
    var q := Quad(Value64(t[i]), Value64(t[i + 1]), Value64(t[i + 2]), Value64(t[i + 3]));
    if q.a < 64 && q.b < 64 && q.c <= 64 && q.d <= 64 then Some(q) else None
  }

  lemma {:induction false} FromTextOfText(s: Quad, t: seq<byte>, i: nat)
    requires Digits(s) && i + 4 <= |t| && t[i..i + 4] == Text(s)
    ensures FromText(t, i) == Some(s)
  {
  }

  function QuadAt(bytes: seq<byte>, i: nat): (s: Quad)
    requires i < |bytes|
    ensures Digits(s)
  {
    Split(At(bytes, i), At(bytes, i + 1), At(bytes, i + 2), |bytes| - i)
  }

  function Base64From(bytes: seq<byte>, i: nat): (s: seq<byte>)
    decreases |bytes| - i
  {
    if i >= |bytes| then [] else Text(QuadAt(bytes, i)) + Base64From(bytes, i + 3)
  }

  function Base64(bytes: seq<byte>): (s: seq<byte>) {
    Base64From(bytes, 0)
  }

  /** One group of text: its bytes, short groups only at the end. */
  function JoinAt(t: seq<byte>, i: nat): (r: Option<seq<byte>>)
    requires i + 4 <= |t|
    ensures r.Some? ==> 1 <= |r.value| <= 3 && (|r.value| < 3 ==> i + 4 == |t|)
  {
    var s := FromText(t, i);
    if s.None? then None
    else
      var b := Join(s.value);
      if b.Some? && (|b.value| == 3 || i + 4 == |t|) then b else None
  }

  /** A strict decoder for section 4 of RFC 4648. */
  function Unbase64From(t: seq<byte>, i: nat): (r: Option<seq<byte>>)
    decreases |t| - i
  {
    if i >= |t| then (if i == |t| then Some([]) else None)
    else if i + 4 > |t| || JoinAt(t, i).None? then None
    else Prepend(JoinAt(t, i).value, Unbase64From(t, i + 4))
  }

  function Unbase64(t: seq<byte>): (r: Option<seq<byte>>) {
    Unbase64From(t, 0)
  }

  lemma {:induction false} Base64FromLength(bytes: seq<byte>, i: nat)
    requires i <= |bytes| + 2
    ensures |Base64From(bytes, i)| == (if i >= |bytes| then 0 else 4 * ((|bytes| - i + 2) / 3))
    decreases |bytes| - i
  {
    hide QuadAt, Text;
    if i < |bytes| {
      Base64FromLength(bytes, i + 3);
    }
  }

  /** The encoded length is the page estimate, and the receive cap is met by every 64 KiB packet. */
  lemma {:induction false} Base64Length(bytes: seq<byte>)
    ensures |Base64(bytes)| == 4 * ((|bytes| + 2) / 3)
    ensures |bytes| <= 65536 ==> |Base64(bytes)| <= 87384
  {
    hide Base64From;
    Base64FromLength(bytes, 0);
  }

  lemma {:induction false} JoinAtOfQuad(bytes: seq<byte>, i: nat, t: seq<byte>, k: nat)
    requires i < |bytes| && k + 4 <= |t| && t[k..k + 4] == Text(QuadAt(bytes, i))
    requires |bytes| - i < 3 ==> k + 4 == |t|
    ensures JoinAt(t, k) == Some(bytes[i..if i + 3 < |bytes| then i + 3 else |bytes|])
  {
    hide FromText, Join, Split, Text;
    FromTextOfText(QuadAt(bytes, i), t, k);
    JoinOfSplit(At(bytes, i), At(bytes, i + 1), At(bytes, i + 2), |bytes| - i);
    assert bytes[i..if i + 3 < |bytes| then i + 3 else |bytes|] ==
      if |bytes| - i == 1 then [At(bytes, i)] else if |bytes| - i == 2 then [At(bytes, i), At(bytes, i + 1)]
      else [At(bytes, i), At(bytes, i + 1), At(bytes, i + 2)];
  }

  function Tail(bytes: seq<byte>, i: nat): (r: seq<byte>) {
    if i >= |bytes| then [] else bytes[i..]
  }

  lemma {:induction false} SliceSplit(t: seq<byte>, k: nat, a: seq<byte>, b: seq<byte>)
    requires k <= |t| && t[k..] == a + b
    ensures |t| == k + |a| + |b| && t[k..k + |a|] == a && t[k + |a|..] == b
  {
  }

  lemma {:induction false} Unbase64FromBase64(bytes: seq<byte>, i: nat, t: seq<byte>, k: nat)
    requires k <= |t| && t[k..] == Base64From(bytes, i)
    ensures Unbase64From(t, k) == Some(Tail(bytes, i))
    decreases |bytes| - i
  {
    hide JoinAt, QuadAt, Text;
    if i < |bytes| {
      SliceSplit(t, k, Text(QuadAt(bytes, i)), Base64From(bytes, i + 3));
      Unbase64FromBase64(bytes, i + 3, t, k + 4);
      assert |bytes| - i < 3 ==> Base64From(bytes, i + 3) == [];
      JoinAtOfQuad(bytes, i, t, k);
      assert Tail(bytes, i) == JoinAt(t, k).value + Tail(bytes, i + 3);
    }
  }

  lemma {:induction false} Unbase64InvertsBase64(bytes: seq<byte>)
    ensures Unbase64(Base64(bytes)) == Some(bytes)
  {
    var s := Base64(bytes);
    assert s[0..] == s && bytes[0..] == bytes;
    Unbase64FromBase64(bytes, 0, s, 0);
  }

  lemma {:induction false} TextOfJoinAt(t: seq<byte>, i: nat, bytes: seq<byte>, k: nat)
    requires i + 4 <= |t| && JoinAt(t, i).Some? && k < |bytes|
    requires JoinAt(t, i).value == bytes[k..if k + 3 < |bytes| then k + 3 else |bytes|]
    ensures Text(QuadAt(bytes, k)) == t[i..i + 4]
  {
    hide Join, Value64, Char64;
    var q := FromText(t, i).value;
    var b := Join(q).value;
    SplitOfJoin(q);
    assert forall j :: 0 <= j < |b| ==> b[j] == bytes[k + j];
    assert At(bytes, k) == At(b, 0) && At(bytes, k + 1) == At(b, 1) && At(bytes, k + 2) == At(b, 2);
    assert t[i..i + 4] == [t[i], t[i + 1], t[i + 2], t[i + 3]];
    assert Split(At(b, 0), At(b, 1), At(b, 2), |b|) == QuadAt(bytes, k);
  }

  /** The strict decoder accepts nothing but the encoder's own output. */
  lemma {:induction false} Base64InvertsUnbase64(t: seq<byte>, i: nat, bytes: seq<byte>, k: nat)
    requires i <= |t| && Unbase64From(t, i) == Some(Tail(bytes, k))
    ensures Base64From(bytes, k) == t[i..]
    decreases |t| - i
  {
    hide JoinAt, QuadAt, Text;
    if i < |t| {
      var b := JoinAt(t, i).value;
      var rest := Unbase64From(t, i + 4).value;
      assert Tail(bytes, k) == b + rest;
      assert k < |bytes| && bytes[k..] == b + rest;
      assert bytes[k..k + |b|] == bytes[k..][..|b|] == b && bytes[k + |b|..] == bytes[k..][|b|..] == rest;
      if |b| < 3 { assert Unbase64From(t, i + 4) == Some([]); }
      assert rest == Tail(bytes, k + 3);
      Base64InvertsUnbase64(t, i + 4, bytes, k + 3);
      TextOfJoinAt(t, i, bytes, k);
      assert t[i..] == t[i..i + 4] + t[i + 4..];
    }
  }

  method EncodePacketBase64(bytes: seq<byte>) returns (encoded: seq<byte>)
    ensures encoded == Base64(bytes)
  {
    encoded := [];
    var i := 0;
    while i < |bytes|
      invariant 0 <= i
      invariant encoded + Base64From(bytes, i) == Base64(bytes)
    {
      var remaining := |bytes| - i;
      var value := (bytes[i] as int) * 65536 + (if remaining > 1 then (bytes[i + 1] as int) * 256 else 0)
        + (if remaining > 2 then bytes[i + 2] else 0);
      var quad := Quad(value / 262144, value / 4096 % 64,
                       if remaining > 1 then value / 64 % 64 else 64, if remaining > 2 then value % 64 else 64);
      SixBitDigits(At(bytes, i), At(bytes, i + 1), At(bytes, i + 2));
      assert quad == QuadAt(bytes, i);
      encoded := encoded + Text(quad);
      i := i + 3;
    }
  }
}
