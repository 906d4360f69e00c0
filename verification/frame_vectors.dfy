/** The frame format at literal bytes: the numbers of section 5.2 of RFC 6455, the examples of its section 5.7, and
    the limits the server adds. */
module FrameVectors {
  import opened Bytes
  import opened Frames

  /** "Hello" */
  const HELLO: seq<byte> := [0x48, 0x65, 0x6c, 0x6c, 0x6f]
  const KEY: seq<byte> := [0x37, 0xfa, 0x21, 0x3d]

  /** The first byte of every kind of frame: FIN in the top bit, the opcode in the low four. */
  lemma FirstBytes()
    ensures FirstByte(true, Continuation) == 0x80 && FirstByte(false, Continuation) == 0x00
    ensures FirstByte(true, TextData) == 0x81 && FirstByte(false, TextData) == 0x01
    ensures FirstByte(true, BinaryData) == 0x82 && FirstByte(false, BinaryData) == 0x02
    ensures FirstByte(true, Close) == 0x88 && FirstByte(true, Ping) == 0x89 && FirstByte(true, Pong) == 0x8a
  {
  }

  /** The three length forms, high byte first. */
  lemma {:induction false} LengthForms(n: nat)
    ensures n <= 125 ==> LengthField(n) == [n]
    ensures 126 <= n <= 65535 ==> LengthField(n) == [126, n / 256, n % 256]
    ensures 65536 <= n <= 1048576 ==> LengthField(n) == [127, 0, 0, 0, 0, 0, n / 65536, n / 256 % 256, n % 256]
  {
    if 126 <= n <= 65535 {
      TwoBytes(n);
    } else if 65536 <= n <= 1048576 {
      EightBytesOf(n);
    }
  }

  lemma {:induction false} TwoBytes(n: nat)
    requires n <= 65535
    ensures ToBig(n, 2) == [n / 256, n % 256]
  {
    assert ToBig(n / 256 / 256, 0) == [];
    assert ToBig(n / 256, 1) == [n / 256];
  }

  lemma {:induction false} Zeros(k: nat)
    ensures ToBig(0, k) == seq(k, _ => 0)
  {
    if k > 0 { Zeros(k - 1); }
  }

  lemma {:induction false} EightBytesOf(n: nat)
    requires n <= 1048576
    ensures ToBig(n, 8) == [0, 0, 0, 0, 0, n / 65536, n / 256 % 256, n % 256]
  {
    Zeros(5);
    var a, b := n / 256, n / 256 / 256;
    assert b == n / 65536 && b / 256 == 0 && b % 256 == b;
    assert ToBig(b, 6) == ToBig(0, 5) + [b];
    assert ToBig(a, 7) == ToBig(b, 6) + [a % 256];
    assert ToBig(n, 8) == ToBig(a, 7) + [n % 256];
  }

  /** What the server sends: a short text, 256 bytes, 64 KiB. */
  lemma {:induction false} ServerFrames(p: seq<byte>)
    ensures Encode(Frame(true, TextData, HELLO)) == [0x81, 0x05] + HELLO
    ensures Encode(Frame(true, Pong, HELLO)) == [0x8a, 0x05] + HELLO
    ensures |p| == 256 ==> Encode(Frame(true, BinaryData, p)) == [0x82, 0x7e, 0x01, 0x00] + p
    ensures |p| == 65536 ==> Encode(Frame(true, BinaryData, p)) == [0x82, 0x7f, 0, 0, 0, 0, 0, 0x01, 0x00, 0x00] + p
  {
    hide LengthField;
    FirstBytes();
    LengthForms(|HELLO|);
    LengthForms(|p|);
  }

  lemma MaskedHello()
    ensures Masked(HELLO, KEY) == [0x7f, 0x9f, 0x4d, 0x51, 0x58]
  {
    hide Xor;
    FirstHelloBytes();
    LastHelloBytes();
    var m := Masked(HELLO, KEY);
    assert m[0] == Xor(0x48, 0x37) && m[1] == Xor(0x65, 0xfa) && m[2] == Xor(0x6c, 0x21);
    assert m[3] == Xor(0x6c, 0x3d) && m[4] == Xor(0x6f, 0x37);
  }

  /** The value of some bits, lowest first. */
  function Value(bits: seq<nat>): nat {
    if bits == [] then 0 else bits[0] + 2 * Value(bits[1..])
  }

  predicate Bits(s: seq<nat>) { forall i :: 0 <= i < |s| ==> s[i] < 2 }

  lemma {:induction false} XorValue(x: seq<nat>, y: seq<nat>, z: seq<nat>)
    requires |x| == |y| == |z| && Bits(x) && Bits(y)
    requires forall i :: 0 <= i < |x| ==> z[i] == BitXor(x[i], y[i])
    ensures XorBits(Value(x), Value(y), |x|) == Value(z)
  {
    hide BitXor, Value;
    if x == [] {
      NoBits();
    } else {
      XorValue(x[1..], y[1..], z[1..]);
      FirstBit(x);
      FirstBit(y);
      FirstBit(z);
    }
  }

  lemma NoBits()
    ensures Value([]) == 0
  {
  }

  lemma {:induction false} FirstBit(x: seq<nat>)
    requires x != []
    ensures Value(x) == x[0] + 2 * Value(x[1..])
    ensures x[0] < 2 ==> Value(x) % 2 == x[0] && Value(x) / 2 == Value(x[1..])
  {
  }

  lemma {:induction false} ByteValue(s: seq<nat>)
    requires |s| == 8
    ensures Value(s) == s[0] + 2 * s[1] + 4 * s[2] + 8 * s[3] + 16 * s[4] + 32 * s[5] + 64 * s[6] + 128 * s[7]
  {
    assert Value(s[8..]) == 0;
    assert Value(s[7..]) == s[7] + 2 * Value(s[8..]) && Value(s[6..]) == s[6] + 2 * Value(s[7..]);
    assert Value(s[5..]) == s[5] + 2 * Value(s[6..]) && Value(s[4..]) == s[4] + 2 * Value(s[5..]);
    assert Value(s[3..]) == s[3] + 2 * Value(s[4..]) && Value(s[2..]) == s[2] + 2 * Value(s[3..]);
    assert Value(s[1..]) == s[1] + 2 * Value(s[2..]);
  }

  /** An exclusive-or worked out bit by bit. */
  lemma {:induction false} XorOf(a: byte, b: byte, c: byte, x: seq<nat>, y: seq<nat>, z: seq<nat>)
    requires |x| == |y| == |z| == 8 && Bits(x) && Bits(y)
    requires forall i :: 0 <= i < 8 ==> z[i] == BitXor(x[i], y[i])
    requires a == x[0] + 2 * x[1] + 4 * x[2] + 8 * x[3] + 16 * x[4] + 32 * x[5] + 64 * x[6] + 128 * x[7]
    requires b == y[0] + 2 * y[1] + 4 * y[2] + 8 * y[3] + 16 * y[4] + 32 * y[5] + 64 * y[6] + 128 * y[7]
    requires c == z[0] + 2 * z[1] + 4 * z[2] + 8 * z[3] + 16 * z[4] + 32 * z[5] + 64 * z[6] + 128 * z[7]
    ensures Xor(a, b) == c
  {
    hide XorBits, Value, BitXor;
    XorValue(x, y, z);
    ByteValue(x);
    ByteValue(y);
    ByteValue(z);
  }

  lemma {:induction false} FirstHelloBytes()
    ensures Xor(0x48, 0x37) == 0x7f && Xor(0x65, 0xfa) == 0x9f
  {
    hide Xor;
    XorOf(0x48, 0x37, 0x7f, [0, 0, 0, 1, 0, 0, 1, 0], [1, 1, 1, 0, 1, 1, 0, 0], [1, 1, 1, 1, 1, 1, 1, 0]);
    XorOf(0x65, 0xfa, 0x9f, [1, 0, 1, 0, 0, 1, 1, 0], [0, 1, 0, 1, 1, 1, 1, 1], [1, 1, 1, 1, 1, 0, 0, 1]);
  }

  lemma {:induction false} LastHelloBytes()
    ensures Xor(0x6c, 0x21) == 0x4d && Xor(0x6c, 0x3d) == 0x51 && Xor(0x6f, 0x37) == 0x58
  {
    hide Xor;
    XorOf(0x6c, 0x21, 0x4d, [0, 0, 1, 1, 0, 1, 1, 0], [1, 0, 0, 0, 0, 1, 0, 0], [1, 0, 1, 1, 0, 0, 1, 0]);
    XorOf(0x6c, 0x3d, 0x51, [0, 0, 1, 1, 0, 1, 1, 0], [1, 0, 1, 1, 1, 1, 0, 0], [1, 0, 0, 0, 1, 0, 1, 0]);
    XorOf(0x6f, 0x37, 0x58, [1, 1, 1, 1, 0, 1, 1, 0], [1, 1, 1, 0, 1, 1, 0, 0], [0, 0, 0, 1, 1, 0, 1, 0]);
  }

  /** What a client sends: the masked "Hello" as text and as pong, and the head of each length form. */
  lemma {:induction false} ClientFrames(p: seq<byte>)
    ensures Print(Frame(true, TextData, HELLO), KEY) == [0x81, 0x85] + KEY + [0x7f, 0x9f, 0x4d, 0x51, 0x58]
    ensures Print(Frame(true, Pong, HELLO), KEY) == [0x8a, 0x85] + KEY + [0x7f, 0x9f, 0x4d, 0x51, 0x58]
    ensures |p| == 256 ==> Print(Frame(true, BinaryData, p), KEY) == [0x82, 0xfe, 0x01, 0x00] + KEY + Masked(p, KEY)
    ensures |p| == 65536 ==>
      Print(Frame(true, BinaryData, p), KEY) == [0x82, 0xff, 0, 0, 0, 0, 0, 0x01, 0x00, 0x00] + KEY + Masked(p, KEY)
  {
    hide LengthField, Masked;
    FirstBytes();
    MaskedHello();
    LengthForms(|HELLO|);
    LengthForms(|p|);
  }

  /** So the parser reads the text "Hello" from exactly those bytes, with anything behind them. */
  lemma {:induction false} HelloIsRead(rest: seq<byte>)
    ensures ParseOne([0x81, 0x85] + KEY + [0x7f, 0x9f, 0x4d, 0x51, 0x58] + rest)
         == Got(Frame(true, TextData, HELLO), KEY, 11)
  {
    hide Print, ParseOne;
    ClientFrames([]);
    ParseOneOfPrint(Frame(true, TextData, HELLO), KEY, rest);
  }

  /** Which frames are legal: data up to 1 MiB; control frames finished and up to 125 bytes, a Close never of one. */
  lemma LegalMeans(f: Frame)
    ensures f.opcode in {Continuation, TextData, BinaryData} ==> (Legal(f) <==> |f.payload| <= 1048576)
    ensures f.opcode in {Ping, Pong} ==> (Legal(f) <==> f.fin && |f.payload| <= 125)
    ensures f.opcode == Close ==> (Legal(f) <==> f.fin && |f.payload| <= 125 && |f.payload| != 1)
  {
  }
}
