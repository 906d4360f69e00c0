/** The packet encodings at literal characters: the two alphabets, and the test vectors of section 10 of RFC 4648. */
module CodecVectors {
  import opened Bytes
  import opened PacketCodec

  const HEX_ALPHABET: string := "0123456789abcdef"
  const UPPER: string := "ABCDEFGHIJKLMNOPQRSTUVWXYZ"
  const LOWER: string := "abcdefghijklmnopqrstuvwxyz"
  const DECIMAL: string := "0123456789"

  lemma HexAlphabet(n: nat)
    requires n < 16
    ensures HexDigit(n) == HEX_ALPHABET[n] as int
  {
  }

  /** Capitals, small letters, digits, plus and slash, and the padding sign. */
  lemma Base64Alphabet(n: nat)
    ensures n < 26 ==> Char64(n) == UPPER[n] as int && Char64(26 + n) == LOWER[n] as int
    ensures n < 10 ==> Char64(52 + n) == DECIMAL[n] as int
    ensures Char64(62) == '+' as int && Char64(63) == '/' as int && Char64(64) == '=' as int
  {
    if n < 26 {
      UpperLetters(n);
      LowerLetters(n);
    }
  }

  lemma UpperLetters(n: nat)
    requires n < 26
    ensures UPPER[n] as int == 65 + n
  {
  }

  lemma LowerLetters(n: nat)
    requires n < 26
    ensures LOWER[n] as int == 97 + n
  {
  }

  /** A byte's two hex characters, high half first. */
  lemma HexOfByte(b: byte)
    ensures Hex([b]) == [HexDigit(b / 16), HexDigit(b % 16)]
  {
    assert [b][1..] == [];
  }

  /** "f", "fo" and "foo" are "Zg==", "Zm8=" and "Zm9v". */
  lemma {:induction false} FooVectors()
    ensures Base64([0x66]) == [0x5a, 0x67, 0x3d, 0x3d]
    ensures Base64([0x66, 0x6f]) == [0x5a, 0x6d, 0x38, 0x3d]
    ensures Base64([0x66, 0x6f, 0x6f]) == [0x5a, 0x6d, 0x39, 0x76]
  {
    OneQuad([0x66]);
    OneQuad([0x66, 0x6f]);
    OneQuad([0x66, 0x6f, 0x6f]);
  }

  lemma {:induction false} OneQuad(b: seq<byte>)
    requires 1 <= |b| <= 3
    ensures Base64(b) == Text(Split(At(b, 0), At(b, 1), At(b, 2), |b|))
  {
    assert Base64From(b, 3) == [];
  }
}
