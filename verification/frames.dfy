/** WebSocket frames on the wire: sections 5.2, 5.3 and 5.5 of RFC 6455 as
    WebSocketSession parses them from clients and encodes them for clients. */
module Frames {
  import opened Bytes

  const MAX_PAYLOAD: nat := 1024 * 1024

  datatype Opcode = Continuation | TextData | BinaryData | Close | Ping | Pong

  datatype Frame = Frame(fin: bool, opcode: Opcode, payload: seq<byte>)

  function OpcodeValue(o: Opcode): (v: nat)
    ensures v < 16
  {
    match o
    case Continuation => 0
    case TextData => 1
    case BinaryData => 2
    case Close => 8
    case Ping => 9
    case Pong => 10
  }

  function OpcodeOf(v: nat): (o: Option<Opcode>)
    ensures o.Some? ==> OpcodeValue(o.value) == v
  {
    if v == 0 then Some(Continuation) else if v == 1 then Some(TextData) else if v == 2 then Some(BinaryData)
    else if v == 8 then Some(Close) else if v == 9 then Some(Ping) else if v == 10 then Some(Pong) else None
  }

  predicate Control(o: Opcode) { o.Close? || o.Ping? || o.Pong? }

  /** What the parser insists on beyond the bit layout. */
  predicate LegalShape(fin: bool, o: Opcode, n: nat) {
    && (Control(o) ==> fin && n <= 125)
    && !(o.Close? && n == 1)
    && n <= MAX_PAYLOAD
  }

  predicate Legal(f: Frame) { LegalShape(f.fin, f.opcode, |f.payload|) }

  // ------------------------------------------------ big-endian numbers

  function Power256(k: nat): (p: nat)
    ensures p >= 1
  {
    if k == 0 then 1 else 256 * Power256(k - 1)
  }

  function Big(b: seq<byte>): (v: nat) {
    if b == [] then 0 else Big(b[..|b| - 1]) * 256 + b[|b| - 1]
  }

  function ToBig(n: nat, k: nat): (b: seq<byte>)
    ensures |b| == k
  {
    if k == 0 then [] else ToBig(n / 256, k - 1) + [n % 256]
  }

  lemma {:induction false} BigOfToBig(n: nat, k: nat)
    requires n < Power256(k)
    ensures Big(ToBig(n, k)) == n
  {
    if k > 0 {
      BigOfToBig(n / 256, k - 1);
      var b := ToBig(n, k);
      assert b[..k - 1] == ToBig(n / 256, k - 1);
    }
  }

  lemma {:induction false} ToBigOfBig(b: seq<byte>)
    ensures ToBig(Big(b), |b|) == b
  {
    if b != [] {
      var front, last := b[..|b| - 1], b[|b| - 1];
      ToBigOfBig(front);
      assert Big(b) == Big(front) * 256 + last;
      assert Big(b) / 256 == Big(front) && Big(b) % 256 == last;
      assert b == front + [last];
    }
  }

  lemma PowersOf256()
    ensures Power256(2) == 65536 && Power256(8) > MAX_PAYLOAD && Power256(8) == 0x1_0000_0000_0000_0000
  {
  }

  // ------------------------------------------------ headers

  /** The length field without the MASK bit: always the shortest of the three forms. */
  function LengthField(n: nat): (b: seq<byte>)
    ensures |b| == (if n <= 125 then 1 else if n <= 65535 then 3 else 9) && b[0] < 128
  {
    if n <= 125 then [n] else if n <= 65535 then [126] + ToBig(n, 2) else [127] + ToBig(n, 8)
  }

  function FirstByte(fin: bool, o: Opcode): byte {
    (if fin then 128 else 0) + OpcodeValue(o)
  }

  /** What the server sends. */
  function Encode(f: Frame): (b: seq<byte>) {
    [FirstByte(f.fin, f.opcode)] + LengthField(|f.payload|) + f.payload
  }

  datatype Head = NoHead | BadHead | Head(fin: bool, opcode: Opcode, headerSize: nat, payloadSize: nat)

  function CheckShape(fin: bool, o: Opcode, headerSize: nat, n: nat): Head {
    if LegalShape(fin, o, n) then Head(fin, o, headerSize, n) else BadHead
  }

  /** Length field, once the first two bytes are known to be acceptable. */
  function ParseLength(b: seq<byte>, fin: bool, o: Opcode): (h: Head)
    requires |b| >= 2
  {
    var n := b[1] % 128;
    if n == 126 then
      if |b| < 4 then NoHead
      else if Big(b[2..4]) < 126 then BadHead else CheckShape(fin, o, 4, Big(b[2..4]))
    else if n == 127 then
      if |b| < 10 then NoHead
      else if b[2] >= 128 || Big(b[2..10]) <= 65535 then BadHead else CheckShape(fin, o, 10, Big(b[2..10]))
    else CheckShape(fin, o, 2, n)
  }

  function ParseHead(b: seq<byte>): (h: Head) {
    if |b| < 2 then NoHead
    else if b[0] / 16 % 8 != 0 || b[1] < 128 then BadHead
    else
      var o := OpcodeOf(b[0] % 16);
      if o.None? then BadHead else ParseLength(b, b[0] >= 128, o.value)
  }

  /** The header a client sends: the MASK bit is the top bit of the length byte. */
  function MaskedHead(fin: bool, o: Opcode, n: nat): (b: seq<byte>)
    ensures |b| == HeadSize(n)
  {
    var l := LengthField(n);
    [FirstByte(fin, o), l[0] + 128] + l[1..]
  }

  function HeadSize(n: nat): nat {
    if n <= 125 then 2 else if n <= 65535 then 4 else 10
  }

  lemma {:induction false} LongLength(n: nat)
    requires 65535 < n <= MAX_PAYLOAD
    ensures ToBig(n, 8)[0] == 0 && Big(ToBig(n, 8)) == n
  {
    PowersOf256();
    BigOfToBig(n, 8);
    TopByteZero(n, 8);
  }

  lemma {:induction false} TopByteZero(n: nat, k: nat)
    requires k >= 1 && n < Power256(k - 1)
    ensures ToBig(n, k)[0] == 0
  {
    if k > 1 {
      TopByteZero(n / 256, k - 1);
      assert ToBig(n, k)[0] == ToBig(n / 256, k - 1)[0];
    }
  }

  lemma {:induction false} ParseHeadOfMasked(fin: bool, o: Opcode, n: nat, b: seq<byte>)
    requires LegalShape(fin, o, n) && HeadSize(n) <= |b| && b[..HeadSize(n)] == MaskedHead(fin, o, n)
    ensures ParseHead(b) == Head(fin, o, HeadSize(n), n)
  {
    var h, l := MaskedHead(fin, o, n), LengthField(n);
    assert b[0] == b[..HeadSize(n)][0] == h[0] && b[1] == b[..HeadSize(n)][1] == l[0] + 128;
    FirstByteParts(fin, o);
    if n > 125 {
      assert b[2..HeadSize(n)] == b[..HeadSize(n)][2..] == h[2..] == l[1..];
      if n <= 65535 {
        PowersOf256();
        BigOfToBig(n, 2);
        assert l[1..] == ToBig(n, 2);
      } else {
        LongLength(n);
        assert l[1..] == ToBig(n, 8);
        assert b[2] == b[2..10][0];
      }
    }
  }

  lemma FirstByteParts(fin: bool, o: Opcode)
    ensures var b := FirstByte(fin, o);
      b / 16 % 8 == 0 && b % 16 == OpcodeValue(o) && OpcodeOf(b % 16) == Some(o) && (b >= 128 <==> fin)
  {
  }

  /** An accepted header is the minimal one: nothing else is ever parsed. */
  lemma {:induction false} MaskedOfParseHead(b: seq<byte>)
    requires ParseHead(b).Head?
    ensures var h := ParseHead(b);
      && LegalShape(h.fin, h.opcode, h.payloadSize)
      && h.headerSize == HeadSize(h.payloadSize) <= |b|
      && b[..h.headerSize] == MaskedHead(h.fin, h.opcode, h.payloadSize)
  {
    hide LegalShape, Big, ToBig, OpcodeOf, OpcodeValue;
    var h := ParseHead(b);
    assert b[0] == FirstByte(h.fin, h.opcode);
    LengthOfParse(b, h.fin, h.opcode);
    assert b[..h.headerSize] == [b[0], b[1]] + b[2..h.headerSize];
  }

  lemma {:induction false} LengthOfParse(b: seq<byte>, fin: bool, o: Opcode)
    requires |b| >= 2 && b[1] >= 128 && ParseLength(b, fin, o).Head?
    ensures var h := ParseLength(b, fin, o);
      && h.fin == fin && h.opcode == o && LegalShape(fin, o, h.payloadSize)
      && h.headerSize == HeadSize(h.payloadSize) <= |b|
      && [b[1] - 128] + b[2..h.headerSize] == LengthField(h.payloadSize)
  {
    hide LegalShape, Big, ToBig;
    var h := ParseLength(b, fin, o);
    if h.headerSize > 2 {
      var field := b[2..h.headerSize];
      BigBound(field);
      PowersOf256();
      ToBigOfBig(field);
    }
  }

  lemma {:induction false} BigBound(b: seq<byte>)
    ensures Big(b) < Power256(|b|)
  {
    if b != [] { BigBound(b[..|b| - 1]); }
  }

  // ------------------------------------------------ masking

  function Masked(p: seq<byte>, mask: seq<byte>): (r: seq<byte>)
    requires |mask| == 4
    ensures |r| == |p| && forall i :: 0 <= i < |p| ==> r[i] == Xor(p[i], mask[i % 4])
  {
    seq(|p|, i requires 0 <= i < |p| => Xor(p[i], mask[i % 4]))
  }

  lemma {:induction false} MaskTwice(p: seq<byte>, mask: seq<byte>)
    requires |mask| == 4
    ensures Masked(Masked(p, mask), mask) == p
  {
    forall i | 0 <= i < |p|
      ensures Masked(Masked(p, mask), mask)[i] == p[i]
    {
      XorCancels(p[i], mask[i % 4]);
    }
  }

  // ------------------------------------------------ one frame

  datatype One = Incomplete | Bad | Got(frame: Frame, mask: seq<byte>, size: nat)

  function ParseOne(b: seq<byte>): (r: One)
    ensures r.Got? ==> 6 <= r.size <= |b| && |r.mask| == 4
  {
    match ParseHead(b)
    case NoHead => Incomplete
    case BadHead => Bad
    case Head(fin, o, h, n) =>
      if |b| < h + 4 + n then Incomplete
      else
        MaskedOfParseHead(b);
        Got(Frame(fin, o, Masked(b[h + 4..h + 4 + n], b[h..h + 4])), b[h..h + 4], h + 4 + n)
  }

  /** A frame as a client sends it: the encoder's layout with MASK bit, key and exclusive-or. */
  function Print(f: Frame, mask: seq<byte>): (b: seq<byte>)
    requires |mask| == 4
  {
    MaskedHead(f.fin, f.opcode, |f.payload|) + mask + Masked(f.payload, mask)
  }

  /** Print differs from Encode only in the MASK bit, the key and the masking. */
  lemma {:induction false} PrintIsMaskedEncode(f: Frame, mask: seq<byte>)
    requires |mask| == 4
    ensures var e, h := Encode(f), HeadSize(|f.payload|);
      && |e| == h + |f.payload|
      && Print(f, mask) == e[..1] + [e[1] + 128] + e[2..h] + mask + Masked(e[h..], mask)
  {
  }

  lemma {:induction false} SlicesOf(a: seq<byte>, b: seq<byte>, c: seq<byte>, rest: seq<byte>)
    ensures var s := a + b + c + rest; var h, n := |a|, |b|;
      s[..h] == a && s[h..h + n] == b && s[h + n..h + n + |c|] == c
  {
  }

  lemma {:induction false} ParseOneOfPrint(f: Frame, mask: seq<byte>, rest: seq<byte>)
    requires Legal(f) && |mask| == 4
    ensures ParseOne(Print(f, mask) + rest) == Got(f, mask, |Print(f, mask)|)
  {
    hide MaskedHead, Masked, ParseHead;
    var n := |f.payload|;
    SlicesOf(MaskedHead(f.fin, f.opcode, n), mask, Masked(f.payload, mask), rest);
    ParseHeadOfMasked(f.fin, f.opcode, n, Print(f, mask) + rest);
    MaskTwice(f.payload, mask);
  }

  lemma {:induction false} ThreeSlices(b: seq<byte>, h: nat, n: nat)
    requires h + 4 + n <= |b|
    ensures b[..h + 4 + n] == b[..h] + b[h..h + 4] + b[h + 4..h + 4 + n]
  {
  }

  lemma {:induction false} PrintOfParseOne(b: seq<byte>)
    requires ParseOne(b).Got?
    ensures var r := ParseOne(b); Legal(r.frame) && b[..r.size] == Print(r.frame, r.mask)
  {
    hide ParseHead, MaskedHead, LegalShape;
    var head := ParseHead(b);
    var h, n := head.headerSize, head.payloadSize;
    MaskedOfParseHead(b);
    MaskTwice(b[h + 4..h + 4 + n], b[h..h + 4]);
    ThreeSlices(b, h, n);
  }

  lemma {:induction false} ParseHeadExtends(b: seq<byte>, more: seq<byte>)
    requires !ParseHead(b).NoHead?
    ensures ParseHead(b + more) == ParseHead(b)
  {
    var c := b + more;
    assert c[0] == b[0] && c[1] == b[1];
    assert |b| >= 4 ==> c[2..4] == b[2..4];
    assert |b| >= 10 ==> c[2..10] == b[2..10];
  }

  /** A decided frame, good or bad, stays decided whatever bytes follow. */
  lemma {:induction false} ParseOneExtends(b: seq<byte>, more: seq<byte>)
    requires !ParseOne(b).Incomplete?
    ensures ParseOne(b + more) == ParseOne(b)
  {
    ParseHeadExtends(b, more);
    var head := ParseHead(b);
    if head.Head? {
      var h, n := head.headerSize, head.payloadSize;
      assert (b + more)[h..h + 4] == b[h..h + 4] && (b + more)[h + 4..h + 4 + n] == b[h + 4..h + 4 + n];
    }
  }

  lemma {:induction false} IncompleteIsShort(b: seq<byte>)
    requires ParseOne(b).Incomplete?
    ensures |b| <= 13 + MAX_PAYLOAD
  {
  }

  lemma {:induction false} ShortIsIncomplete(b: seq<byte>)
    requires |b| < 2
    ensures ParseOne(b) == Incomplete
  {
  }

  /** ParseOne in the order the parser loop decides it. */
  lemma {:induction false} ParseOneByHead(b: seq<byte>)
    ensures var head := ParseHead(b);
      && (head.BadHead? <==> ParseOne(b).Bad?)
      && (head.Head? && |b| >= head.headerSize + 4 + head.payloadSize <==> ParseOne(b).Got?)
      && (ParseOne(b).Got? ==>
            var h, n := head.headerSize, head.payloadSize;
            var mask := b[h..h + 4];
            ParseOne(b) == Got(Frame(head.fin, head.opcode, Masked(b[h + 4..h + 4 + n], mask)), mask, h + 4 + n))
  {
  }

  // ------------------------------------------------ a buffer of frames

  /** All frames of a buffer up to the first incomplete or bad one. */
  datatype Scan = Scan(bad: bool, consumed: nat, frames: seq<Frame>, masks: seq<seq<byte>>)

  function Cons(f: Frame, m: seq<byte>, n: nat, rest: Scan): Scan {
    Scan(rest.bad, n + rest.consumed, [f] + rest.frames, [m] + rest.masks)
  }

  function ScanAll(b: seq<byte>): (r: Scan)
    ensures r.consumed <= |b| && |r.frames| == |r.masks|
    ensures forall i :: 0 <= i < |r.masks| ==> |r.masks[i]| == 4
    decreases |b|
  {
    match ParseOne(b)
    case Incomplete => Scan(false, 0, [], [])
    case Bad => Scan(true, 0, [], [])
    case Got(f, m, n) => Cons(f, m, n, ScanAll(b[n..]))
  }

  function PrintAll(frames: seq<Frame>, masks: seq<seq<byte>>): (b: seq<byte>)
    requires |frames| == |masks| && forall i :: 0 <= i < |masks| ==> |masks[i]| == 4
  {
    if frames == [] then [] else Print(frames[0], masks[0]) + PrintAll(frames[1..], masks[1..])
  }

  /** Parsing any list of legal frames printed with any keys gives back the list and consumes everything. */
  lemma {:induction false} ScanOfPrintAll(frames: seq<Frame>, masks: seq<seq<byte>>)
    requires |frames| == |masks| && forall i :: 0 <= i < |masks| ==> |masks[i]| == 4
    requires forall i :: 0 <= i < |frames| ==> Legal(frames[i])
    ensures ScanAll(PrintAll(frames, masks)) == Scan(false, |PrintAll(frames, masks)|, frames, masks)
  {
    hide ParseOne, Print, Legal;
    if frames == [] {
      ShortIsIncomplete([]);
    } else {
      var first, rest := Print(frames[0], masks[0]), PrintAll(frames[1..], masks[1..]);
      ScanOfPrintAll(frames[1..], masks[1..]);
      ParseOneOfPrint(frames[0], masks[0], rest);
      assert (first + rest)[|first|..] == rest;
      assert frames == [frames[0]] + frames[1..] && masks == [masks[0]] + masks[1..];
    }
  }

  /** Re-printing whatever was accepted gives exactly the consumed bytes, so no second form of a frame passes. */
  lemma {:induction false} PrintAllOfScan(b: seq<byte>)
    ensures var r := ScanAll(b);
      PrintAll(r.frames, r.masks) == b[..r.consumed] && forall i :: 0 <= i < |r.frames| ==> Legal(r.frames[i])
    decreases |b|
  {
    hide ParseOne, Print, Legal;
    var one := ParseOne(b);
    if one.Got? {
      var n := one.size;
      var r, rest := ScanAll(b), ScanAll(b[n..]);
      PrintAllOfScan(b[n..]);
      PrintOfParseOne(b);
      assert r.frames[1..] == rest.frames && r.masks[1..] == rest.masks;
      assert b[..r.consumed] == b[..n] + b[n..][..rest.consumed];
    }
  }

  /** Two clients' frame lists with the same bytes are the same lists. */
  lemma {:induction false} PrintAllInjective(f: seq<Frame>, m: seq<seq<byte>>, g: seq<Frame>, k: seq<seq<byte>>)
    requires |f| == |m| && |g| == |k|
    requires forall i :: 0 <= i < |m| ==> |m[i]| == 4 && Legal(f[i])
    requires forall i :: 0 <= i < |k| ==> |k[i]| == 4 && Legal(g[i])
    requires PrintAll(f, m) == PrintAll(g, k)
    ensures f == g && m == k
  {
    ScanOfPrintAll(f, m);
    ScanOfPrintAll(g, k);
  }

  function Joined(a: Scan, b: Scan): Scan {
    Scan(b.bad, a.consumed + b.consumed, a.frames + b.frames, a.masks + b.masks)
  }

  lemma {:induction false} JoinedCons(f: Frame, m: seq<byte>, n: nat, rest: Scan, tail: Scan)
    ensures Joined(Cons(f, m, n, rest), tail) == Cons(f, m, n, Joined(rest, tail))
  {
  }

  lemma {:induction false} JoinedNothing(tail: Scan)
    ensures Joined(Scan(false, 0, [], []), tail) == tail
  {
  }

  lemma {:induction false} ScanGot(b: seq<byte>, n: nat, rest: seq<byte>)
    requires ParseOne(b).Got? && n == ParseOne(b).size && rest == b[n..]
    ensures ScanAll(b) == Cons(ParseOne(b).frame, ParseOne(b).mask, n, ScanAll(rest))
  {
  }

  /** The resume law: an error-free prefix, then its leftover with more bytes, is the whole. */
  lemma {:induction false} ScanResumes(b: seq<byte>, more: seq<byte>, tail: seq<byte>)
    requires !ScanAll(b).bad && tail == b[ScanAll(b).consumed..] + more
    ensures ScanAll(b + more) == Joined(ScanAll(b), ScanAll(tail))
    decreases |b|
  {
    hide ParseOne;
    var one := ParseOne(b);
    if one.Got? {
      var n := one.size;
      ScanGot(b, n, b[n..]);
      ParseOneExtends(b, more);
      assert (b + more)[n..] == b[n..] + more;
      ScanGot(b + more, n, b[n..] + more);
      assert b[n..][ScanAll(b[n..]).consumed..] == b[ScanAll(b).consumed..];
      ScanResumes(b[n..], more, tail);
      JoinedCons(one.frame, one.mask, n, ScanAll(b[n..]), ScanAll(tail));
    } else {
      assert tail == b + more;
      JoinedNothing(ScanAll(b + more));
    }
  }

  /** An error in a prefix stays an error, at the same offset, in every extension. */
  lemma {:induction false} ErrorIsFinal(b: seq<byte>, more: seq<byte>)
    requires ScanAll(b).bad
    ensures ScanAll(b + more) == ScanAll(b)
    decreases |b|
  {
    hide ParseOne;
    ParseOneExtends(b, more);
    var one := ParseOne(b);
    if one.Got? {
      ErrorIsFinal(b[one.size..], more);
      assert (b + more)[one.size..] == b[one.size..] + more;
    }
  }

  /** What stays in the input buffer is less than one maximal frame. */
  lemma {:induction false} LeftoverIsShort(b: seq<byte>)
    requires !ScanAll(b).bad
    ensures |b| - ScanAll(b).consumed <= 1048589
    decreases |b|
  {
    hide ParseOne;
    var one := ParseOne(b);
    if one.Got? { LeftoverIsShort(b[one.size..]); } else { IncompleteIsShort(b); }
  }

  // ------------------------------------------------ the two methods of a session

  datatype ParseStatus = ParseSuccess | ParseError | NeedMoreData

  datatype FrameParseResult = FrameParseResult(status: ParseStatus, consumed: nat, frames: seq<Frame>)

  /** On an error the frames already parsed from the buffer are dropped. */
  function ParseSpec(b: seq<byte>): FrameParseResult {
    var r := ScanAll(b);
    if r.bad then FrameParseResult(ParseError, r.consumed, [])
    else FrameParseResult(if r.frames == [] then NeedMoreData else ParseSuccess, r.consumed, r.frames)
  }

  /** The frames a session gets from a buffer read as `b` and then `more`, the leftover kept in between. */
  function TwoReads(b: seq<byte>, more: seq<byte>): seq<Frame> {
    var r := ScanAll(b);
    if r.bad then [] else r.frames + ParseSpec(b[r.consumed..] + more).frames
  }

  /** Exactly when two reads give the frames of one: not if a malformed frame arrives after complete ones
      of an earlier read, because one read drops those. */
  lemma {:induction false} TwoReadsAgree(b: seq<byte>, more: seq<byte>)
    ensures TwoReads(b, more) == ParseSpec(b + more).frames
       <==> !ScanAll(b + more).bad || ScanAll(b).bad || ScanAll(b).frames == []
  {
    hide ScanAll;
    if ScanAll(b).bad {
      ErrorIsFinal(b, more);
    } else {
      ScanResumes(b, more, b[ScanAll(b).consumed..] + more);
    }
  }

  /** One good frame and then a malformed one: lost in one read, delivered in two. */
  lemma {:induction false} DroppedFrame(mask: seq<byte>)
    requires |mask| == 4
    ensures var ping := Frame(true, Ping, []);
      TwoReads(Print(ping, mask), [255, 255]) == [ping] && ParseSpec(Print(ping, mask) + [255, 255]).frames == []
  {
    hide ParseOne;
    var ping := Frame(true, Ping, []);
    var b := Print(ping, mask);
    ParseOneOfPrint(ping, mask, []);
    assert b + [] == b && b[|b|..] == [];
    ShortIsIncomplete([]);
    MalformedPair();
    assert ScanAll(b) == Cons(ping, mask, |b|, ScanAll([]));
    assert [] + [255, 255] == [255, 255];
    ScanResumes(b, [255, 255], [255, 255]);
  }

  lemma {:induction false} MalformedPair()
    ensures ParseOne([255, 255]) == Bad
  {
  }

  method Unmask(encoded: seq<byte>, mask: seq<byte>) returns (payload: seq<byte>)
    requires |mask| == 4
    ensures payload == Masked(encoded, mask)
  {
    payload := [];
    for i := 0 to |encoded|
      invariant |payload| == i && forall k :: 0 <= k < i ==> payload[k] == Xor(encoded[k], mask[k % 4])
    {
      payload := payload + [Xor(encoded[i], mask[i % 4])];
    }
  }

  /** The buffer splits into the frames read so far and a scan of the rest. */
  ghost predicate ReadSoFar(b: seq<byte>, consumed: nat, frames: seq<Frame>) {
    && consumed <= |b|
    && var all, rest := ScanAll(b), ScanAll(b[consumed..]);
       all.bad == rest.bad && all.consumed == consumed + rest.consumed && all.frames == frames + rest.frames
  }

  lemma {:induction false} ReadNothing(b: seq<byte>)
    ensures ReadSoFar(b, 0, [])
  {
  }

  lemma {:induction false} ReadOneMore(b: seq<byte>, consumed: nat, frames: seq<Frame>)
    requires ReadSoFar(b, consumed, frames) && ParseOne(b[consumed..]).Got?
    ensures var one := ParseOne(b[consumed..]); ReadSoFar(b, consumed + one.size, frames + [one.frame])
  {
    hide ParseOne;
    var one := ParseOne(b[consumed..]);
    assert b[consumed..][one.size..] == b[consumed + one.size..];
    var rest := ScanAll(b[consumed + one.size..]);
    assert frames + ([one.frame] + rest.frames) == (frames + [one.frame]) + rest.frames;
  }

  lemma {:induction false} ReadAll(b: seq<byte>, consumed: nat, frames: seq<Frame>)
    requires ReadSoFar(b, consumed, frames) && !ParseOne(b[consumed..]).Got?
    ensures ParseSpec(b) ==
      if ParseOne(b[consumed..]).Bad? then FrameParseResult(ParseError, consumed, [])
      else FrameParseResult(if frames == [] then NeedMoreData else ParseSuccess, consumed, frames)
  {
  }

  /** The parser loop. */
  method FrameParse(bytes: seq<byte>) returns (r: FrameParseResult)
    ensures r == ParseSpec(bytes)
  {
    hide ParseOne, ParseHead, ScanAll, ParseSpec, ReadSoFar;
    ReadNothing(bytes);
    var consumed: nat := 0;
    var frames: seq<Frame> := [];
    while true
      invariant consumed <= |bytes| && ReadSoFar(bytes, consumed, frames)
      decreases |bytes| - consumed
    {
      var sub := bytes[consumed..];
      var head := ParseHead(sub);
      ParseOneByHead(sub);
      if head.BadHead? {
        ReadAll(bytes, consumed, frames);
        return FrameParseResult(ParseError, consumed, []);
      }
      if head.NoHead? || |sub| < head.headerSize + 4 + head.payloadSize {
        ReadAll(bytes, consumed, frames);
        return FrameParseResult(if frames == [] then NeedMoreData else ParseSuccess, consumed, frames);
      }
      var h := head.headerSize;
      var size := h + 4 + head.payloadSize;
      var payload := Unmask(sub[h + 4..size], sub[h..h + 4]);
      ReadOneMore(bytes, consumed, frames);
      frames := frames + [Frame(head.fin, head.opcode, payload)];
      consumed := consumed + size;
      if consumed == |bytes| {
        ShortIsIncomplete(bytes[consumed..]);
        ReadAll(bytes, consumed, frames);
        return FrameParseResult(ParseSuccess, consumed, frames);
      }
    }
  }

  /** `n >> (8 * k)` */
  function ShiftBytes(n: nat, k: nat): (r: nat) {
    if k == 0 then n else ShiftBytes(n / 256, k - 1)
  }

  lemma {:induction false} ShiftOneMore(n: nat, k: nat)
    ensures ShiftBytes(n, k + 1) == ShiftBytes(n, k) / 256
  {
    if k > 0 { ShiftOneMore(n / 256, k - 1); }
  }

  /** The encoder; its eight-byte form pushes `(n >> shift) & 0xFF` for shift 56 down to 0. */
  method FrameEncoder(f: Frame) returns (encoded: seq<byte>)
    ensures encoded == Encode(f)
  {
    var n := |f.payload|;
    encoded := [FirstByte(f.fin, f.opcode)];
    if n <= 125 {
      encoded := encoded + [n];
    } else if n <= 65535 {
      encoded := encoded + [126] + [n / 256 % 256] + [n % 256];
      assert ToBig(n, 2) == ToBig(n / 256, 1) + [n % 256];
      assert ToBig(n / 256, 1) == [n / 256 % 256];
    } else {
      var field := EightBytes(n);
      encoded := encoded + [127] + field;
    }
    encoded := encoded + f.payload;
  }

  method EightBytes(n: nat) returns (field: seq<byte>)
    ensures field == ToBig(n, 8)
  {
    field := [];
    var k: nat := 8;
    while k > 0
      invariant k <= 8 && field == ToBig(ShiftBytes(n, k), 8 - k)
    {
      k := k - 1;
      ShiftOneMore(n, k);
      field := field + [ShiftBytes(n, k) % 256];
    }
  }
}
