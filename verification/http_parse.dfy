/**
  The incremental HTTP request parser (sections 3, 5 and 6.2 of RFC 9112, as far as the server
  supports them).  `MoveOf` is one pass of the parser's loop, `Parse` the whole call; the class at
  the end does the same on its fields.
*/
module HttpParsing {
  import opened Bytes

  datatype Method = GET | POST | PUT | DELETE | HEAD | OPTIONS | CONNECT | TRACE | PATCH | UNKNOWN

  datatype Request = Request(verb: Method, path: string, version: string, headers: map<string, string>, body: string)

  datatype Place = AtRequestLine | AtHeader | AtBody | AtEnd | Broken

  datatype Parser = Parser(at: Place, request: Request, length: nat)

  datatype Status = NeedMoreData | Completed | Failed

  datatype Parsed = Parsed(parser: Parser, status: Status, consumed: nat)

  const BLANK: Request := Request(UNKNOWN, "", "", map[], "")
  const FRESH: Parser := Parser(AtRequestLine, BLANK, 0)
  const MAX_BODY: nat := 1024 * 1024
  const LENGTH_NAME: string := "Content-Length"

  // ---------------------------------------------------------------------------------------------
  // Searching
  // ---------------------------------------------------------------------------------------------

  /** The first `c` at or after `from`; `|s|` when there is none. */
  function FindChar(s: string, c: char, from: nat): (i: nat)
    requires from <= |s|
    ensures from <= i <= |s|
    ensures i < |s| ==> s[i] == c
    ensures forall k :: from <= k < i ==> s[k] != c
    decreases |s| - from
  {
    if from == |s| || s[from] == c then from else FindChar(s, c, from + 1)
  }

  predicate IsCrlf(s: string, k: int) {
    0 <= k && k + 1 < |s| && s[k] == '\r' && s[k + 1] == '\n'
  }

  /** The first CRLF at or after `from`; `|s|` when there is none. */
  function FindCrlf(s: string, from: nat): (i: nat)
    requires from <= |s|
    ensures from <= i <= |s|
    ensures i < |s| ==> IsCrlf(s, i)
    ensures forall k :: from <= k < i ==> !IsCrlf(s, k)
    decreases |s| - from
  {
    if from == |s| || IsCrlf(s, from) then from else FindCrlf(s, from + 1)
  }

  function FirstCrlf(s: string): (i: nat)
    ensures i <= |s|
    ensures i < |s| ==> IsCrlf(s, i)
    ensures forall k :: 0 <= k < i ==> !IsCrlf(s, k)
  {
    FindCrlf(s, 0)
  }

  /** The second space of the whole buffer; `|s|` when there are fewer than two. */
  function SecondSpace(s: string): (i: nat)
    ensures i <= |s|
    ensures i < |s| ==> FindChar(s, ' ', 0) < i && s[i] == ' '
  {
    var a := FindChar(s, ' ', 0);
    if a == |s| then a else FindChar(s, ' ', a + 1)
  }

  // ---------------------------------------------------------------------------------------------
  // The parser
  // ---------------------------------------------------------------------------------------------

  function MethodOf(name: string): Method {
    if name == "GET" then GET
    else if name == "POST" then POST
    else if name == "PUT" then PUT
    else if name == "DELETE" then DELETE
    else if name == "HEAD" then HEAD
    else if name == "OPTIONS" then OPTIONS
    else if name == "CONNECT" then CONNECT
    else if name == "TRACE" then TRACE
    else if name == "PATCH" then PATCH
    else UNKNOWN
  }

  predicate IsDigit(c: char) { '0' <= c <= '9' }

  predicate AllDigits(s: string) { forall k :: 0 <= k < |s| ==> IsDigit(s[k]) }

  function DecimalValue(s: string): nat
    requires AllDigits(s)
    decreases |s|
  {
    if s == "" then 0
    else 10 * DecimalValue(s[..|s| - 1]) + (s[|s| - 1] as int - '0' as int)
  }

  /** A complete non-negative decimal of at most 1 MiB. */
  function ParseLength(text: string): Option<nat> {
    if text == "" || !AllDigits(text) || DecimalValue(text) > MAX_BODY then None else Some(DecimalValue(text))
  }

  function TrimLeft(s: string): (r: string)
    ensures r == "" || r[0] != ' '
    decreases |s|
  {
    if s != "" && s[0] == ' ' then TrimLeft(s[1..]) else s
  }

  datatype Move = Pause | Fail(parser: Parser) | Advance(parser: Parser, n: nat)

  /**
    The request line.  Both spaces are looked for in the whole buffer; when the second one lies behind
    the CRLF, the length of the version text wraps around and the version is the rest of the buffer.
  */
  function LineMove(p: Parser, s: string): Move {
    var end := FirstCrlf(s);
    var sp1 := FindChar(s, ' ', 0);
    var sp2 := SecondSpace(s);
    if end == |s| then Pause
    else if sp2 == |s| then Fail(p.(at := Broken))
    else
      var version := if sp2 < end then s[sp2 + 1..end] else s[sp2 + 1..];
      Advance(
        p.(at := AtHeader,
           request := p.request.(verb := MethodOf(s[..sp1]), path := s[sp1 + 1..sp2], version := version)),
        end + 2)
  }

  /** One header line without its CRLF. */
  function FieldMove(p: Parser, line: string): Move {
    var sep := FindChar(line, ':', 0);
    if sep == |line| || sep == 0 then Fail(p.(at := Broken))
    else
      var name := line[..sep];
      var value := TrimLeft(line[sep + 1..]);
      var q := p.(request := p.request.(headers := p.request.headers[name := value]));
      if name != LENGTH_NAME then Advance(q, |line| + 2)
      else
        match ParseLength(value)
        case None => Fail(q.(at := Broken))
        case Some(n) => Advance(q.(length := n), |line| + 2)
  }

  function HeaderMove(p: Parser, s: string): Move {
    var end := FirstCrlf(s);
    if end == |s| then Pause
    else if end == 0 then Advance(p.(at := if p.length == 0 then AtEnd else AtBody), 2)
    else FieldMove(p, s[..end])
  }

  function BodyMove(p: Parser, s: string): Move {
    if |s| < p.length then Pause
    else Advance(p.(at := AtEnd, request := p.request.(body := s[..p.length])), p.length)
  }

  predicate Reading(p: Parser) { p.at == AtRequestLine || p.at == AtHeader || p.at == AtBody }

  function MoveOf(p: Parser, s: string): (m: Move)
    requires Reading(p)
    ensures m.Advance? ==> m.n <= |s| && (p.at != AtBody ==> m.n > 0) && (p.at == AtBody ==> m.parser.at == AtEnd)
    ensures m.Fail? ==> m.parser.at == Broken
  {
    if p.at == AtRequestLine then LineMove(p, s)
    else if p.at == AtHeader then HeaderMove(p, s)
    else BodyMove(p, s)
  }

  function Parse(p: Parser, s: string): (r: Parsed)
    ensures r.consumed <= |s|
    decreases |s|, if p.at == AtBody then 1 else 0
  {
    if p.at == AtEnd then Parsed(p, Completed, 0)
    else if p.at == Broken then Parsed(p, Failed, 0)
    else
      match MoveOf(p, s)
      case Pause => Parsed(p, NeedMoreData, 0)
      case Fail(q) => Parsed(q, Failed, 0)
      case Advance(q, n) => Shift(Parse(q, s[n..]), n)
  }

  function Shift(r: Parsed, n: nat): Parsed { r.(consumed := r.consumed + n) }

  /** What the caller sees after two calls: the second result, with both consumptions. */
  function Then(first: Parsed, second: Parsed): Parsed { Shift(second, first.consumed) }

  // ---------------------------------------------------------------------------------------------
  // Resuming
  // ---------------------------------------------------------------------------------------------

  /** Exactly when the request line is read the same way however the bytes arrive. */
  predicate Steady(p: Parser, s: string, more: string) {
    || p.at != AtRequestLine
    || FirstCrlf(s) == |s|
    || SecondSpace(s) < FirstCrlf(s)
    || more == ""
    || SecondSpace(s + more) == |s + more|
  }

  lemma CrlfExtends(s: string, t: string)
    requires FirstCrlf(s) < |s|
    ensures FirstCrlf(s + t) == FirstCrlf(s)
  {
    var end := FirstCrlf(s);
    assert IsCrlf(s + t, end);
    forall k | 0 <= k < end
      ensures !IsCrlf(s + t, k)
    {
      assert !IsCrlf(s, k);
    }
  }

  lemma CharExtends(s: string, t: string, c: char, from: nat)
    requires from <= |s| && FindChar(s, c, from) < |s|
    ensures FindChar(s + t, c, from) == FindChar(s, c, from)
  {
    var i := FindChar(s, c, from);
    assert (s + t)[i] == c;
    forall k | from <= k < i
      ensures (s + t)[k] != c
    {
      assert s[k] != c;
    }
  }

  lemma SecondSpaceExtends(s: string, t: string)
    requires SecondSpace(s) < |s|
    ensures SecondSpace(s + t) == SecondSpace(s) && FindChar(s + t, ' ', 0) == FindChar(s, ' ', 0)
  {
    CharExtends(s, t, ' ', 0);
    CharExtends(s, t, ' ', FindChar(s, ' ', 0) + 1);
  }

  lemma LineMoveExtends(p: Parser, s: string, t: string)
    requires p.at == AtRequestLine && Steady(p, s, t) && !LineMove(p, s).Pause?
    ensures LineMove(p, s + t) == LineMove(p, s)
  {
    hide FirstCrlf, SecondSpace, FindChar, MethodOf;
    CrlfExtends(s, t);
    if t == "" {
      assert s + t == s;
    } else if SecondSpace(s) < |s| {
      SecondSpaceExtends(s, t);
      var sp1, sp2, end := FindChar(s, ' ', 0), SecondSpace(s), FirstCrlf(s);
      assert (s + t)[..sp1] == s[..sp1];
      assert (s + t)[sp1 + 1..sp2] == s[sp1 + 1..sp2];
      assert sp2 < end;
      assert (s + t)[sp2 + 1..end] == s[sp2 + 1..end];
    }
  }

  lemma MoveExtends(p: Parser, s: string, t: string)
    requires Reading(p) && Steady(p, s, t) && !MoveOf(p, s).Pause?
    ensures MoveOf(p, s + t) == MoveOf(p, s)
  {
    hide FirstCrlf, SecondSpace, FindChar, LineMove, FieldMove;
    if p.at == AtRequestLine {
      LineMoveExtends(p, s, t);
    } else if p.at == AtHeader {
      CrlfExtends(s, t);
      assert (s + t)[..FirstCrlf(s)] == s[..FirstCrlf(s)];
    } else {
      assert (s + t)[..p.length] == s[..p.length];
    }
  }

  lemma LeavesTheLine(p: Parser, s: string)
    requires Reading(p) && MoveOf(p, s).Advance?
    ensures MoveOf(p, s).parser.at != AtRequestLine
  {
  }

  lemma SteadyAfterLine(p: Parser, s: string, more: string)
    requires p.at != AtRequestLine
    ensures Steady(p, s, more) && SoundLine(p, s)
  {
  }

  lemma {:induction false} Resumes(p: Parser, s: string, more: string)
    requires Steady(p, s, more)
    ensures var first := Parse(p, s);
      Parse(p, s + more) == Then(first, Parse(first.parser, s[first.consumed..] + more))
    decreases |s|, if p.at == AtBody then 1 else 0
  {
    hide MoveOf, Steady;
    if Reading(p) {
      var move := MoveOf(p, s);
      match move
      case Pause =>
        assert s[0..] == s;
      case Fail(q) =>
        MoveExtends(p, s, more);
      case Advance(q, n) =>
        MoveExtends(p, s, more);
        LeavesTheLine(p, s);
        assert (s + more)[n..] == s[n..] + more;
        SteadyAfterLine(q, s[n..], more);
        Resumes(q, s[n..], more);
        var rest := Parse(q, s[n..]);
        assert s[n..][rest.consumed..] == s[n + rest.consumed..];
    }
  }

  /** After the request line no later byte changes what was read from it. */
  lemma {:induction false} VersionStays(p: Parser, s: string)
    requires p.at != AtRequestLine
    ensures Parse(p, s).parser.request.version == p.request.version
    decreases |s|, if p.at == AtBody then 1 else 0
  {
    if Reading(p) && MoveOf(p, s).Advance? {
      var move := MoveOf(p, s);
      VersionStays(move.parser, s[move.n..]);
    }
  }

  /** The version text read when the second space lies behind the CRLF. */
  lemma LateVersion(p: Parser, s: string)
    requires FirstCrlf(s) < SecondSpace(s) < |s|
    ensures var move := LineMove(p, s);
      && move.Advance? && move.n == FirstCrlf(s) + 2 && move.parser.at == AtHeader
      && move.parser.request.version == s[SecondSpace(s) + 1..]
  {
  }

  lemma SpaceIsNotCrlf(s: string)
    requires FirstCrlf(s) < |s| && SecondSpace(s) < |s|
    ensures FirstCrlf(s) != SecondSpace(s)
  {
  }

  /** Two readings of the line that differ in the version never meet again. */
  lemma VersionsDiffer(p: Parser, s: string, more: string)
    requires p.at == AtRequestLine && LineMove(p, s).Advance? && LineMove(p, s + more).Advance?
    requires LineMove(p, s).parser.request.version != LineMove(p, s + more).parser.request.version
    ensures var first := Parse(p, s);
      Parse(p, s + more) != Then(first, Parse(first.parser, s[first.consumed..] + more))
  {
    hide LineMove;
    var one, two := LineMove(p, s), LineMove(p, s + more);
    LeavesTheLine(p, s);
    LeavesTheLine(p, s + more);
    VersionStays(two.parser, (s + more)[two.n..]);
    VersionStays(one.parser, s[one.n..]);
    NeverBackToLine(one.parser, s[one.n..]);
    VersionStays(Parse(p, s).parser, s[Parse(p, s).consumed..] + more);
  }

  lemma DoesNotResume(p: Parser, s: string, more: string)
    requires !Steady(p, s, more)
    ensures var first := Parse(p, s);
      Parse(p, s + more) != Then(first, Parse(first.parser, s[first.consumed..] + more))
  {
    hide FirstCrlf, FindChar, SecondSpace, LineMove;
    CrlfExtends(s, more);
    if SecondSpace(s) < |s| {
      SecondSpaceExtends(s, more);
      SpaceIsNotCrlf(s);
      LateVersion(p, s);
      LateVersion(p, s + more);
      VersionsDiffer(p, s, more);
    } else {
      NoSecondSpace(p, s);
      SomeSecondSpace(p, s + more);
    }
  }

  lemma NoSecondSpace(p: Parser, s: string)
    requires p.at == AtRequestLine && FirstCrlf(s) < |s| == SecondSpace(s)
    ensures Parse(p, s) == Parsed(p.(at := Broken), Failed, 0)
  {
  }

  lemma SomeSecondSpace(p: Parser, s: string)
    requires p.at == AtRequestLine && FirstCrlf(s) < |s| && SecondSpace(s) < |s|
    ensures Parse(p, s).consumed >= 2
  {
  }

  /** The resume law, with the exact inputs on which it holds. */
  lemma ResumeLaw(p: Parser, s: string, more: string)
    ensures var first := Parse(p, s);
      Parse(p, s + more) == Then(first, Parse(first.parser, s[first.consumed..] + more)) <==> Steady(p, s, more)
  {
    if Steady(p, s, more) {
      Resumes(p, s, more);
    } else {
      DoesNotResume(p, s, more);
    }
  }

  // ---------------------------------------------------------------------------------------------
  // Any number of reads
  // ---------------------------------------------------------------------------------------------

  function Joined(chunks: seq<string>): string {
    if chunks == [] then "" else chunks[0] + Joined(chunks[1..])
  }

  /** The session's loop: parse the buffer, drop what was consumed, append the next read. */
  function Feed(p: Parser, buffer: string, chunks: seq<string>): Parsed
    decreases |chunks|
  {
    var first := Parse(p, buffer);
    if chunks == [] then first
    else Then(first, Feed(first.parser, buffer[first.consumed..] + chunks[0], chunks[1..]))
  }

  predicate SoundLine(p: Parser, s: string) {
    p.at == AtRequestLine ==> FirstCrlf(s) == |s| || SecondSpace(s) < FirstCrlf(s)
  }

  lemma SoundPrefix(p: Parser, s: string, more: string)
    requires SoundLine(p, s + more)
    ensures Steady(p, s, more)
  {
    if p.at == AtRequestLine && FirstCrlf(s) < |s| {
      CrlfExtends(s, more);
      var end := FirstCrlf(s);
      var b := SecondSpace(s + more);
      var a := FindChar(s + more, ' ', 0);
      assert a < b < end;
      assert s[a] == ' ' && s[b] == ' ';
      assert FindChar(s, ' ', 0) == a by {
        assert forall k :: 0 <= k < a ==> s[k] == (s + more)[k];
      }
      assert FindChar(s, ' ', a + 1) <= b;
    }
  }

  lemma {:induction false} StaysAtLine(p: Parser, s: string)
    requires Parse(p, s).parser.at == AtRequestLine
    ensures Parse(p, s) == Parsed(p, NeedMoreData, 0)
  {
    if Reading(p) {
      var move := MoveOf(p, s);
      if move.Advance? {
        LeavesTheLine(p, s);
        NeverBackToLine(move.parser, s[move.n..]);
      }
    }
  }

  lemma {:induction false} NeverBackToLine(p: Parser, s: string)
    requires p.at != AtRequestLine
    ensures Parse(p, s).parser.at != AtRequestLine
    decreases |s|, if p.at == AtBody then 1 else 0
  {
    if Reading(p) && MoveOf(p, s).Advance? {
      var move := MoveOf(p, s);
      LeavesTheLine(p, s);
      NeverBackToLine(move.parser, s[move.n..]);
    }
  }

  /** Chunk independence: with two spaces before the first CRLF of the stream, every split gives the result of one
      parse. */
  lemma {:induction false} ChunkIndependence(p: Parser, buffer: string, chunks: seq<string>)
    requires SoundLine(p, buffer + Joined(chunks))
    ensures Feed(p, buffer, chunks) == Parse(p, buffer + Joined(chunks))
    decreases |chunks|
  {
    hide SoundLine, Steady, Parse;
    if chunks == [] {
      assert buffer + "" == buffer;
    } else {
      var first := Parse(p, buffer);
      var rest := buffer[first.consumed..];
      var more := Joined(chunks);
      SoundPrefix(p, buffer, more);
      Resumes(p, buffer, more);
      assert rest + chunks[0] + Joined(chunks[1..]) == rest + more;
      assert SoundLine(first.parser, rest + more) by {
        if first.parser.at == AtRequestLine {
          StaysAtLine(p, buffer);
          assert rest == buffer;
        } else {
          SteadyAfterLine(first.parser, rest + more, "");
        }
      }
      ChunkIndependence(first.parser, rest + chunks[0], chunks[1..]);
    }
  }

  /** The law for any number of reads: the line is steady at the first read boundary by which its CRLF has come. */
  predicate SteadyReads(p: Parser, buffer: string, chunks: seq<string>)
    decreases |chunks|
  {
    if p.at != AtRequestLine then true
    else if FirstCrlf(buffer) < |buffer| then Steady(p, buffer, Joined(chunks))
    else chunks == [] || SteadyReads(p, buffer + chunks[0], chunks[1..])
  }

  lemma LineWaits(p: Parser, buffer: string)
    requires p.at == AtRequestLine && FirstCrlf(buffer) == |buffer|
    ensures Parse(p, buffer) == Parsed(p, NeedMoreData, 0)
  {
  }

  lemma LineDecided(p: Parser, buffer: string)
    requires p.at == AtRequestLine && FirstCrlf(buffer) < |buffer|
    ensures Parse(p, buffer).parser.at != AtRequestLine
  {
    if Parse(p, buffer).parser.at == AtRequestLine { StaysAtLine(p, buffer); }
  }

  /** Chunk independence, exactly: any number of reads gives the result of one parse if and only if the request line is
      steady where its CRLF arrives. */
  lemma {:induction false} ChunkLaw(p: Parser, buffer: string, chunks: seq<string>)
    ensures Feed(p, buffer, chunks) == Parse(p, buffer + Joined(chunks)) <==> SteadyReads(p, buffer, chunks)
    decreases |chunks|
  {
    hide Parse, FirstCrlf, Steady;
    var whole := buffer + Joined(chunks);
    if p.at != AtRequestLine {
      ChunkIndependence(p, buffer, chunks);
    } else if FirstCrlf(buffer) < |buffer| {
      ResumeLaw(p, buffer, Joined(chunks));
      LineDecided(p, buffer);
      var first := Parse(p, buffer);
      var rest := buffer[first.consumed..];
      if chunks == [] {
        assert whole == buffer;
        ResumeNothing(p, buffer);
      } else {
        assert rest + chunks[0] + Joined(chunks[1..]) == rest + Joined(chunks);
        ChunkIndependence(first.parser, rest + chunks[0], chunks[1..]);
      }
    } else {
      LineWaits(p, buffer);
      if chunks == [] {
        assert whole == buffer;
      } else {
        assert buffer[0..] == buffer && whole == buffer + chunks[0] + Joined(chunks[1..]);
        ChunkLaw(p, buffer + chunks[0], chunks[1..]);
      }
    }
  }

  lemma ResumeNothing(p: Parser, s: string)
    ensures Steady(p, s, "")
  {
  }

  // ---------------------------------------------------------------------------------------------
  // Printing
  // ---------------------------------------------------------------------------------------------

  datatype Field = Field(name: string, pad: nat, value: string)

  datatype Message = Message(verb: string, path: string, version: string, fields: seq<Field>, body: string)

  function Spaces(n: nat): (r: string)
    ensures |r| == n && forall k :: 0 <= k < n ==> r[k] == ' '
  {
    if n == 0 then "" else " " + Spaces(n - 1)
  }

  function FieldLine(f: Field): string { f.name + ":" + (Spaces(f.pad) + f.value) }

  function PrintFields(fields: seq<Field>): string
    decreases |fields|
  {
    if fields == [] then "\r\n" else FieldLine(fields[0]) + "\r\n" + PrintFields(fields[1..])
  }

  function LineText(m: Message): string { m.verb + " " + m.path + " " + m.version }

  function Print(m: Message): string { LineText(m) + "\r\n" + (PrintFields(m.fields) + m.body) }

  predicate NoCrlf(s: string) { forall k :: 0 <= k < |s| ==> !IsCrlf(s, k) }

  predicate GoodField(f: Field) {
    && f.name != "" && ':' !in f.name
    && (f.value == "" || f.value[0] != ' ')
    && NoCrlf(FieldLine(f))
    && (f.name == LENGTH_NAME ==> ParseLength(f.value).Some?)
  }

  /** The body length announced by the last Content-Length, `n` when there is none. */
  function LengthAfter(n: nat, fields: seq<Field>): nat
    decreases |fields|
  {
    if fields == [] then n
    else
      var f := fields[0];
      var length := ParseLength(f.value);
      LengthAfter(if f.name == LENGTH_NAME && length.Some? then length.value else n, fields[1..])
  }

  /** The last field of a name wins. */
  function HeadersAfter(headers: map<string, string>, fields: seq<Field>): map<string, string>
    decreases |fields|
  {
    if fields == [] then headers else HeadersAfter(headers[fields[0].name := fields[0].value], fields[1..])
  }

  predicate GoodFields(fields: seq<Field>) { forall f :: f in fields ==> GoodField(f) }

  predicate WellFormed(m: Message) {
    && ' ' !in m.verb && ' ' !in m.path
    && NoCrlf(LineText(m))
    && GoodFields(m.fields)
    && |m.body| == LengthAfter(0, m.fields)
  }

  function RequestOf(m: Message): Request {
    Request(MethodOf(m.verb), m.path, m.version, HeadersAfter(map[], m.fields), m.body)
  }

  /** The name of each method the server knows. */
  function VerbText(v: Method): string {
    match v
    case GET => "GET"
    case POST => "POST"
    case PUT => "PUT"
    case DELETE => "DELETE"
    case HEAD => "HEAD"
    case OPTIONS => "OPTIONS"
    case CONNECT => "CONNECT"
    case TRACE => "TRACE"
    case PATCH => "PATCH"
    case UNKNOWN => ""
  }

  /** A method is recognised by exactly its own name; every other token is unknown. */
  lemma MethodNames(name: string, v: Method)
    requires v != UNKNOWN
    ensures MethodOf(name) == v <==> name == VerbText(v)
  {
    match v
    case GET => assert "GET"[0] == 'G';
    case POST => assert "POST"[1] == 'O';
    case PUT => assert "PUT"[1] == 'U' && "GET"[1] == 'E';
    case DELETE => assert "DELETE"[0] == 'D';
    case HEAD => assert "HEAD"[0] == 'H' && "POST"[0] == 'P';
    case OPTIONS => assert "OPTIONS"[0] == 'O';
    case CONNECT => assert "CONNECT"[0] == 'C' && "OPTIONS"[0] == 'O';
    case TRACE => assert "TRACE"[0] == 'T';
    case PATCH => assert "PATCH"[0] == 'P' && "TRACE"[0] == 'T';
  }

  /** The request's headers hold, for each name, the value of its last field. */
  lemma {:induction false} LastFieldWins(headers: map<string, string>, fields: seq<Field>, i: nat)
    requires i < |fields| && forall j :: i < j < |fields| ==> fields[j].name != fields[i].name
    ensures var r := HeadersAfter(headers, fields); fields[i].name in r && r[fields[i].name] == fields[i].value
    decreases |fields|
  {
    var next := headers[fields[0].name := fields[0].value];
    if i > 0 {
      LastFieldWins(next, fields[1..], i - 1);
    } else {
      OthersKept(next, fields[1..], fields[0].name);
    }
  }

  /** Names no field mentions stay as they were. */
  lemma {:induction false} OthersKept(headers: map<string, string>, fields: seq<Field>, name: string)
    requires forall j :: 0 <= j < |fields| ==> fields[j].name != name
    ensures var r := HeadersAfter(headers, fields);
      (name in r <==> name in headers) && (name in r ==> r[name] == headers[name])
    decreases |fields|
  {
    if fields != [] {
      OthersKept(headers[fields[0].name := fields[0].value], fields[1..], name);
    }
  }

  lemma CrlfAfterLine(line: string, rest: string)
    requires NoCrlf(line)
    ensures FirstCrlf(line + "\r\n" + rest) == |line|
  {
    var s := line + "\r\n" + rest;
    assert s[|line|] == '\r' && s[|line| + 1] == '\n';
    assert IsCrlf(s, |line|);
    forall k | 0 <= k < |line|
      ensures !IsCrlf(s, k)
    {
      assert !IsCrlf(line, k);
      assert s[k] == line[k];
      if k + 1 < |line| {
        assert s[k + 1] == line[k + 1];
      }
    }
  }

  lemma {:induction false} TrimSpaces(n: nat, value: string)
    requires value == "" || value[0] != ' '
    ensures TrimLeft(Spaces(n) + value) == value
  {
    if n == 0 {
      assert Spaces(0) + value == value;
    } else {
      assert (Spaces(n) + value)[1..] == Spaces(n - 1) + value;
      TrimSpaces(n - 1, value);
    }
  }

  lemma CharAfterWord(word: string, c: char, rest: string)
    requires c !in word
    ensures FindChar(word + [c] + rest, c, 0) == |word|
  {
    var s := word + [c] + rest;
    assert s[|word|] == c;
    assert forall k :: 0 <= k < |word| ==> s[k] == word[k];
  }

  /** What one well-formed header line does to the parser. */
  lemma FieldMoves(p: Parser, f: Field)
    requires GoodField(f)
    ensures FieldMove(p, FieldLine(f))
         == Advance(
              Parser(p.at, p.request.(headers := p.request.headers[f.name := f.value]), LengthAfter(p.length, [f])),
              |FieldLine(f)| + 2)
  {
    hide ParseLength;
    var line := FieldLine(f);
    CharAfterWord(f.name, ':', Spaces(f.pad) + f.value);
    assert line == f.name + [':'] + (Spaces(f.pad) + f.value);
    assert line[..|f.name|] == f.name;
    assert line[|f.name| + 1..] == Spaces(f.pad) + f.value;
    TrimSpaces(f.pad, f.value);
    assert LengthAfter(p.length, [f])
        == if f.name == LENGTH_NAME && ParseLength(f.value).Some? then ParseLength(f.value).value else p.length;
  }

  lemma FieldLineIsLong(f: Field)
    ensures |FieldLine(f)| > 0
  {
  }

  lemma HeaderMoves(p: Parser, f: Field, rest: string)
    requires GoodField(f) && p.at == AtHeader
    ensures MoveOf(p, FieldLine(f) + "\r\n" + rest)
         == Advance(
              Parser(p.at, p.request.(headers := p.request.headers[f.name := f.value]), LengthAfter(p.length, [f])),
              |FieldLine(f)| + 2)
  {
    hide FieldMove, FirstCrlf, FieldLine, LengthAfter;
    var line := FieldLine(f);
    CrlfAfterLine(line, rest);
    FieldLineIsLong(f);
    assert (line + "\r\n" + rest)[..|line|] == line;
    FieldMoves(p, f);
  }

  lemma {:induction false} FieldsParse(p: Parser, fields: seq<Field>, body: string, rest: string)
    requires p.at == AtHeader && p.request.body == "" && GoodFields(fields)
    requires |body| == LengthAfter(p.length, fields)
    ensures Parse(p, PrintFields(fields) + body + rest)
         == Parsed(Parser(AtEnd, p.request.(headers := HeadersAfter(p.request.headers, fields), body := body), |body|),
                   Completed, |PrintFields(fields)| + |body|)
    decreases |fields|
  {
    hide MoveOf, FieldLine, GoodField;
    if fields == [] {
      BlankLineParses(p, body, rest);
    } else {
      var f := fields[0];
      var tail := PrintFields(fields[1..]) + body + rest;
      var s := PrintFields(fields) + body + rest;
      assert s == FieldLine(f) + "\r\n" + tail;
      HeaderMoves(p, f, tail);
      assert LengthAfter(p.length, [f])
          == if f.name == LENGTH_NAME && ParseLength(f.value).Some? then ParseLength(f.value).value else p.length;
      var q := MoveOf(p, s).parser;
      assert s[|FieldLine(f)| + 2..] == tail;
      FieldsParse(q, fields[1..], body, rest);
    }
  }

  lemma BlankLineParses(p: Parser, body: string, rest: string)
    requires p.at == AtHeader && p.request.body == "" && |body| == p.length
    ensures Parse(p, "\r\n" + body + rest)
         == Parsed(Parser(AtEnd, p.request.(body := body), |body|), Completed, 2 + |body|)
  {
    var s := "\r\n" + body + rest;
    assert s[0] == '\r' && s[1] == '\n' && IsCrlf(s, 0);
    assert FirstCrlf(s) == 0;
    var q := MoveOf(p, s).parser;
    assert MoveOf(p, s).n == 2;
    var u := s[2..];
    assert u == body + rest;
    if p.length > 0 {
      assert u[..p.length] == body;
      assert MoveOf(q, u) == Advance(q.(at := AtEnd, request := q.request.(body := body)), p.length);
      assert Parse(q, u).consumed == p.length;
    }
  }

  lemma SpacesOfLine(m: Message, rest: string)
    requires ' ' !in m.verb && ' ' !in m.path
    ensures var s := m.verb + " " + m.path + " " + rest;
      FindChar(s, ' ', 0) == |m.verb| && SecondSpace(s) == |m.verb| + 1 + |m.path|
  {
    var s := m.verb + " " + m.path + " " + rest;
    CharAfterWord(m.verb, ' ', m.path + " " + rest);
    assert s == m.verb + [' '] + (m.path + " " + rest);
    var sp1 := |m.verb|;
    var sp2 := sp1 + 1 + |m.path|;
    assert s[sp2] == ' ';
    forall k | sp1 + 1 <= k < sp2
      ensures s[k] != ' '
    {
      assert s[k] == m.path[k - sp1 - 1];
    }
    assert FindChar(s, ' ', sp1 + 1) == sp2;
  }

  lemma LineMoves(p: Parser, m: Message, rest: string)
    requires ' ' !in m.verb && ' ' !in m.path && NoCrlf(LineText(m))
    ensures var s := LineText(m) + "\r\n" + rest;
      && SecondSpace(s) < FirstCrlf(s) == |LineText(m)|
      && LineMove(p, s)
         == Advance(p.(at := AtHeader,
                       request := p.request.(verb := MethodOf(m.verb), path := m.path, version := m.version)),
                    |LineText(m)| + 2)
  {
    hide MethodOf, FindChar, SecondSpace, FirstCrlf, NoCrlf;
    var line := LineText(m);
    var s := line + "\r\n" + rest;
    CrlfAfterLine(line, rest);
    assert s == m.verb + " " + m.path + " " + (m.version + "\r\n" + rest);
    SpacesOfLine(m, m.version + "\r\n" + rest);
    var sp1 := |m.verb|;
    var sp2 := sp1 + 1 + |m.path|;
    assert s[sp1 + 1..sp2] == m.path;
    assert s[..sp1] == m.verb;
    assert s[sp2 + 1..|line|] == m.version;
  }

  /** Every well-formed message parses back to its request, whatever follows it, and the following bytes are left. */
  lemma PrintedParses(m: Message, rest: string)
    requires WellFormed(m)
    ensures Parse(FRESH, Print(m) + rest) == Parsed(Parser(AtEnd, RequestOf(m), |m.body|), Completed, |Print(m)|)
  {
    hide LineMove, LineText, PrintFields, MethodOf, HeadersAfter, LengthAfter, FirstCrlf, SecondSpace;
    var tail := PrintFields(m.fields) + m.body + rest;
    assert Print(m) + rest == LineText(m) + "\r\n" + tail;
    LineMoves(FRESH, m, tail);
    var q := LineMove(FRESH, Print(m) + rest).parser;
    assert (Print(m) + rest)[|LineText(m)| + 2..] == tail;
    FieldsParse(q, m.fields, m.body, rest);
  }

  lemma TwoReadings()
    ensures var s := "GET /\r\n"; var t := s + "A: b\r\n\r\n";
      && FirstCrlf(s) == 5 && SecondSpace(s) == |s|
      && FirstCrlf(t) == 5 && SecondSpace(t) == 9
  {
    var s := "GET /\r\n";
    var t := s + "A: b\r\n\r\n";
    assert IsCrlf(s, 5) && !IsCrlf(s, 0) && !IsCrlf(s, 1) && !IsCrlf(s, 2) && !IsCrlf(s, 3) && !IsCrlf(s, 4);
    assert FirstCrlf(s) == 5;
    assert s[3] == ' ' && FindChar(s, ' ', 0) == 3;
    CrlfExtends(s, "A: b\r\n\r\n");
    CharExtends(s, "A: b\r\n\r\n", ' ', 0);
    assert t[9] == ' ' && FindChar(t, ' ', 4) == 9;
  }

  lemma ExampleField()
    ensures GoodField(Field("A", 1, "b")) && FieldLine(Field("A", 1, "b")) == "A: b"
  {
  }

  /** A request line without a version is rejected on its own, but accepted when a later space is in the buffer. */
  lemma ResumeCounterexample()
    ensures Parse(FRESH, "GET /\r\n").status == Failed
    ensures Parse(FRESH, "GET /\r\n" + "A: b\r\n\r\n").status == Completed
  {
    hide FirstCrlf, SecondSpace, FindChar, MethodOf, FieldLine, GoodField, LengthAfter, HeadersAfter;
    var s, more := "GET /\r\n", "A: b\r\n\r\n";
    TwoReadings();
    NoSecondSpace(FRESH, s);
    LateVersion(FRESH, s + more);
    ExampleField();
    var fields := [Field("A", 1, "b")];
    PrintedExample(fields[0]);
    assert (s + more)[7..] == PrintFields(fields) + "" + "";
    var q := LineMove(FRESH, s + more).parser;
    NoLength(fields[0]);
    FieldsParse(q, fields, "", "");
  }

  lemma PrintedExample(f: Field)
    ensures PrintFields([f]) == FieldLine(f) + "\r\n\r\n"
  {
  }

  lemma NoLength(f: Field)
    requires f.name != LENGTH_NAME
    ensures LengthAfter(0, [f]) == 0
  {
  }

  // ---------------------------------------------------------------------------------------------
  // Only printed messages are accepted
  // ---------------------------------------------------------------------------------------------

  lemma {:induction false} TrimUndone(s: string) returns (pad: nat)
    ensures Spaces(pad) + TrimLeft(s) == s
    decreases |s|
  {
    if s != "" && s[0] == ' ' {
      var k := TrimUndone(s[1..]);
      pad := k + 1;
      assert s == " " + s[1..];
    } else {
      pad := 0;
    }
  }

  lemma LineBeforeCrlf(s: string)
    requires FirstCrlf(s) < |s|
    ensures var end := FirstCrlf(s); NoCrlf(s[..end]) && s == s[..end] + "\r\n" + s[end + 2..]
  {
    var end := FirstCrlf(s);
    forall k | 0 <= k < end
      ensures !IsCrlf(s[..end], k)
    {
      assert !IsCrlf(s, k);
    }
  }

  /** A header line the parser accepts is a printed field. */
  lemma FieldAccepted(p: Parser, line: string) returns (f: Field)
    requires NoCrlf(line) && FieldMove(p, line).Advance?
    ensures GoodField(f) && FieldLine(f) == line
  {
    var sep := FindChar(line, ':', 0);
    var pad := TrimUndone(line[sep + 1..]);
    f := Field(line[..sep], pad, TrimLeft(line[sep + 1..]));
    assert line == line[..sep] + ":" + line[sep + 1..];
  }

  lemma HeaderStep(p: Parser, s: string)
    requires p.at == AtHeader && Parse(p, s).status == Completed
    ensures var move := HeaderMove(p, s);
      && move.Advance? && 0 < move.n <= |s| && Parse(p, s) == Shift(Parse(move.parser, s[move.n..]), move.n)
  {
    hide HeaderMove;
    assert HeaderMove(p, s) == MoveOf(p, s);
  }

  lemma {:induction false} FieldsAccepted(p: Parser, s: string) returns (fields: seq<Field>, body: string)
    requires p.at == AtHeader && Parse(p, s).status == Completed
    ensures GoodFields(fields) && |body| == LengthAfter(p.length, fields)
    ensures PrintFields(fields) + body == s[..Parse(p, s).consumed]
    decreases |s|
  {
    hide FieldLine, GoodField, FirstCrlf, HeaderMove, LengthAfter, PrintFields, Parse, GoodFields;
    HeaderStep(p, s);
    var move := HeaderMove(p, s);
    var u := s[move.n..];
    var n := Parse(move.parser, u).consumed;
    PrefixJoins(s, move.n, n);
    if FirstCrlf(s) == 0 {
      BlankLine(p, s);
      fields := [];
      body := BodyAccepted(move.parser, u);
      NoFields(p.length);
    } else {
      var f := HeaderAccepted(p, s);
      var more, b := FieldsAccepted(move.parser, u);
      fields, body := [f] + more, b;
      OneMoreField(p.length, f, more);
    }
  }

  lemma PrefixJoins(s: string, n: nat, k: nat)
    requires n + k <= |s|
    ensures s[..n + k] == s[..n] + s[n..][..k]
  {
  }

  lemma NoFields(n: nat)
    ensures LengthAfter(n, []) == n && PrintFields([]) == "\r\n" && GoodFields([])
  {
  }

  lemma BlankLine(p: Parser, s: string)
    requires FirstCrlf(s) == 0 && s != ""
    ensures HeaderMove(p, s) == Advance(p.(at := if p.length == 0 then AtEnd else AtBody), 2) && s[..2] == "\r\n"
  {
  }

  lemma HeaderAccepted(p: Parser, s: string) returns (f: Field)
    requires p.at == AtHeader && HeaderMove(p, s).Advance? && FirstCrlf(s) > 0
    ensures var move := HeaderMove(p, s);
      && GoodField(f) && move.n <= |s| && s[..move.n] == FieldLine(f) + "\r\n"
      && move.parser.at == AtHeader && move.parser.length == LengthAfter(p.length, [f])
  {
    hide FieldMove, FieldLine, GoodField, FirstCrlf, NoCrlf;
    var end := FirstCrlf(s);
    LineBeforeCrlf(s);
    f := FieldAccepted(p, s[..end]);
    FieldMoves(p, f);
  }

  lemma OneMoreField(n: nat, f: Field, more: seq<Field>)
    ensures LengthAfter(n, [f] + more) == LengthAfter(LengthAfter(n, [f]), more)
    ensures PrintFields([f] + more) == FieldLine(f) + "\r\n" + PrintFields(more)
    ensures GoodField(f) && GoodFields(more) ==> GoodFields([f] + more)
  {
  }

  lemma BodyAccepted(p: Parser, s: string) returns (body: string)
    requires Parse(p, s).status == Completed
    requires p.at == (if p.length == 0 then AtEnd else AtBody)
    ensures |body| == p.length == Parse(p, s).consumed && body == s[..p.length]
  {
    body := s[..p.length];
    if p.length > 0 {
      assert MoveOf(p, s).Advance?;
    }
  }

  lemma LineAccepted(p: Parser, s: string) returns (m: Message)
    requires p.at == AtRequestLine && SecondSpace(s) < FirstCrlf(s) < |s|
    ensures ' ' !in m.verb && ' ' !in m.path && NoCrlf(LineText(m))
    ensures LineText(m) == s[..FirstCrlf(s)]
  {
    var sp1, sp2, end := FindChar(s, ' ', 0), SecondSpace(s), FirstCrlf(s);
    m := Message(s[..sp1], s[sp1 + 1..sp2], s[sp2 + 1..end], [], "");
    LineBeforeCrlf(s);
    assert s[..end] == s[..sp1] + " " + s[sp1 + 1..sp2] + " " + s[sp2 + 1..end];
  }

  lemma SameLineText(m: Message, fields: seq<Field>, body: string)
    ensures LineText(m.(fields := fields, body := body)) == LineText(m)
  {
  }

  lemma AcceptedIsPrinted(s: string) returns (m: Message)
    requires Parse(FRESH, s).status == Completed && SecondSpace(s) < FirstCrlf(s)
    ensures WellFormed(m) && Print(m) == s[..Parse(FRESH, s).consumed]
  {
    hide LineText, PrintFields, LengthAfter, NoCrlf, FirstCrlf, SecondSpace, MethodOf, GoodFields;
    var end := FirstCrlf(s);
    var line := LineAccepted(FRESH, s);
    var u := s[end + 2..];
    LineBeforeCrlf(s);
    var q := LineMove(FRESH, s).parser;
    assert Parse(FRESH, s) == Shift(Parse(q, u), end + 2);
    var fields, body := FieldsAccepted(q, u);
    m := line.(fields := fields, body := body);
    SameLineText(line, fields, body);
    var n := Parse(q, u).consumed;
    assert s[..end + 2 + n] == s[..end] + "\r\n" + u[..n];
  }

  /**
    The accepted language: a fresh parser completes after exactly `n` bytes of a buffer whose first line has its two
    spaces if and only if those bytes are a printed well-formed message.
  */
  lemma AcceptsExactlyPrinted(s: string, n: nat)
    requires n <= |s|
    ensures (Parse(FRESH, s).status == Completed && Parse(FRESH, s).consumed == n && SecondSpace(s) < FirstCrlf(s))
       <==> exists m :: WellFormed(m) && Print(m) == s[..n]
  {
    hide WellFormed, Print, Parse, SecondSpace, FirstCrlf;
    if Parse(FRESH, s).status == Completed && Parse(FRESH, s).consumed == n && SecondSpace(s) < FirstCrlf(s) {
      var m := AcceptedIsPrinted(s);
    }
    if exists m :: WellFormed(m) && Print(m) == s[..n] {
      var m :| WellFormed(m) && Print(m) == s[..n];
      assert s == Print(m) + s[n..];
      PrintedParses(m, s[n..]);
      PrintedLine(m, s[n..]);
    }
  }

  lemma PrintedLine(m: Message, rest: string)
    requires WellFormed(m)
    ensures SecondSpace(Print(m) + rest) < FirstCrlf(Print(m) + rest)
  {
    hide SecondSpace, FirstCrlf, LineText, PrintFields;
    assert Print(m) + rest == LineText(m) + "\r\n" + (PrintFields(m.fields) + m.body + rest);
    LineMoves(FRESH, m, PrintFields(m.fields) + m.body + rest);
  }

  // ---------------------------------------------------------------------------------------------
  // Every body up to 1 MiB can be sent
  // ---------------------------------------------------------------------------------------------

  function Decimal(n: nat): (s: string)
    ensures s != "" && AllDigits(s)
  {
    if n < 10 then [('0' as int + n) as char] else Decimal(n / 10) + [('0' as int + n % 10) as char]
  }

  lemma {:induction false} DecimalReadsBack(n: nat)
    ensures DecimalValue(Decimal(n)) == n
  {
    var s := Decimal(n);
    if n >= 10 {
      assert s[..|s| - 1] == Decimal(n / 10);
      DecimalReadsBack(n / 10);
    } else {
      assert s[..0] == "";
    }
  }

  /** A body of any length up to the limit, announced by a final Content-Length. */
  function WithBody(verb: string, path: string, version: string, fields: seq<Field>, body: string): Message {
    Message(verb, path, version, fields + [Field(LENGTH_NAME, 1, Decimal(|body|))], body)
  }

  lemma {:induction false} LastLengthWins(n: nat, fields: seq<Field>, f: Field)
    requires f.name == LENGTH_NAME && ParseLength(f.value).Some?
    ensures LengthAfter(n, fields + [f]) == ParseLength(f.value).value
    decreases |fields|
  {
    hide ParseLength;
    if fields == [] {
      assert fields + [f] == [f];
      assert [f][1..] == [];
    } else {
      assert (fields + [f])[1..] == fields[1..] + [f];
      var g := fields[0];
      var length := ParseLength(g.value);
      LastLengthWins(if g.name == LENGTH_NAME && length.Some? then length.value else n, fields[1..], f);
    }
  }

  lemma LengthNameIsPlain()
    ensures LENGTH_NAME != "" && ':' !in LENGTH_NAME && '\r' !in LENGTH_NAME
  {
  }

  lemma NoReturnNoCrlf(s: string)
    requires '\r' !in s
    ensures NoCrlf(s)
  {
  }

  lemma PlainLengthField(n: nat)
    ensures GoodField(Field(LENGTH_NAME, 1, Decimal(n))) <==> n <= MAX_BODY
    ensures n <= MAX_BODY ==> ParseLength(Decimal(n)) == Some(n)
  {
    hide LENGTH_NAME, NoCrlf, Decimal, Spaces;
    var f := Field(LENGTH_NAME, 1, Decimal(n));
    DecimalReadsBack(n);
    LengthNameIsPlain();
    assert '\r' !in Spaces(1) && '\r' !in Decimal(n);
    NoReturnNoCrlf(FieldLine(f));
  }

  /** A printed Content-Length is accepted exactly up to 1 MiB. */
  lemma LengthFieldIsGood(n: nat)
    ensures GoodField(Field("Content-Length", 1, Decimal(n))) <==> n <= 1048576
    ensures n <= 1048576 ==> ParseLength(Decimal(n)) == Some(n)
  {
    hide GoodField, ParseLength;
    PlainLengthField(n);
  }

  /** A Content-Length header sets the length exactly up to 1 MiB and is refused above; no other header touches it. */
  lemma {:induction false} LengthHeader(p: Parser, n: nat, f: Field)
    ensures n <= 1048576 ==>
      FieldMove(p, FieldLine(Field("Content-Length", 1, Decimal(n)))).Advance?
      && FieldMove(p, FieldLine(Field("Content-Length", 1, Decimal(n)))).parser.length == n
    ensures n > 1048576 ==> FieldMove(p, FieldLine(Field("Content-Length", 1, Decimal(n)))).Fail?
    ensures GoodField(f) && f.name != "Content-Length" ==>
      FieldMove(p, FieldLine(f)).Advance? && FieldMove(p, FieldLine(f)).parser.length == p.length
  {
    hide FieldMove, GoodField, FieldLine;
    var g := Field(LENGTH_NAME, 1, Decimal(n));
    LengthFieldIsGood(n);
    if n <= 1048576 {
      FieldMoves(p, g);
      OneLength(p.length, g);
    } else {
      TooLong(p, n);
    }
    if GoodField(f) {
      FieldMoves(p, f);
      OneLength(p.length, f);
    }
  }

  lemma OneLength(n: nat, f: Field)
    ensures f.name == LENGTH_NAME && ParseLength(f.value).Some? ==> LengthAfter(n, [f]) == ParseLength(f.value).value
    ensures f.name != LENGTH_NAME ==> LengthAfter(n, [f]) == n
  {
    hide ParseLength;
    assert [f][1..] == [];
  }

  lemma {:induction false} TooLong(p: Parser, n: nat)
    requires n > MAX_BODY
    ensures FieldMove(p, FieldLine(Field(LENGTH_NAME, 1, Decimal(n)))).Fail?
  {
    hide LENGTH_NAME, Decimal;
    var f := Field(LENGTH_NAME, 1, Decimal(n));
    var line := FieldLine(f);
    LengthNameIsPlain();
    DecimalReadsBack(n);
    CharAfterWord(f.name, ':', Spaces(1) + f.value);
    assert line == f.name + [':'] + (Spaces(1) + f.value);
    assert line[..|f.name|] == f.name && line[|f.name| + 1..] == Spaces(1) + f.value;
    assert IsDigit(f.value[0]);
    TrimSpaces(1, f.value);
  }

  /** Sending a body is possible, and parses back, exactly up to 1 MiB. */
  lemma BodyRoundTrip(verb: string, path: string, version: string, fields: seq<Field>, body: string, rest: string)
    requires ' ' !in verb && ' ' !in path && NoCrlf(verb + " " + path + " " + version) && GoodFields(fields)
    ensures var m := WithBody(verb, path, version, fields, body);
      && (WellFormed(m) <==> |body| <= 1048576)
      && (|body| <= 1048576 ==>
           Parse(FRESH, Print(m) + rest) == Parsed(Parser(AtEnd, RequestOf(m), |body|), Completed, |Print(m)|))
  {
    hide GoodField, Parse, Print, ParseLength, NoCrlf;
    var m := WithBody(verb, path, version, fields, body);
    var f := Field(LENGTH_NAME, 1, Decimal(|body|));
    LengthFieldIsGood(|body|);
    assert f in m.fields;
    assert LineText(m) == verb + " " + path + " " + version;
    if |body| <= MAX_BODY {
      LastLengthWins(0, fields, f);
      PrintedParses(m, rest);
    }
  }

  // ---------------------------------------------------------------------------------------------
  // The object
  // ---------------------------------------------------------------------------------------------

  class HttpParse {
    var at: Place
    var request: Request
    var length: nat

    ghost function Now(): Parser
      reads this
    {
      Parser(at, request, length)
    }

    constructor ()
      ensures Now() == FRESH
    {
      at, request, length := AtRequestLine, BLANK, 0;
    }

    method Reset()
      modifies this
      ensures Now() == FRESH
    {
      request := BLANK;
      at := AtRequestLine;
      length := 0;
    }

    /** Fails, changing nothing, unless a request is complete. */
    method TakeRequest() returns (r: Option<Request>)
      modifies this
      ensures old(at) == AtEnd ==> r == Some(old(request)) && Now() == FRESH
      ensures old(at) != AtEnd ==> r == None && Now() == old(Now())
    {
      if at != AtEnd { return None; }
      r := Some(request);
      Reset();
    }

    method ParseContentLength(text: string) returns (ok: bool)
      modifies this`length
      ensures ok == ParseLength(text).Some?
      ensures length == if ok then ParseLength(text).value else old(length)
    {
      match ParseLength(text)
      case None => ok := false;
      case Some(n) =>
        length := n;
        ok := true;
    }

    method SkipSpaces(text: string) returns (value: string)
      ensures value == TrimLeft(text)
    {
      value := text;
      while value != "" && value[0] == ' '
        invariant TrimLeft(value) == TrimLeft(text)
        decreases |value|
      {
        value := value[1..];
      }
    }

    method ParseRequestLine(input: string) returns (status: Status, n: nat)
      requires at == AtRequestLine
      modifies this`request
      ensures status == NeedMoreData ==> LineMove(old(Now()), input) == Pause && Now() == old(Now())
      ensures status == Failed ==> LineMove(old(Now()), input) == Fail(Now().(at := Broken))
      ensures status == Completed ==> LineMove(old(Now()), input) == Advance(Now().(at := AtHeader), n)
    {
      var end := FirstCrlf(input);
      if end == |input| { return NeedMoreData, 0; }
      var sp1 := FindChar(input, ' ', 0);
      var sp2 := SecondSpace(input);
      if sp2 == |input| { return Failed, 0; }
      request := request.(verb := MethodOf(input[..sp1]));
      request := request.(path := input[sp1 + 1..sp2]);
      request := request.(version := if sp2 < end then input[sp2 + 1..end] else input[sp2 + 1..]);
      return Completed, end + 2;
    }

    /** On a bad Content-Length the header itself has already been stored. */
    method ParseHeader(input: string) returns (status: Status, n: nat, finished: bool)
      requires at == AtHeader
      modifies this`request, this`length
      ensures status == NeedMoreData ==> HeaderMove(old(Now()), input) == Pause && Now() == old(Now())
      ensures status == Failed ==> HeaderMove(old(Now()), input) == Fail(Now().(at := Broken))
      ensures status == Completed && !finished ==> HeaderMove(old(Now()), input) == Advance(Now(), n)
      ensures status == Completed && finished ==>
        && Now() == old(Now())
        && HeaderMove(old(Now()), input) == Advance(Now().(at := if length == 0 then AtEnd else AtBody), n)
    {
      var end := FirstCrlf(input);
      if end == |input| { return NeedMoreData, 0, false; }
      if end == 0 { return Completed, 2, true; }
      var line := input[..end];
      var sep := FindChar(line, ':', 0);
      if sep == |line| { return Failed, 0, false; }
      var name := line[..sep];
      if name == "" { return Failed, 0, false; }
      var value := SkipSpaces(line[sep + 1..]);
      request := request.(headers := request.headers[name := value]);
      if name == LENGTH_NAME {
        var ok := ParseContentLength(value);
        if !ok { return Failed, 0, false; }
      }
      return Completed, end + 2, false;
    }

    method ParseBody(input: string) returns (status: Status, n: nat)
      requires at == AtBody
      modifies this`request
      ensures status == NeedMoreData ==> BodyMove(old(Now()), input) == Pause && Now() == old(Now())
      ensures status == Completed ==> BodyMove(old(Now()), input) == Advance(Now().(at := AtEnd), n)
      ensures status != Failed
    {
      if |input| < length { return NeedMoreData, 0; }
      request := request.(body := input[..length]);
      return Completed, length;
    }

    /** The whole call is the parser function: state, request, status and consumption. */
    method ParseBuffer(buffer: string) returns (status: Status, consumed: nat)
      modifies this
      ensures Parsed(Now(), status, consumed) == Parse(old(Now()), buffer)
    {
      hide LineMove, HeaderMove, BodyMove, FindChar, FindCrlf;
      consumed := 0;
      assert buffer[0..] == buffer;
      while true
        invariant consumed <= |buffer|
        invariant Shift(Parse(Now(), buffer[consumed..]), consumed) == Parse(old(Now()), buffer)
        decreases |buffer| - consumed, if at == AtBody then 2 else if at == AtEnd then 1 else 0
      {
        var sub := buffer[consumed..];
        ghost var before := Now();
        var n: nat;
        match at {
          case AtRequestLine =>
            status, n := ParseRequestLine(sub);
            if status == NeedMoreData { return; }
            if status == Failed { at := Broken; return; }
            consumed := consumed + n;
            at := AtHeader;
          case AtHeader =>
            var finished: bool;
            status, n, finished := ParseHeader(sub);
            if status == NeedMoreData { return; }
            if status == Failed { at := Broken; return; }
            consumed := consumed + n;
            if finished {
              at := if length == 0 then AtEnd else AtBody;
            }
          case AtBody =>
            status, n := ParseBody(sub);
            if status == NeedMoreData { return; }
            consumed := consumed + n;
            at := AtEnd;
          case AtEnd =>
            return Completed, consumed;
          case Broken =>
            return Failed, consumed;
        }
        assert MoveOf(before, sub) == Advance(Now(), n);
        assert buffer[consumed..] == sub[n..];
      }
    }
  }
}
