/** Reading frames from a socket in arbitrary chunks: the connection's buffers,
    the read loop and the handling of control frames. */
module FrameStream {
  import opened Bytes
  import opened Frames

  /** The two buffers of a connection. */
  class Connection {
    var input: seq<byte>
    var output: seq<byte>

    constructor ()
      ensures input == [] && output == []
    {
      input, output := [], [];
    }

    /** One recv. */
    method Receive(chunk: seq<byte>)
      modifies this`input
      ensures input == old(input) + chunk
    {
      input := input + chunk;
    }

    method ConsumeInput(n: nat)
      modifies this`input
      ensures input == if n >= |old(input)| then [] else old(input)[n..]
    {
      if n >= |input| {
        input := [];
      } else {
        input := input[n..];
      }
    }

    method Write(data: seq<byte>)
      modifies this`output
      ensures output == old(output) + data
    {
      output := output + data;
    }
  }

  datatype Status = MessagesReady | StillNeedMoreData | PeerClosed | ProtocolError | IoError

  /** What handling a list of frames amounts to: business frames, frames sent in reply, and why it stopped. */
  datatype Outcome = Outcome(frames: seq<Frame>, replies: seq<Frame>, stop: Option<Status>)

  const NOTHING: Outcome := Outcome([], [], None)

  function HandleOne(f: Frame): Outcome {
    match f.opcode
    case TextData => if f.fin then Outcome([f], [], None) else Outcome([], [], Some(ProtocolError))
    case BinaryData => if f.fin then Outcome([f], [], None) else Outcome([], [], Some(ProtocolError))
    case Ping => Outcome([], [Frame(true, Pong, f.payload)], None)
    case Pong => NOTHING
    case Close => Outcome([], [Frame(true, Close, f.payload)], Some(PeerClosed))
    case Continuation => Outcome([], [], Some(ProtocolError))
  }

  function Then(a: Outcome, b: Outcome): Outcome {
    if a.stop.Some? then a else Outcome(a.frames + b.frames, a.replies + b.replies, b.stop)
  }

  /** Frame by frame until one stops the session. */
  function HandleAll(frames: seq<Frame>): Outcome {
    if frames == [] then NOTHING
    else Then(HandleAll(frames[..|frames| - 1]), HandleOne(frames[|frames| - 1]))
  }

  lemma {:induction false} ThenAssociative(a: Outcome, b: Outcome, c: Outcome)
    ensures Then(Then(a, b), c) == Then(a, Then(b, c))
  {
  }

  lemma {:induction false} HandleAllConcat(a: seq<Frame>, b: seq<Frame>)
    ensures HandleAll(a + b) == Then(HandleAll(a), HandleAll(b))
  {
    if b == [] {
      assert a + b == a;
    } else {
      var front, last := b[..|b| - 1], b[|b| - 1];
      assert (a + b)[..|a + b| - 1] == a + front;
      HandleAllConcat(a, front);
      ThenAssociative(HandleAll(a), HandleAll(front), HandleOne(last));
    }
  }

  function Concat(chunks: seq<seq<byte>>): (b: seq<byte>) {
    if chunks == [] then [] else Concat(chunks[..|chunks| - 1]) + chunks[|chunks| - 1]
  }

  /** The bytes of some frames as the server sends them. */
  function EncodeAll(frames: seq<Frame>): (b: seq<byte>) {
    if frames == [] then [] else EncodeAll(frames[..|frames| - 1]) + Encode(frames[|frames| - 1])
  }

  lemma {:induction false} EncodeAllConcat(a: seq<Frame>, b: seq<Frame>)
    ensures EncodeAll(a + b) == EncodeAll(a) + EncodeAll(b)
  {
    hide Encode;
    if b == [] {
      assert a + b == a;
    } else {
      assert (a + b)[..|a + b| - 1] == a + b[..|b| - 1];
      EncodeAllConcat(a, b[..|b| - 1]);
    }
  }

  /** Output was queued exactly if there are replies. */
  datatype HandleResult = HandleResult(status: Status, frames: seq<Frame>, replies: seq<Frame>)

  method Send(connection: Connection, f: Frame)
    modifies connection`output
    ensures connection.output == old(connection.output) + EncodeAll([f])
  {
    assert EncodeAll([f][..0]) == [];
    var encoded := FrameEncoder(f);
    connection.Write(encoded);
  }

  method HandleFrame(connection: Connection, f: Frame, frames: seq<Frame>, replies: seq<Frame>)
    returns (goOn: bool, status: Status, frames': seq<Frame>, replies': seq<Frame>)
    modifies connection`output
    ensures connection.output == old(connection.output) + EncodeAll(HandleOne(f).replies)
    ensures frames' == frames + HandleOne(f).frames && replies' == replies + HandleOne(f).replies
    ensures goOn <==> HandleOne(f).stop.None?
    ensures !goOn ==> Some(status) == HandleOne(f).stop
  {
    hide Encode;
    goOn, status, frames', replies' := true, StillNeedMoreData, frames, replies;
    match f.opcode
    case TextData =>
      if !f.fin { goOn, status := false, ProtocolError; } else { frames' := frames + [f]; }
    case BinaryData =>
      if !f.fin { goOn, status := false, ProtocolError; } else { frames' := frames + [f]; }
    case Ping =>
      var pong := Frame(true, Pong, f.payload);
      Send(connection, pong);
      replies' := replies + [pong];
    case Pong =>
    case Close =>
      var close := Frame(true, Close, f.payload);
      Send(connection, close);
      goOn, status, replies' := false, PeerClosed, replies + [close];
    case Continuation =>
      goOn, status := false, ProtocolError;
  }

  /** The loop over the frames of one parsed buffer. */
  method HandleFrames(connection: Connection, batch: seq<Frame>, frames: seq<Frame>, replies: seq<Frame>)
    returns (goOn: bool, status: Status, frames': seq<Frame>, replies': seq<Frame>)
    modifies connection`output
    ensures connection.output == old(connection.output) + EncodeAll(HandleAll(batch).replies)
    ensures frames' == frames + HandleAll(batch).frames && replies' == replies + HandleAll(batch).replies
    ensures goOn <==> HandleAll(batch).stop.None?
    ensures !goOn ==> Some(status) == HandleAll(batch).stop
  {
    hide HandleOne, Then, HandleAll, EncodeAll;
    NothingHandled(batch);
    goOn, status, frames', replies' := true, StillNeedMoreData, frames, replies;
    for i := 0 to |batch|
      invariant goOn && HandleAll(batch[..i]).stop.None?
      invariant connection.output == old(connection.output) + EncodeAll(HandleAll(batch[..i]).replies)
      invariant frames' == frames + HandleAll(batch[..i]).frames && replies' == replies + HandleAll(batch[..i]).replies
    {
      HandleNext(batch, i);
      EncodeAllConcat(HandleAll(batch[..i]).replies, HandleOne(batch[i]).replies);
      goOn, status, frames', replies' := HandleFrame(connection, batch[i], frames', replies');
      if !goOn {
        StopIsFinal(batch, i + 1);
        return;
      }
    }
    assert batch[..|batch|] == batch;
  }

  lemma {:induction false} NothingHandled(batch: seq<Frame>)
    ensures HandleAll(batch[..0]) == NOTHING && EncodeAll([]) == []
  {
  }

  lemma {:induction false} HandleNext(batch: seq<Frame>, i: nat)
    requires i < |batch| && HandleAll(batch[..i]).stop.None?
    ensures var a, b := HandleAll(batch[..i]), HandleOne(batch[i]);
      HandleAll(batch[..i + 1]) == Outcome(a.frames + b.frames, a.replies + b.replies, b.stop)
  {
    hide HandleOne;
    assert batch[..i + 1][..i] == batch[..i];
  }

  lemma {:induction false} StopIsFinal(batch: seq<Frame>, k: nat)
    requires k <= |batch| && HandleAll(batch[..k]).stop.Some?
    ensures HandleAll(batch) == HandleAll(batch[..k])
  {
    HandleAllConcat(batch[..k], batch[k..]);
    assert batch == batch[..k] + batch[k..];
  }

  /** A stream is clean when none of its frames is malformed. */
  ghost predicate Clean(stream: seq<byte>) { !ScanAll(stream).bad }

  function StreamOutcome(stream: seq<byte>): Outcome { HandleAll(ScanAll(stream).frames) }

  /** What a parse of the whole stream leaves in the buffer, from the first frame that is incomplete or malformed. */
  function Rest(stream: seq<byte>): seq<byte> { stream[ScanAll(stream).consumed..] }

  /** What the loop has done after reading `seen`: exactly what one parse of `seen` says. */
  ghost predicate CaughtUp(seen: seq<byte>, input: seq<byte>, written: seq<Frame>, frames: seq<Frame>) {
    && Clean(seen) && StreamOutcome(seen).stop.None?
    && input == seen[ScanAll(seen).consumed..]
    && written == StreamOutcome(seen).replies && frames == StreamOutcome(seen).frames
  }

  /** Before a read: caught up, or nothing parsed yet of what the buffer held from the start (bytes that came with the
      upgrade request). */
  ghost predicate ReadyToRead(seen: seq<byte>, input: seq<byte>, written: seq<Frame>, frames: seq<Frame>) {
    CaughtUp(seen, input, written, frames) || (seen == input && written == [] && frames == [])
  }

  lemma {:induction false} NextChunk(seen: seq<byte>, input: seq<byte>, written: seq<Frame>, frames: seq<Frame>,
                                     chunk: seq<byte>)
    requires ReadyToRead(seen, input, written, frames)
    ensures var r := ScanAll(input + chunk);
      && Clean(seen + chunk) == !r.bad
      && StreamOutcome(seen + chunk) == Then(Outcome(frames, written, None), HandleAll(r.frames))
      && Rest(seen + chunk) == Rest(input + chunk)
  {
    hide ScanAll, HandleAll;
    var a, r := ScanAll(seen), ScanAll(input + chunk);
    if CaughtUp(seen, input, written, frames) {
      ScanResumes(seen, chunk, input + chunk);
      HandleAllConcat(a.frames, r.frames);
      assert (seen + chunk)[a.consumed..] == input + chunk;
      assert (seen + chunk)[a.consumed..][r.consumed..] == (seen + chunk)[a.consumed + r.consumed..];
    } else {
      ThenParts([], [], HandleAll(r.frames));
    }
  }

  /** Frames handled in a prefix of a clean stream that already stopped are all the stream's handling. */
  lemma {:induction false} StoppedStream(stream: seq<byte>, more: seq<byte>)
    requires Clean(stream) && StreamOutcome(stream).stop.Some?
    ensures StreamOutcome(stream + more) == StreamOutcome(stream)
  {
    hide ScanAll, HandleAll;
    var tail := stream[ScanAll(stream).consumed..] + more;
    ScanResumes(stream, more, tail);
    HandleAllConcat(ScanAll(stream).frames, ScanAll(tail).frames);
  }

  lemma {:induction false} ConcatSplit(chunks: seq<seq<byte>>, i: nat)
    requires i <= |chunks|
    ensures Concat(chunks) == Concat(chunks[..i]) + Concat(chunks[i..])
  {
    if i == |chunks| {
      assert chunks[..i] == chunks;
    } else {
      var front := chunks[..|chunks| - 1];
      ConcatSplit(front, i);
      assert front[..i] == chunks[..i] && front[i..] == chunks[i..][..|chunks| - i - 1];
      assert chunks[i..][|chunks| - i - 1] == chunks[|chunks| - 1];
    }
  }

  /** A buffer holding less than one frame, as every pass of the read loop leaves it. */
  ghost predicate Leftover(input: seq<byte>) { ScanAll(input) == Scan(false, 0, [], []) }

  lemma {:induction false} LeftoverOfScan(b: seq<byte>)
    requires !ScanAll(b).bad
    ensures Leftover(b[ScanAll(b).consumed..])
    decreases |b|
  {
    hide ParseOne;
    var one := ParseOne(b);
    if one.Got? {
      LeftoverOfScan(b[one.size..]);
      assert b[one.size..][ScanAll(b[one.size..]).consumed..] == b[ScanAll(b).consumed..];
    } else {
      assert b[0..] == b;
    }
  }

  /** How a read loop ends once the socket has no more bytes. */
  datatype ReadEnd = WouldBlock | EndOfFile | ReadFailed

  /** One successful read and the handling of the frames it completes. */
  method ReadChunk(connection: Connection, chunk: seq<byte>, frames: seq<Frame>, replies: seq<Frame>,
                   ghost seen: seq<byte>, ghost sent: seq<byte>)
    returns (goOn: bool, status: Status, frames': seq<Frame>, replies': seq<Frame>)
    requires ReadyToRead(seen, connection.input, replies, frames)
    requires connection.output == sent + EncodeAll(replies)
    modifies connection
    ensures connection.output == sent + EncodeAll(replies')
    ensures connection.input == Rest(seen + chunk)
    ensures goOn ==> CaughtUp(seen + chunk, connection.input, replies', frames')
    ensures !goOn ==> Ended(seen + chunk, replies, frames, replies', frames', status)
  {
    hide ScanAll, HandleAll, CaughtUp, ReadyToRead, ParseSpec, Then, Ended, EncodeAll;
    NextChunk(seen, connection.input, replies, frames, chunk);
    connection.Receive(chunk);
    var parsed := FrameParse(connection.input);
    ParseSpecMeaning(connection.input);
    connection.ConsumeInput(parsed.consumed);
    if parsed.status.ParseError? {
      BadEnds(seen + chunk, replies, frames);
      return false, ProtocolError, frames, replies;
    }
    ThenParts(frames, replies, HandleAll(parsed.frames));
    EncodeAllConcat(replies, HandleAll(parsed.frames).replies);
    goOn, status, frames', replies' := HandleFrames(connection, parsed.frames, frames, replies);
    if goOn {
      MakeCaughtUp(seen + chunk, connection.input, replies', frames');
    } else {
      StopEnds(seen + chunk, replies, frames, replies', frames', status);
    }
  }

  /** How many of the reads come before the one that completes a malformed frame. */
  ghost function CleanReads(start: seq<byte>, chunks: seq<seq<byte>>): (k: nat)
    ensures k <= |chunks|
  {
    if chunks == [] then 0
    else if Clean(start + Concat(chunks)) then |chunks|
    else CleanReads(start, chunks[..|chunks| - 1])
  }

  /** What any split of any stream into reads delivers: the outcome of one parse of all reads before the malformed one.
      A buffer is parsed only after a read, so with no read there is nothing. */
  ghost function Delivered(start: seq<byte>, chunks: seq<seq<byte>>): Outcome {
    var k := CleanReads(start, chunks);
    if k == 0 then NOTHING else StreamOutcome(start + Concat(chunks[..k]))
  }

  ghost function FinalStatus(start: seq<byte>, chunks: seq<seq<byte>>, end: ReadEnd): Status {
    var o := Delivered(start, chunks);
    if o.stop.Some? then o.stop.value
    else if CleanReads(start, chunks) < |chunks| then ProtocolError
    else EndStatus(end, o.frames)
  }

  /** A read after which the loop returns. */
  ghost predicate Ends(stream: seq<byte>) { !Clean(stream) || StreamOutcome(stream).stop.Some? }

  /** The loop performs the first `n` reads: it goes on until one ends it or the socket has no more. */
  ghost predicate Performs(start: seq<byte>, chunks: seq<seq<byte>>, n: nat) {
    && n <= |chunks| && (forall j :: 0 < j < n ==> !Ends(start + Concat(chunks[..j])))
    && (n < |chunks| ==> n > 0 && Ends(start + Concat(chunks[..n])))
  }

  /** The buffer after some reads of one event. */
  function InputAfter(start: seq<byte>, chunks: seq<seq<byte>>): seq<byte> {
    if chunks == [] then start else Rest(start + Concat(chunks))
  }

  /** The read loop: append, parse, consume, handle. `performed` is how many reads it did; what the socket still
      holds is left to the next event. */
  method HandleReadable(connection: Connection, chunks: seq<seq<byte>>, end: ReadEnd)
    returns (r: HandleResult, performed: nat)
    modifies connection
    ensures Performs(old(connection.input), chunks, performed)
    ensures connection.input == InputAfter(old(connection.input), chunks[..performed])
    ensures var o := Delivered(old(connection.input), chunks);
      && r == HandleResult(FinalStatus(old(connection.input), chunks, end), o.frames, o.replies)
      && connection.output == old(connection.output) + EncodeAll(o.replies)
    ensures var stream := old(connection.input) + Concat(chunks);
      && (chunks == [] ==> connection.input == stream)
      && (chunks != [] && Clean(stream) && StreamOutcome(stream).stop.None? ==>
            connection.input == stream[ScanAll(stream).consumed..] && Leftover(connection.input))
  {
    hide ScanAll, HandleAll, CaughtUp, Leftover, Ended, Clean, CleanReads, Delivered, EncodeAll, Rest, StreamOutcome;
    hide Ends;
    var frames: seq<Frame>, replies: seq<Frame> := [], [];
    ghost var start, sent := connection.input, connection.output;
    ghost var seen := start;
    NoReads(start, chunks, sent);
    var i := 0;
    while i < |chunks|
      invariant 0 <= i <= |chunks|
      invariant ReadyToRead(seen, connection.input, replies, frames)
      invariant i > 0 ==> CaughtUp(seen, connection.input, replies, frames)
      invariant i == 0 ==> connection.input == start && frames == [] && replies == []
      invariant seen == start + Concat(chunks[..i]) && connection.output == sent + EncodeAll(replies)
      invariant i > 0 ==> connection.input == Rest(seen)
      invariant forall j :: 0 < j <= i ==> !Ends(start + Concat(chunks[..j]))
    {
      var goOn, status;
      ghost var wasFrames, wasReplies := frames, replies;
      ConcatPrefix(chunks, i);
      assert start + Concat(chunks[..i + 1]) == seen + chunks[i];
      if i > 0 { FinishLoop(seen, connection.input, replies, frames); }
      goOn, status, frames, replies := ReadChunk(connection, chunks[i], frames, replies, seen, sent);
      if !goOn {
        EndedReads(start, chunks, i, wasReplies, wasFrames, replies, frames, status, end);
        return HandleResult(status, frames, replies), i + 1;
      }
      FinishLoop(seen + chunks[i], connection.input, replies, frames);
      seen := seen + chunks[i];
      i := i + 1;
    }
    assert chunks[..|chunks|] == chunks;
    if chunks != [] {
      FinishLoop(seen, connection.input, replies, frames);
      AllRead(start, chunks, replies, frames, end);
    }
    return HandleResult(EndStatus(end, frames), frames, replies), |chunks|;
  }

  /** The status when no frame and no error stopped the loop. */
  function EndStatus(end: ReadEnd, frames: seq<Frame>): Status {
    match end
    case EndOfFile => PeerClosed
    case ReadFailed => IoError
    case WouldBlock => if frames == [] then StillNeedMoreData else MessagesReady
  }

  /** A stop: at a frame of a clean stream, or at a malformed frame, which takes the frames of its read with it. */
  ghost predicate Ended(seen: seq<byte>, written: seq<Frame>, frames: seq<Frame>,
                        written': seq<Frame>, frames': seq<Frame>, status: Status) {
    if Clean(seen) then StreamOutcome(seen) == Outcome(frames', written', Some(status))
    else status == ProtocolError && written' == written && frames' == frames
  }

  lemma {:induction false} BadEnds(seen: seq<byte>, written: seq<Frame>, frames: seq<Frame>)
    requires !Clean(seen)
    ensures Ended(seen, written, frames, written, frames, ProtocolError)
  {
  }

  lemma {:induction false} StopEnds(seen: seq<byte>, written: seq<Frame>, frames: seq<Frame>,
                                    written': seq<Frame>, frames': seq<Frame>, status: Status)
    requires Clean(seen) && StreamOutcome(seen) == Outcome(frames', written', Some(status))
    ensures Ended(seen, written, frames, written', frames', status)
  {
  }

  lemma {:induction false} ConcatPrefix(chunks: seq<seq<byte>>, i: nat)
    requires i < |chunks|
    ensures Concat(chunks[..i + 1]) == Concat(chunks[..i]) + chunks[i]
  {
    assert chunks[..i + 1][..i] == chunks[..i];
  }

  /** The reads before the first that is not clean are the clean ones. */
  lemma {:induction false} CleanReadsIs(start: seq<byte>, chunks: seq<seq<byte>>, i: nat)
    requires i <= |chunks| && (i > 0 ==> Clean(start + Concat(chunks[..i])))
    requires i < |chunks| ==> !Clean(start + Concat(chunks[..i + 1]))
    ensures CleanReads(start, chunks) == i
  {
    hide Clean;
    if i == |chunks| {
      assert chunks[..i] == chunks;
    } else {
      ConcatSplit(chunks, i + 1);
      BadStays(start + Concat(chunks[..i + 1]), Concat(chunks[i + 1..]), start + Concat(chunks));
      var front := chunks[..|chunks| - 1];
      assert front[..i] == chunks[..i] && (i < |front| ==> front[..i + 1] == chunks[..i + 1]);
      CleanReadsIs(start, front, i);
    }
  }

  lemma {:induction false} BadStays(stream: seq<byte>, more: seq<byte>, whole: seq<byte>)
    requires !Clean(stream) && whole == stream + more
    ensures !Clean(whole)
  {
    ErrorIsFinal(stream, more);
  }

  /** At least the reads of a clean prefix are clean, and all of them together are. */
  lemma {:induction false} CleanReadsCover(start: seq<byte>, chunks: seq<seq<byte>>, i: nat)
    requires 0 < i <= |chunks| && Clean(start + Concat(chunks[..i]))
    ensures i <= CleanReads(start, chunks)
  {
    hide Clean;
    if i == |chunks| {
      assert chunks[..i] == chunks;
    } else {
      assert chunks[..|chunks| - 1][..i] == chunks[..i];
      CleanReadsCover(start, chunks[..|chunks| - 1], i);
    }
  }

  lemma {:induction false} NoReads(start: seq<byte>, chunks: seq<seq<byte>>, sent: seq<byte>)
    ensures sent + EncodeAll([]) == sent && start + Concat(chunks[..0]) == start
    ensures Delivered(start, []) == NOTHING && CleanReads(start, []) == 0
  {
  }

  lemma {:induction false} EndedReads(start: seq<byte>, chunks: seq<seq<byte>>, i: nat,
                                      written: seq<Frame>, frames: seq<Frame>,
                                      written': seq<Frame>, frames': seq<Frame>, status: Status, end: ReadEnd)
    requires i < |chunks| && Ended(start + Concat(chunks[..i + 1]), written, frames, written', frames', status)
    requires i > 0 ==> var before := start + Concat(chunks[..i]);
      Clean(before) && StreamOutcome(before) == Outcome(frames, written, None)
    requires i == 0 ==> frames == [] && written == []
    ensures var o := Delivered(start, chunks);
      o.frames == frames' && o.replies == written' && FinalStatus(start, chunks, end) == status
    ensures !(Clean(start + Concat(chunks)) && StreamOutcome(start + Concat(chunks)).stop.None?)
    ensures Ends(start + Concat(chunks[..i + 1]))
  {
    hide Clean, StreamOutcome, CleanReads;
    var seen, whole := start + Concat(chunks[..i + 1]), start + Concat(chunks);
    ConcatSplit(chunks, i + 1);
    assert whole == seen + Concat(chunks[i + 1..]);
    if Clean(seen) {
      var k := CleanReads(start, chunks);
      CleanReadsCover(start, chunks, i + 1);
      StoppedStream(seen, Concat(chunks[i + 1..]));
      ConcatSplit(chunks[..k], i + 1);
      assert chunks[..k][..i + 1] == chunks[..i + 1];
      assert start + Concat(chunks[..k]) == seen + Concat(chunks[..k][i + 1..]);
      StoppedStream(seen, Concat(chunks[..k][i + 1..]));
    } else {
      CleanReadsIs(start, chunks, i);
      BadStays(seen, Concat(chunks[i + 1..]), whole);
    }
  }

  lemma {:induction false} AllRead(start: seq<byte>, chunks: seq<seq<byte>>, written: seq<Frame>, frames: seq<Frame>,
                                   end: ReadEnd)
    requires chunks != [] && Clean(start + Concat(chunks))
    requires StreamOutcome(start + Concat(chunks)) == Outcome(frames, written, None)
    ensures var o := Delivered(start, chunks);
      o.frames == frames && o.replies == written && FinalStatus(start, chunks, end) == EndStatus(end, frames)
  {
    hide Clean, StreamOutcome;
    assert chunks[..|chunks|] == chunks;
  }

  /** Only pongs leave no trace. */
  lemma {:induction false} NothingMeansPongs(frames: seq<Frame>)
    ensures HandleAll(frames) == NOTHING <==> forall i :: 0 <= i < |frames| ==> frames[i].opcode.Pong?
  {
    if frames != [] {
      var front, last := frames[..|frames| - 1], frames[|frames| - 1];
      NothingMeansPongs(front);
      assert forall i :: 0 <= i < |front| ==> front[i] == frames[i];
      assert HandleOne(last) == NOTHING <==> last.opcode.Pong?;
    }
  }

  /** The frames complete in the reads before a malformed one. */
  ghost function CleanFrames(start: seq<byte>, chunks: seq<seq<byte>>): seq<Frame> {
    var k := CleanReads(start, chunks);
    if k == 0 then [] else ScanAll(start + Concat(chunks[..k])).frames
  }

  /** Chunk independence with its exact condition: a split into reads delivers what one read of all bytes delivers
      if and only if no frame of the stream is malformed, or nothing but pongs is complete in the reads before the
      malformed one. */
  lemma {:induction false} SplitAgrees(start: seq<byte>, chunks: seq<seq<byte>>)
    requires chunks != []
    ensures Delivered(start, chunks) == Delivered(start, [Concat(chunks)])
       <==> Clean(start + Concat(chunks))
            || forall i :: 0 <= i < |CleanFrames(start, chunks)| ==> CleanFrames(start, chunks)[i].opcode.Pong?
    ensures Clean(start + Concat(chunks)) ==> Delivered(start, chunks) == StreamOutcome(start + Concat(chunks))
  {
    hide ScanAll, HandleAll;
    var whole := [Concat(chunks)];
    assert whole[..0] == [] && Concat([]) == [] && Concat(whole) == Concat(chunks);
    assert chunks[..|chunks|] == chunks && whole[..1] == whole;
    assert HandleAll([]) == NOTHING by { NothingMeansPongs([]); }
    NothingMeansPongs(CleanFrames(start, chunks));
  }

  /** While nothing has stopped the session, events compose: a later one continues from the leftover what one event over
      all reads would have delivered. */
  lemma {:induction false} OngoingCompose(start: seq<byte>, a: seq<seq<byte>>, b: seq<seq<byte>>)
    requires a != [] && Clean(start + Concat(a)) && StreamOutcome(start + Concat(a)).stop.None?
    ensures var rest := Rest(start + Concat(a));
      && CleanReads(start, a + b) == |a| + CleanReads(rest, b)
      && Delivered(start, a + b) == Then(Delivered(start, a), Delivered(rest, b))
  {
    hide Clean, StreamOutcome, Then, Rest, CleanReads, Delivered;
    var stream := start + Concat(a);
    var rest := Rest(stream);
    AllClean(start, a);
    if b == [] {
      assert a + b == a;
      NoReads(rest, b, []);
      ThenNothing(StreamOutcome(stream));
    } else {
      var front := b[..|b| - 1];
      OneEvent(stream, Concat(b));
      ConcatSplit(a + b, |a|);
      assert (a + b)[..|a|] == a && (a + b)[|a|..] == b;
      assert start + Concat(a + b) == stream + Concat(b);
      if Clean(rest + Concat(b)) {
        AllClean(start, a + b);
        AllClean(rest, b);
      } else {
        OngoingCompose(start, a, front);
        SamePrefix(start, a, b);
        assert [] + b == b && [] + front == front;
        SamePrefix(rest, [], b);
      }
    }
  }

  lemma {:induction false} AllClean(start: seq<byte>, chunks: seq<seq<byte>>)
    requires chunks != [] && Clean(start + Concat(chunks))
    ensures CleanReads(start, chunks) == |chunks| && Delivered(start, chunks) == StreamOutcome(start + Concat(chunks))
  {
    hide Clean, StreamOutcome;
    assert chunks[..|chunks|] == chunks;
  }

  /** Nothing is delivered from a buffer that begins with a malformed frame, whatever is read. */
  lemma {:induction false} MalformedStays(stream: seq<byte>, b: seq<seq<byte>>)
    requires !Clean(stream)
    ensures CleanReads(Rest(stream), b) == 0 && Delivered(Rest(stream), b) == NOTHING
  {
    RestIsBad(stream);
    hide Clean, StreamOutcome, Rest;
    if b != [] {
      var front := b[..|b| - 1];
      MalformedStays(stream, front);
      BadStays(Rest(stream), Concat(b), Rest(stream) + Concat(b));
    }
  }

  lemma {:induction false} RestIsBad(stream: seq<byte>)
    requires !Clean(stream)
    ensures !Clean(Rest(stream))
    decreases |stream|
  {
    hide ParseOne;
    var one := ParseOne(stream);
    if one.Got? {
      RestIsBad(stream[one.size..]);
      assert Rest(stream[one.size..]) == Rest(stream);
    } else {
      assert stream[0..] == stream;
    }
  }

  /** What two events deliver together. */
  ghost predicate Continues(x: Outcome, y: Outcome, z: Outcome) {
    x.frames + y.frames == z.frames && x.replies + y.replies == z.replies
  }

  lemma {:induction false} AfterStop(start: seq<byte>, a: seq<seq<byte>>, b: seq<seq<byte>>)
    requires a != [] && Clean(start + Concat(a)) && StreamOutcome(start + Concat(a)).stop.Some?
    ensures Delivered(start, a) == StreamOutcome(start + Concat(a)) == Delivered(start, a + b)
  {
    hide Clean, StreamOutcome;
    assert a[..|a|] == a && (a + b)[..|a|] == a;
    var k := CleanReads(start, a + b);
    CleanReadsCover(start, a + b, |a|);
    ConcatSplit((a + b)[..k], |a|);
    assert (a + b)[..k][..|a|] == a;
    StoppedStream(start + Concat(a), Concat((a + b)[..k][|a|..]));
    assert start + Concat((a + b)[..k]) == start + Concat(a) + Concat((a + b)[..k][|a|..]);
  }

  lemma {:induction false} AfterMalformed(start: seq<byte>, a: seq<seq<byte>>, b: seq<seq<byte>>)
    requires a != [] && !Clean(start + Concat(a))
    ensures Delivered(start, a + b) == Delivered(start, a)
    decreases |b|
  {
    hide Clean, StreamOutcome;
    if b == [] {
      assert a + b == a;
    } else {
      ConcatSplit(a + b, |a|);
      assert (a + b)[..|a|] == a;
      BadStays(start + Concat(a), Concat((a + b)[|a|..]), start + Concat(a + b));
      SamePrefix(start, a, b);
      AfterMalformed(start, a, b[..|b| - 1]);
    }
  }

  /** Several readable events, with the exact condition: what an event delivers, together with what the next one
      delivers from the buffer it left, is what one event over all reads delivers if and only if the first did not stop
      at a frame or the second has nothing to deliver. A client's Close is such a stop after which the session is still
      read, so a split of the reads into events does matter there; after a malformed frame it never does. */
  lemma {:induction false} EventsCompose(start: seq<byte>, a: seq<seq<byte>>, b: seq<seq<byte>>)
    ensures var x, y, z := Delivered(start, a), Delivered(InputAfter(start, a), b), Delivered(start, a + b);
      Continues(x, y, z) <==> x.stop.None? || (y.frames == [] && y.replies == [])
    ensures var x, y := Delivered(start, a), Delivered(InputAfter(start, a), b);
      x.stop.None? ==> Delivered(start, a + b) == Then(x, y)
  {
    hide Clean, StreamOutcome, Rest;
    var x, y := Delivered(start, a), Delivered(InputAfter(start, a), b);
    if a == [] {
      assert a + b == b;
      ThenParts([], [], y);
    } else if !Clean(start + Concat(a)) {
      AfterMalformed(start, a, b);
      MalformedStays(start + Concat(a), b);
      ThenNothing(x);
    } else if StreamOutcome(start + Concat(a)).stop.Some? {
      AfterStop(start, a, b);
    } else {
      OngoingCompose(start, a, b);
      assert a[..|a|] == a;
      ThenParts(x.frames, x.replies, y);
    }
  }

  /** A printed list of legal frames is clean, is consumed whole and is handled frame by frame. */
  lemma {:induction false} PrintedOutcome(frames: seq<Frame>, masks: seq<seq<byte>>)
    requires |frames| == |masks| && forall i :: 0 <= i < |masks| ==> |masks[i]| == 4 && Legal(frames[i])
    ensures var b := PrintAll(frames, masks); Clean(b) && Rest(b) == [] && StreamOutcome(b) == HandleAll(frames)
  {
    hide ScanAll, HandleAll, Legal;
    ScanOfPrintAll(frames, masks);
  }

  lemma {:induction false} OneRead(c: seq<byte>)
    requires Clean(c)
    ensures Delivered([], [c]) == StreamOutcome(c) && InputAfter([], [c]) == Rest(c)
  {
    hide Clean, StreamOutcome, Rest;
    assert Concat([c][..0]) == [] && [] + c == c && [c][..1] == [c];
    assert Concat([c]) == c;
  }

  lemma {:induction false} TwoOutcomes(f: Frame, g: Frame)
    ensures HandleAll([f]) == HandleOne(f) && HandleAll([f, g]) == Then(HandleOne(f), HandleOne(g))
  {
    assert [f][..0] == [] && [f, g][..1] == [f];
    assert HandleAll([]) == NOTHING;
    ThenParts([], [], HandleOne(f));
  }

  /** The clean stream Close, Ping: one event over both reads sends the Close reply only, two events a pong as well. */
  lemma {:induction false} CloseThenPing(mask: seq<byte>)
    requires |mask| == 4
    ensures var close, ping := Print(Frame(true, Close, []), mask), Print(Frame(true, Ping, []), mask);
      && Clean(close + ping)
      && Delivered([], [close] + [ping]) == Outcome([], [Frame(true, Close, [])], Some(PeerClosed))
      && Delivered([], [close]) == Delivered([], [close] + [ping]) && InputAfter([], [close]) == []
      && Delivered([], [ping]) == Outcome([], [Frame(true, Pong, [])], None)
  {
    hide Print, Clean, StreamOutcome, Rest, HandleAll, Delivered;
    var close, ping := Frame(true, Close, []), Frame(true, Ping, []);
    var c, p := Print(close, mask), Print(ping, mask);
    PrintedOutcome([close], [mask]);
    PrintedOutcome([ping], [mask]);
    PrintedOutcome([close, ping], [mask, mask]);
    PrintedTwo(close, ping, mask);
    TwoOutcomes(close, ping);
    TwoOutcomes(ping, close);
    OneRead(c);
    OneRead(p);
    assert Concat([c][..0]) == [] && [] + Concat([c]) == c;
    AfterStop([], [c], [p]);
  }

  lemma {:induction false} PrintedTwo(f: Frame, g: Frame, mask: seq<byte>)
    requires |mask| == 4
    ensures PrintAll([f], [mask]) == Print(f, mask) && PrintAll([g], [mask]) == Print(g, mask)
    ensures PrintAll([f, g], [mask, mask]) == Print(f, mask) + Print(g, mask)
  {
    hide Print;
    assert [f, g][1..] == [g] && [mask, mask][1..] == [mask] && [f][1..] == [] && [g][1..] == [] && [mask][1..] == [];
  }

  lemma {:induction false} ThenNothing(o: Outcome)
    ensures Then(o, NOTHING) == o
  {
  }

  lemma {:induction false} OneEvent(stream: seq<byte>, more: seq<byte>)
    requires Clean(stream) && StreamOutcome(stream).stop.None?
    ensures var rest := Rest(stream);
      && Clean(stream + more) == Clean(rest + more)
      && StreamOutcome(stream + more) == Then(StreamOutcome(stream), StreamOutcome(rest + more))
  {
    hide ScanAll, HandleAll;
    var o := StreamOutcome(stream);
    NextChunk(stream, stream[ScanAll(stream).consumed..], o.replies, o.frames, more);
  }

  /** A malformed last read does not count. */
  lemma {:induction false} SamePrefix(start: seq<byte>, a: seq<seq<byte>>, b: seq<seq<byte>>)
    requires b != [] && !Clean(start + Concat(a + b))
    ensures CleanReads(start, a + b) == CleanReads(start, a + b[..|b| - 1])
    ensures Delivered(start, a + b) == Delivered(start, a + b[..|b| - 1])
  {
    hide Clean, StreamOutcome;
    var front := a + b[..|b| - 1];
    assert (a + b)[..|a + b| - 1] == front;
    var k := CleanReads(start, front);
    assert (a + b)[..k] == front[..k];
  }

  lemma {:induction false} ParseSpecMeaning(b: seq<byte>)
    ensures var r, p := ScanAll(b), ParseSpec(b);
      && (p.status.ParseError? <==> r.bad) && p.consumed == r.consumed <= |b| && (!r.bad ==> p.frames == r.frames)
  {
  }

  lemma {:induction false} ThenParts(frames: seq<Frame>, written: seq<Frame>, b: Outcome)
    ensures Then(Outcome(frames, written, None), b) == Outcome(frames + b.frames, written + b.replies, b.stop)
  {
  }

  lemma {:induction false} MakeCaughtUp(seen: seq<byte>, input: seq<byte>, written: seq<Frame>, frames: seq<Frame>)
    requires Clean(seen) && input == seen[ScanAll(seen).consumed..]
    requires StreamOutcome(seen) == Outcome(frames, written, None)
    ensures CaughtUp(seen, input, written, frames)
  {
  }

  lemma {:induction false} FinishLoop(seen: seq<byte>, input: seq<byte>, written: seq<Frame>, frames: seq<Frame>)
    requires CaughtUp(seen, input, written, frames)
    ensures Clean(seen) && StreamOutcome(seen) == Outcome(frames, written, None)
    ensures input == Rest(seen) == seen[ScanAll(seen).consumed..] && Leftover(input) && !Ends(seen)
  {
    hide ScanAll, HandleAll;
    LeftoverOfScan(seen);
  }

}
