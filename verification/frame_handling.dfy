/** What handling a list of frames means, said by opcode and FIN bit alone. */
module FrameHandling {
  import opened Bytes
  import opened Frames
  import opened FrameStream

  /** A frame at which the session stops: a Close, a continuation, or an unfinished message. */
  predicate Stopping(f: Frame) {
    f.opcode == Close || f.opcode == Continuation || (f.opcode in {TextData, BinaryData} && !f.fin)
  }

  /** The first such frame; the length of the list when there is none. */
  function FirstStop(frames: seq<Frame>): (k: nat)
    ensures k <= |frames| && (k < |frames| ==> Stopping(frames[k]))
    ensures forall i :: 0 <= i < k ==> !Stopping(frames[i])
  {
    if frames == [] || Stopping(frames[0]) then 0 else 1 + FirstStop(frames[1..])
  }

  /** The messages of a list, unchanged and in order. */
  function Messages(frames: seq<Frame>): seq<Frame> {
    if frames == [] then []
    else if frames[0].opcode in {TextData, BinaryData} then [frames[0]] + Messages(frames[1..])
    else Messages(frames[1..])
  }

  /** A finished pong with the same payload for every ping. */
  function PongsFor(frames: seq<Frame>): seq<Frame> {
    if frames == [] then []
    else if frames[0].opcode == Ping then [Frame(true, Pong, frames[0].payload)] + PongsFor(frames[1..])
    else PongsFor(frames[1..])
  }

  /** Handling from the first frame on. */
  lemma {:induction false} HandleHead(frames: seq<Frame>)
    requires frames != []
    ensures HandleAll(frames) == Then(HandleOne(frames[0]), HandleAll(frames[1..]))
  {
    hide HandleAll, HandleOne;
    HandleAllConcat([frames[0]], frames[1..]);
    assert [frames[0]] + frames[1..] == frames;
    TwoOutcomes(frames[0], frames[0]);
  }

  /** The whole handling of any list: it stops at the first Close, continuation or unfinished message, with that
      frame's status; the messages before it are delivered; every ping before it is answered with its payload, and a
      Close is echoed. */
  lemma {:induction false} Handled(frames: seq<Frame>)
    ensures var k := FirstStop(frames);
      var o := HandleAll(frames);
      && o.frames == Messages(frames[..k])
      && (k == |frames| ==> o.stop == None && o.replies == PongsFor(frames))
      && (k < |frames| && frames[k].opcode == Close ==>
            o.stop == Some(PeerClosed) && o.replies == PongsFor(frames[..k]) + [Frame(true, Close, frames[k].payload)])
      && (k < |frames| && frames[k].opcode != Close ==>
            o.stop == Some(ProtocolError) && o.replies == PongsFor(frames[..k]))
  {
    hide HandleAll;
    if frames == [] {
      NothingHandled(frames);
      assert frames[..0] == frames;
    } else {
      HandleHead(frames);
      if Stopping(frames[0]) {
        assert frames[..0] == [];
      } else {
        Handled(frames[1..]);
        var k := FirstStop(frames[1..]);
        assert frames[..k + 1][0] == frames[0] && frames[..k + 1][1..] == frames[1..][..k];
        assert k + 1 == |frames| ==> frames[..k + 1] == frames && frames[1..][..k] == frames[1..];
      }
    }
  }

  /** A finished text message is delivered as it is and nothing stops. */
  lemma {:induction false} TextIsDelivered(p: seq<byte>)
    ensures HandleAll([Frame(true, TextData, p)]) == Outcome([Frame(true, TextData, p)], [], None)
  {
    TwoOutcomes(Frame(true, TextData, p), Frame(true, TextData, p));
  }

  /** How an event ends that neither a frame nor a malformed frame ended: a closed peer, a failed read, or no more
      bytes, with or without messages. */
  lemma {:induction false} EventEnds(start: seq<byte>, chunks: seq<seq<byte>>)
    requires Delivered(start, chunks).stop == None && CleanReads(start, chunks) == |chunks|
    ensures FinalStatus(start, chunks, EndOfFile) == PeerClosed && FinalStatus(start, chunks, ReadFailed) == IoError
    ensures FinalStatus(start, chunks, WouldBlock) == MessagesReady <==> Delivered(start, chunks).frames != []
    ensures FinalStatus(start, chunks, WouldBlock) == StillNeedMoreData <==> Delivered(start, chunks).frames == []
  {
    hide Delivered, CleanReads;
  }
}
