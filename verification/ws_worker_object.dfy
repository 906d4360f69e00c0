/** The worker and the pool as objects: the methods that change their fields in
    place, proved against the operations of WsWorker. */
module WsWorkerObject {
  import opened Bytes
  import opened WsWorker
  import Frames
  import FrameStream

  /** The pool's mutex-guarded directory of online devices. */
  class WebSocketPool {
    var online: Directory
    var accepting: bool // initialised and not stopping

    constructor ()
      ensures online == map[] && accepting
    {
      online, accepting := map[], true;
    }

    method AddIndex(device: Uuid, user: Uuid, worker: nat, fd: Fd, id: nat)
      modifies this`online
      ensures online == if accepting then old(online)[device := Online(worker, fd, id, user)] else old(online)
    {
      if !accepting { return; }
      online := online[device := Online(worker, fd, id, user)];
    }

    method RemoveIndex(device: Uuid, worker: nat, fd: Fd, id: nat)
      modifies this`online
      ensures online == WsWorker.RemoveIndex(old(online), device, worker, fd, id)
    {
      if device !in online { return; }
      var connection := online[device];
      if connection.worker == worker && connection.fd == fd && connection.id == id {
        online := online - {device};
      }
    }

    method Close()
      modifies this
      ensures online == map[] && !accepting
    {
      accepting, online := false, map[];
    }
  }

  function TargetsOf(w: Worker, keys: seq<Fd>, user: Uuid, device: Uuid): (r: seq<Fd>) {
    if keys == [] then []
    else
      var rest, fd := TargetsOf(w, keys[..|keys| - 1], user, device), keys[|keys| - 1];
      if fd in Targets(w, user, device) then rest + [fd] else rest
  }

  lemma {:induction false} TargetsOfMembers(w: Worker, keys: seq<Fd>, user: Uuid, device: Uuid, fd: Fd)
    ensures fd in TargetsOf(w, keys, user, device) <==> fd in keys && fd in Targets(w, user, device)
  {
    if keys != [] {
      TargetsOfMembers(w, keys[..|keys| - 1], user, device, fd);
      assert keys == keys[..|keys| - 1] + [keys[|keys| - 1]];
    }
  }

  lemma {:induction false} TargetsOfDistinct(w: Worker, keys: seq<Fd>, user: Uuid, device: Uuid)
    requires forall i, j :: 0 <= i < j < |keys| ==> keys[i] != keys[j]
    ensures var r := TargetsOf(w, keys, user, device); forall i, j :: 0 <= i < j < |r| ==> r[i] != r[j]
  {
    if keys != [] {
      var front, last := keys[..|keys| - 1], keys[|keys| - 1];
      TargetsOfDistinct(w, front, user, device);
      TargetsOfMembers(w, front, user, device, last);
      assert last !in front;
      assert TargetsOf(w, front, user, device) == [] || last !in TargetsOf(w, front, user, device);
    }
  }

  /** Scanning the session map in its iteration order finds each target once. */
  lemma {:induction false} TargetsOfIsOrder(w: Worker, keys: seq<Fd>, user: Uuid, device: Uuid)
    requires IsOrder(keys, w.sessions.Keys)
    ensures IsOrder(TargetsOf(w, keys, user, device), Targets(w, user, device))
  {
    TargetsOfDistinct(w, keys, user, device);
    forall fd
      ensures fd in TargetsOf(w, keys, user, device) <==> fd in Targets(w, user, device)
    {
      TargetsOfMembers(w, keys, user, device, fd);
    }
  }

  lemma {:induction false} OrderSize(order: seq<Fd>, targets: set<Fd>)
    requires IsOrder(order, targets)
    ensures |order| == |targets|
  {
    if order == [] {
      assert targets == {};
    } else {
      var front, last := order[..|order| - 1], order[|order| - 1];
      assert order == front + [last];
      assert last !in front;
      OrderSize(front, targets - {last});
    }
  }

  /** Pushing a call's callback onto the lists of some sockets, one after another. */
  function AddWaiters(m: map<Fd, seq<CallId>>, order: seq<Fd>, c: CallId): map<Fd, seq<CallId>> {
    if order == [] then m
    else
      var n, fd := AddWaiters(m, order[..|order| - 1], c), order[|order| - 1];
      n[fd := (if fd in n then n[fd] else []) + [c]]
  }

  lemma {:induction false} AddWaitersAt(m: map<Fd, seq<CallId>>, order: seq<Fd>, c: CallId, fd: Fd)
    requires forall i, j :: 0 <= i < j < |order| ==> order[i] != order[j]
    ensures fd in AddWaiters(m, order, c) <==> fd in m || fd in order
    ensures fd in AddWaiters(m, order, c) ==>
      AddWaiters(m, order, c)[fd] == (if fd in order then (if fd in m then m[fd] else []) + [c] else m[fd])
  {
    if order != [] {
      var front, last := order[..|order| - 1], order[|order| - 1];
      AddWaitersAt(m, front, c, fd);
      assert order == front + [last];
      assert last !in front;
    }
  }

  lemma {:induction false} AddWaitersIsRegister(w: Worker, order: seq<Fd>, all: set<Fd>, c: CallId)
    requires IsOrder(order, all)
    ensures AddWaiters(w.waiting, order, c) == Register(w, c, all).waiting
  {
    var a, b := AddWaiters(w.waiting, order, c), Register(w, c, all).waiting;
    forall fd
      ensures fd in a <==> fd in b
      ensures fd in a ==> a[fd] == b[fd]
    {
      AddWaitersAt(w.waiting, order, c, fd);
    }
  }

  // ------------------------------------------------ from frames to the session's output

  /** The entry a reply frame makes in the session's output. */
  function KindOf(f: Frames.Frame): Out { if f.opcode.Close? then CloseReply else PongOut }

  function Kinds(replies: seq<Frames.Frame>): seq<Out> {
    if replies == [] then [] else Kinds(replies[..|replies| - 1]) + [KindOf(replies[|replies| - 1])]
  }

  predicate Closes(replies: seq<Frames.Frame>) { replies != [] && replies[|replies| - 1].opcode.Close? }

  function Pongs(replies: seq<Frames.Frame>): nat { if Closes(replies) then |replies| - 1 else |replies| }

  /** What becomes of a session after its socket was read; `lost` is a failed event registration, `thrown` an exception
      in the dispatch of a business frame, which skips the rest of the handling. */
  function FateOf(status: FrameStream.Status, queued: bool, lost: bool, thrown: bool): Fate {
    if queued && lost then Drop
    else if thrown then KeepOpen
    else match status
      case MessagesReady => KeepOpen
      case StillNeedMoreData => KeepOpen
      case PeerClosed => if queued then AwaitFlush else Drop
      case ProtocolError => Drop
      case IoError => Drop
  }

  /** The replies to any frames are pongs, with at most one Close, which is the last and ends the session. */
  lemma {:induction false} RepliesShape(frames: seq<Frames.Frame>)
    ensures var o := FrameStream.HandleAll(frames);
      && (forall i :: 0 <= i < |o.replies| - 1 ==> o.replies[i].opcode.Pong?)
      && (o.replies != [] ==> o.replies[|o.replies| - 1].opcode.Pong? || Closes(o.replies))
      && (Closes(o.replies) <==> o.stop == Some(FrameStream.PeerClosed))
  {
    if frames != [] { RepliesShape(frames[..|frames| - 1]); }
  }

  /** The output entries of such replies. */
  lemma {:induction false} KindsShape(replies: seq<Frames.Frame>, n: nat)
    requires n <= |replies| && forall i :: 0 <= i < n ==> replies[i].opcode.Pong?
    ensures Kinds(replies[..n]) == seq(n, _ => PongOut)
  {
    if n > 0 {
      KindsShape(replies, n - 1);
      assert replies[..n][..n - 1] == replies[..n - 1];
    } else {
      assert replies[..0] == [];
    }
  }

  lemma {:induction false} KindsOfReplies(frames: seq<Frames.Frame>)
    ensures var replies := FrameStream.HandleAll(frames).replies;
      Kinds(replies) == seq(Pongs(replies), _ => PongOut) + (if Closes(replies) then [CloseReply] else [])
  {
    hide FrameStream.HandleAll;
    RepliesShape(frames);
    var replies := FrameStream.HandleAll(frames).replies;
    KindsShape(replies, Pongs(replies));
    if Closes(replies) {
      assert replies[..|replies| - 1] == replies[..Pongs(replies)];
    } else {
      assert replies[..|replies|] == replies;
    }
  }

  lemma {:induction false} PongsWritten(w: Worker, fd: Fd, n: nat)
    requires fd in w.sessions
    ensures var u := WritePongs(w, fd, n);
      fd in u.sessions && u.sessions[fd].written == w.sessions[fd].written + seq(n, _ => PongOut)
  {
    if n > 0 { PongsWritten(w, fd, n - 1); }
  }

  /** A readable session's output grows by exactly the replies to the frames handled, one entry each, in order. */
  lemma {:induction false} ReadableWrites(v: View, fd: Fd, frames: seq<Frames.Frame>, fate: Fate)
    requires fd in v.w.sessions && fd !in v.w.deadlines && !fate.Drop?
    ensures var replies := FrameStream.HandleAll(frames).replies;
      var u := Readable(v, fd, Pongs(replies), Closes(replies), fate);
      fd in u.w.sessions && u.w.sessions[fd].written == v.w.sessions[fd].written + Kinds(replies)
  {
    hide FrameStream.HandleAll, Kinds, WritePongs;
    KindsOfReplies(frames);
    PongsWritten(v.w, fd, Pongs(FrameStream.HandleAll(frames).replies));
  }

  class WebsocketWorker {
    const index: nat
    const pool: WebSocketPool
    var sessions: map<Fd, Session>
    var closing: set<Fd>
    var deadlines: map<Fd, int>
    var waiting: map<Fd, seq<CallId>>
    var remaining: map<CallId, nat>
    var completed: seq<CallId>
    ghost var ran: set<CallId>

    constructor (index: nat, pool: WebSocketPool)
      ensures this.index == index && this.pool == pool
      ensures sessions == map[] && closing == {} && deadlines == map[] && waiting == map[]
      ensures remaining == map[] && completed == [] && ran == {}
    {
      this.index, this.pool := index, pool;
      sessions, closing, deadlines, waiting := map[], {}, map[], map[];
      remaining, completed, ran := map[], [], {};
    }

    ghost function Now(): View
      reads this, pool
    {
      View(Worker(index, sessions, closing, deadlines, waiting, remaining, completed, ran), pool.online)
    }

    /** Session ids start at 1, so that id 0 matches no directory entry. */
    ghost predicate Valid()
      reads this, pool
    {
      forall d :: d in pool.online ==> pool.online[d].id >= 1
    }

    method RunCallbacks(calls: seq<CallId>)
      modifies this`remaining, this`completed
      ensures Tally(remaining, completed) == TellAll(Tally(old(remaining), old(completed)), calls)
    {
      ghost var t := Tally(remaining, completed);
      assert calls[..0] == [];
      for i := 0 to |calls|
        invariant Tally(remaining, completed) == TellAll(t, calls[..i])
      {
        assert calls[..i + 1][..i] == calls[..i];
        var c := calls[i];
        if c in remaining && remaining[c] > 0 {
          remaining := remaining[c := remaining[c] - 1];
          if remaining[c] == 0 {
            completed := completed + [c];
          }
        }
      }
      assert calls[..|calls|] == calls;
    }

    /** Forget a socket: directory entry, epoll registration, closing state, session, then the callbacks. */
    method RemoveSession(fd: Fd)
      requires Valid()
      modifies this, pool
      ensures Now() == Remove(old(Now()), fd) && Valid() && pool.accepting == old(pool.accepting)
    {
      hide TellAll;
      var id := 0;
      var device: Uuid := *; // left uninitialised when the socket is unknown
      if fd in sessions {
        id, device := sessions[fd].id, sessions[fd].device;
      }
      if id == 0 { assert WsWorker.RemoveIndex(pool.online, device, index, fd, 0) == pool.online; }
      pool.RemoveIndex(device, index, fd, id);
      closing := closing - {fd};
      sessions := sessions - {fd};
      deadlines := deadlines - {fd};
      var callbacks := if fd in waiting then waiting[fd] else [];
      assert callbacks == Waiters(old(Now()).w, fd);
      waiting := waiting - {fd};
      RunCallbacks(callbacks);
    }

    method WriteFrame(fd: Fd, o: Out)
      modifies this`sessions
      ensures Now() == View(Write(old(Now()).w, fd, o), old(pool.online))
    {
      if fd in sessions {
        sessions := sessions[fd := sessions[fd].(written := sessions[fd].written + [o])];
      }
    }

    /** Condemn one captured socket. */
    method CondemnSocket(fd: Fd, deadline: int, gone: bool)
      requires Valid()
      modifies this, pool
      ensures Now() == Condemn(old(Now()), fd, deadline, gone) && Valid() && pool.accepting == old(pool.accepting)
    {
      hide TellAll, Remove;
      if fd in deadlines { return; }
      deadlines := deadlines[fd := deadline];
      if fd !in closing {
        closing := closing + {fd};
        WriteFrame(fd, CloseRevoked);
      }
      if gone {
        RemoveSession(fd);
      }
    }

    /** Hang the call's callback on every captured socket. */
    method AddCallbacks(call: CallId, targets: seq<Fd>)
      modifies this`waiting
      ensures waiting == AddWaiters(old(waiting), targets, call)
    {
      ghost var m := waiting;
      assert targets[..0] == [];
      for i := 0 to |targets|
        invariant waiting == AddWaiters(m, targets[..i], call)
      {
        assert targets[..i + 1][..i] == targets[..i];
        var fd := targets[i];
        waiting := waiting[fd := (if fd in waiting then waiting[fd] else []) + [call]];
      }
      assert targets[..|targets|] == targets;
    }

    /** The body of a posted revocation; `keys` is the iteration order of the session map. */
    method RevokeDevice(call: CallId, user: Uuid, device: Uuid, keys: seq<Fd>, deadline: int, gone: set<Fd>)
      requires Valid() && IsOrder(keys, sessions.Keys)
      modifies this, pool
      ensures var v := old(Now());
        Now() == Revoke(v, call, user, device, TargetsOf(v.w, keys, user, device), deadline, gone)
      ensures Valid() && pool.accepting == old(pool.accepting)
    {
      hide Condemn, CondemnAll, IsOrder, TargetsOf, AddWaiters;
      ghost var v := Now();
      var targets := CollectTargets(user, device, keys);
      ghost var all := Targets(v.w, user, device);
      TargetsOfIsOrder(v.w, keys, user, device);
      OrderSize(targets, all);
      AddWaitersIsRegister(v.w, targets, all, call);
      hide Targets;
      assert targets == [] <==> all == {};
      ran := ran + {call};
      remaining := remaining[call := |targets|];
      if targets == [] {
        completed := completed + [call];
      }
      AddCallbacks(call, targets);
      assert Now() == View(Register(v.w, call, all), v.online);
      hide Register;
      CondemnTargets(targets, deadline, gone);
    }

    method CollectTargets(user: Uuid, device: Uuid, keys: seq<Fd>) returns (targets: seq<Fd>)
      requires IsOrder(keys, sessions.Keys)
      ensures targets == TargetsOf(Now().w, keys, user, device)
    {
      targets := [];
      for i := 0 to |keys|
        invariant targets == TargetsOf(Now().w, keys[..i], user, device)
      {
        assert keys[..i + 1][..i] == keys[..i];
        var fd := keys[i];
        assert fd in keys;
        if sessions[fd].user == user && sessions[fd].device == device {
          targets := targets + [fd];
        }
      }
      assert keys[..|keys|] == keys;
    }

    method CondemnTargets(targets: seq<Fd>, deadline: int, gone: set<Fd>)
      requires Valid()
      modifies this, pool
      ensures Now() == CondemnAll(old(Now()), targets, deadline, gone)
      ensures Valid() && pool.accepting == old(pool.accepting)
    {
      hide Condemn;
      ghost var v := Now();
      assert targets[..0] == [];
      for i := 0 to |targets|
        invariant Valid() && pool.accepting == old(pool.accepting)
        invariant Now() == CondemnAll(v, targets[..i], deadline, gone)
      {
        assert targets[..i + 1][..i] == targets[..i];
        CondemnSocket(targets[i], deadline, targets[i] in gone);
      }
      assert targets[..|targets|] == targets;
    }

    /** A push (device given) or a business reply, executed on this worker. */
    method DeliverMessage(fd: Fd, id: nat, device: Option<Uuid>, message: nat, failed: bool)
      requires Valid()
      modifies this, pool
      ensures Now() == Deliver(old(Now()), fd, id, device, message, failed) && Valid()
    {
      hide Remove;
      if fd !in sessions || fd in closing { return; }
      if sessions[fd].id != id || (device.Some? && sessions[fd].device != device.value) { return; }
      WriteFrame(fd, Data(id, message));
      if failed { RemoveSession(fd); }
    }

    /** Reading a socket through its connection: the replies and the end of the read loop decide what becomes of the
        session, and the business frames go to the dispatcher unless the session is gone by then. `fine` is how many of
        them it takes before it throws. */
    method HandleReadable(fd: Fd, connection: FrameStream.Connection, chunks: seq<seq<byte>>, end: FrameStream.ReadEnd,
                          lost: bool, fine: nat)
      returns (messages: seq<Frames.Frame>, performed: nat)
      requires Valid()
      modifies this, pool, connection
      ensures Valid()
      ensures fd in old(deadlines) || fd !in old(sessions) ==> Now() == old(Now()) && messages == []
      ensures fd in old(deadlines) || fd !in old(sessions) ==>
        performed == 0 && connection.input == old(connection.input) && connection.output == old(connection.output)
      ensures fd !in old(deadlines) && fd in old(sessions) ==>
        var o := FrameStream.Delivered(old(connection.input), chunks);
        var status := FrameStream.FinalStatus(old(connection.input), chunks, end);
        var taken := if fine < |o.frames| then o.frames[..fine] else o.frames;
        var fate := FateOf(status, o.replies != [], lost, fine < |o.frames|);
        && Now() == Readable(old(Now()), fd, Pongs(o.replies), Closes(o.replies), fate)
        && messages == (if o.replies != [] && lost then [] else taken)
        && connection.output == old(connection.output) + FrameStream.EncodeAll(o.replies)
        && FrameStream.Performs(old(connection.input), chunks, performed)
        && connection.input == FrameStream.InputAfter(old(connection.input), chunks[..performed])
    {
      hide Remove, Write, FrameStream.Delivered, FrameStream.FinalStatus, FrameStream.EncodeAll, FrameStream.Performs,
        FrameStream.InputAfter;
      messages, performed := [], 0;
      if fd in deadlines { return; }
      if fd !in sessions { return; }
      ghost var v := Now();
      var r;
      r, performed := FrameStream.HandleReadable(connection, chunks, end);
      assert Now() == v;
      RecordReplies(fd, Pongs(r.replies), Closes(r.replies));
      if r.replies != [] {
        if lost {
          RemoveSession(fd);
          return;
        }
      }
      if fine < |r.frames| { return r.frames[..fine], performed; }
      messages := r.frames;
      match r.status
      case MessagesReady =>
      case StillNeedMoreData =>
      case PeerClosed =>
        if r.replies != [] {
          closing := closing + {fd};
          return;
        }
        RemoveSession(fd);
      case ProtocolError => RemoveSession(fd);
      case IoError => RemoveSession(fd);
    }

    method RecordReplies(fd: Fd, pongs: nat, closeReply: bool)
      requires Valid()
      modifies this`sessions
      ensures Valid()
      ensures var w := WritePongs(old(Now()).w, fd, pongs);
        Now() == View(if closeReply then Write(w, fd, CloseReply) else w, old(pool.online))
    {
      hide Write;
      ghost var w := Now().w;
      for i := 0 to pongs
        invariant Valid() && Now() == View(WritePongs(w, fd, i), old(pool.online))
      {
        WriteFrame(fd, PongOut);
      }
      if closeReply { WriteFrame(fd, CloseReply); }
    }

    method HandleWritable(fd: Fd, flush: Flush)
      requires Valid()
      modifies this, pool
      ensures Now() == Writable(old(Now()), fd, flush) && Valid()
    {
      hide Remove;
      if fd !in sessions { return; }
      if flush == AllSent {
        if fd in closing { RemoveSession(fd); }
        return;
      }
      if flush == SomeSent || flush == SocketFull { return; }
      RemoveSession(fd);
    }

    /** Register a verified socket; `registers` is whether the event registration succeeds, without which the
        session is erased again. */
    method AcceptSession(fd: Fd, id: nat, user: Uuid, device: Uuid, registers: bool) returns (ok: bool)
      requires Valid() && id >= 1
      modifies this, pool
      ensures ok <==> fd !in old(sessions) && registers
      ensures Now() == if ok then Insert(old(Now()), fd, id, user, device, old(pool.accepting)) else old(Now())
      ensures Valid()
    {
      if fd in sessions { return false; }
      sessions := sessions[fd := Session(id, user, device, [])];
      if !registers {
        sessions := sessions - {fd};
        return false;
      }
      pool.AddIndex(device, user, index, fd, id);
      return true;
    }

    method RemoveEach(fds: seq<Fd>, only: set<Fd>)
      requires Valid()
      modifies this, pool
      ensures Now() == RemoveAll(old(Now()), fds, only) && Valid()
    {
      hide Remove;
      ghost var v := Now();
      assert fds[..0] == [];
      for i := 0 to |fds|
        invariant Valid() && Now() == RemoveAll(v, fds[..i], only)
      {
        assert fds[..i + 1][..i] == fds[..i];
        if fds[i] in only { RemoveSession(fds[i]); }
      }
      assert fds[..|fds|] == fds;
    }

    /** The scan of a timer tick: which sessions expired and which were sent a ping. */
    method ScanSessions(keys: seq<Fd>, k: Clock) returns (expired: seq<Fd>, pinged: seq<Fd>)
      modifies this`sessions
      ensures var v := old(Now());
        && expired == ExpiredOf(v.w, keys, k) && pinged == PingedOf(v.w, keys, k)
        && Now() == View(PingAll(v.w, pinged), v.online)
    {
      hide Write;
      expired, pinged := [], [];
      ghost var v := Now();
      assert keys[..0] == [];
      for i := 0 to |keys|
        invariant expired == ExpiredOf(v.w, keys[..i], k) && pinged == PingedOf(v.w, keys[..i], k)
        invariant Now() == View(PingAll(v.w, pinged), v.online)
      {
        assert keys[..i + 1][..i] == keys[..i];
        var fd := keys[i];
        if fd in deadlines {
          if k.now >= deadlines[fd] { expired := expired + [fd]; }
        } else if fd in k.late {
          expired := expired + [fd];
        } else if fd in k.due {
          ghost var before := pinged;
          WriteFrame(fd, PingOut);
          pinged := pinged + [fd];
          assert pinged[..|pinged| - 1] == before;
        }
      }
      assert keys[..|keys|] == keys;
    }

    method HandleTimer(keys: seq<Fd>, k: Clock, failed: set<Fd>)
      requires Valid()
      modifies this, pool
      ensures Now() == Timer(old(Now()), keys, k, failed) && Valid()
    {
      hide RemoveAll, PingAll, ExpiredOf, PingedOf;
      var expired, pinged := ScanSessions(keys, k);
      RemoveEach(expired, Elements(expired));
      RemoveEach(pinged, failed * sessions.Keys);
    }
  }
}
