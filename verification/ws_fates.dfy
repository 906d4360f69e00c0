/** What each operation of a worker does to every single session: which sessions it removes, which it leaves alone, and
    what it writes to those that stay. */
module WsFates {
  import opened Bytes
  import opened WsWorker
  import FrameStream
  import WsWorkerObject

  /** A socket that an operation leaves exactly as it was. */
  ghost predicate Untouched(v: View, u: View, fd: Fd) {
    && (fd in u.w.sessions <==> fd in v.w.sessions)
    && (fd in v.w.sessions ==> u.w.sessions[fd] == v.w.sessions[fd])
    && (fd in u.w.closing <==> fd in v.w.closing)
    && (fd in u.w.deadlines <==> fd in v.w.deadlines)
    && (fd in v.w.deadlines ==> u.w.deadlines[fd] == v.w.deadlines[fd])
  }

  // ------------------------------------------------ removal and the directory

  /** Removing a session forgets that socket and no other. */
  lemma {:induction false} RemoveFate(v: View, x: Fd, fd: Fd)
    ensures var u := Remove(v, x);
      && (fd == x ==> fd !in u.w.sessions && fd !in u.w.closing && fd !in u.w.deadlines && fd !in u.w.waiting)
      && (fd != x ==> Untouched(v, u, fd) && Waiters(u.w, fd) == Waiters(v.w, fd))
  {
    hide TellAll;
  }

  /** The directory loses the entry of exactly that session: an entry of another device, or of a newer session of the
      same device on any worker or socket, stays. */
  lemma {:induction false} RemoveIndexFate(v: View, x: Fd, d: Uuid)
    requires d in v.online
    ensures d in Remove(v, x).online ==> Remove(v, x).online[d] == v.online[d]
    ensures d !in Remove(v, x).online <==>
      x in v.w.sessions && v.w.sessions[x].device == d && v.online[d].worker == v.w.index && v.online[d].fd == x
      && v.online[d].id == v.w.sessions[x].id
  {
    hide TellAll;
  }

  /** A handshake adds exactly its session, with nothing written, and its directory entry unless the pool is
      stopping. */
  lemma InsertFate(v: View, x: Fd, id: nat, user: Uuid, device: Uuid, indexed: bool, fd: Fd, d: Uuid)
    ensures var u := Insert(v, x, id, user, device, indexed);
      && x in u.w.sessions && u.w.sessions[x] == Session(id, user, device, [])
      && (fd != x ==> Untouched(v, u, fd))
      && (indexed ==> device in u.online && u.online[device] == Online(v.w.index, x, id, user))
      && (!indexed || d != device ==> (d in u.online <==> d in v.online))
      && (!indexed || d != device ==> (d in v.online ==> u.online[d] == v.online[d]))
  {
  }

  // ------------------------------------------------ revocation

  lemma {:induction false} CondemnFate(v: View, x: Fd, deadline: int, gone: bool, fd: Fd)
    requires x in v.w.sessions
    ensures var u := Condemn(v, x, deadline, gone);
      && (fd != x || x in v.w.deadlines ==> Untouched(v, u, fd))
      && (fd == x && x !in v.w.deadlines ==> Condemned(v, u, x, deadline, gone))
  {
    hide TellAll;
  }

  /** The fate of a session a revocation finds without a deadline: removed if its socket was flushed or failed, else
      closing under the deadline, with the Close frame unless one was already on its way. */
  ghost predicate Condemned(v: View, u: View, fd: Fd, deadline: int, gone: bool)
    requires fd in v.w.sessions
  {
    && (fd in u.w.sessions <==> !gone)
    && (!gone ==>
          && fd in u.w.closing && fd in u.w.deadlines && u.w.deadlines[fd] == deadline
          && u.w.sessions[fd].written == v.w.sessions[fd].written + (if fd in v.w.closing then [] else [CloseRevoked])
          && SameIdentity(u.w.sessions[fd], v.w.sessions[fd]))
  }

  lemma {:induction false} CondemnAllFate(v: View, order: seq<Fd>, deadline: int, gone: set<Fd>, fd: Fd)
    requires forall i, j :: 0 <= i < j < |order| ==> order[i] != order[j]
    requires forall i :: 0 <= i < |order| ==> order[i] in v.w.sessions
    ensures var u := CondemnAll(v, order, deadline, gone);
      && (fd !in order || fd in v.w.deadlines ==> Untouched(v, u, fd))
      && (fd in order && fd !in v.w.deadlines ==> Condemned(v, u, fd, deadline, fd in gone))
  {
    hide Condemn, Condemned, Untouched, CondemnAll;
    CondemnLast(v, order, deadline, gone);
    if order == [] {
      UntouchedSame(v, fd);
    } else {
      var front, x := order[..|order| - 1], order[|order| - 1];
      assert order == front + [x] && x !in front;
      var m := CondemnAll(v, front, deadline, gone);
      CondemnAllFate(v, front, deadline, gone, fd);
      CondemnAllFate(v, front, deadline, gone, x);
      StillThere(v, m, x);
      CondemnFate(m, x, deadline, x in gone, fd);
      FateAfter(v, m, Condemn(m, x, deadline, x in gone), x, deadline, gone, fd, front);
    }
  }

  lemma {:induction false} UntouchedSame(v: View, fd: Fd)
    ensures Untouched(v, v, fd)
  {
  }

  lemma {:induction false} StillThere(v: View, m: View, x: Fd)
    requires Untouched(v, m, x) && x in v.w.sessions
    ensures x in m.w.sessions
  {
  }

  lemma {:induction false} FateAfter(v: View, m: View, u: View, x: Fd, deadline: int, gone: set<Fd>, fd: Fd,
                                     front: seq<Fd>)
    requires x in m.w.sessions && x in v.w.sessions && x !in front && Untouched(v, m, x)
    requires forall i :: 0 <= i < |front| ==> front[i] in v.w.sessions
    requires fd !in front || fd in v.w.deadlines ==> Untouched(v, m, fd)
    requires fd in front && fd !in v.w.deadlines ==> Condemned(v, m, fd, deadline, fd in gone)
    requires fd != x || x in m.w.deadlines ==> Untouched(m, u, fd)
    requires fd == x && x !in m.w.deadlines ==> Condemned(m, u, x, deadline, x in gone)
    ensures fd !in front + [x] || fd in v.w.deadlines ==> Untouched(v, u, fd)
    ensures fd in front + [x] && fd !in v.w.deadlines ==> Condemned(v, u, fd, deadline, fd in gone)
  {
  }

  /** A revocation, session by session: one of that user and device without a deadline is removed exactly if its socket
      was flushed or failed at once, and otherwise is closing until the deadline; one already under a deadline and every
      session of another user or device is left exactly as it was. */
  lemma {:induction false} RevokeFate(v: View, c: CallId, user: Uuid, device: Uuid, order: seq<Fd>, deadline: int,
                                      gone: set<Fd>, fd: Fd)
    requires IsOrder(order, Targets(v.w, user, device)) && fd in v.w.sessions
    ensures var u, s := Revoke(v, c, user, device, order, deadline, gone), v.w.sessions[fd];
      if s.user == user && s.device == device && fd !in v.w.deadlines then Condemned(v, u, fd, deadline, fd in gone)
      else Untouched(v, u, fd)
  {
    hide CondemnAll, Condemned, Untouched;
    var r := View(Register(v.w, c, Targets(v.w, user, device)), v.online);
    forall i | 0 <= i < |order|
      ensures order[i] in r.w.sessions
    {
      assert order[i] in Targets(v.w, user, device);
    }
    CondemnAllFate(r, order, deadline, gone, fd);
    SameSockets(v, r, CondemnAll(r, order, deadline, gone), fd, deadline, fd in gone);
  }

  lemma {:induction false} SameSockets(v: View, r: View, u: View, fd: Fd, deadline: int, gone: bool)
    requires r.w.sessions == v.w.sessions && r.w.closing == v.w.closing && r.w.deadlines == v.w.deadlines
    ensures Untouched(r, u, fd) ==> Untouched(v, u, fd)
    ensures fd in v.w.sessions && Condemned(r, u, fd, deadline, gone) ==> Condemned(v, u, fd, deadline, gone)
  {
  }

  /** So the call is complete at once exactly if every session of that user and device was new to revocation and its
      socket was flushed or failed at once; in particular if there was none. */
  lemma {:induction false} RevokeCompletes(v: View, c: CallId, user: Uuid, device: Uuid, order: seq<Fd>, deadline: int,
                                           gone: set<Fd>)
    requires WorkerInv(v.w) && c !in v.w.ran && IsOrder(order, Targets(v.w, user, device))
    ensures c in Revoke(v, c, user, device, order, deadline, gone).w.completed <==>
      forall fd :: fd in Targets(v.w, user, device) ==> fd !in v.w.deadlines && fd in gone
  {
    hide Revoke;
    var u := Revoke(v, c, user, device, order, deadline, gone);
    RevokeGood(v, c, user, device, order, deadline, gone);
    RevokeCaptures(v, c, user, device, order, deadline, gone);
    assert CallOk(u.w, c);
    forall fd
      ensures fd in Pending(u.w, c) <==> fd in Targets(v.w, user, device) && (fd in v.w.deadlines || fd !in gone)
    {
      PendingAfterRevoke(v, c, user, device, order, deadline, gone, fd);
    }
    if c in u.w.completed {
      assert |Pending(u.w, c)| == 0;
    } else {
      assert |Pending(u.w, c)| > 0;
    }
  }

  lemma {:induction false} PendingAfterRevoke(v: View, c: CallId, user: Uuid, device: Uuid, order: seq<Fd>,
                                              deadline: int, gone: set<Fd>, fd: Fd)
    requires WorkerInv(v.w) && c !in v.w.ran && IsOrder(order, Targets(v.w, user, device))
    ensures var u := Revoke(v, c, user, device, order, deadline, gone);
      fd in Pending(u.w, c) <==> fd in Targets(v.w, user, device) && (fd in v.w.deadlines || fd !in gone)
  {
    hide Revoke, Registering, Evolves;
    var u := Revoke(v, c, user, device, order, deadline, gone);
    if fd in Targets(v.w, user, device) {
      RevokeGood(v, c, user, device, order, deadline, gone);
      RevokeCaptures(v, c, user, device, order, deadline, gone);
      RevokeFate(v, c, user, device, order, deadline, gone, fd);
      WaitersLive(u.w, fd);
      SameOwner(v, u, fd, c, user, device, deadline, gone);
    } else {
      OthersNotPending(v, c, user, device, order, deadline, gone, fd);
    }
  }

  lemma {:induction false} SameOwner(v: View, u: View, fd: Fd, c: CallId, user: Uuid, device: Uuid, deadline: int,
                                     gone: set<Fd>)
    requires fd in Targets(v.w, user, device)
    requires if fd !in v.w.deadlines then Condemned(v, u, fd, deadline, fd in gone) else Untouched(v, u, fd)
    requires forall x :: x in Targets(u.w, user, device) ==> c in Waiters(u.w, x)
    requires fd in u.w.waiting ==> fd in u.w.sessions
    ensures fd in Pending(u.w, c) <==> fd in v.w.deadlines || fd !in gone
  {
    if fd in u.w.sessions { assert fd in Targets(u.w, user, device); }
  }

  lemma {:induction false} WaitersLive(w: Worker, fd: Fd)
    requires WorkerInv(w)
    ensures fd in w.waiting ==> fd in w.sessions
  {
  }

  lemma {:induction false} OthersNotPending(v: View, c: CallId, user: Uuid, device: Uuid, order: seq<Fd>, deadline: int,
                                            gone: set<Fd>, fd: Fd)
    requires WorkerInv(v.w) && c !in v.w.ran && fd !in Targets(v.w, user, device)
    ensures fd !in Pending(Revoke(v, c, user, device, order, deadline, gone).w, c)
  {
    hide CondemnAll, Targets;
    assert CallOk(v.w, c);
    hide CallOk, Registering;
    var r := View(Register(v.w, c, Targets(v.w, user, device)), v.online);
    WaitersShrink(r, order, deadline, gone, fd, c);
    NotWaiting(v.w, c, fd);
  }

  lemma {:induction false} WaitersShrink(v: View, order: seq<Fd>, deadline: int, gone: set<Fd>, fd: Fd, c: CallId)
    ensures c in Waiters(CondemnAll(v, order, deadline, gone).w, fd) ==> c in Waiters(v.w, fd)
  {
    hide TellAll;
    if order != [] { WaitersShrink(v, order[..|order| - 1], deadline, gone, fd, c); }
  }

  // ------------------------------------------------ reading, writing, timer, delivery

  /** Reading a socket that is not under a deadline: it is removed exactly on `Drop`, becomes closing exactly on
      `AwaitFlush`, and no other socket is touched. */
  lemma {:induction false} ReadableFate(v: View, x: Fd, pongs: nat, closeReply: bool, fate: Fate, fd: Fd)
    ensures var u := Readable(v, x, pongs, closeReply, fate);
      && (fd != x || x in v.w.deadlines || x !in v.w.sessions ==> Untouched(v, u, fd))
      && (fd == x && x !in v.w.deadlines && x in v.w.sessions ==>
            && (x in u.w.sessions <==> !fate.Drop?)
            && (x in u.w.closing <==> !fate.Drop? && (x in v.w.closing || fate.AwaitFlush?))
            && (x in u.w.sessions ==> SameIdentity(u.w.sessions[x], v.w.sessions[x])))
  {
    hide TellAll, WritePongs;
    PongsElsewhere(v.w, x, pongs, fd);
  }

  lemma {:induction false} PongsElsewhere(w: Worker, x: Fd, n: nat, fd: Fd)
    ensures var u := WritePongs(w, x, n);
      && u.sessions.Keys == w.sessions.Keys && u.closing == w.closing && u.deadlines == w.deadlines
      && (fd in w.sessions ==> SameIdentity(u.sessions[fd], w.sessions[fd]))
      && (fd in w.sessions && fd != x ==> u.sessions[fd] == w.sessions[fd])
  {
    if n > 0 { PongsElsewhere(w, x, n - 1, fd); }
  }

  /** After a flush a session is gone exactly if the socket broke, or everything was sent and it was closing. */
  lemma {:induction false} WritableFate(v: View, x: Fd, flush: Flush, fd: Fd)
    requires x in v.w.sessions
    ensures var u := Writable(v, x, flush);
      if fd == x && (flush == Broken || (flush == AllSent && x in v.w.closing)) then fd !in u.w.sessions
      else Untouched(v, u, fd)
  {
    hide TellAll;
  }

  /** A push or reply is written exactly to the session with that id (and device) if it is not closing; a failed event
      registration then removes it; no other socket is touched. */
  lemma {:induction false} DeliverFate(v: View, x: Fd, id: nat, device: Option<Uuid>, m: nat, failed: bool, fd: Fd)
    ensures var u := Deliver(v, x, id, device, m, failed);
      if fd == x && x in v.w.sessions && x !in v.w.closing && v.w.sessions[x].id == id
         && (device == None || device == Some(v.w.sessions[x].device))
      then if failed then fd !in u.w.sessions
           else fd in u.w.sessions && u.w.sessions[fd].written == v.w.sessions[fd].written + [Data(id, m)]
      else Untouched(v, u, fd)
  {
    hide TellAll;
  }

  /** A timer tick, session by session: one under a deadline goes exactly when the deadline has come, another exactly
      when its pong is late or its ping could not be registered; one that stays gains a ping exactly if it is due. */
  lemma {:induction false} TimerFate(v: View, order: seq<Fd>, k: Clock, failed: set<Fd>, fd: Fd)
    requires IsOrder(order, v.w.sessions.Keys) && fd in v.w.sessions
    ensures var u := Timer(v, order, k, failed);
      var due := fd !in v.w.deadlines && fd !in k.late && fd in k.due;
      && (fd !in u.w.sessions <==>
            if fd in v.w.deadlines then k.now >= v.w.deadlines[fd] else fd in k.late || (due && fd in failed))
      && (fd in u.w.sessions ==>
            u.w.sessions[fd].written == v.w.sessions[fd].written + (if due then [PingOut] else []))
  {
    hide RemoveAll, PingAll, ExpiredOf, PingedOf;
    var expired, pinged := ExpiredOf(v.w, order, k), PingedOf(v.w, order, k);
    ExpiredMembers(v.w, order, k, fd);
    PingedMembers(v.w, order, k, fd);
    PingedOnce(v.w, order, k);
    PingAllFate(v.w, pinged, fd);
    var p := View(PingAll(v.w, pinged), v.online);
    var u := RemoveAll(p, expired, Elements(expired));
    RemoveAllFate(p, expired, Elements(expired), fd);
    RemoveAllFate(u, pinged, failed * u.w.sessions.Keys, fd);
  }

  lemma {:induction false} PingedMembers(w: Worker, order: seq<Fd>, k: Clock, fd: Fd)
    ensures fd in PingedOf(w, order, k) <==> fd in order && NeedsPing(w, fd, k)
  {
    if order != [] {
      PingedMembers(w, order[..|order| - 1], k, fd);
      assert order == order[..|order| - 1] + [order[|order| - 1]];
    }
  }

  lemma {:induction false} PingedOnce(w: Worker, order: seq<Fd>, k: Clock)
    requires forall i, j :: 0 <= i < j < |order| ==> order[i] != order[j]
    ensures var r := PingedOf(w, order, k); forall i, j :: 0 <= i < j < |r| ==> r[i] != r[j]
  {
    if order != [] {
      var front, last := order[..|order| - 1], order[|order| - 1];
      PingedOnce(w, front, k);
      PingedMembers(w, front, k, last);
      assert last !in front;
      assert last !in PingedOf(w, front, k);
    }
  }

  lemma {:induction false} PingAllFate(w: Worker, fds: seq<Fd>, fd: Fd)
    requires forall i, j :: 0 <= i < j < |fds| ==> fds[i] != fds[j]
    ensures var u := PingAll(w, fds);
      && u.sessions.Keys == w.sessions.Keys
      && (fd in w.sessions ==>
            u.sessions[fd].written == w.sessions[fd].written + (if fd in fds then [PingOut] else []))
  {
    if fds != [] {
      var front, last := fds[..|fds| - 1], fds[|fds| - 1];
      PingAllFate(w, front, fd);
      assert fds == front + [last] && last !in front;
    }
  }

  lemma {:induction false} RemoveAllFate(v: View, fds: seq<Fd>, only: set<Fd>, fd: Fd)
    ensures var u := RemoveAll(v, fds, only);
      && (fd in u.w.sessions <==> fd in v.w.sessions && !(fd in fds && fd in only))
      && (fd in u.w.sessions ==> u.w.sessions[fd] == v.w.sessions[fd])
  {
    hide TellAll;
    if fds != [] {
      RemoveAllFate(v, fds[..|fds| - 1], only, fd);
      assert fds == fds[..|fds| - 1] + [fds[|fds| - 1]];
    }
  }

  /** What ends a session after a read: a broken or malformed stream, a close without anything to answer, or a failed
      registration of the answer. After messages, or while more data is needed, it survives and is not marked. */
  lemma FateMeans(status: FrameStream.Status, queued: bool, lost: bool, thrown: bool)
    ensures var fate := WsWorkerObject.FateOf(status, queued, lost, thrown);
      && (fate == Drop <==>
            || (queued && lost)
            || (!thrown && (status == FrameStream.ProtocolError || status == FrameStream.IoError))
            || (!thrown && status == FrameStream.PeerClosed && !queued))
      && (fate == AwaitFlush <==> queued && !lost && !thrown && status == FrameStream.PeerClosed)
  {
  }
}
