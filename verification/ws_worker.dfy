/** One WebSocket worker: its sessions, the state of closing sockets and the
    online directory it shares with the pool. Everything here runs on the
    worker's own thread; socket results and clock readings are inputs. */
module WsWorker {
  import opened Bytes

  type Fd = nat
  type Uuid = nat
  type CallId = nat

  /** What has been appended to a session's output buffer. */
  datatype Out = Data(addressee: nat, message: nat) | PingOut | PongOut | CloseReply | CloseRevoked

  datatype Session = Session(id: nat, user: Uuid, device: Uuid, written: seq<Out>)

  datatype Online = Online(worker: nat, fd: Fd, id: nat, user: Uuid)

  type Directory = map<Uuid, Online>

  /** `waiting` holds, per socket, the revocation calls to tell when it is gone;
      `remaining` is each call's counter; `completed` lists the promises fulfilled, in order;
      `ran` is the calls whose task has run here. */
  datatype Worker = Worker(index: nat, sessions: map<Fd, Session>, closing: set<Fd>, deadlines: map<Fd, int>,
                           waiting: map<Fd, seq<CallId>>, remaining: map<CallId, nat>,
                           completed: seq<CallId>, ran: set<CallId>)

  datatype View = View(w: Worker, online: Directory)

  // ------------------------------------------------ the directory

  function RemoveIndex(online: Directory, device: Uuid, worker: nat, fd: Fd, id: nat): Directory {
    if device in online && online[device].worker == worker && online[device].fd == fd && online[device].id == id
    then online - {device} else online
  }

  // ------------------------------------------------ removing a session

  datatype Tally = Tally(remaining: map<CallId, nat>, completed: seq<CallId>)

  /** One completion callback. */
  function Tell(t: Tally, c: CallId): Tally {
    if c in t.remaining && t.remaining[c] > 0 then
      Tally(t.remaining[c := t.remaining[c] - 1], if t.remaining[c] == 1 then t.completed + [c] else t.completed)
    else t
  }

  function TellAll(t: Tally, calls: seq<CallId>): Tally {
    if calls == [] then t else Tell(TellAll(t, calls[..|calls| - 1]), calls[|calls| - 1])
  }

  function TallyOf(w: Worker): Tally { Tally(w.remaining, w.completed) }

  function Waiters(w: Worker, fd: Fd): seq<CallId> {
    if fd in w.waiting then w.waiting[fd] else []
  }

  /** removeSession: an unknown socket changes nothing, because session id 0 is never in the directory. */
  function Remove(v: View, fd: Fd): View {
    var w := v.w;
    var t := TellAll(TallyOf(w), Waiters(w, fd));
    View(w.(sessions := w.sessions - {fd}, closing := w.closing - {fd}, deadlines := w.deadlines - {fd},
            waiting := w.waiting - {fd}, remaining := t.remaining, completed := t.completed),
         if fd in w.sessions then RemoveIndex(v.online, w.sessions[fd].device, w.index, fd, w.sessions[fd].id)
         else v.online)
  }

  // ------------------------------------------------ invariants of one worker

  ghost predicate Unique(s: seq<CallId>) {
    forall i, j :: 0 <= i < j < |s| ==> s[i] != s[j]
  }

  /** The sockets a call still waits for. */
  function Pending(w: Worker, c: CallId): set<Fd> {
    set fd | fd in w.waiting && c in w.waiting[fd]
  }

  ghost predicate CallOk(w: Worker, c: CallId) {
    && (c in w.ran <==> c in w.remaining)
    && (c in w.remaining ==> w.remaining[c] == |Pending(w, c)|)
    && (c !in w.remaining ==> Pending(w, c) == {} && c !in w.completed)
    && (c in w.completed <==> c in w.remaining && w.remaining[c] == 0)
  }

  ghost predicate SessionOk(s: Session) {
    && s.id >= 1
    && forall i :: 0 <= i < |s.written| && s.written[i].Data? ==> s.written[i].addressee == s.id
  }

  /** The worker invariant, with `todo` the captured sockets a running revocation has yet to give a deadline. */
  ghost predicate Registering(w: Worker, todo: set<Fd>) {
    && w.deadlines.Keys <= w.closing <= w.sessions.Keys
    && w.waiting.Keys <= w.deadlines.Keys + todo && todo <= w.sessions.Keys
    && (forall fd :: fd in w.waiting ==> Unique(w.waiting[fd]))
    && (forall c :: CallOk(w, c)) && Unique(w.completed)
    && (forall fd :: fd in w.sessions ==> SessionOk(w.sessions[fd]))
  }

  /** Closing, deadline and completion state exists only for live sessions, every counter is the
      number of sockets still waited for, and a promise is fulfilled once, exactly at zero. */
  ghost predicate WorkerInv(w: Worker) { Registering(w, {}) }

  /** After the callbacks in `calls`: each named call is decremented once and completes exactly at zero. */
  lemma {:induction false} TellAllEffect(t: Tally, calls: seq<CallId>, c: CallId)
    requires Unique(calls) && Unique(t.completed)
    requires forall i :: 0 <= i < |calls| ==> calls[i] in t.remaining && t.remaining[calls[i]] >= 1
    requires forall x :: x in t.remaining && x in t.completed ==> t.remaining[x] == 0
    ensures var u := TellAll(t, calls);
      && u.remaining.Keys == t.remaining.Keys && Unique(u.completed)
      && (c in t.remaining ==> u.remaining[c] == t.remaining[c] - (if c in calls then 1 else 0))
      && (c in u.completed <==> c in t.completed || (c in calls && t.remaining[c] == 1))
  {
    if calls != [] {
      var front, last := calls[..|calls| - 1], calls[|calls| - 1];
      TellAllEffect(t, front, c);
      TellAllEffect(t, front, last);
      assert last !in front;
      assert calls == front + [last];
      assert last !in TellAll(t, front).completed;
    }
  }

  lemma {:induction false} PendingAfterRemove(w: Worker, w': Worker, fd: Fd, c: CallId)
    requires w'.waiting == w.waiting - {fd}
    ensures Pending(w', c) == Pending(w, c) - {fd}
    ensures fd in Pending(w, c) <==> c in Waiters(w, fd)
    ensures c in Waiters(w, fd) ==> |Pending(w', c)| == |Pending(w, c)| - 1
  {
  }

  lemma {:induction false} RemoveKeepsCall(v: View, fd: Fd, todo: set<Fd>, c: CallId)
    requires Registering(v.w, todo)
    ensures CallOk(Remove(v, fd).w, c) && Unique(Remove(v, fd).w.completed)
  {
    hide TellAll, Pending;
    var w, w' := v.w, Remove(v, fd).w;
    var calls := Waiters(w, fd);
    forall i | 0 <= i < |calls|
      ensures calls[i] in w.remaining && w.remaining[calls[i]] >= 1
    {
      PendingAfterRemove(w, w', fd, calls[i]);
      assert CallOk(w, calls[i]);
    }
    assert forall x :: x in w.remaining && x in w.completed ==> CallOk(w, x);
    TellAllEffect(TallyOf(w), calls, c);
    PendingAfterRemove(w, w', fd, c);
    assert CallOk(w, c);
  }

  lemma {:induction false} RemoveKeeps(v: View, fd: Fd, todo: set<Fd>)
    requires Registering(v.w, todo)
    ensures Registering(Remove(v, fd).w, todo - {fd})
  {
    hide CallOk, TellAll, SessionOk;
    forall c
      ensures CallOk(Remove(v, fd).w, c)
    {
      RemoveKeepsCall(v, fd, todo, c);
    }
    RemoveKeepsCall(v, fd, todo, 0);
  }

  // ------------------------------------------------ a revocation task

  function Targets(w: Worker, user: Uuid, device: Uuid): set<Fd> {
    set fd | fd in w.sessions && w.sessions[fd].user == user && w.sessions[fd].device == device
  }

  /** Register the call's callback on every captured socket. */
  function Register(w: Worker, c: CallId, targets: set<Fd>): Worker {
    w.(waiting := map fd | fd in w.waiting.Keys + targets ::
                    if fd in targets then Waiters(w, fd) + [c] else Waiters(w, fd),
       remaining := w.remaining[c := |targets|],
       completed := if targets == {} then w.completed + [c] else w.completed,
       ran := w.ran + {c})
  }

  function Write(w: Worker, fd: Fd, o: Out): Worker {
    if fd in w.sessions
    then w.(sessions := w.sessions[fd := w.sessions[fd].(written := w.sessions[fd].written + [o])])
    else w
  }

  /** Give one captured socket its deadline and Close frame; `gone` says that a socket call failed
      or that everything was flushed, so that the session is removed at once. A socket that already
      has a deadline keeps it. */
  function Condemn(v: View, fd: Fd, deadline: int, gone: bool): View {
    var w := v.w;
    if fd in w.deadlines then v
    else
      var w1 := w.(deadlines := w.deadlines[fd := deadline]);
      var w2 := if fd in w.closing then w1 else Write(w1.(closing := w1.closing + {fd}), fd, CloseRevoked);
      if gone then Remove(View(w2, v.online), fd) else View(w2, v.online)
  }

  function CondemnAll(v: View, order: seq<Fd>, deadline: int, gone: set<Fd>): View {
    if order == [] then v
    else
      var fd := order[|order| - 1];
      Condemn(CondemnAll(v, order[..|order| - 1], deadline, gone), fd, deadline, fd in gone)
  }

  function Elements(s: seq<Fd>): set<Fd> { set fd | fd in s }

  /** `order` is the iteration order of the session map over the captured sockets. */
  ghost predicate IsOrder(order: seq<Fd>, targets: set<Fd>) {
    (forall i, j :: 0 <= i < j < |order| ==> order[i] != order[j]) && forall fd :: fd in order <==> fd in targets
  }

  function Revoke(v: View, c: CallId, user: Uuid, device: Uuid, order: seq<Fd>, deadline: int, gone: set<Fd>): View {
    CondemnAll(View(Register(v.w, c, Targets(v.w, user, device)), v.online), order, deadline, gone)
  }

  lemma {:induction false} PendingAfterRegister(w: Worker, c: CallId, targets: set<Fd>, x: CallId)
    requires c !in w.ran && CallOk(w, c)
    ensures Pending(Register(w, c, targets), x) == if x == c then targets else Pending(w, x)
  {
    var w' := Register(w, c, targets);
    forall fd
      ensures fd in Pending(w', x) <==> fd in (if x == c then targets else Pending(w, x))
    {
      assert fd !in Pending(w, c);
    }
  }

  lemma {:induction false} NewCounter(w: Worker, w': Worker, c: CallId, targets: set<Fd>, x: CallId)
    requires c !in w.ran && CallOk(w, c) && CallOk(w, x)
    requires w'.remaining == w.remaining[c := |targets|] && w'.ran == w.ran + {c}
    requires w'.completed == if targets == {} then w.completed + [c] else w.completed
    requires Pending(w', x) == if x == c then targets else Pending(w, x)
    ensures CallOk(w', x)
  {
  }

  lemma {:induction false} RegisterKeepsCall(w: Worker, c: CallId, targets: set<Fd>, x: CallId)
    requires c !in w.ran && CallOk(w, c) && CallOk(w, x)
    ensures CallOk(Register(w, c, targets), x)
  {
    hide Pending, CallOk;
    PendingAfterRegister(w, c, targets, x);
    NewCounter(w, Register(w, c, targets), c, targets, x);
  }

  lemma {:induction false} RegisterKeepsUnique(w: Worker, c: CallId, targets: set<Fd>, fd: Fd)
    requires c !in w.ran && CallOk(w, c) && fd in w.waiting.Keys + targets
    requires fd in w.waiting ==> Unique(w.waiting[fd])
    ensures fd in Register(w, c, targets).waiting && Unique(Register(w, c, targets).waiting[fd])
  {
    NotWaiting(w, c, fd);
  }

  lemma {:induction false} RegisterKeeps(w: Worker, c: CallId, targets: set<Fd>)
    requires WorkerInv(w) && c !in w.ran && targets <= w.sessions.Keys
    ensures Registering(Register(w, c, targets), targets)
  {
    hide Pending, SessionOk, Unique;
    var w' := Register(w, c, targets);
    assert CallOk(w, c);
    forall x
      ensures CallOk(w', x)
    {
      assert CallOk(w, x);
      RegisterKeepsCall(w, c, targets, x);
    }
    assert c !in w.completed;
    UniqueAppend(w.completed, c);
    hide CallOk;
    forall fd | fd in w'.waiting
      ensures Unique(w'.waiting[fd])
    {
      RegisterKeepsUnique(w, c, targets, fd);
    }
  }

  lemma {:induction false} UniqueAppend(s: seq<CallId>, c: CallId)
    requires Unique(s) && c !in s
    ensures Unique(s + [c])
  {
  }

  lemma {:induction false} NotWaiting(w: Worker, c: CallId, fd: Fd)
    requires c !in w.ran && CallOk(w, c)
    ensures c !in Waiters(w, fd)
  {
    assert fd !in Pending(w, c);
  }

  lemma {:induction false} SameWaiting(w: Worker, w': Worker)
    requires forall c :: CallOk(w, c)
    requires w'.waiting == w.waiting && w'.remaining == w.remaining && w'.completed == w.completed && w'.ran == w.ran
    ensures forall c :: CallOk(w', c)
  {
    forall c
      ensures CallOk(w', c)
    {
      assert CallOk(w, c) && Pending(w', c) == Pending(w, c);
    }
  }

  lemma {:induction false} WriteOk(s: Session, o: Out)
    requires SessionOk(s) && (o.Data? ==> o.addressee == s.id)
    ensures SessionOk(s.(written := s.written + [o]))
  {
  }

  lemma {:induction false} CondemnKeeps(v: View, fd: Fd, deadline: int, gone: bool, todo: set<Fd>)
    requires Registering(v.w, todo) && fd in todo
    ensures Registering(Condemn(v, fd, deadline, gone).w, todo - {fd})
  {
    hide CallOk, SessionOk;
    var w := v.w;
    if fd !in w.deadlines {
      var w1 := w.(deadlines := w.deadlines[fd := deadline]);
      var w2 := if fd in w.closing then w1 else Write(w1.(closing := w1.closing + {fd}), fd, CloseRevoked);
      SameWaiting(w, w2);
      WriteOk(w.sessions[fd], CloseRevoked);
      assert Registering(w2, todo - {fd});
      if gone {
        RemoveKeeps(View(w2, v.online), fd, todo - {fd});
        assert todo - {fd} - {fd} == todo - {fd};
      }
    }
  }

  lemma {:induction false} CondemnAllKeeps(v: View, order: seq<Fd>, deadline: int, gone: set<Fd>, todo: set<Fd>)
    requires Registering(v.w, todo) && IsOrder(order, todo)
    ensures WorkerInv(CondemnAll(v, order, deadline, gone).w)
  {
    CondemnPrefix(v, order, deadline, gone, todo, |order|);
    assert order[..|order|] == order;
    assert todo - Elements(order) == {};
  }

  lemma {:induction false} CondemnPrefix(v: View, order: seq<Fd>, deadline: int, gone: set<Fd>, todo: set<Fd>, k: nat)
    requires Registering(v.w, todo) && IsOrder(order, todo) && k <= |order|
    ensures Registering(CondemnAll(v, order[..k], deadline, gone).w, todo - Elements(order[..k]))
  {
    hide Registering, Condemn;
    if k == 0 {
      assert todo - Elements(order[..0]) == todo;
    } else {
      CondemnPrefix(v, order, deadline, gone, todo, k - 1);
      assert order[..k][..k - 1] == order[..k - 1];
      assert order[..k] == order[..k - 1] + [order[k - 1]];
      var before := todo - Elements(order[..k - 1]);
      assert order[k - 1] in before;
      CondemnKeeps(CondemnAll(v, order[..k - 1], deadline, gone), order[k - 1], deadline, order[k - 1] in gone, before);
      assert before - {order[k - 1]} == todo - Elements(order[..k]);
    }
  }

  lemma {:induction false} RevokeKeeps(v: View, c: CallId, user: Uuid, device: Uuid, order: seq<Fd>, deadline: int,
                                       gone: set<Fd>)
    requires WorkerInv(v.w) && c !in v.w.ran && IsOrder(order, Targets(v.w, user, device))
    ensures WorkerInv(Revoke(v, c, user, device, order, deadline, gone).w)
  {
    var targets := Targets(v.w, user, device);
    RegisterKeeps(v.w, c, targets);
    CondemnAllKeeps(View(Register(v.w, c, targets), v.online), order, deadline, gone, targets);
  }

  // ------------------------------------------------ the other operations

  /** The last step of a handshake; `indexed` is false once the pool is stopping. */
  function Insert(v: View, fd: Fd, id: nat, user: Uuid, device: Uuid, indexed: bool): View {
    View(v.w.(sessions := v.w.sessions[fd := Session(id, user, device, [])]),
         if indexed then v.online[device := Online(v.w.index, fd, id, user)] else v.online)
  }

  /** A push (which also checks the device) or a business reply, run on the worker. */
  function Deliver(v: View, fd: Fd, id: nat, device: Option<Uuid>, message: nat, failed: bool): View {
    var w := v.w;
    if fd !in w.sessions || fd in w.closing || w.sessions[fd].id != id
       || (device.Some? && w.sessions[fd].device != device.value)
    then v
    else
      var v1 := View(Write(w, fd, Data(id, message)), v.online);
      if failed then Remove(v1, fd) else v1
  }

  datatype Fate = KeepOpen | AwaitFlush | Drop

  function WritePongs(w: Worker, fd: Fd, pongs: nat): Worker {
    if pongs == 0 then w else Write(WritePongs(w, fd, pongs - 1), fd, PongOut)
  }

  /** Reading a socket: control frames may queue replies; a revoked session is no longer read. */
  function Readable(v: View, fd: Fd, pongs: nat, closeReply: bool, fate: Fate): View {
    var w := v.w;
    if fd in w.deadlines || fd !in w.sessions then v
    else
      var w1 := WritePongs(w, fd, pongs);
      var w2 := if closeReply then Write(w1, fd, CloseReply) else w1;
      match fate
      case KeepOpen => View(w2, v.online)
      case AwaitFlush => View(w2.(closing := w2.closing + {fd}), v.online)
      case Drop => Remove(View(w2, v.online), fd)
  }

  datatype Flush = AllSent | SomeSent | SocketFull | Broken

  function Writable(v: View, fd: Fd, flush: Flush): View {
    if fd !in v.w.sessions then v
    else match flush
      case AllSent => if fd in v.w.closing then Remove(v, fd) else v
      case Broken => Remove(v, fd)
      case _ => v
  }

  /** The timer's clock readings: which sessions missed their pong and which are due a ping. */
  datatype Clock = Clock(now: int, late: set<Fd>, due: set<Fd>)

  predicate Expired(w: Worker, fd: Fd, k: Clock) {
    if fd in w.deadlines then k.now >= w.deadlines[fd] else fd in k.late
  }

  predicate NeedsPing(w: Worker, fd: Fd, k: Clock) {
    fd !in w.deadlines && fd !in k.late && fd in k.due
  }

  function ExpiredOf(w: Worker, order: seq<Fd>, k: Clock): (r: seq<Fd>) {
    if order == [] then []
    else
      var rest, fd := ExpiredOf(w, order[..|order| - 1], k), order[|order| - 1];
      if Expired(w, fd, k) then rest + [fd] else rest
  }

  function PingedOf(w: Worker, order: seq<Fd>, k: Clock): (r: seq<Fd>) {
    if order == [] then []
    else
      var rest, fd := PingedOf(w, order[..|order| - 1], k), order[|order| - 1];
      if NeedsPing(w, fd, k) then rest + [fd] else rest
  }

  function PingAll(w: Worker, fds: seq<Fd>): Worker {
    if fds == [] then w else Write(PingAll(w, fds[..|fds| - 1]), fds[|fds| - 1], PingOut)
  }

  function RemoveAll(v: View, fds: seq<Fd>, only: set<Fd>): View {
    if fds == [] then v
    else
      var u, fd := RemoveAll(v, fds[..|fds| - 1], only), fds[|fds| - 1];
      if fd in only then Remove(u, fd) else u
  }

  /** `failed` is the sockets whose event registration fails. */
  function Timer(v: View, order: seq<Fd>, k: Clock, failed: set<Fd>): View {
    var expired, pinged := ExpiredOf(v.w, order, k), PingedOf(v.w, order, k);
    var u := RemoveAll(View(PingAll(v.w, pinged), v.online), expired, Elements(expired));
    RemoveAll(u, pinged, failed * u.w.sessions.Keys)
  }

  // ------------------------------------------------ what every operation keeps

  /** The directory entries of this worker name live sessions. */
  ghost predicate Indexed(v: View) {
    forall d :: d in v.online && v.online[d].worker == v.w.index ==>
      var o := v.online[d];
      && o.fd in v.w.sessions && v.w.sessions[o.fd].id == o.id
      && v.w.sessions[o.fd].device == d && v.w.sessions[o.fd].user == o.user
  }

  ghost predicate SameIdentity(a: Session, b: Session) { a.id == b.id && a.user == b.user && a.device == b.device }

  /** Output `b` continues output `a` with control frames only. */
  ghost predicate OnlyControl(a: seq<Out>, b: seq<Out>) {
    a <= b && forall k :: |a| <= k < |b| ==> !b[k].Data?
  }

  /** Sessions only disappear; a condemned session keeps its deadline and its output, a closing one stays closing and
      gains control frames only; waiters stay. */
  ghost predicate SocketEvolves(w: Worker, w': Worker, fd: Fd) {
    fd in w'.sessions ==>
      && fd in w.sessions && SameIdentity(w.sessions[fd], w'.sessions[fd])
      && (fd in w.deadlines ==>
            fd in w'.deadlines && w'.deadlines[fd] == w.deadlines[fd] && w'.sessions[fd] == w.sessions[fd])
      && (fd in w.closing ==> fd in w'.closing && OnlyControl(w.sessions[fd].written, w'.sessions[fd].written))
      && (forall c :: c in Waiters(w, fd) ==> c in Waiters(w', fd))
  }

  /** `ran` is the calls whose task ran meanwhile. */
  ghost predicate Evolves(v: View, u: View, ran: set<CallId>) {
    && u.w.index == v.w.index && u.w.ran == v.w.ran + ran
    && (forall c :: c in v.w.completed ==> c in u.w.completed)
    && (forall fd :: SocketEvolves(v.w, u.w, fd))
    && (forall d :: d in u.online ==> d in v.online && u.online[d] == v.online[d])
    && (Indexed(v) ==> Indexed(u))
  }

  lemma {:induction false} EvolvesTransitive(a: View, b: View, c: View, ran: set<CallId>)
    requires Evolves(a, b, ran) && Evolves(b, c, {})
    ensures Evolves(a, c, ran)
  {
    hide Indexed;
    forall fd
      ensures SocketEvolves(a.w, c.w, fd)
    {
      assert SocketEvolves(a.w, b.w, fd) && SocketEvolves(b.w, c.w, fd);
    }
  }

  lemma {:induction false} EvolvesReflexive(v: View)
    ensures Evolves(v, v, {})
  {
  }

  lemma {:induction false} RemoveEvolves(v: View, fd: Fd)
    ensures Evolves(v, Remove(v, fd), {}) && fd !in Remove(v, fd).w.sessions
  {
    hide TellAll;
    forall c | c in v.w.completed
      ensures c in Remove(v, fd).w.completed
    {
      TellAllKeeps(TallyOf(v.w), Waiters(v.w, fd), c);
    }
  }

  lemma {:induction false} TellAllKeeps(t: Tally, calls: seq<CallId>, c: CallId)
    requires c in t.completed
    ensures c in TellAll(t, calls).completed
  {
    if calls != [] { TellAllKeeps(t, calls[..|calls| - 1], c); }
  }

  lemma {:induction false} WriteEvolves(v: View, fd: Fd, o: Out)
    requires fd !in v.w.deadlines && (o.Data? ==> fd !in v.w.closing)
    ensures Evolves(v, View(Write(v.w, fd, o), v.online), {})
  {
  }

  lemma {:induction false} WriteKeeps(w: Worker, fd: Fd, o: Out, todo: set<Fd>)
    requires Registering(w, todo)
    requires o.Data? && fd in w.sessions ==> o.addressee == w.sessions[fd].id
    ensures Registering(Write(w, fd, o), todo)
  {
    hide CallOk, SessionOk;
    SameWaiting(w, Write(w, fd, o));
    if fd in w.sessions { WriteOk(w.sessions[fd], o); }
  }

  /** What a run of operations on one worker establishes. */
  ghost predicate Good(v: View, u: View) { WorkerInv(u.w) && Evolves(v, u, {}) }

  lemma {:induction false} GoodRemove(v: View, u: View, fd: Fd)
    requires Good(v, u)
    ensures Good(v, Remove(u, fd))
  {
    hide Registering, Evolves;
    RemoveKeeps(u, fd, {});
    assert {} - {fd} == {};
    RemoveEvolves(u, fd);
    EvolvesTransitive(v, u, Remove(u, fd), {});
  }

  lemma {:induction false} GoodWrite(v: View, u: View, fd: Fd, o: Out)
    requires Good(v, u) && fd !in u.w.deadlines
    requires o.Data? ==> fd !in u.w.closing && (fd in u.w.sessions ==> o.addressee == u.w.sessions[fd].id)
    ensures Good(v, View(Write(u.w, fd, o), u.online))
  {
    hide Registering, Evolves;
    WriteKeeps(u.w, fd, o, {});
    WriteEvolves(u, fd, o);
    EvolvesTransitive(v, u, View(Write(u.w, fd, o), u.online), {});
  }

  lemma {:induction false} GoodStart(v: View)
    requires WorkerInv(v.w)
    ensures Good(v, v)
  {
  }

  lemma {:induction false} DeliverGood(v: View, fd: Fd, id: nat, device: Option<Uuid>, message: nat, failed: bool)
    requires WorkerInv(v.w)
    ensures Good(v, Deliver(v, fd, id, device, message, failed))
  {
    hide Evolves, CallOk, SessionOk;
    GoodStart(v);
    if Deliver(v, fd, id, device, message, failed) != v {
      GoodWrite(v, v, fd, Data(id, message));
      GoodRemove(v, View(Write(v.w, fd, Data(id, message)), v.online), fd);
    }
  }

  lemma {:induction false} PongsGood(v: View, fd: Fd, pongs: nat)
    requires WorkerInv(v.w) && fd !in v.w.deadlines
    ensures var w := WritePongs(v.w, fd, pongs);
      Good(v, View(w, v.online)) && w.deadlines == v.w.deadlines && w.sessions.Keys == v.w.sessions.Keys
  {
    hide Good, Registering;
    GoodStart(v);
    if pongs > 0 {
      PongsGood(v, fd, pongs - 1);
      GoodWrite(v, View(WritePongs(v.w, fd, pongs - 1), v.online), fd, PongOut);
    }
  }

  lemma {:induction false} ClosingGood(v: View, u: View, fd: Fd)
    requires Good(v, u) && fd in u.w.sessions
    ensures Good(v, View(u.w.(closing := u.w.closing + {fd}), u.online))
  {
    hide CallOk, SessionOk;
    var x := View(u.w.(closing := u.w.closing + {fd}), u.online);
    SameWaiting(u.w, x.w);
    assert Evolves(u, x, {});
    EvolvesTransitive(v, u, x, {});
  }

  lemma {:induction false} ReadableGood(v: View, fd: Fd, pongs: nat, closeReply: bool, fate: Fate)
    requires WorkerInv(v.w)
    ensures Good(v, Readable(v, fd, pongs, closeReply, fate))
  {
    hide Good, Registering;
    GoodStart(v);
    if fd !in v.w.deadlines && fd in v.w.sessions {
      PongsGood(v, fd, pongs);
      var w1 := WritePongs(v.w, fd, pongs);
      if closeReply { GoodWrite(v, View(w1, v.online), fd, CloseReply); }
      var w2 := if closeReply then Write(w1, fd, CloseReply) else w1;
      match fate
      case KeepOpen =>
      case AwaitFlush => ClosingGood(v, View(w2, v.online), fd);
      case Drop => GoodRemove(v, View(w2, v.online), fd);
    }
  }

  lemma {:induction false} WritableGood(v: View, fd: Fd, flush: Flush)
    requires WorkerInv(v.w)
    ensures Good(v, Writable(v, fd, flush))
  {
    hide Good, Registering;
    GoodStart(v);
    GoodRemove(v, v, fd);
  }

  lemma {:induction false} RemoveAllGood(v: View, u: View, fds: seq<Fd>, only: set<Fd>)
    requires Good(v, u)
    ensures Good(v, RemoveAll(u, fds, only))
    ensures forall fd :: fd in RemoveAll(u, fds, only).w.sessions ==> fd in u.w.sessions && (fd in fds ==> fd !in only)
  {
    hide Good;
    if fds != [] {
      var front, last := fds[..|fds| - 1], fds[|fds| - 1];
      RemoveAllGood(v, u, front, only);
      var x := RemoveAll(u, front, only);
      if last in only { GoodRemove(v, x, last); }
      assert fds == front + [last];
    }
  }

  lemma {:induction false} PingAllGood(v: View, fds: seq<Fd>)
    requires WorkerInv(v.w) && forall i :: 0 <= i < |fds| ==> fds[i] !in v.w.deadlines
    ensures var w := PingAll(v.w, fds);
      Good(v, View(w, v.online)) && w.deadlines == v.w.deadlines && w.sessions.Keys == v.w.sessions.Keys
  {
    hide Good, Registering;
    GoodStart(v);
    if fds != [] {
      PingAllGood(v, fds[..|fds| - 1]);
      GoodWrite(v, View(PingAll(v.w, fds[..|fds| - 1]), v.online), fds[|fds| - 1], PingOut);
    }
  }

  lemma {:induction false} PingedAreFree(w: Worker, order: seq<Fd>, k: Clock)
    ensures forall i :: 0 <= i < |PingedOf(w, order, k)| ==> PingedOf(w, order, k)[i] !in w.deadlines
  {
    if order != [] { PingedAreFree(w, order[..|order| - 1], k); }
  }

  lemma {:induction false} ExpiredMembers(w: Worker, order: seq<Fd>, k: Clock, fd: Fd)
    ensures fd in ExpiredOf(w, order, k) <==> fd in order && Expired(w, fd, k)
  {
    if order != [] {
      ExpiredMembers(w, order[..|order| - 1], k, fd);
      assert order == order[..|order| - 1] + [order[|order| - 1]];
    }
  }

  /** A timer tick keeps everything, and no session outlives its deadline past one. */
  lemma {:induction false} TimerGood(v: View, order: seq<Fd>, k: Clock, failed: set<Fd>)
    requires WorkerInv(v.w) && IsOrder(order, v.w.sessions.Keys)
    ensures Good(v, Timer(v, order, k, failed))
    ensures forall fd :: fd in Timer(v, order, k, failed).w.sessions ==> fd in v.w.sessions && !Expired(v.w, fd, k)
  {
    hide Good, Registering, Expired;
    var expired, pinged := ExpiredOf(v.w, order, k), PingedOf(v.w, order, k);
    PingedAreFree(v.w, order, k);
    PingAllGood(v, pinged);
    var p := View(PingAll(v.w, pinged), v.online);
    RemoveAllGood(v, p, expired, Elements(expired));
    var u := RemoveAll(p, expired, Elements(expired));
    RemoveAllGood(v, u, pinged, failed * u.w.sessions.Keys);
    forall fd | fd in Timer(v, order, k, failed).w.sessions
      ensures fd in v.w.sessions && !Expired(v.w, fd, k)
    {
      ExpiredMembers(v.w, order, k, fd);
    }
  }

  lemma {:induction false} RemoveAllDeadlines(v: View, fds: seq<Fd>, only: set<Fd>)
    ensures RemoveAll(v, fds, only).w.deadlines.Keys <= v.w.deadlines.Keys
  {
    hide TellAll;
    if fds != [] { RemoveAllDeadlines(v, fds[..|fds| - 1], only); }
  }

  lemma {:induction false} TimerDeadlines(v: View, order: seq<Fd>, k: Clock, failed: set<Fd>)
    requires WorkerInv(v.w)
    ensures Timer(v, order, k, failed).w.deadlines.Keys <= v.w.deadlines.Keys
  {
    hide Good, RemoveAll, PingAll, Registering;
    var expired, pinged := ExpiredOf(v.w, order, k), PingedOf(v.w, order, k);
    PingedAreFree(v.w, order, k);
    PingAllGood(v, pinged);
    var p := View(PingAll(v.w, pinged), v.online);
    RemoveAllDeadlines(p, expired, Elements(expired));
    var u := RemoveAll(p, expired, Elements(expired));
    RemoveAllDeadlines(u, pinged, failed * u.w.sessions.Keys);
  }

  /** Progress: a tick at or past every deadline leaves no captured socket, so every revocation whose task ran is
      complete. */
  lemma {:induction false} TimerCompletes(v: View, order: seq<Fd>, k: Clock, failed: set<Fd>)
    requires WorkerInv(v.w) && IsOrder(order, v.w.sessions.Keys)
    requires forall fd :: fd in v.w.deadlines ==> k.now >= v.w.deadlines[fd]
    ensures forall c :: c in v.w.ran ==> c in Timer(v, order, k, failed).w.completed
  {
    hide Timer;
    TimerGood(v, order, k, failed);
    TimerDeadlines(v, order, k, failed);
    var w := Timer(v, order, k, failed).w;
    forall fd | fd in w.sessions
      ensures fd !in v.w.deadlines
    {
      assert !Expired(v.w, fd, k);
    }
    assert w.deadlines.Keys == {} && w.waiting.Keys == {};
    forall c | c in v.w.ran
      ensures c in w.completed
    {
      assert CallOk(w, c) && Pending(w, c) == {};
    }
  }

  // ------------------------------------------------ what a revocation task does

  lemma {:induction false} RegisterEvolves(v: View, c: CallId, targets: set<Fd>)
    ensures Evolves(v, View(Register(v.w, c, targets), v.online), {c})
  {
  }

  lemma {:induction false} CondemnEvolves(v: View, fd: Fd, deadline: int, gone: bool)
    ensures Evolves(v, Condemn(v, fd, deadline, gone), {})
  {
    hide TellAll;
    var w := v.w;
    EvolvesReflexive(v);
    if fd !in w.deadlines {
      var w1 := w.(deadlines := w.deadlines[fd := deadline]);
      var w2 := if fd in w.closing then w1 else Write(w1.(closing := w1.closing + {fd}), fd, CloseRevoked);
      assert Evolves(v, View(w2, v.online), {});
      RemoveEvolves(View(w2, v.online), fd);
      EvolvesTransitive(v, View(w2, v.online), Remove(View(w2, v.online), fd), {});
    }
  }

  lemma {:induction false} CondemnAllEvolves(v: View, order: seq<Fd>, deadline: int, gone: set<Fd>)
    ensures Evolves(v, CondemnAll(v, order, deadline, gone), {})
  {
    hide Evolves, Condemn;
    EvolvesReflexive(v);
    if order != [] {
      var u, fd := CondemnAll(v, order[..|order| - 1], deadline, gone), order[|order| - 1];
      CondemnAllEvolves(v, order[..|order| - 1], deadline, gone);
      CondemnEvolves(u, fd, deadline, fd in gone);
      EvolvesTransitive(v, u, Condemn(u, fd, deadline, fd in gone), {});
    }
  }

  lemma {:induction false} RevokeGood(v: View, c: CallId, user: Uuid, device: Uuid, order: seq<Fd>, deadline: int,
                                      gone: set<Fd>)
    requires WorkerInv(v.w) && c !in v.w.ran && IsOrder(order, Targets(v.w, user, device))
    ensures var u := Revoke(v, c, user, device, order, deadline, gone); WorkerInv(u.w) && Evolves(v, u, {c})
  {
    hide Evolves, Registering;
    var targets := Targets(v.w, user, device);
    var r := View(Register(v.w, c, targets), v.online);
    RevokeKeeps(v, c, user, device, order, deadline, gone);
    RegisterEvolves(v, c, targets);
    CondemnAllEvolves(r, order, deadline, gone);
    EvolvesTransitive(v, r, CondemnAll(r, order, deadline, gone), {c});
  }

  /** Every matching session that is still there waits for the call, and it ran. */
  lemma {:induction false} RevokeCaptures(v: View, c: CallId, user: Uuid, device: Uuid, order: seq<Fd>,
                                          deadline: int, gone: set<Fd>)
    ensures var u := Revoke(v, c, user, device, order, deadline, gone);
      c in u.w.ran && forall fd :: fd in Targets(u.w, user, device) ==> c in Waiters(u.w, fd)
  {
    hide CondemnAll;
    var targets := Targets(v.w, user, device);
    var r := View(Register(v.w, c, targets), v.online);
    var u := CondemnAll(r, order, deadline, gone);
    CondemnAllEvolves(r, order, deadline, gone);
    forall fd | fd in Targets(u.w, user, device)
      ensures c in Waiters(u.w, fd)
    {
      assert SocketEvolves(r.w, u.w, fd);
      assert fd in targets;
    }
  }

  lemma {:induction false} CondemnOutput(v: View, fd: Fd, deadline: int, gone: bool, x: Fd)
    requires x in v.w.sessions && x in Condemn(v, fd, deadline, gone).w.sessions
    ensures var u := Condemn(v, fd, deadline, gone);
      var a, b := v.w.sessions[x].written, u.w.sessions[x].written;
      if x == fd && x !in v.w.deadlines && x !in v.w.closing then b == a + [CloseRevoked] && x in u.w.deadlines
      else b == a
  {
    hide TellAll;
  }

  /** A revocation adds at most its one Close frame to a session, and nothing if the session already
      had a deadline, which is then kept. */
  lemma {:induction false} CondemnAllOutput(v: View, order: seq<Fd>, deadline: int, gone: set<Fd>, x: Fd)
    requires x in CondemnAll(v, order, deadline, gone).w.sessions
    ensures x in v.w.sessions
    ensures var u := CondemnAll(v, order, deadline, gone);
      var a, b := v.w.sessions[x].written, u.w.sessions[x].written;
      && (b == a || (b == a + [CloseRevoked] && x in u.w.deadlines))
      && (x in v.w.deadlines ==> b == a && x in u.w.deadlines && u.w.deadlines[x] == v.w.deadlines[x])
  {
    hide Condemn, CondemnAll;
    CondemnAllEvolves(v, order, deadline, gone);
    assert SocketEvolves(v.w, CondemnAll(v, order, deadline, gone).w, x);
    if order != [] {
      CondemnLast(v, order, deadline, gone);
      var u, fd := CondemnAll(v, order[..|order| - 1], deadline, gone), order[|order| - 1];
      CondemnEvolves(u, fd, deadline, fd in gone);
      assert SocketEvolves(u.w, Condemn(u, fd, deadline, fd in gone).w, x);
      CondemnAllOutput(v, order[..|order| - 1], deadline, gone, x);
      CondemnOutput(u, fd, deadline, fd in gone, x);
    } else {
      CondemnLast(v, order, deadline, gone);
    }
  }

  lemma {:induction false} CondemnLast(v: View, order: seq<Fd>, deadline: int, gone: set<Fd>)
    ensures order == [] ==> CondemnAll(v, order, deadline, gone) == v
    ensures order != [] ==>
      var u, fd := CondemnAll(v, order[..|order| - 1], deadline, gone), order[|order| - 1];
      CondemnAll(v, order, deadline, gone) == Condemn(u, fd, deadline, fd in gone)
  {
  }
}
