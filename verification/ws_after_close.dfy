/** Data after a Close. A Close reply alone does not keep pushes and replies away from a session: the worker marks the
    socket as closing only at the end of a read, and an exception in the dispatch of an earlier frame skips that. This
    module gives the run and, for every reachable state, the exact condition under which data can still follow. */
module WsAfterClose {
  import opened Bytes
  import opened WsWorker
  import opened WsSystem

  /** A push or reply that the worker would write to the session. */
  predicate Addressed(t: Task, fd: Fd, session: Session) {
    match t
    case RevokeTask(_, _, _) => false
    case PushTask(f, id, device, _) => f == fd && id == session.id && device == session.device
    case ReplyTask(f, id, _) => f == fd && id == session.id
  }

  predicate Revokes(t: Task, session: Session) {
    t.RevokeTask? && t.user == session.user && t.device == session.device
  }

  /** A revocation of the session is queued ahead of every push and reply to it. */
  ghost predicate Doomed(tasks: seq<Task>, fd: Fd, session: Session) {
    exists r :: DoomedBy(tasks, r, fd, session)
  }

  ghost predicate DoomedBy(tasks: seq<Task>, r: int, fd: Fd, session: Session) {
    && 0 <= r < |tasks| && Revokes(tasks[r], session)
    && forall k :: 0 <= k < r ==> !Addressed(tasks[k], fd, session)
  }

  // ------------------------------------------------ steps that write no data

  lemma {:induction false} PongsControl(w: Worker, f: Fd, n: nat, fd: Fd)
    requires fd in w.sessions
    ensures var u := WritePongs(w, f, n);
      fd in u.sessions && OnlyControl(w.sessions[fd].written, u.sessions[fd].written)
  {
    if n > 0 { PongsControl(w, f, n - 1, fd); }
  }

  lemma {:induction false} PingsControl(w: Worker, fds: seq<Fd>, fd: Fd)
    requires fd in w.sessions
    ensures var u := PingAll(w, fds); fd in u.sessions && OnlyControl(w.sessions[fd].written, u.sessions[fd].written)
  {
    if fds != [] { PingsControl(w, fds[..|fds| - 1], fd); }
  }

  lemma {:induction false} RemoveAllSame(v: View, fds: seq<Fd>, only: set<Fd>, fd: Fd)
    requires fd in RemoveAll(v, fds, only).w.sessions
    ensures fd in v.w.sessions && RemoveAll(v, fds, only).w.sessions[fd] == v.w.sessions[fd]
  {
    hide TellAll;
    if fds != [] { RemoveAllSame(v, fds[..|fds| - 1], only, fd); }
  }

  lemma {:induction false} TimerControl(v: View, order: seq<Fd>, k: Clock, failed: set<Fd>, fd: Fd)
    requires fd in v.w.sessions && fd in Timer(v, order, k, failed).w.sessions
    ensures OnlyControl(v.w.sessions[fd].written, Timer(v, order, k, failed).w.sessions[fd].written)
  {
    hide RemoveAll, PingAll, ExpiredOf, PingedOf, OnlyControl;
    var expired, pinged := ExpiredOf(v.w, order, k), PingedOf(v.w, order, k);
    PingsControl(v.w, pinged, fd);
    var p := View(PingAll(v.w, pinged), v.online);
    var u := RemoveAll(p, expired, Elements(expired));
    RemoveAllSame(u, pinged, failed * u.w.sessions.Keys, fd);
    RemoveAllSame(p, expired, Elements(expired), fd);
  }

  lemma {:induction false} ReadableControl(v: View, f: Fd, pongs: nat, closeReply: bool, fate: Fate, fd: Fd)
    requires fd in v.w.sessions && fd in Readable(v, f, pongs, closeReply, fate).w.sessions
    ensures OnlyControl(v.w.sessions[fd].written, Readable(v, f, pongs, closeReply, fate).w.sessions[fd].written)
  {
    hide TellAll, WritePongs;
    PongsControl(v.w, f, pongs, fd);
  }

  lemma {:induction false} DeliverControl(v: View, f: Fd, id: nat, device: Option<Uuid>, m: nat, failed: bool, fd: Fd)
    requires fd in v.w.sessions && fd in Deliver(v, f, id, device, m, failed).w.sessions
    requires !(f == fd && id == v.w.sessions[fd].id && (device.Some? ==> device.value == v.w.sessions[fd].device))
    ensures Deliver(v, f, id, device, m, failed).w.sessions[fd] == v.w.sessions[fd]
  {
    hide TellAll;
  }

  lemma {:induction false} RevokeControl(v: View, c: CallId, user: Uuid, device: Uuid, order: seq<Fd>, deadline: int,
                                         gone: set<Fd>, fd: Fd)
    requires fd in v.w.sessions && fd in Revoke(v, c, user, device, order, deadline, gone).w.sessions
    ensures var u := Revoke(v, c, user, device, order, deadline, gone);
      OnlyControl(v.w.sessions[fd].written, u.w.sessions[fd].written)
  {
    hide CondemnAll;
    CondemnAllOutput(View(Register(v.w, c, Targets(v.w, user, device)), v.online), order, deadline, gone, fd);
  }

  /** A worker step that does not run a task addressed to the session adds control frames to it at most. */
  lemma {:induction false} LocalControl(v: View, tasks: seq<Task>, step: Step, fd: Fd)
    requires OnWorker(step) && (step.RunTask? ==> tasks != []) && fd in v.w.sessions
    requires fd in LocalStep(v, tasks, step).w.sessions
    requires step.RunTask? ==> !Addressed(tasks[0], fd, v.w.sessions[fd])
    ensures OnlyControl(v.w.sessions[fd].written, LocalStep(v, tasks, step).w.sessions[fd].written)
  {
    hide Revoke, Deliver, Readable, Timer, OnlyControl, TellAll;
    SameControl(v.w.sessions[fd].written);
    match step
    case RunTask(_, order, deadline, gone) =>
      match tasks[0] {
        case RevokeTask(c, u, d) => RevokeControl(v, c, u, d, order, deadline, gone, fd);
        case PushTask(f, id, d, m) => DeliverControl(v, f, id, Some(d), m, f in gone, fd);
        case ReplyTask(f, id, m) => DeliverControl(v, f, id, None, m, f in gone, fd);
      }
    case ReadSocket(_, f, pongs, closeReply, fate) => ReadableControl(v, f, pongs, closeReply, fate, fd);
    case WriteSocket(_, f, flush) =>
    case HangUp(_, f) =>
    case Tick(_, order, clock, failed) => TimerControl(v, order, clock, failed, fd);
  }

  lemma {:induction false} SameControl(a: seq<Out>)
    ensures OnlyControl(a, a)
  {
  }

  // ------------------------------------------------ no data any more

  /** Seen from a session as it was: it is gone, or it has gained control frames only and no data can reach it. */
  ghost predicate Mute(s: State, i: nat, fd: Fd, session: Session) {
    && i < |s.procs| && session.id < s.nextId
    && var p := s.procs[i];
       fd in p.worker.sessions && p.worker.sessions[fd].id == session.id ==>
         && SameIdentity(session, p.worker.sessions[fd])
         && OnlyControl(session.written, p.worker.sessions[fd].written)
         && (fd in p.worker.closing || Doomed(p.tasks, fd, session))
  }

  /** Once a revocation's task has run, a session it was for is closing. */
  lemma {:induction false} RevokedCloses(s: State, step: Step, fd: Fd)
    requires Inv(s) && step.RunTask? && Enabled(s, step) && s.procs[step.i].tasks[0].RevokeTask?
    requires var t := s.procs[step.i].tasks[0];
      fd in Targets(LocalStep(ViewOf(s, step.i), s.procs[step.i].tasks, step).w, t.user, t.device)
    ensures fd in LocalStep(ViewOf(s, step.i), s.procs[step.i].tasks, step).w.closing
  {
    hide Revoke, Inv, Enabled, Apply;
    ApplyOnWorker(s, step);
    ProcOfInv(s, step.i);
    LocalStepGood(s, step);
    var t := s.procs[step.i].tasks[0];
    RevokeCaptures(ViewOf(s, step.i), t.call, t.user, t.device, step.order, step.deadline, step.gone);
  }

  lemma {:induction false} DoomedGrows(tasks: seq<Task>, more: seq<Task>, fd: Fd, session: Session)
    requires Doomed(tasks, fd, session) && tasks <= more
    ensures Doomed(more, fd, session)
  {
    var r :| DoomedBy(tasks, r, fd, session);
    assert DoomedBy(more, r, fd, session);
  }

  lemma {:induction false} DoomedHead(tasks: seq<Task>, fd: Fd, session: Session)
    requires tasks != []
    ensures Doomed(tasks, fd, session) <==>
      Revokes(tasks[0], session) || (!Addressed(tasks[0], fd, session) && Doomed(tasks[1..], fd, session))
  {
    if Doomed(tasks, fd, session) {
      var r :| DoomedBy(tasks, r, fd, session);
      if r > 0 { assert DoomedBy(tasks[1..], r - 1, fd, session); }
    }
    if Revokes(tasks[0], session) {
      assert DoomedBy(tasks, 0, fd, session);
    } else if !Addressed(tasks[0], fd, session) && Doomed(tasks[1..], fd, session) {
      var rest := tasks[1..];
      var r :| DoomedBy(rest, r, fd, session);
      forall k | 0 <= k < r + 1
        ensures !Addressed(tasks[k], fd, session)
      {
        if k > 0 { assert rest[k - 1] == tasks[k]; }
      }
      assert DoomedBy(tasks, r + 1, fd, session);
    }
  }

  /** The session's own worker takes a step. */
  lemma {:induction false} MuteOwn(s: State, step: Step, fd: Fd, session: Session)
    requires Inv(s) && OnWorker(step) && Enabled(s, step) && Mute(s, step.i, fd, session)
    ensures Mute(Apply(s, step), step.i, fd, session)
  {
    hide Inv, Enabled, Apply, LocalStep, OnlyControl, Doomed;
    var i := step.i;
    ApplyOnWorker(s, step);
    WorkerStepSockets(s, step, i, fd);
    var p, v := s.procs[i], ViewOf(s, i);
    var u := LocalStep(v, p.tasks, step);
    if fd in u.w.sessions && u.w.sessions[fd].id == session.id {
      var a, b := v.w.sessions[fd].written, u.w.sessions[fd].written;
      if fd in v.w.closing {
        ControlAfterControl(session.written, a, b);
      } else {
        MuteStep(p.tasks, step, fd, v.w.sessions[fd], session);
        LocalControl(v, p.tasks, step, fd);
        ControlAfterControl(session.written, a, b);
        if step.RunTask? {
          DoomedHead(p.tasks, fd, session);
          if Revokes(p.tasks[0], session) { RevokedCloses(s, step, fd); }
        }
      }
    }
  }

  lemma {:induction false} MuteStep(tasks: seq<Task>, step: Step, fd: Fd, now: Session, session: Session)
    requires Doomed(tasks, fd, session) && SameIdentity(session, now) && (step.RunTask? ==> tasks != [])
    ensures step.RunTask? ==> !Addressed(tasks[0], fd, now)
  {
    if step.RunTask? { DoomedHead(tasks, fd, session); }
  }

  lemma {:induction false} MuteNext(s: State, step: Step, i: nat, fd: Fd, session: Session)
    requires Inv(s) && Mute(s, i, fd, session)
    ensures Mute(Next(s, step), i, fd, session)
  {
    hide Inv, Enabled, Apply, LocalStep, OnlyControl, Doomed;
    if Enabled(s, step) {
      if OnWorker(step) {
        ApplyOnWorker(s, step);
        if step.i == i { MuteOwn(s, step, fd, session); }
      } else if step.FinishHandshake? {
        HandshakeStep(s, step, i, fd);
      } else {
        OutsideStep(s, step, i);
        if Doomed(s.procs[i].tasks, fd, session) {
          DoomedGrows(s.procs[i].tasks, Apply(s, step).procs[i].tasks, fd, session);
        }
      }
    }
  }

  lemma {:induction false} MuteStays(workers: nat, steps: seq<Step>, more: seq<Step>, i: nat, fd: Fd, session: Session)
    requires Mute(Run(workers, steps), i, fd, session)
    ensures Mute(Run(workers, steps + more), i, fd, session)
  {
    hide Inv, Next, Mute;
    if more == [] {
      assert steps + more == steps;
    } else {
      var front, last := more[..|more| - 1], more[|more| - 1];
      MuteStays(workers, steps, front, i, fd, session);
      assert (steps + more)[..|steps + more| - 1] == steps + front;
      RunKeeps(workers, steps + front);
      MuteNext(Run(workers, steps + front), last, i, fd, session);
    }
  }

  // ------------------------------------------------ data can follow

  /** `more` writes a push or reply to the session. */
  ghost predicate AddsData(workers: nat, steps: seq<Step>, more: seq<Step>, i: nat, fd: Fd)
    requires i < |Run(workers, steps).procs| && fd in Run(workers, steps).procs[i].worker.sessions
  {
    var session, after := Run(workers, steps).procs[i].worker.sessions[fd], Run(workers, steps + more);
    && i < |after.procs| && fd in after.procs[i].worker.sessions && after.procs[i].worker.sessions[fd].id == session.id
    && HasData(after.procs[i].worker.sessions[fd].written, |session.written|)
  }

  ghost predicate HasData(written: seq<Out>, from: nat) {
    exists k :: from <= k < |written| && written[k].Data?
  }

  lemma {:induction false} OrderOf(fds: set<Fd>) returns (order: seq<Fd>)
    ensures IsOrder(order, fds)
  {
    if fds == {} {
      order := [];
    } else {
      var fd :| fd in fds;
      var rest := OrderOf(fds - {fd});
      order := rest + [fd];
    }
  }

  lemma {:induction false} CondemnOthers(v: View, order: seq<Fd>, deadline: int, fd: Fd)
    requires fd !in order && fd in v.w.sessions
    ensures var u := CondemnAll(v, order, deadline, {});
      fd in u.w.sessions && u.w.sessions[fd] == v.w.sessions[fd] && (fd in u.w.closing <==> fd in v.w.closing)
  {
    if order != [] { CondemnOthers(v, order[..|order| - 1], deadline, fd); }
  }

  /** Running a head task that is neither addressed to the session nor revokes it leaves the session as it is. */
  lemma {:induction false} HeadPasses(v: View, tasks: seq<Task>, i: nat, fd: Fd) returns (order: seq<Fd>)
    requires tasks != [] && fd in v.w.sessions
    requires !Addressed(tasks[0], fd, v.w.sessions[fd]) && !Revokes(tasks[0], v.w.sessions[fd])
    ensures tasks[0].RevokeTask? ==> IsOrder(order, Targets(v.w, tasks[0].user, tasks[0].device))
    ensures var u := LocalStep(v, tasks, RunTask(i, order, 0, {}));
      fd in u.w.sessions && u.w.sessions[fd] == v.w.sessions[fd] && (fd in u.w.closing <==> fd in v.w.closing)
  {
    hide CondemnAll;
    order := [];
    if tasks[0].RevokeTask? {
      var t := tasks[0];
      order := OrderOf(Targets(v.w, t.user, t.device));
      CondemnOthers(View(Register(v.w, t.call, Targets(v.w, t.user, t.device)), v.online), order, 0, fd);
    }
  }

  /** Running a task addressed to the session writes its data, unless the session is closing. */
  lemma {:induction false} HeadDelivers(v: View, tasks: seq<Task>, i: nat, fd: Fd)
    requires tasks != [] && fd in v.w.sessions && fd !in v.w.closing && Addressed(tasks[0], fd, v.w.sessions[fd])
    ensures var u, n := LocalStep(v, tasks, RunTask(i, [], 0, {})), |v.w.sessions[fd].written|;
      && fd in u.w.sessions && u.w.sessions[fd].id == v.w.sessions[fd].id
      && |u.w.sessions[fd].written| == n + 1 && u.w.sessions[fd].written[n].Data?
  {
  }

  lemma {:induction false} ConsumesHead(workers: nat, steps: seq<Step>, step: Step)
    requires step.RunTask? && Enabled(Run(workers, steps), step)
    ensures var s := Run(workers, steps); var p := s.procs[step.i];
      var after := Run(workers, steps + [step]);
      && step.i < |after.procs| && after.procs[step.i].handshake == p.handshake
      && after.procs[step.i].tasks == p.tasks[1..]
      && after.procs[step.i].worker == LocalStep(ViewOf(s, step.i), p.tasks, step).w
  {
    hide LocalStep, Apply, Enabled, Run;
    OneMore(workers, steps, step);
    ApplyOnWorker(Run(workers, steps), step);
  }

  lemma {:induction false} RunEnabled(s: State, i: nat, order: seq<Fd>)
    requires i < |s.procs| && s.procs[i].handshake.NoHandshake? && s.procs[i].tasks != []
    requires var t := s.procs[i].tasks[0];
      t.RevokeTask? ==> IsOrder(order, Targets(s.procs[i].worker, t.user, t.device))
    ensures Enabled(s, RunTask(i, order, 0, {}))
  {
  }

  lemma {:induction false} LaterAdds(workers: nat, steps: seq<Step>, first: seq<Step>, more: seq<Step>, i: nat, fd: Fd)
    requires i < |Run(workers, steps).procs| && fd in Run(workers, steps).procs[i].worker.sessions
    requires i < |Run(workers, steps + first).procs| && fd in Run(workers, steps + first).procs[i].worker.sessions
    requires var a, b := Run(workers, steps).procs[i].worker, Run(workers, steps + first).procs[i].worker;
      a.sessions[fd].id == b.sessions[fd].id && |a.sessions[fd].written| <= |b.sessions[fd].written|
    requires AddsData(workers, steps + first, more, i, fd)
    ensures AddsData(workers, steps, first + more, i, fd)
  {
    hide Run;
    assert steps + (first + more) == steps + first + more;
  }

  /** A task addressed to the session is next. */
  lemma {:induction false} NextDelivers(workers: nat, steps: seq<Step>, i: nat, fd: Fd)
    requires i < |Run(workers, steps).procs|
    requires var p := Run(workers, steps).procs[i];
      && p.handshake.NoHandshake? && fd in p.worker.sessions && fd !in p.worker.closing
      && p.tasks != [] && Addressed(p.tasks[0], fd, p.worker.sessions[fd])
    ensures AddsData(workers, steps, [RunTask(i, [], 0, {})], i, fd)
  {
    hide Run, LocalStep, Enabled;
    var s := Run(workers, steps);
    RunEnabled(s, i, []);
    ConsumesHead(workers, steps, RunTask(i, [], 0, {}));
    HeadDelivers(ViewOf(s, i), s.procs[i].tasks, i, fd);
    var n := |s.procs[i].worker.sessions[fd].written|;
    assert Run(workers, steps + [RunTask(i, [], 0, {})]).procs[i].worker.sessions[fd].written[n].Data?;
  }

  lemma {:induction false} DataFollows(workers: nat, steps: seq<Step>, i: nat, fd: Fd) returns (more: seq<Step>)
    requires i < |Run(workers, steps).procs|
    requires var p := Run(workers, steps).procs[i];
      && p.handshake.NoHandshake? && fd in p.worker.sessions && fd !in p.worker.closing
      && !Doomed(p.tasks, fd, p.worker.sessions[fd])
    ensures AddsData(workers, steps, more, i, fd)
    decreases |Run(workers, steps).procs[i].tasks|
  {
    hide Run, LocalStep, Enabled, Doomed, AddsData;
    var s := Run(workers, steps);
    var p := s.procs[i];
    var session := p.worker.sessions[fd];
    if p.tasks == [] {
      var reply := BusinessReply(i, fd, session.id, 0);
      Replied(workers, steps, i, fd);
      NextDelivers(workers, steps + [reply], i, fd);
      LaterAdds(workers, steps, [reply], [RunTask(i, [], 0, {})], i, fd);
      more := [reply] + [RunTask(i, [], 0, {})];
    } else if Addressed(p.tasks[0], fd, session) {
      NextDelivers(workers, steps, i, fd);
      more := [RunTask(i, [], 0, {})];
    } else {
      DoomedHead(p.tasks, fd, session);
      var order := HeadPasses(ViewOf(s, i), p.tasks, i, fd);
      var step := RunTask(i, order, 0, {});
      RunEnabled(s, i, order);
      ConsumesHead(workers, steps, step);
      var rest := DataFollows(workers, steps + [step], i, fd);
      LaterAdds(workers, steps, [step], rest, i, fd);
      more := [step] + rest;
    }
  }

  lemma {:induction false} Replied(workers: nat, steps: seq<Step>, i: nat, fd: Fd)
    requires i < |Run(workers, steps).procs| && fd in Run(workers, steps).procs[i].worker.sessions
    ensures var p := Run(workers, steps).procs[i];
      var id := p.worker.sessions[fd].id;
      var after := Run(workers, steps + [BusinessReply(i, fd, id, 0)]);
      i < |after.procs| && after.procs[i] == p.(tasks := p.tasks + [ReplyTask(fd, id, 0)])
  {
    hide Run;
    OneMore(workers, steps, BusinessReply(i, fd, Run(workers, steps).procs[i].worker.sessions[fd].id, 0));
  }

  lemma {:induction false} GaveUp(workers: nat, steps: seq<Step>, i: nat)
    requires i < |Run(workers, steps).procs| && Run(workers, steps).procs[i].handshake.Verified?
    ensures var p := Run(workers, steps).procs[i];
      var after := Run(workers, steps + [FinishHandshake(i, false)]);
      i < |after.procs| && after.procs[i] == p.(handshake := NoHandshake)
  {
    hide Run;
    OneMore(workers, steps, FinishHandshake(i, false));
  }

  /** Exactly when no data can follow: in every reachable state a live session can still be sent a push or reply by some
      continuation, unless its socket is closing or a revocation of it is queued ahead of all data for it. Whether a
      Close reply was already written to it makes no difference. */
  lemma {:induction false} DataCanFollow(workers: nat, steps: seq<Step>, i: nat, fd: Fd)
    requires i < |Run(workers, steps).procs| && fd in Run(workers, steps).procs[i].worker.sessions
    ensures var p := Run(workers, steps).procs[i];
      (exists more :: AddsData(workers, steps, more, i, fd))
      <==> fd !in p.worker.closing && !Doomed(p.tasks, fd, p.worker.sessions[fd])
  {
    hide Run, Doomed;
    var p := Run(workers, steps).procs[i];
    if fd in p.worker.closing || Doomed(p.tasks, fd, p.worker.sessions[fd]) {
      forall more
        ensures !AddsData(workers, steps, more, i, fd)
      {
        NoDataAdded(workers, steps, more, i, fd);
      }
    } else if p.handshake.Verified? {
      var first := [FinishHandshake(i, false)];
      GaveUp(workers, steps, i);
      var rest := DataFollows(workers, steps + first, i, fd);
      LaterAdds(workers, steps, first, rest, i, fd);
    } else {
      var more := DataFollows(workers, steps, i, fd);
    }
  }

  lemma {:induction false} NoDataAdded(workers: nat, steps: seq<Step>, more: seq<Step>, i: nat, fd: Fd)
    requires i < |Run(workers, steps).procs| && fd in Run(workers, steps).procs[i].worker.sessions
    requires var p := Run(workers, steps).procs[i]; fd in p.worker.closing || Doomed(p.tasks, fd, p.worker.sessions[fd])
    ensures !AddsData(workers, steps, more, i, fd)
  {
    hide Run, Doomed;
    RunKeeps(workers, steps);
    var session := Run(workers, steps).procs[i].worker.sessions[fd];
    assert ProcOk(Run(workers, steps), i);
    SameControl(session.written);
    MuteStays(workers, steps, more, i, fd, session);
  }

  // ------------------------------------------------ the run

  /** A session opened as usual reads a text frame whose dispatch throws, followed by a Close: the reply is queued but
      the socket is not marked as closing. Then an online push arrives. */
  function ThrownWhileClosing(user: Uuid, device: Uuid, fd: Fd, m: nat): seq<Step> {
    ClosedByClient(user, device, fd)[..3]
    + [ReadSocket(0, fd, 0, true, KeepOpen)] + [PushToDevice(device, m)] + [RunTask(0, [], 0, {})]
  }

  /** Data does follow a Close reply in that run, for every user, device, socket and message. */
  lemma {:induction false} DataAfterCloseReply(user: Uuid, device: Uuid, fd: Fd, m: nat)
    ensures Run(1, ThrownWhileClosing(user, device, fd, m))
         == LoneState(user, device, fd, [CloseReply, Data(1, m)], false)
  {
    hide Run, Next;
    var open := ClosedByClient(user, device, fd)[..3];
    var e0, e1, e2 := ReadSocket(0, fd, 0, true, KeepOpen), PushToDevice(device, m), RunTask(0, [], 0, {});
    OpenedRun(user, device, fd);
    OneMore(1, open, e0);
    OneMore(1, open + [e0], e1);
    OneMore(1, open + [e0] + [e1], e2);
    AnsweredOnly(user, device, fd);
    PushedTo(user, device, fd, m);
    PushRun(user, device, fd, m);
  }

  lemma {:induction false} AnsweredOnly(user: Uuid, device: Uuid, fd: Fd)
    ensures Next(LoneState(user, device, fd, [], false), ReadSocket(0, fd, 0, true, KeepOpen))
         == LoneState(user, device, fd, [CloseReply], false)
  {
    hide Next, Write, Remove;
    LoneWrite(user, device, fd, [], false, CloseReply);
    assert [] + [CloseReply] == [CloseReply];
    LoneStep(user, device, fd, [], false, [CloseReply], false, ReadSocket(0, fd, 0, true, KeepOpen));
  }

  function Pushed(user: Uuid, device: Uuid, fd: Fd, m: nat): State {
    var s := LoneState(user, device, fd, [CloseReply], false);
    s.(procs := [s.procs[0].(tasks := [PushTask(fd, 1, device, m)])])
  }

  lemma {:induction false} PushedTo(user: Uuid, device: Uuid, fd: Fd, m: nat)
    ensures Next(LoneState(user, device, fd, [CloseReply], false), PushToDevice(device, m))
         == Pushed(user, device, fd, m)
  {
    hide LocalStep, Lone;
    var s := LoneState(user, device, fd, [CloseReply], false);
    assert s.procs[0].tasks + [PushTask(fd, 1, device, m)] == [PushTask(fd, 1, device, m)];
  }

  lemma {:induction false} PushRun(user: Uuid, device: Uuid, fd: Fd, m: nat)
    ensures Next(Pushed(user, device, fd, m), RunTask(0, [], 0, {}))
         == LoneState(user, device, fd, [CloseReply, Data(1, m)], false)
  {
    hide LocalStep, Write, Apply;
    var s, step := Pushed(user, device, fd, m), RunTask(0, [], 0, {});
    RunEnabled(s, 0, []);
    ApplyOnWorker(s, step);
    PushDelivered(user, device, fd, m);
    assert s.procs[0].tasks[1..] == [];
  }

  lemma {:induction false} PushDelivered(user: Uuid, device: Uuid, fd: Fd, m: nat)
    ensures var s := Pushed(user, device, fd, m);
      LocalStep(ViewOf(s, 0), s.procs[0].tasks, RunTask(0, [], 0, {}))
      == View(Lone(user, device, fd, [CloseReply, Data(1, m)], false), s.online)
  {
    hide Write, Remove;
    LoneWrite(user, device, fd, [CloseReply], false, Data(1, m));
    assert [CloseReply] + [Data(1, m)] == [CloseReply, Data(1, m)];
  }
}
