/** All workers together with the database's device status, the pool's task
    posting and the callers of closeSession. A handshake is two steps, reading
    the device status and inserting the session, so that a revocation may
    commit in between; each worker runs handshakes and tasks one at a time. */
module WsSystem {
  import opened Bytes
  import opened WsWorker

  datatype Task =
    | RevokeTask(call: CallId, user: Uuid, device: Uuid)
    | PushTask(fd: Fd, id: nat, device: Uuid, message: nat)
    | ReplyTask(fd: Fd, id: nat, message: nat)

  datatype Handshake = NoHandshake | Verified(fd: Fd, user: Uuid, device: Uuid)

  datatype Proc = Proc(worker: Worker, tasks: seq<Task>, handshake: Handshake)

  /** A call of closeSession: `posted` is the workers that took its task without an exception. */
  datatype Call = Call(user: Uuid, device: Uuid, posted: set<nat>, answer: Option<bool>)

  datatype State = State(active: map<Uuid, Uuid>, revoked: set<Uuid>, procs: seq<Proc>,
                         online: Directory, stopping: bool, nextId: nat, calls: map<CallId, Call>)

  datatype Step =
    | RegisterDevice(device: Uuid, user: Uuid)
    | CommitRevocation(device: Uuid)
    | ReadStatus(i: nat, fd: Fd, user: Uuid, device: Uuid)
    | FinishHandshake(i: nat, ok: bool)
    | CloseSession(call: CallId, user: Uuid, device: Uuid, queued: set<nat>, posted: set<nat>)
    | Answer(call: CallId, closed: bool)
    | PushToDevice(device: Uuid, message: nat)
    | BusinessReply(i: nat, fd: Fd, id: nat, message: nat) // to the session that was live at dispatch
    | RunTask(i: nat, order: seq<Fd>, deadline: int, gone: set<Fd>)
    | ReadSocket(i: nat, fd: Fd, pongs: nat, closeReply: bool, fate: Fate)
    | WriteSocket(i: nat, fd: Fd, flush: Flush)
    | HangUp(i: nat, fd: Fd)
    | Tick(i: nat, order: seq<Fd>, clock: Clock, failed: set<Fd>)
    | StopPool

  predicate OnWorker(step: Step) {
    step.RunTask? || step.ReadSocket? || step.WriteSocket? || step.HangUp? || step.Tick?
  }

  ghost predicate Enabled(s: State, step: Step) {
    match step
    case RegisterDevice(d, _) => d !in s.active && d !in s.revoked
    case CommitRevocation(d) => d in s.active
    case ReadStatus(i, _, u, d) =>
      i < |s.procs| && s.procs[i].handshake.NoHandshake? && d in s.active && s.active[d] == u
    case FinishHandshake(i, ok) =>
      i < |s.procs| && s.procs[i].handshake.Verified? && (ok ==> s.procs[i].handshake.fd !in s.procs[i].worker.sessions)
    case CloseSession(c, _, d, queued, posted) =>
      // the task is queued before the wake-up that may still throw
      c !in s.calls && d in s.revoked && !s.stopping && posted <= queued
    case Answer(c, closed) =>
      && c in s.calls && s.calls[c].answer.None?
      && (closed ==> forall i :: 0 <= i < |s.procs| ==> i in s.calls[c].posted && c in s.procs[i].worker.completed)
    case PushToDevice(d, _) => !s.stopping && d in s.online && s.online[d].worker < |s.procs|
    case BusinessReply(i, _, _, _) => i < |s.procs|
    case RunTask(i, order, _, _) =>
      && i < |s.procs| && s.procs[i].handshake.NoHandshake? && s.procs[i].tasks != []
      && (s.procs[i].tasks[0].RevokeTask? ==>
            IsOrder(order, Targets(s.procs[i].worker, s.procs[i].tasks[0].user, s.procs[i].tasks[0].device)))
    case Tick(i, order, _, _) =>
      i < |s.procs| && s.procs[i].handshake.NoHandshake? && IsOrder(order, s.procs[i].worker.sessions.Keys)
    case StopPool => true
    case _ => step.i < |s.procs| && s.procs[step.i].handshake.NoHandshake?
  }

  function ViewOf(s: State, i: nat): View
    requires i < |s.procs|
  {
    View(s.procs[i].worker, s.online)
  }

  /** The effect of one worker step on that worker's view. */
  function LocalStep(v: View, tasks: seq<Task>, step: Step): View
    requires OnWorker(step) && (step.RunTask? ==> tasks != [])
  {
    match step
    case RunTask(_, order, deadline, gone) =>
      (match tasks[0]
       case RevokeTask(c, u, d) => Revoke(v, c, u, d, order, deadline, gone)
       case PushTask(fd, id, d, m) => Deliver(v, fd, id, Some(d), m, fd in gone)
       case ReplyTask(fd, id, m) => Deliver(v, fd, id, None, m, fd in gone))
    case ReadSocket(_, fd, pongs, closeReply, fate) => Readable(v, fd, pongs, closeReply, fate)
    case WriteSocket(_, fd, flush) => Writable(v, fd, flush)
    case HangUp(_, fd) => Remove(v, fd)
    case Tick(_, order, clock, failed) => Timer(v, order, clock, failed)
  }

  function TasksAfter(tasks: seq<Task>, step: Step): seq<Task> {
    if step.RunTask? && tasks != [] then tasks[1..] else tasks
  }

  function SetProc(s: State, i: nat, p: Proc, online: Directory): State
    requires i < |s.procs|
  {
    s.(procs := s.procs[i := p], online := online)
  }

  function Post(procs: seq<Proc>, to: set<nat>, t: Task): seq<Proc> {
    seq(|procs|, i requires 0 <= i < |procs| => if i in to then procs[i].(tasks := procs[i].tasks + [t]) else procs[i])
  }

  ghost function Apply(s: State, step: Step): State
    requires Enabled(s, step)
  {
    match step
    case RegisterDevice(d, u) => s.(active := s.active[d := u])
    case CommitRevocation(d) => s.(active := s.active - {d}, revoked := s.revoked + {d})
    case ReadStatus(i, fd, u, d) => SetProc(s, i, s.procs[i].(handshake := Verified(fd, u, d)), s.online)
    case FinishHandshake(i, ok) =>
      var p := s.procs[i];
      if !ok then SetProc(s, i, p.(handshake := NoHandshake), s.online)
      else
        var v := Insert(ViewOf(s, i), p.handshake.fd, s.nextId, p.handshake.user, p.handshake.device, !s.stopping);
        SetProc(s, i, p.(worker := v.w, handshake := NoHandshake), v.online).(nextId := s.nextId + 1)
    case CloseSession(c, u, d, queued, posted) =>
      s.(calls := s.calls[c := Call(u, d, posted, None)], procs := Post(s.procs, queued, RevokeTask(c, u, d)))
    case Answer(c, closed) => s.(calls := s.calls[c := s.calls[c].(answer := Some(closed))])
    case PushToDevice(d, m) =>
      var o := s.online[d];
      var p := s.procs[o.worker];
      SetProc(s, o.worker, p.(tasks := p.tasks + [PushTask(o.fd, o.id, d, m)]), s.online)
    case BusinessReply(i, fd, id, m) =>
      var p := s.procs[i];
      SetProc(s, i, p.(tasks := p.tasks + [ReplyTask(fd, id, m)]), s.online)
    case StopPool => s.(stopping := true, online := map[])
    case _ =>
      var p := s.procs[step.i];
      var v := LocalStep(ViewOf(s, step.i), p.tasks, step);
      SetProc(s, step.i, p.(worker := v.w, tasks := TasksAfter(p.tasks, step)), v.online)
  }

  ghost function Next(s: State, step: Step): State {
    if Enabled(s, step) then Apply(s, step) else s
  }

  function FreshWorker(i: nat): Worker { Worker(i, map[], {}, map[], map[], map[], [], {}) }

  function Initial(workers: nat): State {
    State(map[], {}, seq(workers, i requires 0 <= i < workers => Proc(FreshWorker(i), [], NoHandshake)),
          map[], false, 1, map[])
  }

  ghost function Run(workers: nat, steps: seq<Step>): State {
    if steps == [] then Initial(workers) else Next(Run(workers, steps[..|steps| - 1]), steps[|steps| - 1])
  }

  // ------------------------------------------------ the invariant

  /** A posted revocation runs at most once on a worker. */
  ghost predicate TasksFresh(p: Proc) {
    && (forall k :: 0 <= k < |p.tasks| && p.tasks[k].RevokeTask? ==> p.tasks[k].call !in p.worker.ran)
    && (forall k, l :: 0 <= k < l < |p.tasks| && p.tasks[k].RevokeTask? && p.tasks[l].RevokeTask? ==>
          p.tasks[k].call != p.tasks[l].call)
  }

  ghost predicate TasksKnown(p: Proc, calls: map<CallId, Call>) {
    && (forall k :: 0 <= k < |p.tasks| && p.tasks[k].RevokeTask? ==>
          p.tasks[k].call in calls && p.tasks[k].user == calls[p.tasks[k].call].user
          && p.tasks[k].device == calls[p.tasks[k].call].device)
    && (forall c :: c in p.worker.ran ==> c in calls)
  }

  /** Once a call's task has run on a worker, every session it must close is captured and no handshake can add one. */
  ghost predicate Captured(p: Proc, c: CallId, user: Uuid, device: Uuid) {
    c in p.worker.ran ==>
      && !(p.handshake.Verified? && p.handshake.user == user && p.handshake.device == device)
      && forall fd :: fd in Targets(p.worker, user, device) ==> c in Waiters(p.worker, fd)
  }

  ghost predicate ProcOk(s: State, i: nat)
    requires i < |s.procs|
  {
    var p := s.procs[i];
    && p.worker.index == i && WorkerInv(p.worker) && TasksFresh(p) && TasksKnown(p, s.calls)
    && (forall fd :: fd in p.worker.sessions ==> p.worker.sessions[fd].id < s.nextId)
    && (forall c :: c in s.calls ==> Captured(p, c, s.calls[c].user, s.calls[c].device))
    && Indexed(View(p.worker, s.online))
  }

  ghost predicate CallsOk(s: State) {
    forall c :: c in s.calls ==>
      && s.calls[c].device in s.revoked
      && (s.calls[c].answer == Some(true) ==> forall i :: 0 <= i < |s.procs| ==> c in s.procs[i].worker.completed)
  }

  ghost predicate Inv(s: State) {
    && (forall i :: 0 <= i < |s.procs| ==> ProcOk(s, i))
    && CallsOk(s)
    && (forall d :: d in s.online ==> s.online[d].worker < |s.procs|)
    && (forall d :: d in s.active ==> d !in s.revoked)
    && s.nextId >= 1
  }

  // ------------------------------------------------ worker steps

  /** The call whose revocation task this step runs, if any. */
  function Runs(p: Proc, step: Step): set<CallId> {
    if step.RunTask? && p.tasks != [] && p.tasks[0].RevokeTask? then {p.tasks[0].call} else {}
  }

  lemma {:induction false} LocalStepGood(s: State, step: Step)
    requires OnWorker(step) && Enabled(s, step) && ProcOk(s, step.i)
    ensures var p := s.procs[step.i];
      var u := LocalStep(ViewOf(s, step.i), p.tasks, step);
      WorkerInv(u.w) && Evolves(ViewOf(s, step.i), u, Runs(p, step))
  {
    hide Registering, Indexed, Evolves, Captured, TasksKnown;
    var v, tasks := ViewOf(s, step.i), s.procs[step.i].tasks;
    match step
    case RunTask(_, order, deadline, gone) =>
      match tasks[0] {
        case RevokeTask(c, u, d) => RevokeGood(v, c, u, d, order, deadline, gone);
        case PushTask(fd, id, d, m) => DeliverGood(v, fd, id, Some(d), m, fd in gone);
        case ReplyTask(fd, id, m) => DeliverGood(v, fd, id, None, m, fd in gone);
      }
    case ReadSocket(_, fd, pongs, closeReply, fate) => ReadableGood(v, fd, pongs, closeReply, fate);
    case WriteSocket(_, fd, flush) => WritableGood(v, fd, flush);
    case HangUp(_, fd) =>
      GoodStart(v);
      GoodRemove(v, v, fd);
    case Tick(_, order, clock, failed) => TimerGood(v, order, clock, failed);
  }

  /** Captured sessions stay captured as a worker evolves without a new run of the call. */
  lemma {:induction false} CapturedKeeps(p: Proc, q: Proc, v: View, u: View, ran: set<CallId>, c: CallId, user: Uuid,
                                         device: Uuid)
    requires v.w == p.worker && u.w == q.worker && q.handshake == p.handshake && Evolves(v, u, ran)
    requires Captured(p, c, user, device) && c !in ran
    ensures Captured(q, c, user, device)
  {
    hide Indexed;
    if c in q.worker.ran {
      forall fd | fd in Targets(q.worker, user, device)
        ensures c in Waiters(q.worker, fd)
      {
        assert SocketEvolves(p.worker, q.worker, fd);
        assert fd in Targets(p.worker, user, device);
      }
    }
  }

  /** Running the call's own task captures, because no handshake is under way. */
  lemma {:induction false} CapturedByRun(s: State, step: Step, q: Proc)
    requires step.RunTask? && Enabled(s, step) && s.procs[step.i].tasks[0].RevokeTask?
    requires q.worker == LocalStep(ViewOf(s, step.i), s.procs[step.i].tasks, step).w
    requires q.handshake == s.procs[step.i].handshake
    ensures var t := s.procs[step.i].tasks[0]; Captured(q, t.call, t.user, t.device)
  {
    hide Revoke;
    var t := s.procs[step.i].tasks[0];
    RevokeCaptures(ViewOf(s, step.i), t.call, t.user, t.device, step.order, step.deadline, step.gone);
  }

  lemma {:induction false} PopFresh(p: Proc, q: Proc, step: Step)
    requires TasksFresh(p) && (step.RunTask? ==> p.tasks != [])
    requires q.worker.ran == p.worker.ran + Runs(p, step)
    requires q.tasks == TasksAfter(p.tasks, step)
    ensures TasksFresh(q)
  {
  }

  lemma {:induction false} PopKnown(p: Proc, q: Proc, step: Step, calls: map<CallId, Call>)
    requires TasksKnown(p, calls) && (step.RunTask? ==> p.tasks != [])
    requires q.worker.ran == p.worker.ran + Runs(p, step)
    requires q.tasks == TasksAfter(p.tasks, step)
    ensures TasksKnown(q, calls)
  {
  }

  /** The worker that took the step. */
  lemma {:induction false} OwnProcKeeps(s: State, step: Step)
    requires OnWorker(step) && Enabled(s, step) && ProcOk(s, step.i)
    ensures ProcOk(Apply(s, step), step.i)
  {
    hide TasksFresh, TasksKnown, Registering, LocalStep, Captured;
    var p, q := s.procs[step.i], Apply(s, step).procs[step.i];
    var v := ViewOf(s, step.i);
    var u := LocalStep(v, p.tasks, step);
    LocalStepGood(s, step);
    PopFresh(p, q, step);
    PopKnown(p, q, step, s.calls);
    forall fd | fd in q.worker.sessions
      ensures q.worker.sessions[fd].id < s.nextId
    {
      assert SocketEvolves(v.w, u.w, fd);
    }
    forall c | c in s.calls
      ensures Captured(q, c, s.calls[c].user, s.calls[c].device)
    {
      OwnCaptured(s, step, c);
    }
  }

  lemma {:induction false} OwnCaptured(s: State, step: Step, c: CallId)
    requires OnWorker(step) && Enabled(s, step) && ProcOk(s, step.i) && c in s.calls
    ensures Captured(Apply(s, step).procs[step.i], c, s.calls[c].user, s.calls[c].device)
  {
    hide TasksFresh, Registering, LocalStep, Indexed, Evolves;
    var p, q := s.procs[step.i], Apply(s, step).procs[step.i];
    var v := ViewOf(s, step.i);
    LocalStepGood(s, step);
    if c in Runs(p, step) {
      hide Captured;
      CapturedByRun(s, step, q);
    } else {
      CapturedKeeps(p, q, v, LocalStep(v, p.tasks, step), Runs(p, step), c, s.calls[c].user, s.calls[c].device);
    }
  }

  /** Another worker: only directory entries of the acting worker may go. */
  lemma {:induction false} OtherProcKeeps(s: State, s': State, i: nat)
    requires i < |s.procs| == |s'.procs| && ProcOk(s, i) && s'.procs[i] == s.procs[i]
    requires s'.calls == s.calls && s'.nextId >= s.nextId
    requires forall d :: d in s'.online && s'.online[d].worker == i ==> d in s.online && s'.online[d] == s.online[d]
    ensures ProcOk(s', i)
  {
  }

  lemma {:induction false} WorkerStepKeeps(s: State, step: Step)
    requires Inv(s) && OnWorker(step) && Enabled(s, step)
    ensures Inv(Apply(s, step))
  {
    hide ProcOk, LocalStep;
    var s' := Apply(s, step);
    assert ProcOk(s, step.i);
    OwnProcKeeps(s, step);
    LocalStepGood(s, step);
    forall i | 0 <= i < |s'.procs|
      ensures ProcOk(s', i)
    {
      if i != step.i {
        assert ProcOk(s, i);
        OtherProcKeeps(s, s', i);
      }
    }
  }

  // ------------------------------------------------ the other steps

  lemma {:induction false} ReadStatusKeeps(s: State, step: Step)
    requires Inv(s) && step.ReadStatus? && Enabled(s, step)
    ensures Inv(Apply(s, step))
  {
    hide TasksFresh, TasksKnown, Registering, Indexed;
    var s' := Apply(s, step);
    forall i | 0 <= i < |s'.procs|
      ensures ProcOk(s', i)
    {
      assert ProcOk(s, i);
      KnownFresh(s.procs[i], s'.procs[i], s.calls);
    }
  }

  lemma {:induction false} InsertKeeps(v: View, fd: Fd, id: nat, user: Uuid, device: Uuid, indexed: bool)
    requires WorkerInv(v.w) && fd !in v.w.sessions && id >= 1
    ensures WorkerInv(Insert(v, fd, id, user, device, indexed).w)
    ensures Indexed(v) ==> Indexed(Insert(v, fd, id, user, device, indexed))
  {
    hide CallOk;
    SameWaiting(v.w, Insert(v, fd, id, user, device, indexed).w);
  }

  lemma {:induction false} InsertCaptured(p: Proc, q: Proc, fd: Fd, id: nat, c: CallId, user: Uuid, device: Uuid)
    requires Captured(p, c, user, device) && p.handshake.Verified? && p.handshake.fd == fd
    requires var session := Session(id, p.handshake.user, p.handshake.device, []);
      q.worker == p.worker.(sessions := p.worker.sessions[fd := session])
    requires q.handshake.NoHandshake?
    ensures Captured(q, c, user, device)
  {
    if c in q.worker.ran {
      forall x | x in Targets(q.worker, user, device)
        ensures c in Waiters(q.worker, x)
      {
        assert x in Targets(p.worker, user, device);
      }
    }
  }

  lemma {:induction false} FinishOwn(s: State, step: Step)
    requires Inv(s) && step.FinishHandshake? && Enabled(s, step)
    ensures ProcOk(Apply(s, step), step.i)
  {
    hide TasksFresh, TasksKnown, Registering, Captured, Indexed;
    assert ProcOk(s, step.i);
    var s', p := Apply(s, step), s.procs[step.i];
    var q := s'.procs[step.i];
    if step.ok {
      InsertKeeps(ViewOf(s, step.i), p.handshake.fd, s.nextId, p.handshake.user, p.handshake.device, !s.stopping);
      KnownFresh(p, q, s.calls);
      forall c | c in s.calls
        ensures Captured(q, c, s.calls[c].user, s.calls[c].device)
      {
        InsertCaptured(p, q, p.handshake.fd, s.nextId, c, s.calls[c].user, s.calls[c].device);
      }
    } else {
      KnownFresh(p, q, s.calls);
      forall c | c in s.calls
        ensures Captured(q, c, s.calls[c].user, s.calls[c].device)
      {
        assert Captured(p, c, s.calls[c].user, s.calls[c].device);
        CapturedNoHandshake(p, q, c, s.calls[c].user, s.calls[c].device);
      }
    }
  }

  lemma {:induction false} CapturedNoHandshake(p: Proc, q: Proc, c: CallId, user: Uuid, device: Uuid)
    requires Captured(p, c, user, device) && q.worker == p.worker && q.handshake.NoHandshake?
    ensures Captured(q, c, user, device)
  {
  }

  lemma {:induction false} KnownFresh(p: Proc, q: Proc, calls: map<CallId, Call>)
    requires TasksFresh(p) && TasksKnown(p, calls) && q.tasks == p.tasks && q.worker.ran == p.worker.ran
    ensures TasksFresh(q) && TasksKnown(q, calls)
  {
  }

  lemma {:induction false} FinishHandshakeKeeps(s: State, step: Step)
    requires Inv(s) && step.FinishHandshake? && Enabled(s, step)
    ensures Inv(Apply(s, step))
  {
    hide ProcOk;
    var s' := Apply(s, step);
    FinishOwn(s, step);
    assert ProcOk(s, step.i);
    FinishIndex(s, step);
    forall i | 0 <= i < |s'.procs|
      ensures ProcOk(s', i)
    {
      assert ProcOk(s, i);
      if i != step.i { OtherProcKeeps(s, s', i); }
    }
  }

  lemma {:induction false} FinishIndex(s: State, step: Step)
    requires step.FinishHandshake? && Enabled(s, step) && ProcOk(s, step.i)
    ensures var s' := Apply(s, step); forall d :: d in s'.online ==>
      s'.online[d].worker == step.i || (d in s.online && s'.online[d] == s.online[d])
  {
  }

  lemma {:induction false} PostKeeps(s: State, c: CallId, user: Uuid, device: Uuid, queued: set<nat>,
                                     posted: set<nat>, i: nat)
    requires i < |s.procs| && ProcOk(s, i) && c !in s.calls
    ensures var calls := s.calls[c := Call(user, device, posted, None)];
      ProcOk(s.(calls := calls, procs := Post(s.procs, queued, RevokeTask(c, user, device))), i)
  {
    hide Registering, Indexed;
    var p := s.procs[i];
    assert c !in p.worker.ran;
    assert forall k :: 0 <= k < |p.tasks| && p.tasks[k].RevokeTask? ==> p.tasks[k].call != c;
  }

  lemma {:induction false} CloseSessionKeeps(s: State, step: Step)
    requires Inv(s) && step.CloseSession? && Enabled(s, step)
    ensures Inv(Apply(s, step))
  {
    hide ProcOk;
    forall i | 0 <= i < |s.procs|
      ensures ProcOk(Apply(s, step), i)
    {
      assert ProcOk(s, i);
      PostKeeps(s, step.call, step.user, step.device, step.queued, step.posted, i);
    }
  }

  /** Appending a push or reply task. */
  lemma {:induction false} EnqueueKeeps(s: State, j: nat, t: Task)
    requires Inv(s) && j < |s.procs| && !t.RevokeTask?
    ensures Inv(SetProc(s, j, s.procs[j].(tasks := s.procs[j].tasks + [t]), s.online))
  {
    hide Registering, Indexed;
    var s' := SetProc(s, j, s.procs[j].(tasks := s.procs[j].tasks + [t]), s.online);
    forall i | 0 <= i < |s'.procs|
      ensures ProcOk(s', i)
    {
      assert ProcOk(s, i);
    }
  }

  lemma {:induction false} AnswerKeeps(s: State, step: Step)
    requires Inv(s) && step.Answer? && Enabled(s, step)
    ensures Inv(Apply(s, step))
  {
    hide Registering, Indexed, TasksFresh, Captured;
    forall i | 0 <= i < |s.procs|
      ensures ProcOk(Apply(s, step), i)
    {
      assert ProcOk(s, i);
    }
  }

  lemma {:induction false} DatabaseKeeps(s: State, step: Step)
    requires Inv(s) && (step.RegisterDevice? || step.CommitRevocation? || step.StopPool?) && Enabled(s, step)
    ensures Inv(Apply(s, step))
  {
    hide ProcOk;
    forall i | 0 <= i < |s.procs|
      ensures ProcOk(Apply(s, step), i)
    {
      assert ProcOk(s, i);
      OtherProcKeeps(s, Apply(s, step), i);
    }
  }

  lemma {:induction false} NextKeeps(s: State, step: Step)
    requires Inv(s)
    ensures Inv(Next(s, step))
  {
    hide Inv;
    if Enabled(s, step) {
      match step
      case RegisterDevice(_, _) => DatabaseKeeps(s, step);
      case CommitRevocation(_) => DatabaseKeeps(s, step);
      case StopPool => DatabaseKeeps(s, step);
      case ReadStatus(_, _, _, _) => ReadStatusKeeps(s, step);
      case FinishHandshake(_, _) => FinishHandshakeKeeps(s, step);
      case CloseSession(_, _, _, _, _) => CloseSessionKeeps(s, step);
      case Answer(_, _) => AnswerKeeps(s, step);
      case PushToDevice(d, m) =>
        EnqueueKeeps(s, s.online[d].worker, PushTask(s.online[d].fd, s.online[d].id, d, m));
      case BusinessReply(i, fd, id, m) =>
        EnqueueKeeps(s, i, ReplyTask(fd, id, m));
      case _ => WorkerStepKeeps(s, step);
    }
  }

  lemma {:induction false} InitialInv(workers: nat)
    ensures Inv(Initial(workers))
  {
  }

  lemma {:induction false} RunKeeps(workers: nat, steps: seq<Step>)
    ensures Inv(Run(workers, steps))
  {
    hide Inv, Next;
    if steps == [] {
      InitialInv(workers);
    } else {
      RunKeeps(workers, steps[..|steps| - 1]);
      NextKeeps(Run(workers, steps[..|steps| - 1]), steps[|steps| - 1]);
    }
  }

  // ------------------------------------------------ main results

  /** A worker that completed a call holds no session the call had to close, and none is on its way. */
  lemma {:induction false} CompletedMeansGone(s: State, i: nat, c: CallId)
    requires Inv(s) && i < |s.procs| && c in s.procs[i].worker.completed && c in s.calls
    ensures Targets(s.procs[i].worker, s.calls[c].user, s.calls[c].device) == {}
    ensures !(s.procs[i].handshake.Verified? && s.procs[i].handshake.user == s.calls[c].user
              && s.procs[i].handshake.device == s.calls[c].device)
  {
    hide Indexed, TasksFresh, TasksKnown;
    assert ProcOk(s, i);
    var w := s.procs[i].worker;
    assert CallOk(w, c);
    assert Captured(s.procs[i], c, s.calls[c].user, s.calls[c].device);
    forall fd | fd in Targets(w, s.calls[c].user, s.calls[c].device)
      ensures fd in Pending(w, c)
    {
      assert c in Waiters(w, fd);
    }
    assert |Pending(w, c)| == 0;
  }

  /** The guarantee behind websocket_closed=true: once closeSession answered true for a device whose
      revocation committed, no worker holds a session for that user and device, in this state and in
      every later one, even if a handshake read "active" before the commit. */
  lemma {:induction false} ClosedForGood(workers: nat, steps: seq<Step>, more: seq<Step>, c: CallId, i: nat, fd: Fd)
    requires var s := Run(workers, steps); c in s.calls && s.calls[c].answer == Some(true)
    requires var t := Run(workers, steps + more); i < |t.procs| && fd in t.procs[i].worker.sessions
    ensures var call, session := Run(workers, steps).calls[c], Run(workers, steps + more).procs[i].worker.sessions[fd];
      !(session.user == call.user && session.device == call.device)
  {
    hide Inv;
    AnswersStay(workers, steps, more, c);
    RunKeeps(workers, steps + more);
    AnsweredMeansGone(Run(workers, steps + more), c, i);
    var call := Run(workers, steps).calls[c];
    assert fd !in Targets(Run(workers, steps + more).procs[i].worker, call.user, call.device);
  }

  lemma {:induction false} AnsweredMeansGone(s: State, c: CallId, i: nat)
    requires Inv(s) && c in s.calls && s.calls[c].answer == Some(true) && i < |s.procs|
    ensures Targets(s.procs[i].worker, s.calls[c].user, s.calls[c].device) == {}
  {
    hide ProcOk;
    CompletedMeansGone(s, i, c);
  }

  lemma {:induction false} AnswersStay(workers: nat, steps: seq<Step>, more: seq<Step>, c: CallId)
    requires c in Run(workers, steps).calls && Run(workers, steps).calls[c].answer.Some?
    ensures c in Run(workers, steps + more).calls
    ensures Run(workers, steps + more).calls[c] == Run(workers, steps).calls[c]
  {
    hide Next;
    if more == [] {
      assert steps + more == steps;
    } else {
      var front, last := more[..|more| - 1], more[|more| - 1];
      AnswersStay(workers, steps, front, c);
      assert (steps + more)[..|steps + more| - 1] == steps + front;
      CallStays(Run(workers, steps + front), last, c);
    }
  }

  lemma {:induction false} CallStays(s: State, step: Step, c: CallId)
    requires c in s.calls && s.calls[c].answer.Some?
    ensures c in Next(s, step).calls && Next(s, step).calls[c] == s.calls[c]
  {
  }

  /** Every directory entry names a live session with that worker, socket, session id, device and user. */
  lemma {:induction false} DirectoryNamesLiveSessions(workers: nat, steps: seq<Step>, d: Uuid)
    requires d in Run(workers, steps).online
    ensures var s := Run(workers, steps); var o := s.online[d];
      && o.worker < |s.procs| && o.fd in s.procs[o.worker].worker.sessions
      && s.procs[o.worker].worker.sessions[o.fd].id == o.id
      && s.procs[o.worker].worker.sessions[o.fd].device == d
      && s.procs[o.worker].worker.sessions[o.fd].user == o.user
  {
    RunKeeps(workers, steps);
    var s := Run(workers, steps);
    var i := s.online[d].worker;
    assert ProcOk(s, i);
    assert View(s.procs[i].worker, s.online).online[d].worker == s.procs[i].worker.index;
  }

  /** Per-socket closing state belongs to live sessions, and no message reaches a session it was not addressed to. */
  lemma {:induction false} SocketReuseIsSafe(workers: nat, steps: seq<Step>, i: nat, fd: Fd)
    requires i < |Run(workers, steps).procs|
    ensures var w := Run(workers, steps).procs[i].worker;
      && (fd in w.closing || fd in w.deadlines || fd in w.waiting ==> fd in w.sessions)
      && (fd in w.sessions ==> forall k :: 0 <= k < |w.sessions[fd].written| && w.sessions[fd].written[k].Data? ==>
            w.sessions[fd].written[k].addressee == w.sessions[fd].id)
  {
    RunKeeps(workers, steps);
    assert ProcOk(Run(workers, steps), i);
    var w := Run(workers, steps).procs[i].worker;
    assert fd in w.sessions ==> SessionOk(w.sessions[fd]);
  }

  /** A revocation's promise is fulfilled at most once per worker, and only when no captured socket is left. */
  lemma {:induction false} CompletesOnce(workers: nat, steps: seq<Step>, i: nat, k: nat)
    requires i < |Run(workers, steps).procs| && k < |Run(workers, steps).procs[i].worker.completed|
    ensures var w := Run(workers, steps).procs[i].worker; var c := w.completed[k];
      && (forall l :: 0 <= l < |w.completed| && w.completed[l] == c ==> l == k)
      && c in w.ran && forall fd :: fd in w.waiting ==> c !in w.waiting[fd]
  {
    RunKeeps(workers, steps);
    assert ProcOk(Run(workers, steps), i);
    var w := Run(workers, steps).procs[i].worker;
    var c := w.completed[k];
    assert CallOk(w, c);
    forall fd | fd in w.waiting
      ensures c !in w.waiting[fd]
    {
      assert fd !in Pending(w, c);
    }
  }

  /** A call whose task has run on a worker is completed there exactly when none of its captured sockets is left. */
  lemma {:induction false} CompletedIffNoneLeft(workers: nat, steps: seq<Step>, i: nat, c: CallId)
    requires i < |Run(workers, steps).procs| && c in Run(workers, steps).procs[i].worker.ran
    ensures var w := Run(workers, steps).procs[i].worker;
      c in w.completed <==> forall fd :: fd in w.waiting ==> c !in w.waiting[fd]
  {
    RunKeeps(workers, steps);
    assert ProcOk(Run(workers, steps), i);
    var w := Run(workers, steps).procs[i].worker;
    assert CallOk(w, c);
    forall fd | fd in w.waiting
      ensures c in w.waiting[fd] <==> fd in Pending(w, c)
    {
    }
    if forall fd :: fd in w.waiting ==> c !in w.waiting[fd] {
      assert Pending(w, c) == {};
    }
  }

  /** A session under a revoke deadline, as it was: still so, or gone for good. */
  ghost predicate Settled(s: State, i: nat, fd: Fd, session: Session, deadline: int) {
    && i < |s.procs| && session.id < s.nextId
    && var w := s.procs[i].worker;
       fd in w.sessions && w.sessions[fd].id == session.id ==>
         w.sessions[fd] == session && fd in w.deadlines && w.deadlines[fd] == deadline
  }

  lemma {:induction false} ApplyOnWorker(s: State, step: Step)
    requires OnWorker(step) && Enabled(s, step)
    ensures step.i < |s.procs| && (step.RunTask? ==> s.procs[step.i].tasks != [])
    ensures var p := s.procs[step.i];
      var v := LocalStep(ViewOf(s, step.i), p.tasks, step);
      Apply(s, step) == SetProc(s, step.i, p.(worker := v.w, tasks := TasksAfter(p.tasks, step)), v.online)
  {
    hide LocalStep;
  }

  /** A worker's own step, seen from any socket of any worker. */
  lemma {:induction false} WorkerStepSockets(s: State, step: Step, i: nat, fd: Fd)
    requires Inv(s) && OnWorker(step) && Enabled(s, step) && i < |s.procs|
    ensures i < |Apply(s, step).procs| && Apply(s, step).nextId == s.nextId
    ensures SocketEvolves(s.procs[i].worker, Apply(s, step).procs[i].worker, fd)
  {
    hide Inv, LocalStep, Evolves, Apply, Enabled, SocketEvolves, ProcOk;
    ApplyOnWorker(s, step);
    if i == step.i {
      ProcOfInv(s, i);
      LocalStepGood(s, step);
      var v := ViewOf(s, i);
      EvolvesSocket(v, LocalStep(v, s.procs[i].tasks, step), Runs(s.procs[i], step), fd);
    } else {
      SocketUnchanged(s.procs[i].worker, fd);
    }
  }

  lemma {:induction false} SocketUnchanged(w: Worker, fd: Fd)
    ensures SocketEvolves(w, w, fd)
  {
  }

  lemma {:induction false} ProcOfInv(s: State, i: nat)
    requires Inv(s) && i < |s.procs|
    ensures ProcOk(s, i)
  {
  }

  lemma {:induction false} EvolvesSocket(v: View, u: View, ran: set<CallId>, fd: Fd)
    requires Evolves(v, u, ran)
    ensures SocketEvolves(v.w, u.w, fd)
  {
  }

  /** A step that is neither a worker's own nor the end of a handshake touches no session. */
  lemma {:induction false} OutsideStep(s: State, step: Step, i: nat)
    requires Enabled(s, step) && !OnWorker(step) && !step.FinishHandshake? && i < |s.procs|
    ensures i < |Apply(s, step).procs| && Apply(s, step).nextId == s.nextId
    ensures Apply(s, step).procs[i].worker == s.procs[i].worker && s.procs[i].tasks <= Apply(s, step).procs[i].tasks
  {
    hide LocalStep, Insert;
  }

  lemma {:induction false} ApplyFinish(s: State, step: Step)
    requires step.FinishHandshake? && Enabled(s, step)
    ensures step.i < |s.procs| && s.procs[step.i].handshake.Verified?
    ensures var p := s.procs[step.i];
      var v := Insert(ViewOf(s, step.i), p.handshake.fd, s.nextId, p.handshake.user, p.handshake.device, !s.stopping);
      Apply(s, step) ==
        if !step.ok then SetProc(s, step.i, p.(handshake := NoHandshake), s.online)
        else SetProc(s, step.i, p.(worker := v.w, handshake := NoHandshake), v.online).(nextId := s.nextId + 1)
  {
    hide LocalStep, Insert;
  }

  /** The end of a handshake at most inserts a session with a new id. */
  lemma {:induction false} HandshakeStep(s: State, step: Step, i: nat, fd: Fd)
    requires Enabled(s, step) && step.FinishHandshake? && i < |s.procs|
    ensures i < |Apply(s, step).procs| && s.nextId <= Apply(s, step).nextId
    ensures Apply(s, step).procs[i].tasks == s.procs[i].tasks
    ensures var w, w' := s.procs[i].worker, Apply(s, step).procs[i].worker;
      && w'.deadlines == w.deadlines && w'.closing == w.closing
      && (fd in w'.sessions ==>
            (fd in w.sessions && w'.sessions[fd] == w.sessions[fd]) || w'.sessions[fd].id == s.nextId)
  {
    hide Apply, Enabled;
    ApplyFinish(s, step);
  }

  lemma {:induction false} NextSettles(s: State, step: Step, i: nat, fd: Fd, session: Session, deadline: int)
    requires Inv(s) && Settled(s, i, fd, session, deadline)
    ensures Settled(Next(s, step), i, fd, session, deadline)
  {
    hide Inv, Apply, Enabled;
    if Enabled(s, step) {
      if OnWorker(step) {
        WorkerStepSockets(s, step, i, fd);
      } else if step.FinishHandshake? {
        HandshakeStep(s, step, i, fd);
      } else {
        OutsideStep(s, step, i);
      }
    }
  }

  /** Once a session has a revoke deadline, its output and its deadline never change again, through
      repeated revocations, pushes, replies, timers and reads, and it never comes back once gone. */
  lemma {:induction false} CondemnedIsFrozen(workers: nat, steps: seq<Step>, more: seq<Step>, i: nat, fd: Fd)
    requires var s := Run(workers, steps); i < |s.procs| && fd in s.procs[i].worker.deadlines
    ensures i < |Run(workers, steps + more).procs|
    ensures var w, w' := Run(workers, steps).procs[i].worker, Run(workers, steps + more).procs[i].worker;
      fd in w.sessions && (fd in w'.sessions && w'.sessions[fd].id == w.sessions[fd].id ==>
        w'.sessions[fd] == w.sessions[fd] && fd in w'.deadlines && w'.deadlines[fd] == w.deadlines[fd])
  {
    hide Inv, Next;
    DeadlineSettles(workers, steps, i, fd);
    var w := Run(workers, steps).procs[i].worker;
    SettledStays(workers, steps, more, i, fd, w.sessions[fd], w.deadlines[fd]);
  }

  lemma {:induction false} DeadlineSettles(workers: nat, steps: seq<Step>, i: nat, fd: Fd)
    requires var s := Run(workers, steps); i < |s.procs| && fd in s.procs[i].worker.deadlines
    ensures var s := Run(workers, steps); var w := s.procs[i].worker;
      fd in w.sessions && Settled(s, i, fd, w.sessions[fd], w.deadlines[fd])
  {
    hide Run;
    RunKeeps(workers, steps);
    assert ProcOk(Run(workers, steps), i);
  }

  lemma {:induction false} SettledStays(workers: nat, steps: seq<Step>, more: seq<Step>, i: nat, fd: Fd,
                                        session: Session, deadline: int)
    requires Settled(Run(workers, steps), i, fd, session, deadline)
    ensures Settled(Run(workers, steps + more), i, fd, session, deadline)
  {
    hide Inv, Next, Settled;
    if more == [] {
      assert steps + more == steps;
    } else {
      var front, last := more[..|more| - 1], more[|more| - 1];
      SettledStays(workers, steps, front, i, fd, session, deadline);
      assert (steps + more)[..|steps + more| - 1] == steps + front;
      RunKeeps(workers, steps + front);
      NextSettles(Run(workers, steps + front), last, i, fd, session, deadline);
    }
  }

  // ------------------------------------------------ progress of a revocation

  /** A revocation does complete: a tick at or past a worker's deadlines fulfils every call whose task has run there. */
  lemma {:induction false} TickCompletes(workers: nat, steps: seq<Step>, tick: Step)
    requires tick.Tick? && Enabled(Run(workers, steps), tick)
    requires var w := Run(workers, steps).procs[tick.i].worker;
      forall fd :: fd in w.deadlines ==> tick.clock.now >= w.deadlines[fd]
    ensures tick.i < |Run(workers, steps + [tick]).procs|
    ensures var w, w' := Run(workers, steps).procs[tick.i].worker, Run(workers, steps + [tick]).procs[tick.i].worker;
      forall c :: c in w.ran ==> c in w'.completed
  {
    hide Run, Timer;
    OneMore(workers, steps, tick);
    RunKeeps(workers, steps);
    var s := Run(workers, steps);
    assert ProcOk(s, tick.i);
    TimerCompletes(ViewOf(s, tick.i), tick.order, tick.clock, tick.failed);
  }

  lemma {:induction false} OneMore(workers: nat, steps: seq<Step>, step: Step)
    ensures Run(workers, steps + [step]) == Next(Run(workers, steps), step)
  {
    assert (steps + [step])[..|steps|] == steps;
  }

  // ------------------------------------------------ output after a Close

  /** The run in which a client opens a session on a socket and sends Close, which the worker answers. */
  function ClosedByClient(user: Uuid, device: Uuid, fd: Fd): seq<Step> {
    [RegisterDevice(device, user), ReadStatus(0, fd, user, device), FinishHandshake(0, true),
     ReadSocket(0, fd, 0, true, AwaitFlush)]
  }

  /** The worker of that run: one session, its output as given. */
  function Lone(user: Uuid, device: Uuid, fd: Fd, written: seq<Out>, closing: bool): Worker {
    FreshWorker(0).(sessions := map[fd := Session(1, user, device, written)], closing := if closing then {fd} else {})
  }

  function LoneState(user: Uuid, device: Uuid, fd: Fd, written: seq<Out>, closing: bool): State {
    State(map[device := user], {}, [Proc(Lone(user, device, fd, written, closing), [], NoHandshake)],
          map[device := Online(0, fd, 1, user)], false, 2, map[])
  }

  /** The run's states before the session exists. */
  function Before(user: Uuid, device: Uuid, handshake: Handshake): State {
    State(map[device := user], {}, [Proc(FreshWorker(0), [], handshake)], map[], false, 1, map[])
  }

  lemma {:induction false} FirstSteps(user: Uuid, device: Uuid, fd: Fd)
    ensures Next(Initial(1), RegisterDevice(device, user)) == Before(user, device, NoHandshake)
    ensures Next(Before(user, device, NoHandshake), ReadStatus(0, fd, user, device))
         == Before(user, device, Verified(fd, user, device))
  {
    hide LocalStep, WorkerInv;
    assert Initial(1).procs == [Proc(FreshWorker(0), [], NoHandshake)];
  }

  lemma {:induction false} Accepted(user: Uuid, device: Uuid, fd: Fd)
    ensures Next(Before(user, device, Verified(fd, user, device)), FinishHandshake(0, true))
         == LoneState(user, device, fd, [], false)
  {
    hide LocalStep;
    var s := Before(user, device, Verified(fd, user, device));
    var v := Insert(ViewOf(s, 0), fd, 1, user, device, true);
    assert v.w == Lone(user, device, fd, [], false);
    assert v.online == map[device := Online(0, fd, 1, user)];
  }

  lemma {:induction false} OpenedRun(user: Uuid, device: Uuid, fd: Fd)
    ensures Run(1, ClosedByClient(user, device, fd)[..3]) == LoneState(user, device, fd, [], false)
  {
    hide Next;
    var steps := ClosedByClient(user, device, fd);
    var e0, e1, e2 := steps[0], steps[1], steps[2];
    OneMore(1, [], e0);
    OneMore(1, [e0], e1);
    OneMore(1, [e0, e1], e2);
    assert [] + [e0] == [e0] && [e0] + [e1] == [e0, e1] && [e0, e1] + [e2] == steps[..3];
    FirstSteps(user, device, fd);
    Accepted(user, device, fd);
  }

  /** What a worker step does to the lone session decides the state. */
  lemma {:induction false} LoneStep(user: Uuid, device: Uuid, fd: Fd, a: seq<Out>, c: bool, b: seq<Out>, d: bool,
                                    step: Step)
    requires OnWorker(step) && !step.RunTask? && Enabled(LoneState(user, device, fd, a, c), step)
    requires var online := LoneState(user, device, fd, a, c).online;
      LocalStep(View(Lone(user, device, fd, a, c), online), [], step) == View(Lone(user, device, fd, b, d), online)
    ensures Next(LoneState(user, device, fd, a, c), step) == LoneState(user, device, fd, b, d)
  {
    hide LocalStep, Lone;
  }

  lemma {:induction false} LoneWrite(user: Uuid, device: Uuid, fd: Fd, written: seq<Out>, closing: bool, o: Out)
    ensures Write(Lone(user, device, fd, written, closing), fd, o) == Lone(user, device, fd, written + [o], closing)
    ensures WritePongs(Lone(user, device, fd, written, closing), fd, 0) == Lone(user, device, fd, written, closing)
  {
    var w := Lone(user, device, fd, written, closing);
    var session := Session(1, user, device, written + [o]);
    assert w.sessions[fd := session] == map[fd := session];
  }

  lemma {:induction false} ClosingRun(user: Uuid, device: Uuid, fd: Fd)
    ensures Run(1, ClosedByClient(user, device, fd)) == LoneState(user, device, fd, [CloseReply], true)
  {
    hide Run, Next, Write, Remove;
    var steps := ClosedByClient(user, device, fd);
    OpenedRun(user, device, fd);
    OneMore(1, steps[..3], steps[3]);
    assert steps[..3] + [steps[3]] == steps;
    LoneWrite(user, device, fd, [], false, CloseReply);
    assert [] + [CloseReply] == [CloseReply];
    LoneStep(user, device, fd, [], false, [CloseReply], true, steps[3]);
  }

  /** A ping read on a closing socket is answered. */
  lemma {:induction false} PingWhileClosing(user: Uuid, device: Uuid, fd: Fd, written: seq<Out>)
    ensures Next(LoneState(user, device, fd, written, true), ReadSocket(0, fd, 1, false, KeepOpen))
         == LoneState(user, device, fd, written + [PongOut], true)
  {
    hide Next, Write, Remove;
    LoneWrite(user, device, fd, written, true, PongOut);
    LoneStep(user, device, fd, written, true, written + [PongOut], true, ReadSocket(0, fd, 1, false, KeepOpen));
  }

  lemma {:induction false} LoneTimer(w: Worker, online: Directory, fd: Fd, now: int)
    requires fd in w.sessions && w.deadlines == map[]
    ensures Timer(View(w, online), [fd], Clock(now, {}, {fd}), {}) == View(Write(w, fd, PingOut), online)
  {
    hide Write, Remove;
    var k := Clock(now, {}, {fd});
    assert [fd][..0] == [] && [fd][0] == fd;
    assert ExpiredOf(w, [], k) == [] && PingedOf(w, [], k) == [];
    assert ExpiredOf(w, [fd], k) == [] && PingedOf(w, [fd], k) == [fd];
    assert PingAll(w, []) == w;
    assert PingAll(w, [fd]) == Write(w, fd, PingOut);
    var u := View(Write(w, fd, PingOut), online);
    assert RemoveAll(u, [], Elements([])) == u;
    assert RemoveAll(u, [], {}) == u && RemoveAll(u, [fd], {}) == u;
    assert {} * u.w.sessions.Keys == {};
  }

  /** The heartbeat pings a closing socket too. */
  lemma {:induction false} TickWhileClosing(user: Uuid, device: Uuid, fd: Fd, written: seq<Out>, now: int)
    ensures Next(LoneState(user, device, fd, written, true), Tick(0, [fd], Clock(now, {}, {fd}), {}))
         == LoneState(user, device, fd, written + [PingOut], true)
  {
    hide Next, Write, Timer;
    LoneTimer(Lone(user, device, fd, written, true), LoneState(user, device, fd, written, true).online, fd, now);
    LoneWrite(user, device, fd, written, true, PingOut);
    LoneStep(user, device, fd, written, true, written + [PingOut], true, Tick(0, [fd], Clock(now, {}, {fd}), {}));
  }

  /** Output does follow a Close: after answering a client's Close the worker answers its next ping and sends it
      heartbeats, in a run that exists for every user, device and socket. */
  lemma {:induction false} OutputAfterClose(user: Uuid, device: Uuid, fd: Fd, now: int)
    ensures var ping, tick := ReadSocket(0, fd, 1, false, KeepOpen), Tick(0, [fd], Clock(now, {}, {fd}), {});
      var run := ClosedByClient(user, device, fd);
      && Run(1, run) == LoneState(user, device, fd, [CloseReply], true)
      && Run(1, run + [ping]) == LoneState(user, device, fd, [CloseReply, PongOut], true)
      && Run(1, run + [tick]) == LoneState(user, device, fd, [CloseReply, PingOut], true)
      && Run(1, run + [ping] + [tick]) == LoneState(user, device, fd, [CloseReply, PongOut, PingOut], true)
  {
    hide Run, Next;
    var ping, tick := ReadSocket(0, fd, 1, false, KeepOpen), Tick(0, [fd], Clock(now, {}, {fd}), {});
    var run := ClosedByClient(user, device, fd);
    ClosingRun(user, device, fd);
    OneMore(1, run, ping);
    OneMore(1, run, tick);
    OneMore(1, run + [ping], tick);
    PingWhileClosing(user, device, fd, [CloseReply]);
    TickWhileClosing(user, device, fd, [CloseReply], now);
    TickWhileClosing(user, device, fd, [CloseReply, PongOut], now);
    assert [CloseReply] + [PongOut] == [CloseReply, PongOut] && [CloseReply] + [PingOut] == [CloseReply, PingOut];
    assert [CloseReply, PongOut] + [PingOut] == [CloseReply, PongOut, PingOut];
  }

  /** While the session lives on, `more` adds nothing to its output. */
  ghost predicate Quiet(workers: nat, steps: seq<Step>, more: seq<Step>, i: nat, fd: Fd)
    requires i < |Run(workers, steps).procs| && fd in Run(workers, steps).procs[i].worker.sessions
  {
    var before, after := Run(workers, steps), Run(workers, steps + more);
    var session := before.procs[i].worker.sessions[fd];
    i < |after.procs| && fd in after.procs[i].worker.sessions && after.procs[i].worker.sessions[fd].id == session.id ==>
      after.procs[i].worker.sessions[fd].written == session.written
  }

  /** Two steps with which any session without a deadline gains output. */
  function Provoke(p: Proc, i: nat, fd: Fd): seq<Step> {
    (if p.handshake.Verified? then [FinishHandshake(i, false)] else []) + [ReadSocket(i, fd, 1, false, KeepOpen)]
  }

  lemma {:induction false} ProvokedOutput(workers: nat, steps: seq<Step>, i: nat, fd: Fd)
    requires i < |Run(workers, steps).procs| && fd in Run(workers, steps).procs[i].worker.sessions
    requires fd !in Run(workers, steps).procs[i].worker.deadlines
    ensures !Quiet(workers, steps, Provoke(Run(workers, steps).procs[i], i, fd), i, fd)
  {
    hide Run;
    var s := Run(workers, steps);
    var p := s.procs[i];
    var pong := ReadSocket(i, fd, 1, false, KeepOpen);
    assert WritePongs(p.worker, fd, 0) == p.worker;
    if p.handshake.Verified? {
      OneMore(workers, steps, FinishHandshake(i, false));
      OneMore(workers, steps + [FinishHandshake(i, false)], pong);
      assert steps + Provoke(p, i, fd) == steps + [FinishHandshake(i, false)] + [pong];
    } else {
      OneMore(workers, steps, pong);
      assert steps + Provoke(p, i, fd) == steps + [pong];
    }
  }

  /** Exactly when nothing more is written: in every reachable state a live session's output can no longer grow
      if and only if the session is under a revoke deadline. */
  lemma {:induction false} QuietIffCondemned(workers: nat, steps: seq<Step>, i: nat, fd: Fd)
    requires i < |Run(workers, steps).procs| && fd in Run(workers, steps).procs[i].worker.sessions
    ensures (forall more :: Quiet(workers, steps, more, i, fd)) <==> fd in Run(workers, steps).procs[i].worker.deadlines
  {
    hide Run;
    if fd in Run(workers, steps).procs[i].worker.deadlines {
      forall more
        ensures Quiet(workers, steps, more, i, fd)
      {
        CondemnedIsFrozen(workers, steps, more, i, fd);
      }
    } else {
      ProvokedOutput(workers, steps, i, fd);
    }
  }

  /** A session that began to close with the given output, while it lives on. */
  ghost predicate StillClosing(s: State, i: nat, fd: Fd, session: Session) {
    && i < |s.procs| && session.id < s.nextId
    && var w := s.procs[i].worker;
       fd in w.sessions && w.sessions[fd].id == session.id ==>
         fd in w.closing && OnlyControl(session.written, w.sessions[fd].written)
  }

  lemma {:induction false} ControlAfterControl(a: seq<Out>, b: seq<Out>, c: seq<Out>)
    ensures OnlyControl(a, b) && OnlyControl(b, c) ==> OnlyControl(a, c)
  {
  }

  lemma {:induction false} NextStillClosing(s: State, step: Step, i: nat, fd: Fd, session: Session)
    requires Inv(s) && StillClosing(s, i, fd, session)
    ensures StillClosing(Next(s, step), i, fd, session)
  {
    hide Inv, Apply, Enabled, OnlyControl;
    if Enabled(s, step) {
      if OnWorker(step) {
        WorkerStepSockets(s, step, i, fd);
        var w, w' := s.procs[i].worker, Apply(s, step).procs[i].worker;
        if fd in w'.sessions {
          ControlAfterControl(session.written, w.sessions[fd].written, w'.sessions[fd].written);
        }
      } else if step.FinishHandshake? {
        HandshakeStep(s, step, i, fd);
      } else {
        OutsideStep(s, step, i);
      }
    }
  }

  lemma {:induction false} ClosingStays(workers: nat, steps: seq<Step>, more: seq<Step>, i: nat, fd: Fd,
                                        session: Session)
    requires StillClosing(Run(workers, steps), i, fd, session)
    ensures StillClosing(Run(workers, steps + more), i, fd, session)
  {
    hide Inv, Next, StillClosing;
    if more == [] {
      assert steps + more == steps;
    } else {
      var front, last := more[..|more| - 1], more[|more| - 1];
      ClosingStays(workers, steps, front, i, fd, session);
      assert (steps + more)[..|steps + more| - 1] == steps + front;
      RunKeeps(workers, steps + front);
      NextStillClosing(Run(workers, steps + front), last, i, fd, session);
    }
  }

  /** What may follow a Close is control frames only: from the moment a session is closing, for whatever reason and
      through every later step, no push and no reply is written to it. */
  lemma {:induction false} NoDataAfterClose(workers: nat, steps: seq<Step>, more: seq<Step>, i: nat, fd: Fd)
    requires i < |Run(workers, steps).procs| && fd in Run(workers, steps).procs[i].worker.closing
    ensures i < |Run(workers, steps + more).procs|
    ensures var w, w' := Run(workers, steps).procs[i].worker, Run(workers, steps + more).procs[i].worker;
      fd in w.sessions && (fd in w'.sessions && w'.sessions[fd].id == w.sessions[fd].id ==>
        fd in w'.closing && OnlyControl(w.sessions[fd].written, w'.sessions[fd].written))
  {
    hide Run, Inv;
    RunKeeps(workers, steps);
    ProcOfInv(Run(workers, steps), i);
    ClosingStays(workers, steps, more, i, fd, Run(workers, steps).procs[i].worker.sessions[fd]);
  }
}
