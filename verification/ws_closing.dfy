/** closeSession does succeed: the run in which it answers true, for a socket that is flushed at once and for a slow one
    that is closed by its deadline; and what stopping the pool does to the directory. */
module WsClosing {
  import opened Bytes
  import opened WsWorker
  import opened WsSystem
  import opened WsFates
  import opened WsAfterClose

  /** A device with one live session is revoked and closeSession is called. */
  function CloseCalled(user: Uuid, device: Uuid, fd: Fd, c: CallId): seq<Step> {
    ClosedByClient(user, device, fd)[..3] + [CommitRevocation(device)] + [CloseSession(c, user, device, {0}, {0})]
  }

  /** The state then: the task is queued, the call unanswered. */
  function Called(user: Uuid, device: Uuid, fd: Fd, c: CallId): State {
    State(map[], {device}, [Proc(Lone(user, device, fd, [], false), [RevokeTask(c, user, device)], NoHandshake)],
          map[device := Online(0, fd, 1, user)], false, 2, map[c := Call(user, device, {0}, None)])
  }

  lemma {:induction false} CalledRun(user: Uuid, device: Uuid, fd: Fd, c: CallId)
    ensures Run(1, CloseCalled(user, device, fd, c)) == Called(user, device, fd, c)
  {
    hide Run, Next;
    var open := ClosedByClient(user, device, fd)[..3];
    var e0, e1 := CommitRevocation(device), CloseSession(c, user, device, {0}, {0});
    OpenedRun(user, device, fd);
    OneMore(1, open, e0);
    OneMore(1, open + [e0], e1);
    RevokedStep(user, device, fd);
    CalledStep(user, device, fd, c);
  }

  function RevokedState(user: Uuid, device: Uuid, fd: Fd): State {
    LoneState(user, device, fd, [], false).(active := map[], revoked := {device})
  }

  lemma {:induction false} RevokedStep(user: Uuid, device: Uuid, fd: Fd)
    ensures Next(LoneState(user, device, fd, [], false), CommitRevocation(device)) == RevokedState(user, device, fd)
  {
    hide LocalStep, Lone;
    assert map[device := user] - {device} == map[];
  }

  lemma {:induction false} CalledStep(user: Uuid, device: Uuid, fd: Fd, c: CallId)
    ensures Next(RevokedState(user, device, fd), CloseSession(c, user, device, {0}, {0})) == Called(user, device, fd, c)
  {
    hide LocalStep, Lone;
    var s := RevokedState(user, device, fd);
    var t := RevokeTask(c, user, device);
    assert s.procs[0].tasks + [t] == [t];
    assert Post(s.procs, {0}, t)[0] == Called(user, device, fd, c).procs[0];
  }

  lemma {:induction false} OnlyTarget(user: Uuid, device: Uuid, fd: Fd)
    ensures Targets(Lone(user, device, fd, [], false), user, device) == {fd} && IsOrder([fd], {fd})
  {
  }

  /** The task runs; `gone` is whether the socket is flushed or fails at once. */
  lemma {:induction false} TaskRuns(user: Uuid, device: Uuid, fd: Fd, c: CallId, deadline: int, gone: set<Fd>)
    ensures var steps := CloseCalled(user, device, fd, c);
      var s := Run(1, steps + [RunTask(0, [fd], deadline, gone)]);
      && |s.procs| == 1 && s.procs[0].tasks == [] && s.procs[0].handshake.NoHandshake?
      && s.calls == map[c := Call(user, device, {0}, None)]
      && s.procs[0].worker == Revoke(ViewOf(Called(user, device, fd, c), 0), c, user, device, [fd], deadline, gone).w
  {
    hide Run, LocalStep, Apply, Revoke;
    var steps, s := CloseCalled(user, device, fd, c), Called(user, device, fd, c);
    CalledRun(user, device, fd, c);
    OnlyTarget(user, device, fd);
    var step := RunTask(0, [fd], deadline, gone);
    assert Enabled(s, step);
    ConsumesHead(1, steps, step);
    OneMore(1, steps, step);
    ApplyOnWorker(s, step);
    TaskEffect(user, device, fd, c, deadline, gone);
  }

  lemma {:induction false} TaskEffect(user: Uuid, device: Uuid, fd: Fd, c: CallId, deadline: int, gone: set<Fd>)
    ensures var s := Called(user, device, fd, c);
      LocalStep(ViewOf(s, 0), s.procs[0].tasks, RunTask(0, [fd], deadline, gone))
      == Revoke(ViewOf(s, 0), c, user, device, [fd], deadline, gone)
  {
    hide Revoke;
  }

  lemma {:induction false} Answers(steps: seq<Step>, c: CallId, user: Uuid, device: Uuid)
    requires var s := Run(1, steps); |s.procs| == 1 && c in s.calls && s.calls[c] == Call(user, device, {0}, None)
    requires c in Run(1, steps).procs[0].worker.completed
    ensures var s := Run(1, steps + [Answer(c, true)]); c in s.calls && s.calls[c].answer == Some(true)
  {
    hide Run;
    OneMore(1, steps, Answer(c, true));
  }

  /** A socket flushed at once: closeSession answers true right after the task. */
  lemma {:induction false} ClosesAtOnce(user: Uuid, device: Uuid, fd: Fd, c: CallId, deadline: int)
    ensures var steps := CloseCalled(user, device, fd, c) + [RunTask(0, [fd], deadline, {fd})] + [Answer(c, true)];
      c in Run(1, steps).calls && Run(1, steps).calls[c].answer == Some(true)
  {
    hide Run, Revoke;
    TaskRuns(user, device, fd, c, deadline, {fd});
    CalledInv(user, device, fd, c);
    OnlyTarget(user, device, fd);
    RevokeCompletes(ViewOf(Called(user, device, fd, c), 0), c, user, device, [fd], deadline, {fd});
    Answers(CloseCalled(user, device, fd, c) + [RunTask(0, [fd], deadline, {fd})], c, user, device);
  }

  lemma {:induction false} CalledInv(user: Uuid, device: Uuid, fd: Fd, c: CallId)
    ensures var w := Called(user, device, fd, c).procs[0].worker; WorkerInv(w) && c !in w.ran
  {
    hide Run, ProcOk;
    CalledRun(user, device, fd, c);
    RunKeeps(1, CloseCalled(user, device, fd, c));
    OkWorker(Called(user, device, fd, c));
  }

  lemma {:induction false} OkWorker(s: State)
    requires Inv(s) && |s.procs| == 1
    ensures WorkerInv(s.procs[0].worker)
  {
    assert ProcOk(s, 0);
  }

  /** A slow peer: the session stays, closing, until the first tick at its deadline, and then closeSession answers
      true. */
  lemma {:induction false} ClosesByDeadline(user: Uuid, device: Uuid, fd: Fd, c: CallId, deadline: int)
    ensures var steps := CloseCalled(user, device, fd, c) + [RunTask(0, [fd], deadline, {})];
      var tick := Tick(0, [fd], Clock(deadline, {}, {}), {});
      && |Run(1, steps).procs| == 1
      && fd in Run(1, steps).procs[0].worker.sessions && fd in Run(1, steps).procs[0].worker.closing
      && c in Run(1, steps + [tick] + [Answer(c, true)]).calls
      && Run(1, steps + [tick] + [Answer(c, true)]).calls[c].answer == Some(true)
  {
    hide Run, Revoke, Registering;
    var first := CloseCalled(user, device, fd, c);
    var steps := first + [RunTask(0, [fd], deadline, {})];
    var tick := Tick(0, [fd], Clock(deadline, {}, {}), {});
    TaskRuns(user, device, fd, c, deadline, {});
    CalledInv(user, device, fd, c);
    OnlyTarget(user, device, fd);
    var v := ViewOf(Called(user, device, fd, c), 0);
    RevokeFate(v, c, user, device, [fd], deadline, {}, fd);
    RevokeGood(v, c, user, device, [fd], deadline, {});
    OnlySession(v, c, user, device, fd, deadline);
    TickCompletes(1, steps, tick);
    TickKeepsCalls(steps, tick, c);
    Answers(steps + [tick], c, user, device);
  }

  /** After the task the one session is the only socket, under that deadline, and the call has run. */
  lemma {:induction false} OnlySession(v: View, c: CallId, user: Uuid, device: Uuid, fd: Fd, deadline: int)
    requires v.w == Lone(user, device, fd, [], false)
    ensures var u := Revoke(v, c, user, device, [fd], deadline, {}).w;
      u.sessions.Keys == {fd} && u.deadlines == map[fd := deadline] && c in u.ran
  {
    assert [fd][..0] == [];
    assert CondemnAll(View(Register(v.w, c, Targets(v.w, user, device)), v.online), [], deadline, {})
        == View(Register(v.w, c, Targets(v.w, user, device)), v.online);
  }

  lemma {:induction false} TickKeepsCalls(steps: seq<Step>, tick: Step, c: CallId)
    requires tick.Tick? && Enabled(Run(1, steps), tick)
    ensures Run(1, steps + [tick]).calls == Run(1, steps).calls
    ensures |Run(1, steps + [tick]).procs| == |Run(1, steps).procs|
  {
    hide Run, LocalStep, Apply, Enabled;
    OneMore(1, steps, tick);
    ApplyOnWorker(Run(1, steps), tick);
  }

  // ------------------------------------------------ stopping

  lemma {:induction false} StoppedNext(s: State, step: Step)
    requires Inv(s) && (s.stopping ==> s.online == map[])
    ensures Next(s, step).stopping ==> Next(s, step).online == map[]
  {
    hide Inv, LocalStep;
    if Enabled(s, step) && OnWorker(step) {
      ApplyOnWorker(s, step);
      ProcOfInv(s, step.i);
      LocalStepGood(s, step);
    }
  }

  /** Once the pool is stopping the directory is empty and stays so. */
  lemma {:induction false} StoppedDirectory(workers: nat, steps: seq<Step>)
    ensures Run(workers, steps).stopping ==> Run(workers, steps).online == map[]
  {
    hide Next, Inv;
    if steps != [] {
      var front := steps[..|steps| - 1];
      StoppedDirectory(workers, front);
      RunKeeps(workers, front);
      StoppedNext(Run(workers, front), steps[|steps| - 1]);
    }
  }

  // ------------------------------------------------ the ordinary end of a session

  lemma {:induction false} LoneGone(user: Uuid, device: Uuid, fd: Fd, written: seq<Out>, closing: bool)
    ensures Remove(View(Lone(user, device, fd, written, closing), map[device := Online(0, fd, 1, user)]), fd)
         == View(FreshWorker(0), map[])
  {
    assert TellAll(Tally(map[], []), []) == Tally(map[], []);
    assert map[fd := Session(1, user, device, written)] - {fd} == map[];
    assert map[device := Online(0, fd, 1, user)] - {device} == map[];
  }

  /** A client's Close is completed by the flush of its answer, a hang-up at once: the session and its directory entry
      are gone. */
  lemma {:induction false} SessionEnds(user: Uuid, device: Uuid, fd: Fd)
    ensures var s := Run(1, ClosedByClient(user, device, fd) + [WriteSocket(0, fd, AllSent)]);
      |s.procs| == 1 && s.procs[0].worker == FreshWorker(0) && s.online == map[]
    ensures var s := Run(1, ClosedByClient(user, device, fd)[..3] + [HangUp(0, fd)]);
      |s.procs| == 1 && s.procs[0].worker == FreshWorker(0) && s.online == map[]
  {
    hide Run, Remove, Apply;
    var all := ClosedByClient(user, device, fd);
    ClosingRun(user, device, fd);
    OpenedRun(user, device, fd);
    OneMore(1, all, WriteSocket(0, fd, AllSent));
    OneMore(1, all[..3], HangUp(0, fd));
    LoneGone(user, device, fd, [CloseReply], true);
    LoneGone(user, device, fd, [], false);
    ApplyOnWorker(LoneState(user, device, fd, [CloseReply], true), WriteSocket(0, fd, AllSent));
    ApplyOnWorker(LoneState(user, device, fd, [], false), HangUp(0, fd));
  }
}
