/**
  The business thread pool and the shutdown order of the server.

  A task is named by the order in which `receiveTask` accepted it.  A pool thread takes a task under
  the lock and runs it outside; while it runs it may hand replies to a WebSocket worker, and it may
  end by throwing.  The owner closes the pool (stop, then join every thread in order) and only then
  destroys the WebSocket workers, as the server's main function does.
*/
module ServicePool {

  datatype Thread = Waiting | Busy(task: nat) | Exited

  /** Where the owner is in its shutdown sequence. */
  datatype Owner = Serving | JoiningFrom(k: nat) | PoolClosed | WorkersDestroyed

  /** `taken`, `ended` and `replies` are the history: tasks taken, tasks whose run ended, and for each reply
      whether its worker still existed. */
  datatype State = State(
    tasks: seq<nat>,
    stop: bool,
    threads: seq<Thread>,
    owner: Owner,
    accepted: nat,
    taken: seq<nat>,
    ended: seq<nat>,
    replies: seq<bool>)

  datatype Step =
    | Submit
    | Take(thread: nat)
    | Reply(thread: nat)
    | End(thread: nat, throws: bool)
    | Exit(thread: nat)
    | CloseStops
    | JoinNext
    | CloseReturns
    | DestroyWorkers

  /** After `init` with `count` threads; tasks accepted before are already queued. */
  function Start(count: nat, queued: nat): State {
    State(Numbers(queued), false, seq(count, _ => Waiting), Serving, queued, [], [], [])
  }

  function Numbers(n: nat): (r: seq<nat>)
    ensures |r| == n && forall k :: 0 <= k < n ==> r[k] == k
  {
    seq(n, k => k)
  }

  predicate Enabled(s: State, e: Step) {
    match e
    case Submit => true
    case Take(i) => i < |s.threads| && s.threads[i].Waiting? && s.tasks != []
    case Reply(i) => i < |s.threads| && s.threads[i].Busy?
    case End(i, _) => i < |s.threads| && s.threads[i].Busy?
    case Exit(i) => i < |s.threads| && s.threads[i].Waiting? && s.stop && s.tasks == []
    case CloseStops => s.owner.Serving?
    case JoinNext => s.owner.JoiningFrom? && s.owner.k < |s.threads| && s.threads[s.owner.k].Exited?
    case CloseReturns => s.owner.JoiningFrom? && s.owner.k == |s.threads|
    case DestroyWorkers => s.owner.PoolClosed?
  }

  /** A stopping pool refuses the task. */
  function Submitted(s: State): State {
    if s.stop then s else s.(tasks := s.tasks + [s.accepted], accepted := s.accepted + 1)
  }

  function Apply(s: State, e: Step): State
    requires Enabled(s, e)
  {
    match e
    case Submit => Submitted(s)
    case Take(i) =>
      s.(tasks := s.tasks[1..], taken := s.taken + [s.tasks[0]], threads := s.threads[i := Busy(s.tasks[0])])
    case Reply(_) => s.(replies := s.replies + [!s.owner.WorkersDestroyed?])
    case End(i, _) => s.(ended := s.ended + [s.threads[i].task], threads := s.threads[i := Waiting])
    case Exit(i) => s.(threads := s.threads[i := Exited])
    case CloseStops => s.(stop := true, owner := JoiningFrom(0))
    case JoinNext => s.(owner := JoiningFrom(s.owner.k + 1))
    case CloseReturns => s.(threads := [], owner := PoolClosed)
    case DestroyWorkers => s.(owner := WorkersDestroyed)
  }

  function Next(s: State, e: Step): State {
    if Enabled(s, e) then Apply(s, e) else s
  }

  function Run(s: State, steps: seq<Step>): State
    decreases |steps|
  {
    if steps == [] then s else Run(Next(s, steps[0]), steps[1..])
  }

  /** Whether a thread is running the task. */
  predicate RunsTask(t: Thread, task: nat) { t == Busy(task) }

  /** How many threads run the task. */
  function Running(threads: seq<Thread>, task: nat): nat {
    if threads == [] then 0
    else (if RunsTask(threads[0], task) then 1 else 0) + Running(threads[1..], task)
  }

  /** Each accepted task is queued, running or ended, once and in only one of these; taking follows acceptance. */
  ghost predicate Inv(s: State, count: nat) {
    && s.taken + s.tasks == Numbers(s.accepted)
    && (forall t: nat :: Running(s.threads, t) + multiset(s.ended)[t] == multiset(s.taken)[t])
    && (forall b :: b in s.replies ==> b)
    && ClosingInv(s, count)
  }

  ghost predicate ClosingInv(s: State, count: nat) {
    && (s.stop <==> !s.owner.Serving?)
    && (forall i :: 0 <= i < |s.threads| && s.threads[i].Exited? ==> s.stop && s.tasks == [])
    && match s.owner
       case Serving => |s.threads| == count
       case JoiningFrom(k) =>
         |s.threads| == count && k <= count && (forall i :: 0 <= i < k ==> s.threads[i].Exited?)
       case _ => s.threads == [] && s.tasks == []
  }

  lemma {:induction false} RunningUpdate(threads: seq<Thread>, i: nat, t: Thread, task: nat)
    requires i < |threads|
    ensures Running(threads[i := t], task)
         == Running(threads, task)
            - (if RunsTask(threads[i], task) then 1 else 0) + (if RunsTask(t, task) then 1 else 0)
    decreases i
  {
    var u := threads[i := t];
    if i == 0 {
      assert u[1..] == threads[1..];
    } else {
      assert u[1..] == threads[1..][i - 1 := t];
      RunningUpdate(threads[1..], i - 1, t, task);
    }
  }

  lemma {:induction false} NoneRunning(threads: seq<Thread>, task: nat)
    requires forall i :: 0 <= i < |threads| ==> !threads[i].Busy?
    ensures Running(threads, task) == 0
  {
    if threads != [] {
      NoneRunning(threads[1..], task);
    }
  }

  lemma {:induction false} AllWaiting(count: nat, task: nat)
    ensures Running(seq(count, _ => Waiting), task) == 0
  {
    NoneRunning(seq(count, _ => Waiting), task);
  }

  lemma StartKeeps(count: nat, queued: nat)
    requires count > 0
    ensures Inv(Start(count, queued), count)
  {
    forall t: nat
      ensures Running(Start(count, queued).threads, t) == 0
    {
      AllWaiting(count, t);
    }
  }

  lemma TakeKeeps(s: State, count: nat, i: nat)
    requires Inv(s, count) && Enabled(s, Take(i))
    ensures Inv(Apply(s, Take(i)), count)
  {
    var u := Apply(s, Take(i));
    assert u.taken + u.tasks == s.taken + s.tasks;
    forall t: nat
      ensures Running(u.threads, t) + multiset(u.ended)[t] == multiset(u.taken)[t]
    {
      RunningUpdate(s.threads, i, Busy(s.tasks[0]), t);
      assert Running(s.threads, t) + multiset(s.ended)[t] == multiset(s.taken)[t];
    }
  }

  lemma EndKeeps(s: State, count: nat, i: nat, throws: bool)
    requires Inv(s, count) && Enabled(s, End(i, throws))
    ensures Inv(Apply(s, End(i, throws)), count)
  {
    var u := Apply(s, End(i, throws));
    forall t: nat
      ensures Running(u.threads, t) + multiset(u.ended)[t] == multiset(u.taken)[t]
    {
      RunningUpdate(s.threads, i, Waiting, t);
      assert Running(s.threads, t) + multiset(s.ended)[t] == multiset(s.taken)[t];
    }
  }

  lemma ExitKeeps(s: State, count: nat, i: nat)
    requires Inv(s, count) && Enabled(s, Exit(i))
    ensures Inv(Apply(s, Exit(i)), count)
  {
    var u := Apply(s, Exit(i));
    forall t: nat
      ensures Running(u.threads, t) + multiset(u.ended)[t] == multiset(u.taken)[t]
    {
      RunningUpdate(s.threads, i, Exited, t);
      assert Running(s.threads, t) + multiset(s.ended)[t] == multiset(s.taken)[t];
    }
  }

  lemma CloseReturnsKeeps(s: State, count: nat)
    requires count > 0 && Inv(s, count) && Enabled(s, CloseReturns)
    ensures Inv(Apply(s, CloseReturns), count)
  {
    var u := Apply(s, CloseReturns);
    assert s.threads[0].Exited?;
    forall t: nat
      ensures Running(u.threads, t) + multiset(u.ended)[t] == multiset(u.taken)[t]
    {
      NoneRunning(s.threads, t);
      assert Running(s.threads, t) + multiset(s.ended)[t] == multiset(s.taken)[t];
    }
  }

  lemma SubmitKeeps(s: State, count: nat)
    requires Inv(s, count)
    ensures Inv(Submitted(s), count)
  {
    var u := Submitted(s);
    if !s.stop {
      assert u.taken + u.tasks == (s.taken + s.tasks) + [s.accepted];
      assert Numbers(s.accepted + 1) == Numbers(s.accepted) + [s.accepted];
    }
  }

  lemma ReplyKeeps(s: State, count: nat, i: nat)
    requires Inv(s, count) && Enabled(s, Reply(i))
    ensures Inv(Apply(s, Reply(i)), count)
  {
  }

  lemma NextKeeps(s: State, count: nat, e: Step)
    requires count > 0 && Inv(s, count)
    ensures Inv(Next(s, e), count)
  {
    if Enabled(s, e) {
      match e
      case Submit => SubmitKeeps(s, count);
      case Take(i) => TakeKeeps(s, count, i);
      case Reply(i) => ReplyKeeps(s, count, i);
      case End(i, throws) => EndKeeps(s, count, i, throws);
      case Exit(i) => ExitKeeps(s, count, i);
      case CloseReturns => CloseReturnsKeeps(s, count);
      case _ =>
    }
  }

  lemma {:induction false} RunKeeps(s: State, count: nat, steps: seq<Step>)
    requires count > 0 && Inv(s, count)
    ensures Inv(Run(s, steps), count)
    decreases |steps|
  {
    if steps != [] {
      NextKeeps(s, count, steps[0]);
      RunKeeps(Next(s, steps[0]), count, steps[1..]);
    }
  }

  // ---------------------------------------------------------------------------------------------
  // Results
  // ---------------------------------------------------------------------------------------------

  lemma {:induction false} NumbersCount(n: nat, t: nat)
    ensures multiset(Numbers(n))[t] == if t < n then 1 else 0
    decreases n
  {
    if n > 0 {
      assert Numbers(n) == Numbers(n - 1) + [n - 1];
      NumbersCount(n - 1, t);
    }
  }

  /** Tasks are taken in the order in which they were accepted, and none is lost or taken twice. */
  lemma TakenInOrder(count: nat, queued: nat, steps: seq<Step>)
    requires count > 0
    ensures var s := Run(Start(count, queued), steps);
      && s.taken == Numbers(|s.taken|) && |s.taken| + |s.tasks| == s.accepted
      && s.tasks == Numbers(s.accepted)[|s.taken|..]
  {
    StartKeeps(count, queued);
    RunKeeps(Start(count, queued), count, steps);
    var s := Run(Start(count, queued), steps);
    assert |s.taken + s.tasks| == s.accepted;
    assert s.taken == (s.taken + s.tasks)[..|s.taken|];
    assert s.tasks == (s.taken + s.tasks)[|s.taken|..];
  }

  /** A task is accepted exactly until the owner begins to close the pool. */
  lemma AcceptedUntilClose(count: nat, queued: nat, steps: seq<Step>)
    requires count > 0
    ensures var s := Run(Start(count, queued), steps); var t := Next(s, Submit);
      if s.owner == Serving then t.accepted == s.accepted + 1 && t.tasks == s.tasks + [s.accepted] else t == s
  {
    StartKeeps(count, queued);
    RunKeeps(Start(count, queued), count, steps);
  }

  /** At any time a task has been run, or is being run, at most once, and only if it was accepted. */
  lemma RunsAtMostOnce(count: nat, queued: nat, steps: seq<Step>, task: nat)
    requires count > 0
    ensures var s := Run(Start(count, queued), steps);
      Running(s.threads, task) + multiset(s.ended)[task] <= (if task < s.accepted then 1 else 0)
  {
    StartKeeps(count, queued);
    RunKeeps(Start(count, queued), count, steps);
    var s := Run(Start(count, queued), steps);
    NumbersCount(s.accepted, task);
    assert multiset(s.taken + s.tasks) == multiset(s.taken) + multiset(s.tasks);
  }

  /** When close has returned, every accepted task has been run exactly once, whether or not tasks threw, and
      nothing happens to any task any more. */
  lemma DrainedOnClose(count: nat, queued: nat, steps: seq<Step>, later: seq<Step>, task: nat)
    requires count > 0
    requires var o := Run(Start(count, queued), steps).owner; o.PoolClosed? || o.WorkersDestroyed?
    ensures var s := Run(Start(count, queued), steps);
      multiset(s.ended)[task] == if task < s.accepted then 1 else 0
    ensures var s := Run(Start(count, queued), steps);
      var u := Run(s, later);
      u.accepted == s.accepted && u.ended == s.ended && u.taken == s.taken && u.replies == s.replies
  {
    StartKeeps(count, queued);
    RunKeeps(Start(count, queued), count, steps);
    var s := Run(Start(count, queued), steps);
    NumbersCount(s.accepted, task);
    assert s.taken + s.tasks == s.taken;
    assert Running(s.threads, task) + multiset(s.ended)[task] == multiset(s.taken)[task];
    ClosedRun(s, count, later);
  }

  lemma {:induction false} ClosedRun(s: State, count: nat, later: seq<Step>)
    requires count > 0 && Inv(s, count) && (s.owner.PoolClosed? || s.owner.WorkersDestroyed?)
    ensures var u := Run(s, later);
      u.accepted == s.accepted && u.ended == s.ended && u.taken == s.taken && u.replies == s.replies
    decreases |later|
  {
    if later != [] {
      NextKeeps(s, count, later[0]);
      ClosedRun(Next(s, later[0]), count, later[1..]);
    }
  }

  /** In the server's shutdown order every reply of every task found its WebSocket worker alive. */
  lemma RepliesFindTheirWorker(count: nat, queued: nat, steps: seq<Step>)
    requires count > 0
    ensures forall b :: b in Run(Start(count, queued), steps).replies ==> b
  {
    StartKeeps(count, queued);
    RunKeeps(Start(count, queued), count, steps);
  }

  /** In the middle of a close nothing is stuck: while a thread is left to join, some thread can take, end or exit. */
  lemma CloseNeverStuck(count: nat, queued: nat, steps: seq<Step>)
    requires count > 0
    requires Run(Start(count, queued), steps).owner.JoiningFrom?
    ensures var s := Run(Start(count, queued), steps);
      var k := s.owner.k;
      || Enabled(s, JoinNext) || Enabled(s, CloseReturns)
      || Enabled(s, Take(k)) || Enabled(s, End(k, false)) || Enabled(s, Exit(k))
  {
    StartKeeps(count, queued);
    RunKeeps(Start(count, queued), count, steps);
  }

  // ---------------------------------------------------------------------------------------------
  // The object
  // ---------------------------------------------------------------------------------------------

  class ServiceThreadPool {
    var tasks: seq<nat>
    var stop: bool
    var accepted: nat

    constructor ()
      ensures tasks == [] && !stop && accepted == 0
    {
      tasks, stop, accepted := [], false, 0;
    }

    ghost predicate Shows(s: State)
      reads this
    {
      tasks == s.tasks && stop == s.stop && accepted == s.accepted
    }

    /** Fails, changing nothing, when the pool is stopping. */
    method ReceiveTask(ghost s: State) returns (ok: bool)
      requires Shows(s)
      modifies this
      ensures ok == !s.stop && Shows(Submitted(s))
    {
      if stop { return false; }
      tasks := tasks + [accepted];
      accepted := accepted + 1;
      ok := true;
    }

    /** A thread's locked section once its wait is over; no task means the thread exits. */
    method NextTask(ghost s: State, i: nat) returns (leave: bool, task: nat)
      requires Shows(s) && i < |s.threads| && s.threads[i].Waiting?
      requires stop || tasks != []
      modifies this
      ensures leave ==> Enabled(s, Exit(i)) && Shows(Apply(s, Exit(i)))
      ensures !leave ==> Enabled(s, Take(i)) && Shows(Apply(s, Take(i))) && Apply(s, Take(i)).threads[i] == Busy(task)
    {
      if stop && tasks == [] { return true, 0; }
      task := tasks[0];
      tasks := tasks[1..];
      leave := false;
    }
  }
}
