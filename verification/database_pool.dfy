/**
  The PostgreSQL connection pool.

  Every critical section of the pool is a function from `Pool` to `Pool`; the class at the end
  carries the same sections out on its fields.  A connection is named by the order in which it was
  opened, and `shut` records the connections closed so far, in order.  A run interleaves these
  sections arbitrarily: a borrower that has to open a connection does so outside the lock, so its
  call is two steps with anything in between.
*/
module DatabasePools {

  datatype Pool = Pool(
    idle: seq<nat>,
    total: int,
    running: bool,
    initialized: bool,
    lo: int,
    hi: int,
    issued: nat,
    shut: seq<nat>)

  const UNTOUCHED: Pool := Pool([], 0, false, false, 0, 0, 0, [])

  datatype InitReply = AlreadyInitialized | InvalidConfig | StartFailed | Ready

  /** What one locked pass through `getConnection` decides. */
  datatype Grant = Borrowed(conn: nat) | MustOpen | PoolClosed | TimedOut

  // ---------------------------------------------------------------------------------------------
  // Critical sections
  // ---------------------------------------------------------------------------------------------

  /** The names of the next `count` connections. */
  function Fresh(from: nat, count: nat): (names: seq<nat>)
    ensures |names| == count
    ensures forall k :: 0 <= k < count ==> names[k] == from + k
    ensures forall id: nat :: multiset(names)[id] == if from <= id < from + count then 1 else 0
  {
    if count == 0 then [] else Fresh(from, count - 1) + [from + count - 1]
  }

  /** `made` constructors succeed before one throws; `threadStarts` is the outcome of starting the maintenance
      thread. */
  function InitReplyOf(p: Pool, lo: int, hi: int, made: nat, threadStarts: bool): InitReply {
    if p.initialized then AlreadyInitialized
    else if lo < 0 || hi <= 0 || lo > hi then InvalidConfig
    else if made < lo || !threadStarts then StartFailed
    else Ready
  }

  function Init(p: Pool, lo: int, hi: int, made: nat, threadStarts: bool): Pool {
    match InitReplyOf(p, lo, hi, made, threadStarts)
    case AlreadyInitialized => p
    case InvalidConfig => p
    case StartFailed =>
      var n := if made < lo then made else lo;
      p.(lo := lo, hi := hi, issued := p.issued + n, shut := p.shut + Fresh(p.issued, n),
         running := made < lo && p.running, total := if made < lo then p.total else 0)
    case Ready =>
      p.(lo := lo, hi := hi, issued := p.issued + lo, idle := Fresh(p.issued, lo), total := lo,
         running := true, initialized := true)
  }

  function GrantOf(p: Pool): Grant {
    if !p.running then PoolClosed
    else if p.idle == [] && p.total >= p.hi then TimedOut
    else if p.idle != [] then Borrowed(p.idle[0])
    else MustOpen
  }

  /** The first critical section of `getConnection`. */
  function Get(p: Pool): Pool {
    match GrantOf(p)
    case Borrowed(_) => p.(idle := p.idle[1..])
    case MustOpen => p.(total := p.total + 1)
    case _ => p
  }

  /** The second one, after the constructor returned (`connects`) or threw. */
  function FinishGet(p: Pool, connects: bool): Pool {
    if !connects then p.(total := p.total - 1)
    else if !p.running then p.(issued := p.issued + 1, shut := p.shut + [p.issued], total := p.total - 1)
    else p.(issued := p.issued + 1)
  }

  function Release(p: Pool, conn: nat, resets: bool): Pool {
    if !p.running || !resets then p.(shut := p.shut + [conn], total := p.total - 1)
    else p.(idle := p.idle + [conn])
  }

  function Rotate(p: Pool): Pool requires p.idle != [] {
    p.(idle := p.idle[1..] + [p.idle[0]])
  }

  function DropFront(p: Pool): Pool requires p.idle != [] {
    p.(idle := p.idle[1..], shut := p.shut + [p.idle[0]], total := p.total - 1)
  }

  /** Replaces the dead front connection; a replacement that is dead too is closed and not counted any more. */
  function ReplaceFront(p: Pool, dead: set<nat>): Pool requires p.idle != [] {
    if p.issued in dead then
      p.(idle := p.idle[1..], shut := p.shut + [p.idle[0], p.issued], issued := p.issued + 1, total := p.total - 1)
    else
      p.(idle := p.idle[1..] + [p.issued], shut := p.shut + [p.idle[0]], issued := p.issued + 1)
  }

  /** The idle-reclaim loop, whose bound is the current queue length. */
  function Shrink(p: Pool, i: nat, excess: int, stale: set<nat>): Pool
    decreases |p.idle| - i
  {
    if i >= |p.idle| then p
    else if excess > 0 && p.idle[0] in stale then Shrink(DropFront(p), i + 1, excess - 1, stale)
    else Shrink(Rotate(p), i + 1, excess, stale)
  }

  /** The liveness loop over `count` connections. */
  function Refresh(p: Pool, count: nat, dead: set<nat>): Pool
    requires count <= |p.idle|
    decreases count
  {
    if count == 0 then p
    else if p.idle[0] in dead then Refresh(ReplaceFront(p, dead), count - 1, dead)
    else Refresh(Rotate(p), count - 1, dead)
  }

  function TopUp(p: Pool, dead: set<nat>): Pool {
    if p.total >= p.lo then p
    else if p.issued in dead then p.(issued := p.issued + 1, shut := p.shut + [p.issued])
    else p.(idle := p.idle + [p.issued], issued := p.issued + 1, total := p.total + 1)
  }

  function Reclaim(p: Pool, stale: set<nat>): Pool {
    if p.total > p.lo then Shrink(p, 0, p.total - p.lo, stale) else p
  }

  /** One pass of the maintenance thread while the pool is running. */
  function Maintain(p: Pool, stale: set<nat>, dead: set<nat>): Pool {
    var q := Reclaim(p, stale);
    TopUp(Refresh(q, |q.idle|, dead), dead)
  }

  /** The pass is the thread's last: the pool stopped, or the top-up connection was dead. */
  function MaintenanceEnds(p: Pool, stale: set<nat>, dead: set<nat>): bool {
    var q := Reclaim(p, stale);
    var r := Refresh(q, |q.idle|, dead);
    !p.running || (r.total < r.lo && r.issued in dead)
  }

  /** `close` up to its wait. */
  function Drain(p: Pool): Pool
    decreases |p.idle|
  {
    if p.idle == [] then p.(running := false) else Drain(DropFront(p))
  }

  // ---------------------------------------------------------------------------------------------
  // Runs
  // ---------------------------------------------------------------------------------------------

  datatype Closing = Waiting | Joining | Returned

  /** `creating` counts the borrowers that are opening a connection outside the lock. */
  datatype State = State(pool: Pool, leased: set<nat>, creating: nat, maintaining: bool, closers: map<nat, Closing>)

  datatype Step =
    | InitStep(lo: int, hi: int, made: nat, threadStarts: bool)
    | GetStep
    | FinishGetStep(connects: bool)
    | ReleaseStep(conn: nat, resets: bool)
    | MaintainStep(stale: set<nat>, dead: set<nat>)
    | CloseStep(caller: nat)
    | CloseWakes(caller: nat)
    | CloseReturns(caller: nat)

  const START: State := State(UNTOUCHED, {}, 0, false, map[])

  predicate Enabled(s: State, e: Step) {
    match e
    case FinishGetStep(_) => s.creating > 0
    case ReleaseStep(c, _) => c in s.leased
    case MaintainStep(_, _) => s.maintaining
    case CloseStep(c) => c !in s.closers
    case CloseWakes(c) => c in s.closers && s.closers[c] == Waiting && s.pool.total == 0
    case CloseReturns(c) => c in s.closers && s.closers[c] == Joining && !s.maintaining
    case _ => true
  }

  function Apply(s: State, e: Step): State
    requires Enabled(s, e)
  {
    var p := s.pool;
    match e
    case InitStep(lo, hi, made, starts) =>
      s.(pool := Init(p, lo, hi, made, starts),
         maintaining := s.maintaining || InitReplyOf(p, lo, hi, made, starts) == Ready)
    case GetStep =>
      (match GrantOf(p)
       case Borrowed(c) => s.(pool := Get(p), leased := s.leased + {c})
       case MustOpen => s.(pool := Get(p), creating := s.creating + 1)
       case _ => s)
    case FinishGetStep(connects) =>
      s.(pool := FinishGet(p, connects), creating := s.creating - 1,
         leased := if connects && p.running then s.leased + {p.issued} else s.leased)
    case ReleaseStep(c, resets) => s.(pool := Release(p, c, resets), leased := s.leased - {c})
    case MaintainStep(stale, dead) =>
      s.(pool := if p.running then Maintain(p, stale, dead) else p,
         maintaining := !MaintenanceEnds(p, stale, dead))
    case CloseStep(c) => s.(pool := Drain(p), closers := s.closers[c := Waiting])
    case CloseWakes(c) => s.(closers := s.closers[c := Joining])
    case CloseReturns(c) => s.(closers := s.closers[c := Returned])
  }

  function Next(s: State, e: Step): State {
    if Enabled(s, e) then Apply(s, e) else s
  }

  function Run(s: State, steps: seq<Step>): State
    decreases |steps|
  {
    if steps == [] then s else Run(Next(s, steps[0]), steps[1..])
  }

  /** The step hands a connection to a borrower. */
  predicate Lends(s: State, e: Step) {
    Enabled(s, e)
    && ((e.GetStep? && GrantOf(s.pool).Borrowed?) || (e.FinishGetStep? && e.connects && s.pool.running))
  }

  // ---------------------------------------------------------------------------------------------
  // Conservation
  // ---------------------------------------------------------------------------------------------

  /** In how many places a connection is: idle in the queue, with a borrower, closed. */
  function Places(p: Pool, leased: set<nat>, id: nat): nat {
    multiset(p.idle)[id] + (if id in leased then 1 else 0) + multiset(p.shut)[id]
  }

  ghost predicate OnePlaceEach(p: Pool, leased: set<nat>) {
    forall id: nat :: Places(p, leased, id) == if id < p.issued then 1 else 0
  }

  ghost predicate Balanced(p: Pool, leased: set<nat>, creating: nat) {
    && OnePlaceEach(p, leased)
    && p.total == |p.idle| + |leased| + creating
  }

  ghost predicate Sized(p: Pool) {
    && (!p.initialized ==> !p.running && p.total == 0)
    && (p.initialized ==> 0 <= p.lo <= p.hi && p.total <= p.hi)
    && (!p.running ==> p.idle == [])
  }

  ghost predicate Inv(s: State) {
    Balanced(s.pool, s.leased, s.creating) && Sized(s.pool)
  }

  lemma Front(q: seq<nat>)
    requires q != []
    ensures multiset(q) == multiset(q[1..]) + multiset{q[0]}
  {
    assert q == [q[0]] + q[1..];
  }

  /** A change of places that moves every connection at most once keeps the rest of the count. */
  lemma Moves(p: Pool, leased: set<nat>, q: Pool, leased': set<nat>)
    requires OnePlaceEach(p, leased)
    requires forall id: nat ::
      Places(q, leased', id) - Places(p, leased, id) == (if p.issued <= id < q.issued then 1 else 0)
    requires p.issued <= q.issued
    ensures OnePlaceEach(q, leased')
  {
  }

  lemma DropFrontKeeps(p: Pool, leased: set<nat>, creating: nat)
    requires p.idle != [] && Balanced(p, leased, creating)
    ensures Balanced(DropFront(p), leased, creating)
  {
    Front(p.idle);
    Moves(p, leased, DropFront(p), leased);
  }

  lemma RotateKeeps(p: Pool, leased: set<nat>, creating: nat)
    requires p.idle != [] && Balanced(p, leased, creating)
    ensures Balanced(Rotate(p), leased, creating)
  {
    Front(p.idle);
    Moves(p, leased, Rotate(p), leased);
  }

  lemma ReplaceFrontKeeps(p: Pool, leased: set<nat>, creating: nat, dead: set<nat>)
    requires p.idle != [] && Balanced(p, leased, creating)
    ensures Balanced(ReplaceFront(p, dead), leased, creating)
  {
    Front(p.idle);
    var q := ReplaceFront(p, dead);
    assert [p.idle[0], p.issued] == [p.idle[0]] + [p.issued];
    Moves(p, leased, q, leased);
  }

  /** Reclaiming drops at most the excess and never takes a borrowed connection. */
  lemma {:induction false} ShrinkKeeps(p: Pool, i: nat, excess: int, stale: set<nat>, leased: set<nat>, creating: nat)
    requires Balanced(p, leased, creating)
    ensures var r := Shrink(p, i, excess, stale);
      && Balanced(r, leased, creating)
      && r == p.(idle := r.idle, shut := r.shut, total := r.total)
      && r.total <= p.total && p.total - r.total <= (if excess > 0 then excess else 0)
    decreases |p.idle| - i
  {
    if i < |p.idle| {
      if excess > 0 && p.idle[0] in stale {
        DropFrontKeeps(p, leased, creating);
        ShrinkKeeps(DropFront(p), i + 1, excess - 1, stale, leased, creating);
      } else {
        RotateKeeps(p, leased, creating);
        ShrinkKeeps(Rotate(p), i + 1, excess, stale, leased, creating);
      }
    }
  }

  lemma {:induction false} RefreshKeeps(p: Pool, count: nat, dead: set<nat>, leased: set<nat>, creating: nat)
    requires count <= |p.idle| && Balanced(p, leased, creating)
    ensures var r := Refresh(p, count, dead);
      && Balanced(r, leased, creating)
      && r == p.(idle := r.idle, shut := r.shut, total := r.total, issued := r.issued)
      && r.total <= p.total
    decreases count
  {
    if count > 0 {
      if p.idle[0] in dead {
        ReplaceFrontKeeps(p, leased, creating, dead);
        RefreshKeeps(ReplaceFront(p, dead), count - 1, dead, leased, creating);
      } else {
        RotateKeeps(p, leased, creating);
        RefreshKeeps(Rotate(p), count - 1, dead, leased, creating);
      }
    }
  }

  lemma ReclaimKeeps(p: Pool, stale: set<nat>, leased: set<nat>, creating: nat)
    requires Balanced(p, leased, creating)
    ensures var r := Reclaim(p, stale);
      && Balanced(r, leased, creating)
      && r == p.(idle := r.idle, shut := r.shut, total := r.total)
      && r.total <= p.total && (p.total >= p.lo ==> r.total >= p.lo)
  {
    if p.total > p.lo {
      ShrinkKeeps(p, 0, p.total - p.lo, stale, leased, creating);
    }
  }

  lemma MaintainKeeps(p: Pool, stale: set<nat>, dead: set<nat>, leased: set<nat>, creating: nat)
    requires Balanced(p, leased, creating) && Sized(p) && p.running
    ensures var r := Maintain(p, stale, dead);
      Balanced(r, leased, creating) && Sized(r) && r.running && r.initialized == p.initialized
  {
    var q := Reclaim(p, stale);
    ReclaimKeeps(p, stale, leased, creating);
    RefreshKeeps(q, |q.idle|, dead, leased, creating);
    Moves(Refresh(q, |q.idle|, dead), leased, Maintain(p, stale, dead), leased);
  }

  lemma {:induction false} DrainKeeps(p: Pool, leased: set<nat>, creating: nat)
    requires Balanced(p, leased, creating)
    ensures var r := Drain(p);
      && Balanced(r, leased, creating)
      && r == p.(idle := [], running := false, shut := r.shut, total := r.total)
      && r.total == |leased| + creating
    decreases |p.idle|
  {
    if p.idle != [] {
      DropFrontKeeps(p, leased, creating);
      DrainKeeps(DropFront(p), leased, creating);
    } else {
      Moves(p, leased, Drain(p), leased);
    }
  }

  lemma GetKeeps(s: State)
    requires Inv(s)
    ensures Inv(Apply(s, GetStep))
  {
    if s.pool.idle != [] {
      Front(s.pool.idle);
      assert Places(s.pool, s.leased, s.pool.idle[0]) <= 1;
    }
    Moves(s.pool, s.leased, Apply(s, GetStep).pool, Apply(s, GetStep).leased);
  }

  lemma InitKeeps(s: State, lo: int, hi: int, made: nat, starts: bool)
    requires Inv(s)
    ensures Inv(Apply(s, InitStep(lo, hi, made, starts)))
  {
    var t := Apply(s, InitStep(lo, hi, made, starts));
    Moves(s.pool, s.leased, t.pool, t.leased);
  }

  lemma FinishGetKeeps(s: State, connects: bool)
    requires Inv(s) && s.creating > 0
    ensures Inv(Apply(s, FinishGetStep(connects)))
  {
    assert Places(s.pool, s.leased, s.pool.issued) == 0;
    var t := Apply(s, FinishGetStep(connects));
    Moves(s.pool, s.leased, t.pool, t.leased);
  }

  lemma ReleaseKeeps(s: State, conn: nat, resets: bool)
    requires Inv(s) && conn in s.leased
    ensures Inv(Apply(s, ReleaseStep(conn, resets)))
  {
    assert Places(s.pool, s.leased, conn) <= 1;
    var t := Apply(s, ReleaseStep(conn, resets));
    Moves(s.pool, s.leased, t.pool, t.leased);
  }

  lemma NextKeeps(s: State, e: Step)
    requires Inv(s)
    ensures Inv(Next(s, e))
  {
    if Enabled(s, e) {
      match e
      case InitStep(lo, hi, made, starts) => InitKeeps(s, lo, hi, made, starts);
      case GetStep => GetKeeps(s);
      case FinishGetStep(connects) => FinishGetKeeps(s, connects);
      case ReleaseStep(c, resets) => ReleaseKeeps(s, c, resets);
      case MaintainStep(stale, dead) =>
        if s.pool.running {
          MaintainKeeps(s.pool, stale, dead, s.leased, s.creating);
        }
      case CloseStep(_) => DrainKeeps(s.pool, s.leased, s.creating);
      case _ =>
    }
  }

  lemma {:induction false} RunKeeps(s: State, steps: seq<Step>)
    requires Inv(s)
    ensures Inv(Run(s, steps))
    decreases |steps|
  {
    if steps != [] {
      NextKeeps(s, steps[0]);
      RunKeeps(Next(s, steps[0]), steps[1..]);
    }
  }

  /**
    Conservation: in every reachable state the counter is exactly the connections that are idle, lent
    or being opened and stays within the maximum, no connection is in two places, and every connection
    ever opened is idle, lent, or closed exactly once.
  */
  lemma Conservation(steps: seq<Step>)
    ensures var s := Run(START, steps);
      && s.pool.total == |s.pool.idle| + |s.leased| + s.creating
      && (s.pool.initialized ==> s.pool.total <= s.pool.hi)
      && (forall id: nat :: id in s.pool.idle ==> id !in s.leased)
      && (forall i, j :: 0 <= i < j < |s.pool.idle| ==> s.pool.idle[i] != s.pool.idle[j])
      && (forall id: nat :: id < s.pool.issued <==> id in s.pool.idle || id in s.leased || id in s.pool.shut)
      && (forall id: nat :: id in s.pool.shut ==> id !in s.pool.idle && id !in s.leased)
      && (forall id: nat :: id in s.pool.shut ==> multiset(s.pool.shut)[id] == 1)
  {
    RunKeeps(START, steps);
    var s := Run(START, steps);
    forall id: nat
      ensures Places(s.pool, s.leased, id) == if id < s.pool.issued then 1 else 0
      ensures multiset(s.pool.idle)[id] > 0 <==> id in s.pool.idle
      ensures multiset(s.pool.shut)[id] > 0 <==> id in s.pool.shut
    {}
    forall i, j | 0 <= i < j < |s.pool.idle|
      ensures s.pool.idle[i] != s.pool.idle[j]
    {
      TwiceCounted(s.pool.idle, i, j);
      assert Places(s.pool, s.leased, s.pool.idle[i]) <= 1;
    }
  }

  lemma TwiceCounted(q: seq<nat>, i: nat, j: nat)
    requires i < j < |q|
    ensures q[i] == q[j] ==> multiset(q)[q[i]] >= 2
  {
    assert q == q[..j] + [q[j]] + q[j + 1..];
    assert q[i] in q[..j];
  }

  /** A step lends only a connection nobody holds, and the pool gives it up in the same step. */
  lemma LendsExclusively(steps: seq<Step>, e: Step)
    ensures var s := Run(START, steps);
      var t := Next(s, e);
      Lends(s, e) ==>
        exists c: nat :: c !in s.leased && t.leased == s.leased + {c} && c !in t.pool.idle && c !in t.pool.shut
  {
    RunKeeps(START, steps);
    var s := Run(START, steps);
    NextKeeps(s, e);
    if Lends(s, e) {
      var c := if e.GetStep? then s.pool.idle[0] else s.pool.issued;
      assert Places(s.pool, s.leased, c) <= 1;
      assert c in s.pool.idle || c == s.pool.issued;
      assert multiset(s.pool.idle)[c] > 0 || c == s.pool.issued;
      assert c in Next(s, e).leased;
      assert Places(Next(s, e).pool, Next(s, e).leased, c) <= 1;
      assert c !in Next(s, e).pool.idle && c !in Next(s, e).pool.shut;
    }
  }

  // ---------------------------------------------------------------------------------------------
  // Closing
  // ---------------------------------------------------------------------------------------------

  /** What holds from the moment close call `c` stops an initialised pool. */
  ghost predicate Stopped(s: State, c: nat) {
    && Inv(s)
    && s.pool.initialized && !s.pool.running
    && c in s.closers
    && (s.closers[c] != Waiting ==> s.pool.total == 0)
    && (s.closers[c] == Returned ==> !s.maintaining)
  }

  lemma StoppedNext(s: State, c: nat, e: Step)
    requires Stopped(s, c)
    ensures Stopped(Next(s, e), c) && !Lends(s, e)
    ensures s.closers[c] == Returned ==> Next(s, e).closers[c] == Returned
  {
    NextKeeps(s, e);
    if Enabled(s, e) {
      match e
      case CloseStep(_) => DrainKeeps(s.pool, s.leased, s.creating);
      case _ =>
    }
  }

  lemma {:induction false} StoppedRun(s: State, c: nat, steps: seq<Step>)
    requires Stopped(s, c)
    ensures Stopped(Run(s, steps), c)
    ensures s.closers[c] == Returned ==> Run(s, steps).closers[c] == Returned
    decreases |steps|
  {
    if steps != [] {
      StoppedNext(s, c, steps[0]);
      StoppedRun(Next(s, steps[0]), c, steps[1..]);
    }
  }

  lemma CloseStops(s: State, c: nat)
    requires Inv(s) && s.pool.initialized && c !in s.closers
    ensures Stopped(Next(s, CloseStep(c)), c)
  {
    NextKeeps(s, CloseStep(c));
    DrainKeeps(s.pool, s.leased, s.creating);
  }

  /**
    Once a close of an initialised pool has returned, then for ever: nothing is idle, lent or being
    opened, every connection ever opened has been closed, the maintenance thread is gone and no
    `getConnection` gets a connection.
  */
  lemma CloseIsFinal(before: seq<Step>, c: nat, during: seq<Step>, after: seq<Step>, e: Step)
    requires Run(START, before).pool.initialized && c !in Run(START, before).closers
    requires var s := Run(Next(Run(START, before), CloseStep(c)), during); c in s.closers && s.closers[c] == Returned
    ensures var s := Run(Run(Next(Run(START, before), CloseStep(c)), during), after);
      && s.pool.idle == [] && s.leased == {} && s.creating == 0 && s.pool.total == 0
      && (forall id: nat :: id < s.pool.issued ==> multiset(s.pool.shut)[id] == 1)
      && !s.maintaining
      && !Lends(s, e)
  {
    RunKeeps(START, before);
    CloseStops(Run(START, before), c);
    var s1 := Next(Run(START, before), CloseStep(c));
    StoppedRun(s1, c, during);
    var s2 := Run(s1, during);
    StoppedRun(s2, c, after);
    var s := Run(s2, after);
    StoppedNext(s, c, e);
    assert |s.leased| == 0;
    forall id: nat | id < s.pool.issued
      ensures multiset(s.pool.shut)[id] == 1
    {
      assert Places(s.pool, s.leased, id) == 1;
    }
  }

  /** A stopped pool lends nothing more, and close's wait is over exactly when no lease and no opening is
      outstanding. */
  lemma CloseWaitsForLeases(before: seq<Step>, c: nat, during: seq<Step>, e: Step)
    requires Run(START, before).pool.initialized && c !in Run(START, before).closers
    ensures var s := Run(Next(Run(START, before), CloseStep(c)), during);
      !Lends(s, e) && (s.pool.total == 0 <==> s.leased == {} && s.creating == 0)
  {
    RunKeeps(START, before);
    CloseStops(Run(START, before), c);
    StoppedRun(Next(Run(START, before), CloseStep(c)), c, during);
    StoppedNext(Run(Next(Run(START, before), CloseStep(c)), during), c, e);
  }

  // ---------------------------------------------------------------------------------------------
  // What a maintenance pass leaves
  // ---------------------------------------------------------------------------------------------

  /** Behind the `count` connections still to look at, all are alive. */
  ghost predicate AliveBehind(p: Pool, count: nat, dead: set<nat>) {
    forall k :: count <= k < |p.idle| ==> p.idle[k] !in dead
  }

  lemma {:induction false} RefreshedAreAlive(p: Pool, count: nat, dead: set<nat>)
    requires count <= |p.idle| && AliveBehind(p, count, dead)
    ensures AliveBehind(Refresh(p, count, dead), 0, dead)
    decreases count
  {
    if count > 0 {
      RefreshedAreAlive(if p.idle[0] in dead then ReplaceFront(p, dead) else Rotate(p), count - 1, dead);
    }
  }

  /** After a pass every idle connection was found alive, and the pool grew only if it was below its minimum, by one. */
  lemma MaintainedAreAlive(p: Pool, stale: set<nat>, dead: set<nat>, leased: set<nat>, creating: nat)
    requires Balanced(p, leased, creating)
    ensures var r := Maintain(p, stale, dead);
      && (forall k :: 0 <= k < |r.idle| ==> r.idle[k] !in dead)
      && (r.total <= p.total || r.total == p.total + 1 <= p.lo)
  {
    var q := Reclaim(p, stale);
    ReclaimKeeps(p, stale, leased, creating);
    RefreshKeeps(q, |q.idle|, dead, leased, creating);
    RefreshedAreAlive(q, |q.idle|, dead);
    assert AliveBehind(Refresh(q, |q.idle|, dead), 0, dead);
  }

  // ---------------------------------------------------------------------------------------------
  // The object
  // ---------------------------------------------------------------------------------------------

  class DatabasePool {
    var idle: seq<nat>
    var total: int
    var running: bool
    var initialized: bool
    var lo: int
    var hi: int
    var issued: nat
    ghost var shut: seq<nat>

    ghost function Now(): Pool
      reads this
    {
      Pool(idle, total, running, initialized, lo, hi, issued, shut)
    }

    constructor ()
      ensures Now() == UNTOUCHED
    {
      idle, total, running, initialized, lo, hi, issued, shut := [], 0, false, false, 0, 0, 0, [];
    }

    method Open() returns (conn: nat)
      modifies this`issued
      ensures conn == old(issued) && issued == conn + 1
    {
      conn := issued;
      issued := issued + 1;
    }

    method Initialize(min: int, max: int, made: nat, threadStarts: bool) returns (r: InitReply)
      modifies this
      ensures r == InitReplyOf(old(Now()), min, max, made, threadStarts)
      ensures Now() == Init(old(Now()), min, max, made, threadStarts)
    {
      if initialized { return AlreadyInitialized; }
      if min < 0 || max <= 0 || min > max { return InvalidConfig; }
      lo, hi := min, max;
      var pending: seq<nat> := [];
      var i := 0;
      while i < min
        invariant 0 <= i <= min && i <= made
        invariant pending == Fresh(old(issued), i)
        invariant Now() == old(Now()).(lo := min, hi := max, issued := old(issued) + i)
      {
        if i == made {
          shut := shut + pending;
          return StartFailed;
        }
        var conn := Open();
        pending := pending + [conn];
        i := i + 1;
      }
      if !threadStarts {
        running, total := false, 0;
        shut := shut + pending;
        return StartFailed;
      }
      idle, total, running, initialized := pending, min, true, true;
      r := Ready;
    }

    method GetConnection() returns (g: Grant)
      modifies this
      ensures g == GrantOf(old(Now())) && Now() == Get(old(Now()))
    {
      var ready := !running || idle != [] || total < hi;
      if !running { return PoolClosed; }
      if !ready { return TimedOut; }
      if idle != [] {
        g := Borrowed(idle[0]);
        idle := idle[1..];
        return;
      }
      total := total + 1;
      g := MustOpen;
    }

    method FinishConnection(connects: bool) returns (g: Grant)
      modifies this
      ensures Now() == FinishGet(old(Now()), connects)
      ensures g.Borrowed? <==> connects && old(running)
      ensures g.Borrowed? ==> g.conn == old(issued)
    {
      g := PoolClosed;
      if connects {
        var conn := Open();
        if running { return Borrowed(conn); }
        shut := shut + [conn];
      }
      total := total - 1;
    }

    method ReleaseReturned(conn: nat, resets: bool)
      modifies this
      ensures Now() == Release(old(Now()), conn, resets)
    {
      if !running {
        shut := shut + [conn];
        total := total - 1;
        return;
      }
      if !resets {
        shut := shut + [conn];
        total := total - 1;
        return;
      }
      idle := idle + [conn];
    }

    method ReclaimIdle(stale: set<nat>)
      modifies this
      ensures Now() == Reclaim(old(Now()), stale)
    {
      var excess := total - lo;
      if excess > 0 {
        var i := 0;
        while i < |idle|
          invariant i >= 0
          invariant Shrink(Now(), i, excess, stale) == Reclaim(old(Now()), stale)
          decreases |idle| - i
        {
          var temp := idle[0];
          idle := idle[1..];
          if excess > 0 && temp in stale {
            shut := shut + [temp];
            excess := excess - 1;
            total := total - 1;
          } else {
            idle := idle + [temp];
          }
          i := i + 1;
        }
      }
    }

    method CheckAlive(dead: set<nat>)
      modifies this
      ensures Now() == Refresh(old(Now()), |old(idle)|, dead)
    {
      var count := |idle|;
      var i := 0;
      while i < count
        invariant 0 <= i <= count && count - i <= |idle|
        invariant Refresh(Now(), count - i, dead) == Refresh(old(Now()), count, dead)
      {
        ghost var before := Now();
        var temp := idle[0];
        idle := idle[1..];
        if temp in dead {
          var conn := Open();
          if conn in dead {
            total := total - 1;
            shut := shut + [temp, conn];
            assert Now() == ReplaceFront(before, dead);
          } else {
            idle := idle + [conn];
            shut := shut + [temp];
            assert Now() == ReplaceFront(before, dead);
          }
        } else {
          idle := idle + [temp];
          assert Now() == Rotate(before);
        }
        i := i + 1;
      }
    }

    method MaintenancePass(stale: set<nat>, dead: set<nat>) returns (ends: bool)
      modifies this
      ensures ends == MaintenanceEnds(old(Now()), stale, dead)
      ensures Now() == if old(running) then Maintain(old(Now()), stale, dead) else old(Now())
    {
      if !running { return true; }
      ReclaimIdle(stale);
      CheckAlive(dead);
      if total < lo {
        var conn := Open();
        if conn in dead {
          shut := shut + [conn];
          return true;
        }
        idle := idle + [conn];
        total := total + 1;
      }
      ends := false;
    }

    method Close()
      modifies this
      ensures Now() == Drain(old(Now()))
    {
      running := false;
      DrainStopped(old(Now()));
      while idle != []
        invariant !running && Drain(Now()) == Drain(old(Now()))
        decreases |idle|
      {
        shut := shut + [idle[0]];
        idle := idle[1..];
        total := total - 1;
      }
    }
  }

  /** Stopping before or after the queue is emptied is the same. */
  lemma {:induction false} DrainStopped(p: Pool)
    ensures Drain(p.(running := false)) == Drain(p)
    decreases |p.idle|
  {
    if p.idle != [] {
      DrainStopped(DropFront(p));
      assert DropFront(p.(running := false)) == DropFront(p).(running := false);
    }
  }
}
