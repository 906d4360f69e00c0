/** What borrowers get from the connection pool: when a request is served, what happens to a returned connection, what
    starting does, and what a maintenance pass leaves alone. */
module PoolService {
  import opened DatabasePools

  /** In every reachable state a stopped pool serves nobody; a running one refuses exactly when as many
      connections as the maximum are lent or being opened, lends the connection at the front of the queue if there
      is one, and otherwise lets the borrower open one. */
  lemma {:induction false} ServedUnlessFull(steps: seq<Step>)
    ensures var s := Run(START, steps); var g := GrantOf(s.pool);
      && (g == PoolClosed <==> !s.pool.running)
      && (s.pool.running ==> (g == TimedOut <==> |s.leased| + s.creating == s.pool.hi))
      && (s.pool.running && s.pool.idle != [] ==> g == Borrowed(s.pool.idle[0]))
      && (s.pool.running && s.pool.idle == [] && |s.leased| + s.creating < s.pool.hi ==> g == MustOpen)
  {
    RunKeeps(START, steps);
  }

  /** A returned connection goes to the end of the queue exactly if the pool runs and its reset succeeded;
      otherwise it is closed and no longer counted. */
  lemma ReleaseFate(p: Pool, conn: nat, resets: bool)
    ensures var r := Release(p, conn, resets);
      if p.running && resets then r == p.(idle := p.idle + [conn])
      else r.idle == p.idle && r.shut == p.shut + [conn] && r.total == p.total - 1
  {
  }

  lemma {:induction false} ShrinkShuts(p: Pool, i: nat, excess: int, stale: set<nat>)
    ensures p.shut <= Shrink(p, i, excess, stale).shut
    decreases |p.idle| - i
  {
    if i < |p.idle| {
      if excess > 0 && p.idle[0] in stale {
        ShrinkShuts(DropFront(p), i + 1, excess - 1, stale);
      } else {
        ShrinkShuts(Rotate(p), i + 1, excess, stale);
      }
    }
  }

  lemma {:induction false} RefreshShuts(p: Pool, count: nat, dead: set<nat>)
    requires count <= |p.idle|
    ensures p.shut <= Refresh(p, count, dead).shut
    decreases count
  {
    if count > 0 {
      RefreshShuts(if p.idle[0] in dead then ReplaceFront(p, dead) else Rotate(p), count - 1, dead);
    }
  }

  lemma {:induction false} DrainShuts(p: Pool)
    ensures p.shut <= Drain(p).shut
    decreases |p.idle|
  {
    if p.idle != [] { DrainShuts(DropFront(p)); }
  }

  lemma {:induction false} ShutGrows(s: State, e: Step)
    ensures s.pool.shut <= Next(s, e).pool.shut
  {
    if Enabled(s, e) {
      match e
      case MaintainStep(stale, dead) =>
        var q := Reclaim(s.pool, stale);
        if s.pool.total > s.pool.lo { ShrinkShuts(s.pool, 0, s.pool.total - s.pool.lo, stale); }
        RefreshShuts(q, |q.idle|, dead);
      case CloseStep(_) => DrainShuts(s.pool);
      case _ =>
    }
  }

  lemma {:induction false} ShutStays(s: State, steps: seq<Step>)
    ensures s.pool.shut <= Run(s, steps).pool.shut
    decreases |steps|
  {
    if steps != [] {
      ShutGrows(s, steps[0]);
      ShutStays(Next(s, steps[0]), steps[1..]);
    }
  }

  /** A connection returned with a failed reset, or to a stopped pool, is closed and never idle or lent again. */
  lemma {:induction false} BadReturnIsFinal(before: seq<Step>, conn: nat, resets: bool, after: seq<Step>)
    requires conn in Run(START, before).leased && !(resets && Run(START, before).pool.running)
    ensures var s := Run(Next(Run(START, before), ReleaseStep(conn, resets)), after);
      conn in s.pool.shut && conn !in s.pool.idle && conn !in s.leased
  {
    hide Run;
    RunKeeps(START, before);
    var s1 := Next(Run(START, before), ReleaseStep(conn, resets));
    NextKeeps(Run(START, before), ReleaseStep(conn, resets));
    assert s1.pool.shut[|s1.pool.shut| - 1] == conn;
    RunKeeps(s1, after);
    ShutStays(s1, after);
    var s := Run(s1, after);
    assert Places(s.pool, s.leased, conn) <= 1;
    assert multiset(s.pool.shut)[conn] >= 1;
  }

  /** Starting succeeds exactly once, with 0 <= minimum <= maximum and a positive maximum, if every first connection and
      the maintenance thread come up; then the minimum is idle. */
  lemma {:induction false} InitMeans(p: Pool, lo: int, hi: int, made: nat, threadStarts: bool)
    ensures var r := InitReplyOf(p, lo, hi, made, threadStarts);
      && (r == Ready <==> !p.initialized && 0 <= lo <= hi && hi >= 1 && made >= lo && threadStarts)
      && (r == AlreadyInitialized <==> p.initialized)
      && (r == InvalidConfig <==> !p.initialized && !(0 <= lo <= hi && hi >= 1))
    ensures var q := Init(p, lo, hi, made, threadStarts);
      && (InitReplyOf(p, lo, hi, made, threadStarts) == Ready ==>
            q.running && q.initialized && |q.idle| == lo == q.total && q.lo == lo && q.hi == hi)
      && (p.initialized ==> q == p)
      && (q.initialized <==> p.initialized || InitReplyOf(p, lo, hi, made, threadStarts) == Ready)
  {
  }

  /** A pass keeps every idle connection that it found alive and did not reclaim. */
  lemma {:induction false} AliveStays(p: Pool, count: nat, dead: set<nat>, id: nat)
    requires count <= |p.idle| && id in p.idle && id !in dead
    ensures id in Refresh(p, count, dead).idle
    decreases count
  {
    if count > 0 {
      assert p.idle == [p.idle[0]] + p.idle[1..];
      AliveStays(if p.idle[0] in dead then ReplaceFront(p, dead) else Rotate(p), count - 1, dead, id);
    }
  }

  lemma {:induction false} AllAlive(p: Pool, count: nat)
    requires count <= |p.idle|
    ensures Refresh(p, count, {}) == p.(idle := p.idle[count..] + p.idle[..count])
    decreases count
  {
    if count == 0 {
      assert p.idle[0..] + p.idle[..0] == p.idle;
    } else {
      var q := Rotate(p);
      AllAlive(q, count - 1);
      assert q.idle[count - 1..] + q.idle[..count - 1] == p.idle[count..] + p.idle[..count];
    }
  }

  /** With every connection alive a pass only reclaims, and opens exactly one connection when the pool is below its
      minimum. */
  lemma {:induction false} HealthyPass(p: Pool, stale: set<nat>)
    ensures var q, r := Reclaim(p, stale), Maintain(p, stale, {});
      r == if q.total < q.lo then q.(idle := q.idle + [q.issued], issued := q.issued + 1, total := q.total + 1) else q
  {
    hide Reclaim;
    var q := Reclaim(p, stale);
    AllAlive(q, |q.idle|);
    assert q.idle[|q.idle|..] + q.idle[..|q.idle|] == q.idle;
  }

  /** As long as new connections come up alive, replacing dead ones keeps the size of the pool. */
  lemma {:induction false} ReplacementKeepsSize(p: Pool, count: nat, dead: set<nat>)
    requires count <= |p.idle| && forall id: nat :: id in dead ==> id < p.issued
    ensures var r := Refresh(p, count, dead); |r.idle| == |p.idle| && r.total == p.total
    decreases count
  {
    if count > 0 {
      ReplacementKeepsSize(if p.idle[0] in dead then ReplaceFront(p, dead) else Rotate(p), count - 1, dead);
    }
  }

  /** The maintenance thread ends exactly when the pool has stopped, or the pool is still below its minimum after the
      checks and the connection opened for it is dead; a pass that ends so has not grown the pool. */
  lemma {:induction false} LastPass(p: Pool, stale: set<nat>, dead: set<nat>)
    ensures !p.running ==> MaintenanceEnds(p, stale, dead)
    ensures p.running && MaintenanceEnds(p, stale, dead) ==>
      var r := Maintain(p, stale, dead); r.total < r.lo && r.issued > 0 && r.issued - 1 in dead
    ensures p.running && !MaintenanceEnds(p, stale, dead) ==>
      var q := Reclaim(p, stale);
      var m, r := Refresh(q, |q.idle|, dead), Maintain(p, stale, dead);
      r.total >= r.lo || r.total == m.total + 1
  {
    hide Reclaim, Refresh;
  }
}
