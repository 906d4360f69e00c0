/** How much one maintenance pass of the connection pool reclaims. */
module PoolReclaim {
  import opened DatabasePools

  /** Of the first `i` idle connections, those the reclaim loop closes: the overdue ones, up to the excess. */
  function ClosedOf(q: seq<nat>, i: nat, excess: int, stale: set<nat>): (r: seq<nat>)
    requires i <= |q|
    ensures |r| <= i
  {
    if i == 0 then []
    else
      var c := ClosedOf(q, i - 1, excess, stale);
      if |c| < excess && q[i - 1] in stale then c + [q[i - 1]] else c
  }

  /** And those it puts back. */
  function KeptOf(q: seq<nat>, i: nat, excess: int, stale: set<nat>): (r: seq<nat>)
    requires i <= |q|
    ensures |r| + |ClosedOf(q, i, excess, stale)| == i
  {
    if i == 0 then []
    else
      var k := KeptOf(q, i - 1, excess, stale);
      if |ClosedOf(q, i - 1, excess, stale)| < excess && q[i - 1] in stale then k else k + [q[i - 1]]
  }

  /** The pool after the first `i` connections were looked at. */
  function Examined(p: Pool, i: nat, excess: int, stale: set<nat>): Pool
    requires i <= |p.idle|
  {
    var closed := ClosedOf(p.idle, i, excess, stale);
    p.(idle := p.idle[i..] + KeptOf(p.idle, i, excess, stale), shut := p.shut + closed, total := p.total - |closed|)
  }

  /** Where the loop stops: its index meets the shrunken queue for the first time. */
  ghost predicate StopsAt(q: seq<nat>, e: nat, excess: int, stale: set<nat>) {
    && e <= |q| && e + |ClosedOf(q, e, excess, stale)| >= |q|
    && forall i :: 0 <= i < e ==> i + |ClosedOf(q, i, excess, stale)| < |q|
  }

  lemma {:induction false} ExaminedNext(p: Pool, i: nat, excess: int, stale: set<nat>)
    requires i < |p.idle|
    ensures var x := Examined(p, i, excess, stale);
      && x.idle != [] && x.idle[0] == p.idle[i]
      && Examined(p, i + 1, excess, stale)
         == if |ClosedOf(p.idle, i, excess, stale)| < excess && p.idle[i] in stale then DropFront(x) else Rotate(x)
    ensures |ClosedOf(p.idle, i + 1, excess, stale)|
         == |ClosedOf(p.idle, i, excess, stale)|
            + (if |ClosedOf(p.idle, i, excess, stale)| < excess && p.idle[i] in stale then 1 else 0)
  {
    assert p.idle[i..][1..] == p.idle[i + 1..];
  }

  lemma {:induction false} ExaminedSize(p: Pool, i: nat, excess: int, stale: set<nat>)
    requires i <= |p.idle|
    ensures |Examined(p, i, excess, stale).idle| == |p.idle| - |ClosedOf(p.idle, i, excess, stale)|
  {
  }

  lemma {:induction false} ShrinkExamines(p: Pool, i: nat, excess: int, stale: set<nat>) returns (e: nat)
    requires i <= |p.idle| && forall j :: 0 <= j < i ==> j + |ClosedOf(p.idle, j, excess, stale)| < |p.idle|
    ensures StopsAt(p.idle, e, excess, stale)
    ensures Shrink(Examined(p, i, excess, stale), i, excess - |ClosedOf(p.idle, i, excess, stale)|, stale)
         == Examined(p, e, excess, stale)
    decreases |p.idle| - i
  {
    hide ClosedOf, KeptOf, Examined, DropFront, Rotate;
    ExaminedSize(p, i, excess, stale);
    if i + |ClosedOf(p.idle, i, excess, stale)| >= |p.idle| {
      e := i;
    } else {
      ExaminedNext(p, i, excess, stale);
      e := ShrinkExamines(p, i + 1, excess, stale);
    }
  }

  function Surplus(p: Pool): int { p.total - p.lo }

  /** What one reclaim pass does, for any set of overdue connections: it looks at the first `e` idle ones, closes the
      overdue among them up to the surplus, puts the others back in order and leaves the rest unseen. Because the loop
      compares its index with the shrinking queue, `e` is the first index that meets it, so at most half of the queue,
      rounded up, is ever closed. */
  lemma {:induction false} ReclaimExamines(p: Pool, stale: set<nat>) returns (e: nat)
    requires p.total > p.lo
    ensures StopsAt(p.idle, e, Surplus(p), stale)
    ensures forall d: nat :: StopsAt(p.idle, d, Surplus(p), stale) ==> d == e
    ensures Reclaim(p, stale) == Examined(p, e, Surplus(p), stale)
    ensures p.total - Reclaim(p, stale).total <= (|p.idle| + 1) / 2
  {
    var excess := p.total - p.lo;
    assert p.idle[0..] + [] == p.idle && p.shut + [] == p.shut;
    assert Examined(p, 0, excess, stale) == p;
    e := ShrinkExamines(p, 0, excess, stale);
    forall d: nat | StopsAt(p.idle, d, excess, stale)
      ensures d == e
    {
      StopsOnce(p.idle, d, e, excess, stale);
    }
    if e > 0 {
      assert e - 1 + |ClosedOf(p.idle, e - 1, excess, stale)| < |p.idle|;
    }
  }

  /** The stopping index is unique. */
  lemma StopsOnce(q: seq<nat>, d: nat, e: nat, excess: int, stale: set<nat>)
    requires StopsAt(q, d, excess, stale) && StopsAt(q, e, excess, stale)
    ensures d == e
  {
  }

  lemma {:induction false} AllClosed(q: seq<nat>, i: nat, excess: int, stale: set<nat>)
    requires i <= |q| <= excess && forall id: nat :: id in q ==> id in stale
    ensures ClosedOf(q, i, excess, stale) == q[..i] && KeptOf(q, i, excess, stale) == []
  {
    if i > 0 {
      AllClosed(q, i - 1, excess, stale);
      assert q[i - 1] in q && q[..i] == q[..i - 1] + [q[i - 1]];
    }
  }

  /** The bound is met: of n overdue and surplus connections one pass closes exactly the first half, rounded up. */
  lemma {:induction false} ReclaimHalves(p: Pool, stale: set<nat>)
    requires forall id: nat :: id in p.idle ==> id in stale
    requires p.total - p.lo >= |p.idle| > 0
    ensures var k := (|p.idle| + 1) / 2;
      Reclaim(p, stale) == p.(idle := p.idle[k..], shut := p.shut + p.idle[..k], total := p.total - k)
  {
    var excess := p.total - p.lo;
    var e := ReclaimExamines(p, stale);
    AllClosed(p.idle, e, excess, stale);
    AllClosed(p.idle, e - 1, excess, stale);
    assert e - 1 + |ClosedOf(p.idle, e - 1, excess, stale)| < |p.idle|;
    assert p.idle[e..] + [] == p.idle[e..];
  }
}
