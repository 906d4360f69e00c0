/** The service above the envelope store: its bounded retry loop, the same loop inside every run of the
    store's step system, and what it answers when a commit's acknowledgement is lost. */
module ChatService {
  import opened Bytes
  import opened EnvelopeStore

  // ------------------------------------------------ the retry loop

  /** What one attempt at saveNewMessage did: a business outcome or an exception. */
  datatype Attempt = Returned(reply: Reply) | Threw(failure: Failure)

  predicate Again(a: Attempt) { a.Threw? && Retryable(a.failure) }

  /** The call after one more attempt. */
  function AfterAttempt(c: Call, a: Attempt): Call {
    if c.phase.Done? then c
    else match a
      case Returned(reply) => c.(phase := Done(reply))
      case Threw(f) => AfterFailure(c, f)
  }

  /** The retry loop on given outcomes of its attempts. */
  function Replay(req: Request, outcomes: seq<Attempt>): Call {
    if outcomes == [] then Call(req, 0, if ValidRequest(req) then Ready else Done(InvalidRequest))
    else AfterAttempt(Replay(req, outcomes[..|outcomes| - 1]), outcomes[|outcomes| - 1])
  }

  /** The outcome of call `id`'s attempt that a step ends, if any. */
  function Ending(s: State, step: Step, id: nat): seq<Attempt> {
    match step
    case Commit(q) =>
      if q != id || q !in s.calls then []
      else if s.calls[q].phase.Inserted? then [Returned(Success(s.calls[q].phase.row))]
      else if s.calls[q].phase.Answering? then [Returned(s.calls[q].phase.reply)] else []
    case CommitLost(q, f) => if q == id then [Threw(f)] else []
    case Abort(q, f) => if q == id then [Threw(f)] else []
    case _ => []
  }

  /** The outcomes of a call's attempts in a run, in order. */
  function Outcomes(hash: Pair -> nat, steps: seq<Step>, id: nat): seq<Attempt> {
    if steps == [] then []
    else
      var front, last := steps[..|steps| - 1], steps[|steps| - 1];
      var s := Run(hash, front);
      Outcomes(hash, front, id) + (if Enabled(hash, s, last) then Ending(s, last, id) else [])
  }

  /** A call between two of its steps is where the retry loop is after the outcomes so far. */
  ghost predicate Follows(c: Call, p: Call) {
    p == if c.phase.Done? then c else c.(phase := Ready)
  }

  lemma {:induction false} ReplaySnoc(req: Request, outcomes: seq<Attempt>, a: Attempt)
    ensures Replay(req, outcomes + [a]) == AfterAttempt(Replay(req, outcomes), a)
  {
    assert (outcomes + [a])[..|outcomes|] == outcomes;
  }

  /** A step that ends no attempt of the call leaves it within the same attempt. */
  lemma {:induction false} SameAttempt(hash: Pair -> nat, s: State, step: Step, id: nat)
    requires Enabled(hash, s, step) && id in s.calls && Ending(s, step, id) == []
    ensures id in Next(hash, s, step).calls
    ensures var c, c' := s.calls[id], Next(hash, s, step).calls[id];
      c' == c || (!c.phase.Done? && !c'.phase.Done? && c' == c.(phase := c'.phase))
  {
    hide ValidRequest, MaxNumber, LookUpOutcome, Retryable, Unavailable;
    LookUpGoesOn(s.log, s.calls[id].req);
  }

  /** A step that ends an attempt does to the call what the loop does on that outcome. */
  lemma {:induction false} AttemptEnds(hash: Pair -> nat, s: State, step: Step, id: nat)
    requires Enabled(hash, s, step) && id in s.calls && Ending(s, step, id) != []
    ensures |Ending(s, step, id)| == 1 && !s.calls[id].phase.Done? && id in Next(hash, s, step).calls
    ensures var c, c' := s.calls[id], Next(hash, s, step).calls[id];
      Follows(c', AfterAttempt(c.(phase := Ready), Ending(s, step, id)[0])) && c'.req == c.req
  {
    hide ValidRequest, MaxNumber, LookUpOutcome, Retryable, Unavailable;
  }

  lemma {:induction false} EndingFollows(hash: Pair -> nat, s: State, step: Step, id: nat, outcomes: seq<Attempt>)
    requires Enabled(hash, s, step) && id in s.calls && Follows(s.calls[id], Replay(s.calls[id].req, outcomes))
    ensures id in Next(hash, s, step).calls
    ensures var c := Next(hash, s, step).calls[id];
      Follows(c, Replay(c.req, outcomes + Ending(s, step, id)))
  {
    hide Next, Enabled, Ending, Replay, AfterAttempt;
    var more := Ending(s, step, id);
    if more == [] {
      assert outcomes + more == outcomes;
      SameAttempt(hash, s, step, id);
    } else {
      AttemptEnds(hash, s, step, id);
      assert more == [more[0]];
      ReplaySnoc(s.calls[id].req, outcomes, more[0]);
    }
  }

  lemma {:induction false} LookUpGoesOn(log: seq<Envelope>, r: Request)
    ensures !LookUpOutcome(log, r).Done?
  {
  }

  /** The step system's calls run the retry loop: in every run the state of a call, and so its reply, is that of the
      loop on the outcomes its attempts had in the run; a call not yet submitted has none. */
  lemma {:induction false} CallsFollowTheLoop(hash: Pair -> nat, steps: seq<Step>, id: nat)
    ensures var s := Run(hash, steps);
      if id in s.calls then Follows(s.calls[id], Replay(s.calls[id].req, Outcomes(hash, steps, id)))
      else Outcomes(hash, steps, id) == []
  {
    hide Next, Enabled, Ending, Follows, Replay;
    if steps != [] {
      var front, last := steps[..|steps| - 1], steps[|steps| - 1];
      CallsFollowTheLoop(hash, front, id);
      LoopStep(hash, Run(hash, front), last, id, Outcomes(hash, front, id));
    }
  }

  lemma {:induction false} LoopStep(hash: Pair -> nat, s: State, step: Step, id: nat, outcomes: seq<Attempt>)
    requires id in s.calls ==> Follows(s.calls[id], Replay(s.calls[id].req, outcomes))
    requires id !in s.calls ==> outcomes == []
    ensures var t, more := Next(hash, s, step), outcomes + (if Enabled(hash, s, step) then Ending(s, step, id) else []);
      if id in t.calls then Follows(t.calls[id], Replay(t.calls[id].req, more)) else more == []
  {
    assert outcomes + [] == outcomes;
    if Enabled(hash, s, step) && id in s.calls { EndingFollows(hash, s, step, id, outcomes); }
  }

  function Taken(attempts: nat -> Attempt, n: nat): seq<Attempt> {
    if n == 0 then [] else Taken(attempts, n - 1) + [attempts(n - 1)]
  }

  lemma {:induction false} ReplayNext(req: Request, attempts: nat -> Attempt, n: nat)
    ensures Replay(req, Taken(attempts, n + 1)) == AfterAttempt(Replay(req, Taken(attempts, n)), attempts(n))
  {
    ReplaySnoc(req, Taken(attempts, n), attempts(n));
  }

  lemma {:induction false} ReplayStart(req: Request, attempts: nat -> Attempt)
    ensures Replay(req, Taken(attempts, 0)) == Call(req, 0, if ValidRequest(req) then Ready else Done(InvalidRequest))
  {
  }

  /** ChatService::newTextMessage; `attempts` is what the database would answer to each attempt. */
  method NewTextMessage(req: Request, attempts: nat -> Attempt) returns (reply: Reply, used: nat)
    ensures used <= 3 && (used == 0 <==> !ValidRequest(req)) && (used == 0 ==> reply == InvalidRequest)
    ensures forall i :: 0 <= i < used - 1 ==> Again(attempts(i))
    ensures used > 0 && Again(attempts(used - 1)) ==> used == 3 && reply == RetryLater
    ensures used > 0 && attempts(used - 1).Returned? ==> reply == attempts(used - 1).reply
    ensures used > 0 && attempts(used - 1).Threw? ==>
      Done(reply) == AfterFailure(Call(req, used - 1, Ready), attempts(used - 1).failure).phase
    ensures Replay(req, Taken(attempts, used)).phase == Done(reply)
  {
    hide ValidRequest, Replay, Taken, Retryable, Unavailable;
    ReplayStart(req, attempts);
    if !ValidRequest(req) { return InvalidRequest, 0; }
    used := 0;
    while used < 3
      invariant used < 3 && forall i :: 0 <= i < used ==> Again(attempts(i))
      invariant Replay(req, Taken(attempts, used)) == Call(req, used, Ready)
    {
      ReplayNext(req, attempts, used);
      var a := attempts(used);
      used := used + 1;
      match a
      case Returned(r) => return r, used;
      case Threw(f) =>
        if Retryable(f) {
          if used < 3 { continue; }
          return RetryLater, used;
        }
        if Unavailable(f) { return DatabaseUnavailable, used; }
        return InternalError, used;
    }
    return RetryLater, used;
  }

  // ------------------------------------------------ a lost acknowledgement

  /** What libpq reports when the connection breaks before COMMIT is answered. */
  const CONNECTION_LOST: Failure := DatabaseFailure(QueryError, "QUERY_FAILED", Some(""))

  /** A call whose commit took effect but was not acknowledged answers "database unavailable" exactly when the
      failure is recognised as one of the connection and is not retried; the row is stored either way. */
  lemma {:induction false} LostAcknowledgement(hash: Pair -> nat, s: State, id: nat, f: Failure)
    requires id in s.calls && s.calls[id].phase.Inserted?
    ensures var t := Next(hash, s, CommitLost(id, f));
      && t.log == s.log + [s.calls[id].phase.row]
      && (t.calls[id].phase == Done(DatabaseUnavailable) <==> Unavailable(f) && !Retryable(f))
  {
    hide Retryable, Unavailable;
  }

  /** The call's row is committed though it was told otherwise: from here it can only find that row again. */
  ghost predicate StoredUnknown(s: State, id: nat, row: Envelope) {
    && id in s.calls && row in s.log && Answers(row, s.calls[id].req)
    && match s.calls[id].phase
       case Missed => false
       case Inserted(_) => false
       case Answering(reply) => reply == PermissionDenied || reply == Duplicate(row)
       case Done(reply) => !reply.Success? && !reply.Conflict? && (reply.Duplicate? ==> reply == Duplicate(row))
       case _ => true
  }

  lemma {:induction false} FindsRow(log: seq<Envelope>, row: Envelope, r: Request)
    requires Distinct(log) && row in log && Answers(row, r)
    ensures LookUpOutcome(log, r) == Answering(Duplicate(row))
  {
    var found := Find(log, RequestKey(r));
    assert found.Some?;
    var i :| 0 <= i < |log| && log[i] == row;
    var j :| 0 <= j < |log| && log[j] == found.value;
  }

  lemma {:induction false} StoredUnknownNext(hash: Pair -> nat, s: State, step: Step, id: nat, row: Envelope)
    requires Inv(hash, s) && StoredUnknown(s, id, row)
    ensures StoredUnknown(Next(hash, s, step), id, row)
  {
    hide LookUpOutcome, ValidRequest, MaxNumber, Numbered;
    FindsRow(s.log, row, s.calls[id].req);
    var t := Next(hash, s, step);
    assert row in t.log;
  }

  lemma {:induction false} StoredUnknownStays(hash: Pair -> nat, steps: seq<Step>, more: seq<Step>, id: nat,
                                              row: Envelope)
    requires StoredUnknown(Run(hash, steps), id, row)
    ensures StoredUnknown(Run(hash, steps + more), id, row)
  {
    hide StoredUnknown, Next, Inv;
    if more == [] {
      assert steps + more == steps;
    } else {
      var front, last := more[..|more| - 1], more[|more| - 1];
      StoredUnknownStays(hash, steps, front, id, row);
      assert (steps + more)[..|steps + more| - 1] == steps + front;
      RunKeeps(hash, steps + front);
      StoredUnknownNext(hash, Run(hash, steps + front), last, id, row);
    }
  }

  /** A lost acknowledgement in every run: whatever happens after it, retries included, the call never answers Success
      or Conflict, writes no second row, and a completed lookup of it answers Duplicate with the row it stored. */
  lemma {:induction false} LostCommitIsFoundAgain(hash: Pair -> nat, steps: seq<Step>, id: nat, f: Failure,
                                                  more: seq<Step>)
    requires var s := Run(hash, steps); id in s.calls && s.calls[id].phase.Inserted?
    ensures var row := Run(hash, steps).calls[id].phase.row;
      var t := Run(hash, steps + [CommitLost(id, f)] + more);
      && id in t.calls && row in t.log && !t.calls[id].phase.Inserted?
      && (t.calls[id].phase.Answering? ==> t.calls[id].phase.reply in {PermissionDenied, Duplicate(row)})
      && (t.calls[id].phase.Done? ==>
            var reply := t.calls[id].phase.reply;
            !reply.Success? && !reply.Conflict? && (reply.Duplicate? ==> reply == Duplicate(row)))
  {
    hide Run;
    var s := Run(hash, steps);
    RunKeeps(hash, steps);
    assert CallOk(s.log, s.calls[id]);
    OneMore(hash, steps, CommitLost(id, f));
    StoredUnknownStays(hash, steps + [CommitLost(id, f)], more, id, s.calls[id].phase.row);
  }

  /** The saving steps of one call. */
  function SaveSteps(req: Request, envelopeId: Uuid): seq<Step> {
    [Submit(0, req), Begin(0), LockPair(0), Authorize(0, true), LookUp(0), Insert(0, envelopeId)]
  }

  lemma {:induction false} OneMore(hash: Pair -> nat, steps: seq<Step>, step: Step)
    ensures Run(hash, steps + [step]) == Next(hash, Run(hash, steps), step)
  {
    assert (steps + [step])[..|steps|] == steps;
  }

  /** The only call, before its commit. */
  function Alone(req: Request, phase: Phase): State { State([], map[0 := Call(req, 0, phase)]) }

  lemma {:induction false} AloneSteps(hash: Pair -> nat, req: Request, envelopeId: Uuid)
    requires ValidRequest(req)
    ensures Next(hash, EMPTY, Submit(0, req)) == Alone(req, Ready)
    ensures Next(hash, Alone(req, Ready), Begin(0)) == Alone(req, Begun)
    ensures Next(hash, Alone(req, Begun), LockPair(0)) == Alone(req, Locked)
    ensures Next(hash, Alone(req, Locked), Authorize(0, true)) == Alone(req, Authorized)
    ensures Next(hash, Alone(req, Authorized), LookUp(0)) == Alone(req, Missed)
    ensures Next(hash, Alone(req, Missed), Insert(0, envelopeId)) == Alone(req, Inserted(Answer(req, envelopeId, 1)))
  {
    hide ValidRequest;
  }

  lemma {:induction false} SavedAlone(hash: Pair -> nat, req: Request, envelopeId: Uuid)
    requires ValidRequest(req)
    ensures Run(hash, SaveSteps(req, envelopeId)) == Alone(req, Inserted(Answer(req, envelopeId, 1)))
  {
    hide Next, ValidRequest, Alone;
    var e := SaveSteps(req, envelopeId);
    AloneSteps(hash, req, envelopeId);
    assert e[..0] == [];
    forall i | 0 <= i < |e|
      ensures Run(hash, e[..i + 1]) == Next(hash, Run(hash, e[..i]), e[i])
    {
      OneMore(hash, e[..i], e[i]);
      assert e[..i] + [e[i]] == e[..i + 1];
    }
    assert Run(hash, e[..1]) == Next(hash, Run(hash, e[..0]), e[0]);
    assert Run(hash, e[..2]) == Next(hash, Run(hash, e[..1]), e[1]);
    assert Run(hash, e[..3]) == Next(hash, Run(hash, e[..2]), e[2]);
    assert Run(hash, e[..4]) == Next(hash, Run(hash, e[..3]), e[3]);
    assert Run(hash, e[..5]) == Next(hash, Run(hash, e[..4]), e[4]);
    assert Run(hash, e[..6]) == Next(hash, Run(hash, e[..5]), e[5]);
    assert e[..6] == e;
  }

  /** The documented reply is not always given: with the code libpq reports, a stored message is answered as an
      internal error. */
  lemma {:induction false} LostAcknowledgementRun(hash: Pair -> nat, req: Request, envelopeId: Uuid)
    requires ValidRequest(req)
    ensures var s := Run(hash, SaveSteps(req, envelopeId) + [CommitLost(0, CONNECTION_LOST)]);
      s.log == [Answer(req, envelopeId, 1)] && 0 in s.calls && s.calls[0].phase == Done(InternalError)
  {
    hide Run, ValidRequest;
    SavedAlone(hash, req, envelopeId);
    OneMore(hash, SaveSteps(req, envelopeId), CommitLost(0, CONNECTION_LOST));
    assert "QUERY_FAILED"[0] == 'Q';
  }
}
