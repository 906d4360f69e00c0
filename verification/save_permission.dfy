/** Who may store what: the permission check of a save over whole runs, the limits of every stored envelope, the pairs
    that share a numbering, and the failures a save retries or reports. */
module SavePermission {
  import opened Bytes
  import opened EnvelopeStore
  import ChatService

  /** A device pair has no direction. */
  lemma PairIsUnordered(a: Uuid, b: Uuid, c: Uuid, d: Uuid)
    ensures PairOf(a, b) == PairOf(c, d) <==> (a == c && b == d) || (a == d && b == c)
  {
  }

  // ------------------------------------------------ permission

  /** In the run some permission check of the call succeeded. */
  function Permitted(hash: Pair -> nat, steps: seq<Step>, id: nat): bool {
    if steps == [] then false
    else
      var front, last := steps[..|steps| - 1], steps[|steps| - 1];
      Permitted(hash, front, id) || (last == Authorize(id, true) && Enabled(hash, Run(hash, front), last))
  }

  /** Where a call can be that has not been permitted: before the check, refused, or failed. */
  predicate Unprivileged(p: Phase) {
    match p
    case Ready => true
    case Begun => true
    case Locked => true
    case Answering(reply) => reply == PermissionDenied
    case Done(reply) => reply in {InvalidRequest, PermissionDenied, RetryLater, DatabaseUnavailable, InternalError}
    case _ => false
  }

  lemma {:induction false} UnprivilegedNext(hash: Pair -> nat, s: State, step: Step, id: nat)
    requires id in s.calls ==> Unprivileged(s.calls[id].phase)
    requires !(step == Authorize(id, true) && Enabled(hash, s, step))
    ensures var t := Next(hash, s, step); id in t.calls ==> Unprivileged(t.calls[id].phase)
  {
    hide ValidRequest, LookUpOutcome, MaxNumber, Retryable, Unavailable;
  }

  /** A call that was never permitted stays before the check, refused or failed: it finds and inserts nothing and never
      answers Success, Duplicate or Conflict. */
  lemma {:induction false} WithoutPermission(hash: Pair -> nat, steps: seq<Step>, id: nat)
    requires !Permitted(hash, steps, id) && id in Run(hash, steps).calls
    ensures Unprivileged(Run(hash, steps).calls[id].phase)
  {
    hide Next, Enabled;
    if steps != [] {
      var front, last := steps[..|steps| - 1], steps[|steps| - 1];
      if id in Run(hash, front).calls { WithoutPermission(hash, front, id); }
      UnprivilegedNext(hash, Run(hash, front), last, id);
    }
  }

  /** Call `id` was permitted in the run and asked for exactly this row. */
  ghost predicate StoredBy(hash: Pair -> nat, steps: seq<Step>, id: nat, row: Envelope) {
    && id in Run(hash, steps).calls && Permitted(hash, steps, id)
    && ValidRequest(Run(hash, steps).calls[id].req) && Answers(row, Run(hash, steps).calls[id].req)
  }

  lemma {:induction false} RequestStays(hash: Pair -> nat, s: State, step: Step, id: nat)
    requires id in s.calls
    ensures id in Next(hash, s, step).calls && Next(hash, s, step).calls[id].req == s.calls[id].req
  {
    hide ValidRequest, LookUpOutcome, MaxNumber, Retryable, Unavailable;
  }

  /** A step stores at most the row that its own call inserted. */
  lemma {:induction false} StoresOwnRow(hash: Pair -> nat, s: State, step: Step)
    ensures var log := Next(hash, s, step).log;
      || log == s.log
      || (step.id in s.calls && s.calls[step.id].phase.Inserted? && log == s.log + [s.calls[step.id].phase.row])
  {
    hide ValidRequest, LookUpOutcome, MaxNumber, Retryable, Unavailable;
  }

  /** Every stored envelope was asked for by a valid request whose permission check succeeded. */
  lemma {:induction false} RowsNeedPermission(hash: Pair -> nat, steps: seq<Step>, i: nat) returns (id: nat)
    requires i < |Run(hash, steps).log|
    ensures StoredBy(hash, steps, id, Run(hash, steps).log[i])
  {
    hide Next, Enabled, ValidRequest, Inv;
    var front, last := steps[..|steps| - 1], steps[|steps| - 1];
    var s := Run(hash, front);
    StoresOwnRow(hash, s, last);
    if i < |s.log| {
      id := RowsNeedPermission(hash, front, i);
    } else {
      id := last.id;
      OwnRowPermitted(hash, front, id);
    }
    RequestStays(hash, s, last, id);
  }

  lemma {:induction false} OwnRowPermitted(hash: Pair -> nat, steps: seq<Step>, id: nat)
    requires id in Run(hash, steps).calls && Run(hash, steps).calls[id].phase.Inserted?
    ensures StoredBy(hash, steps, id, Run(hash, steps).calls[id].phase.row)
  {
    hide ValidRequest;
    if !Permitted(hash, steps, id) { WithoutPermission(hash, steps, id); }
    RunKeeps(hash, steps);
    assert CallOk(Run(hash, steps).log, Run(hash, steps).calls[id]);
  }

  lemma {:induction false} OtherCallStays(hash: Pair -> nat, s: State, step: Step, id: nat)
    requires id in s.calls && step.id != id
    ensures id in Next(hash, s, step).calls && Next(hash, s, step).calls[id] == s.calls[id]
  {
    hide ValidRequest, LookUpOutcome, MaxNumber, Retryable, Unavailable;
  }

  lemma {:induction false} OtherCallsStay(hash: Pair -> nat, steps: seq<Step>, more: seq<Step>, id: nat)
    requires id in Run(hash, steps).calls && forall k :: 0 <= k < |more| ==> more[k].id != id
    ensures id in Run(hash, steps + more).calls && Run(hash, steps + more).calls[id] == Run(hash, steps).calls[id]
  {
    hide Next;
    if more == [] {
      assert steps + more == steps;
    } else {
      var front, last := more[..|more| - 1], more[|more| - 1];
      OtherCallsStay(hash, steps, front, id);
      assert (steps + more)[..|steps + more| - 1] == steps + front;
      OtherCallStays(hash, Run(hash, steps + front), last, id);
    }
  }

  /** A refused attempt: whatever other calls do meanwhile, its commit stores nothing and answers PermissionDenied. */
  lemma {:induction false} DeniedAnswers(hash: Pair -> nat, steps: seq<Step>, id: nat, more: seq<Step>)
    requires Enabled(hash, Run(hash, steps), Authorize(id, false))
    requires forall k :: 0 <= k < |more| ==> more[k].id != id
    ensures var s := Run(hash, steps + [Authorize(id, false)] + more);
      var t := Run(hash, steps + [Authorize(id, false)] + more + [Commit(id)]);
      t.log == s.log && id in t.calls && t.calls[id].phase == Done(PermissionDenied)
  {
    hide Run;
    ChatService.OneMore(hash, steps, Authorize(id, false));
    OtherCallsStay(hash, steps + [Authorize(id, false)], more, id);
    ChatService.OneMore(hash, steps + [Authorize(id, false)] + more, Commit(id));
  }

  // ------------------------------------------------ limits

  /** What a request must be. */
  lemma ValidMeans(r: Request)
    ensures ValidRequest(r) <==>
      && r.user != 0 && r.sender != 0 && r.recipient != 0 && r.messageId != 0 && r.sender != r.recipient
      && |r.packet| >= 1 && |r.packet| <= 65536 && |r.version| <= 128
      && exists i :: 0 <= i < |r.version| && r.version[i] !in {' ', '\t', '\r', '\n'}
  {
    forall i | 0 <= i < |r.version|
      ensures Blank(r.version[i]) <==> r.version[i] in {' ', '\t', '\r', '\n'}
    {
    }
  }

  /** So every envelope ever stored has two different devices and an id from its sender, and 1 to 65536 bytes under a
      version of at most 128 characters that is not blank. */
  lemma {:induction false} StoredLimits(hash: Pair -> nat, steps: seq<Step>, i: nat)
    requires i < |Run(hash, steps).log|
    ensures var e := Run(hash, steps).log[i];
      && e.sender != 0 && e.recipient != 0 && e.messageId != 0 && e.sender != e.recipient
      && 1 <= |e.packet| <= 65536 && |e.version| <= 128
      && exists k :: 0 <= k < |e.version| && e.version[k] !in {' ', '\t', '\r', '\n'}
  {
    hide Run, ValidRequest;
    var id := RowsNeedPermission(hash, steps, i);
    ValidMeans(Run(hash, steps).calls[id].req);
  }

  // ------------------------------------------------ failures

  /** Which failures are retried: serialisation failure, deadlock, and a collision of envelope ids. */
  lemma RetryMeans(kind: ErrorKind, code: string, constraint: Option<string>)
    ensures Retryable(DatabaseFailure(kind, "40001", constraint))
    ensures Retryable(DatabaseFailure(kind, "40P01", constraint))
    ensures Retryable(DatabaseFailure(kind, "23505", constraint)) <==> constraint == Some("message_envelopes_pkey")
    ensures code !in {"40001", "40P01", "23505"} ==> !Retryable(DatabaseFailure(kind, code, constraint))
    ensures !Retryable(OtherFailure)
  {
    DifferentCodes();
  }

  lemma DifferentCodes()
    ensures "23505" != "40001" && "23505" != "40P01"
  {
    assert "23505"[0] == '2' && "40001"[0] == '4' && "40P01"[0] == '4';
  }

  /** Which failures mean that the database is unavailable: those of a connection, and every code of class 08. */
  lemma UnavailableMeans(kind: ErrorKind, code: string, constraint: Option<string>)
    ensures Unavailable(DatabaseFailure(kind, code, constraint)) <==>
      kind == ConnectionError || (|code| >= 2 && code[0] == '0' && code[1] == '8')
    ensures !Unavailable(OtherFailure)
  {
    if |code| >= 2 && code[0] == '0' && code[1] == '8' { assert code[..2] == "08"; }
  }

  /** What a failure does to a call: retried up to two times, then "retry later"; reported as unavailable or
      internal. */
  lemma FailureReplies(c: Call, f: Failure)
    requires c.attempt <= 2
    ensures var t := AfterFailure(c, f);
      && t.req == c.req
      && (Retryable(f) && c.attempt < 2 ==> t.attempt == c.attempt + 1 && t.phase == Ready)
      && (Retryable(f) && c.attempt == 2 ==> t.phase == Done(RetryLater))
      && (!Retryable(f) && Unavailable(f) ==> t.phase == Done(DatabaseUnavailable))
      && (!Retryable(f) && !Unavailable(f) ==> t.phase == Done(InternalError))
  {
    hide Retryable, Unavailable;
  }
}
