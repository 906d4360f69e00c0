/** Envelope storage as a step system of concurrent transactions.

    A call of ChatService::newTextMessage makes up to three attempts, each one
    a transaction of EnvelopeRepository::saveNewMessage. PostgreSQL is a small
    trusted semantics: a statement reads the rows committed when it runs, the
    advisory pair lock is held to the end of the transaction, and a transaction
    may be aborted, or committed with the acknowledgement lost, at any point.
    The unique indexes on the retry key and on the pair number are NOT part of
    that semantics: the lock protocol alone is shown to keep them. */
module EnvelopeStore {
  import opened Bytes
  import opened PacketCodec

  type Uuid = nat // 0 is the nil UUID

  datatype Envelope = Envelope(id: Uuid, messageId: Uuid, sender: Uuid, recipient: Uuid,
                               version: string, packet: seq<byte>, number: nat)

  datatype Request = Request(user: Uuid, sender: Uuid, recipient: Uuid, messageId: Uuid,
                             version: string, packet: seq<byte>)

  // ------------------------------------------------ device pairs and numbers

  datatype Pair = Pair(low: Uuid, high: Uuid)

  /** LEAST and GREATEST: both directions share one pair. */
  function PairOf(a: Uuid, b: Uuid): (p: Pair) {
    if a <= b then Pair(a, b) else Pair(b, a)
  }

  function EnvelopePair(e: Envelope): Pair {
    PairOf(e.sender, e.recipient)
  }

  /** The committed envelopes of one pair, in commit order. */
  function OfPair(log: seq<Envelope>, p: Pair): (r: seq<Envelope>) {
    if log == [] then []
    else
      var last := log[|log| - 1];
      if EnvelopePair(last) == p then OfPair(log[..|log| - 1], p) + [last] else OfPair(log[..|log| - 1], p)
  }

  /** COALESCE(MAX(seq), 0) over the pair. */
  function MaxNumber(log: seq<Envelope>, p: Pair): (n: nat) {
    if log == [] then 0
    else
      var last, m := log[|log| - 1], MaxNumber(log[..|log| - 1], p);
      if EnvelopePair(last) == p && last.number > m then last.number else m
  }

  ghost predicate Numbered(log: seq<Envelope>) {
    forall p: Pair, i: nat :: i < |OfPair(log, p)| ==> OfPair(log, p)[i].number == i + 1
  }

  lemma {:induction false} NumberedPrefix(log: seq<Envelope>)
    requires Numbered(log) && log != []
    ensures Numbered(log[..|log| - 1])
  {
    var front := log[..|log| - 1];
    forall p: Pair, i: nat | i < |OfPair(front, p)|
      ensures OfPair(front, p)[i].number == i + 1
    {
      assert OfPair(log, p)[i] == OfPair(front, p)[i];
    }
  }

  /** Under gap-free numbering MAX is the number of envelopes of the pair. */
  lemma {:induction false} MaxIsCount(log: seq<Envelope>, p: Pair)
    requires Numbered(log)
    ensures MaxNumber(log, p) == |OfPair(log, p)|
  {
    if log != [] {
      NumberedPrefix(log);
      MaxIsCount(log[..|log| - 1], p);
      if EnvelopePair(log[|log| - 1]) == p {
        assert OfPair(log, p)[|OfPair(log, p)| - 1] == log[|log| - 1];
      }
    }
  }

  lemma {:induction false} OfPairMember(log: seq<Envelope>, i: nat) returns (k: nat)
    requires i < |log|
    ensures var p := EnvelopePair(log[i]); k < |OfPair(log, p)| && OfPair(log, p)[k] == log[i]
  {
    var p := EnvelopePair(log[i]);
    if i == |log| - 1 {
      k := |OfPair(log, p)| - 1;
    } else {
      k := OfPairMember(log[..|log| - 1], i);
    }
  }

  // ------------------------------------------------ retry keys

  datatype Key = Key(sender: Uuid, recipient: Uuid, messageId: Uuid)

  function KeyOf(e: Envelope): Key { Key(e.sender, e.recipient, e.messageId) }

  function RequestKey(r: Request): Key { Key(r.sender, r.recipient, r.messageId) }

  ghost predicate Absent(log: seq<Envelope>, k: Key) {
    forall i :: 0 <= i < |log| ==> KeyOf(log[i]) != k
  }

  ghost predicate IdUnused(log: seq<Envelope>, id: Uuid) {
    forall i :: 0 <= i < |log| ==> log[i].id != id
  }

  predicate UsesId(log: seq<Envelope>, id: Uuid) {
    exists i :: 0 <= i < |log| && log[i].id == id
  }

  ghost predicate Distinct(log: seq<Envelope>) {
    forall i, j :: 0 <= i < j < |log| ==> KeyOf(log[i]) != KeyOf(log[j]) && log[i].id != log[j].id
  }

  /** The idempotency lookup. */
  function Find(log: seq<Envelope>, k: Key): (r: Option<Envelope>)
    ensures r.Some? ==> r.value in log && KeyOf(r.value) == k
    ensures r.None? ==> Absent(log, k)
  {
    if log == [] then None
    else if KeyOf(log[|log| - 1]) == k then Some(log[|log| - 1])
    else
      var r := Find(log[..|log| - 1], k);
      assert r.Some? ==> r.value in log;
      assert r.None? ==> forall i :: 0 <= i < |log| - 1 ==> log[i] == log[..|log| - 1][i];
      r
  }

  // ------------------------------------------------ requests and outcomes

  predicate Blank(c: char) { c == ' ' || c == '\t' || c == '\r' || c == '\n' }

  predicate ValidRequest(r: Request) {
    && r.user != 0 && r.sender != 0 && r.messageId != 0 && r.recipient != 0 && r.sender != r.recipient
    && 1 <= |r.packet| <= MAX_PACKET
    && |r.version| <= 128
    && exists i :: 0 <= i < |r.version| && !Blank(r.version[i])
  }

  datatype ErrorKind = ConnectionError | QueryError | ConstraintError | ConversionError

  datatype Failure =
    | DatabaseFailure(kind: ErrorKind, code: string, constraint: Option<string>)
    | OtherFailure

  datatype Reply =
    | Success(envelope: Envelope)
    | Duplicate(envelope: Envelope)
    | InvalidRequest
    | PermissionDenied
    | Conflict
    | DatabaseUnavailable
    | RetryLater
    | InternalError

  predicate Retryable(f: Failure) {
    && f.DatabaseFailure?
    && (f.code == "40001" || f.code == "40P01"
        || (f.code == "23505" && f.constraint == Some("message_envelopes_pkey")))
  }

  predicate Unavailable(f: Failure) {
    f.DatabaseFailure? && (f.kind.ConnectionError? || "08" <= f.code)
  }

  datatype Phase =
    | Ready                      // between attempts
    | Begun                      // transaction open, no lock yet
    | Locked                     // pair lock held
    | Authorized                 // device and friendship rows locked and checked
    | Missed                     // the lookup found no row
    | Inserted(row: Envelope)    // row written, not committed
    | Answering(reply: Reply)    // business outcome fixed, not committed
    | Done(reply: Reply)

  datatype Call = Call(req: Request, attempt: nat, phase: Phase)

  datatype State = State(log: seq<Envelope>, calls: map<nat, Call>)

  datatype Step =
    | Submit(id: nat, req: Request)
    | Begin(id: nat)
    | LockPair(id: nat)
    | Authorize(id: nat, permitted: bool)
    | LookUp(id: nat)
    | Insert(id: nat, envelopeId: Uuid)
    | Commit(id: nat)
    | CommitLost(id: nat, failure: Failure)
    | Abort(id: nat, failure: Failure)

  predicate InTransaction(c: Call) { !c.phase.Ready? && !c.phase.Done? }

  predicate HoldsLock(c: Call) { InTransaction(c) && !c.phase.Begun? }

  function LockKey(hash: Pair -> nat, r: Request): nat { hash(PairOf(r.sender, r.recipient)) }

  /** The retry loop's reaction to an exception. */
  function AfterFailure(c: Call, f: Failure): Call {
    if Retryable(f) then
      if c.attempt < 2 then c.(attempt := c.attempt + 1, phase := Ready) else c.(phase := Done(RetryLater))
    else if Unavailable(f) then c.(phase := Done(DatabaseUnavailable))
    else c.(phase := Done(InternalError))
  }

  function Answer(r: Request, id: Uuid, number: nat): Envelope {
    Envelope(id, r.messageId, r.sender, r.recipient, r.version, r.packet, number)
  }

  function LookUpOutcome(log: seq<Envelope>, r: Request): Phase {
    var row := Find(log, RequestKey(r));
    if row.None? then Missed
    else if row.value.version != r.version || Hex(row.value.packet) != Hex(r.packet) then Answering(Conflict)
    else Answering(Duplicate(Answer(r, row.value.id, row.value.number)))
  }

  function SetPhase(s: State, id: nat, p: Phase): State
    requires id in s.calls
  {
    s.(calls := s.calls[id := s.calls[id].(phase := p)])
  }

  /** Whether the row of an open transaction already uses an identifier. */
  predicate IdPending(calls: map<nat, Call>, id: Uuid) {
    exists q :: q in calls && calls[q].phase.Inserted? && calls[q].phase.row.id == id
  }

  predicate Enabled(hash: Pair -> nat, s: State, step: Step) {
    match step
    case Submit(id, _) => id !in s.calls
    case Begin(id) => id in s.calls && s.calls[id].phase.Ready?
    case LockPair(id) =>
      && id in s.calls && s.calls[id].phase.Begun?
      && forall q :: q in s.calls && q != id && HoldsLock(s.calls[q]) ==>
           LockKey(hash, s.calls[q].req) != LockKey(hash, s.calls[id].req)
    case Authorize(id, _) => id in s.calls && s.calls[id].phase.Locked?
    case LookUp(id) => id in s.calls && s.calls[id].phase.Authorized?
    case Insert(id, envelopeId) =>
      id in s.calls && s.calls[id].phase.Missed? && !UsesId(s.log, envelopeId) && !IdPending(s.calls, envelopeId)
    case Commit(id) => id in s.calls && (s.calls[id].phase.Inserted? || s.calls[id].phase.Answering?)
    case CommitLost(id, _) => id in s.calls && (s.calls[id].phase.Inserted? || s.calls[id].phase.Answering?)
    case Abort(id, _) => id in s.calls && !s.calls[id].phase.Done?
  }

  function Apply(s: State, step: Step): State
    requires match step case Submit(_, _) => true case _ => step.id in s.calls
  {
    match step
    case Submit(id, r) =>
      s.(calls := s.calls[id := Call(r, 0, if ValidRequest(r) then Ready else Done(InvalidRequest))])
    case Begin(id) => SetPhase(s, id, Begun)
    case LockPair(id) => SetPhase(s, id, Locked)
    case Authorize(id, permitted) => SetPhase(s, id, if permitted then Authorized else Answering(PermissionDenied))
    case LookUp(id) => SetPhase(s, id, LookUpOutcome(s.log, s.calls[id].req))
    case Insert(id, envelopeId) =>
      var r := s.calls[id].req;
      SetPhase(s, id, Inserted(Answer(r, envelopeId, MaxNumber(s.log, PairOf(r.sender, r.recipient)) + 1)))
    case Commit(id) =>
      var c := s.calls[id];
      if c.phase.Inserted? then SetPhase(s.(log := s.log + [c.phase.row]), id, Done(Success(c.phase.row)))
      else if c.phase.Answering? then SetPhase(s, id, Done(c.phase.reply)) else s
    case CommitLost(id, f) =>
      var c := s.calls[id];
      State(if c.phase.Inserted? then s.log + [c.phase.row] else s.log, s.calls[id := AfterFailure(c, f)])
    case Abort(id, f) => s.(calls := s.calls[id := AfterFailure(s.calls[id], f)])
  }

  /** A step that is not enabled (a blocked lock, say) leaves the state alone. */
  function Next(hash: Pair -> nat, s: State, step: Step): State {
    if Enabled(hash, s, step) then Apply(s, step) else s
  }

  const EMPTY: State := State([], map[])

  /** Any schedule of any number of calls. */
  function Run(hash: Pair -> nat, steps: seq<Step>): State {
    if steps == [] then EMPTY else Next(hash, Run(hash, steps[..|steps| - 1]), steps[|steps| - 1])
  }

  // ------------------------------------------------ the invariant

  ghost predicate Answers(e: Envelope, r: Request) {
    KeyOf(e) == RequestKey(r) && e.version == r.version && e.packet == r.packet
  }

  ghost predicate ReplyOk(log: seq<Envelope>, r: Request, reply: Reply) {
    match reply
    case Success(e) => e in log && Answers(e, r)
    case Duplicate(e) => e in log && Answers(e, r)
    case Conflict => exists e :: e in log && KeyOf(e) == RequestKey(r) && !Answers(e, r)
    case _ => true
  }

  ghost predicate CallOk(log: seq<Envelope>, c: Call) {
    && c.attempt <= 2
    && (c.phase == Done(InvalidRequest) <==> !ValidRequest(c.req))
    && match c.phase
       case Missed => Absent(log, RequestKey(c.req))
       case Inserted(e) =>
         && Answers(e, c.req) && Absent(log, KeyOf(e)) && IdUnused(log, e.id)
         && e.number == |OfPair(log, EnvelopePair(e))| + 1
       case Answering(reply) => !reply.Success? && !reply.InvalidRequest? && ReplyOk(log, c.req, reply)
       case Done(reply) => ReplyOk(log, c.req, reply)
       case _ => true
  }

  ghost predicate Exclusive(hash: Pair -> nat, calls: map<nat, Call>) {
    forall p, q :: p in calls && q in calls && p != q && HoldsLock(calls[p]) && HoldsLock(calls[q]) ==>
      LockKey(hash, calls[p].req) != LockKey(hash, calls[q].req)
  }

  /** The row a call wrote itself, open or acknowledged. */
  function OwnRow(c: Call): Option<Envelope> {
    match c.phase
    case Inserted(e) => Some(e)
    case Done(Success(e)) => Some(e)
    case _ => None
  }

  ghost predicate OwnRowsDistinct(calls: map<nat, Call>) {
    forall p, q :: p in calls && q in calls && p != q && OwnRow(calls[p]).Some? && OwnRow(calls[q]).Some? ==>
      OwnRow(calls[p]).value.id != OwnRow(calls[q]).value.id
  }

  ghost predicate RowOk(e: Envelope) {
    1 <= |e.packet| <= MAX_PACKET && e.sender != e.recipient && e.sender != 0
  }

  ghost predicate Inv(hash: Pair -> nat, s: State) {
    && Numbered(s.log) && Distinct(s.log)
    && (forall i :: 0 <= i < |s.log| ==> RowOk(s.log[i]))
    && (forall p :: p in s.calls ==> CallOk(s.log, s.calls[p]))
    && Exclusive(hash, s.calls) && OwnRowsDistinct(s.calls)
  }

  /** Replacing one call, with the log as it is, keeps the invariant. */
  lemma {:induction false} ReplaceCall(hash: Pair -> nat, s: State, id: nat, c: Call)
    requires Inv(hash, s) && CallOk(s.log, c)
    requires HoldsLock(c) ==> forall q :: q in s.calls && q != id && HoldsLock(s.calls[q]) ==>
               LockKey(hash, s.calls[q].req) != LockKey(hash, c.req)
    requires OwnRow(c).Some? ==> forall q :: q in s.calls && q != id && OwnRow(s.calls[q]).Some? ==>
               OwnRow(s.calls[q]).value.id != OwnRow(c).value.id
    ensures Inv(hash, s.(calls := s.calls[id := c]))
  {
  }

  lemma {:induction false} LookUpOk(log: seq<Envelope>, c: Call)
    requires CallOk(log, c) && c.phase.Authorized?
    ensures CallOk(log, c.(phase := LookUpOutcome(log, c.req)))
  {
    var row := Find(log, RequestKey(c.req));
    if row.Some? {
      HexInjective(row.value.packet, c.req.packet);
      assert Answers(row.value, c.req) ==> row.value == Answer(c.req, row.value.id, row.value.number);
    }
  }

  /** What a commit by `id` does to the assertion of another call. */
  lemma {:induction false} OtherCallKept(hash: Pair -> nat, s: State, id: nat, q: nat)
    requires Inv(hash, s) && id in s.calls && q in s.calls && q != id && s.calls[id].phase.Inserted?
    ensures CallOk(s.log + [s.calls[id].phase.row], s.calls[q])
  {
  }

  lemma {:induction false} CommittedLog(hash: Pair -> nat, s: State, id: nat)
    requires Inv(hash, s) && id in s.calls && s.calls[id].phase.Inserted?
    ensures var log := s.log + [s.calls[id].phase.row];
      Numbered(log) && Distinct(log) && forall i :: 0 <= i < |log| ==> RowOk(log[i])
  {
  }

  /** Where a call can be right after the commit of its row, acknowledged or not. */
  ghost predicate EndsAttempt(p: Phase, row: Envelope) {
    p.Ready? || p in {Done(Success(row)), Done(RetryLater), Done(DatabaseUnavailable), Done(InternalError)}
  }

  lemma {:induction false} CommitKeeps(hash: Pair -> nat, s: State, id: nat, c: Call)
    requires Inv(hash, s) && id in s.calls && s.calls[id].phase.Inserted?
    requires c.req == s.calls[id].req && c.attempt <= 2 && !HoldsLock(c)
    requires EndsAttempt(c.phase, s.calls[id].phase.row)
    ensures Inv(hash, State(s.log + [s.calls[id].phase.row], s.calls[id := c]))
  {
    var e := s.calls[id].phase.row;
    assert CallOk(s.log, s.calls[id]);
    CommittedLog(hash, s, id);
    var s' := State(s.log + [e], s.calls[id := c]);
    forall q | q in s'.calls
      ensures CallOk(s'.log, s'.calls[q])
    {
      if q != id { OtherCallKept(hash, s, id, q); }
    }
    assert Exclusive(hash, s'.calls);
    assert OwnRow(c).Some? ==> OwnRow(c) == OwnRow(s.calls[id]);
  }

  lemma {:induction false} InsertKeeps(hash: Pair -> nat, s: State, id: nat, envelopeId: Uuid)
    requires Inv(hash, s) && Enabled(hash, s, Insert(id, envelopeId))
    ensures Inv(hash, Apply(s, Insert(id, envelopeId)))
  {
    hide Numbered, Distinct, OfPair, MaxNumber, ValidRequest;
    var r := s.calls[id].req;
    var e := Answer(r, envelopeId, MaxNumber(s.log, PairOf(r.sender, r.recipient)) + 1);
    MaxIsCount(s.log, PairOf(r.sender, r.recipient));
    assert CallOk(s.log, s.calls[id]);
    var c := s.calls[id].(phase := Inserted(e));
    forall q | q in s.calls && q != id && OwnRow(s.calls[q]).Some?
      ensures OwnRow(s.calls[q]).value.id != e.id
    {
      assert CallOk(s.log, s.calls[q]);
    }
    ReplaceCall(hash, s, id, c);
  }

  lemma {:induction false} FailureKeeps(hash: Pair -> nat, s: State, id: nat, f: Failure)
    requires Inv(hash, s) && id in s.calls && !s.calls[id].phase.Done?
    ensures Inv(hash, s.(calls := s.calls[id := AfterFailure(s.calls[id], f)]))
  {
    assert CallOk(s.log, s.calls[id]);
    ReplaceCall(hash, s, id, AfterFailure(s.calls[id], f));
  }

  lemma {:induction false} SubmitKeeps(hash: Pair -> nat, s: State, id: nat, r: Request)
    requires Inv(hash, s)
    ensures Inv(hash, s.(calls := s.calls[id := Call(r, 0, if ValidRequest(r) then Ready else Done(InvalidRequest))]))
  {
    ReplaceCall(hash, s, id, Call(r, 0, if ValidRequest(r) then Ready else Done(InvalidRequest)));
  }

  /** The steps that neither write nor end a transaction. */
  lemma {:induction false} PhaseKeeps(hash: Pair -> nat, s: State, step: Step)
    requires Inv(hash, s) && Enabled(hash, s, step)
    requires step.Begin? || step.LockPair? || step.Authorize? || step.LookUp?
    ensures Inv(hash, Apply(s, step))
  {
    hide ValidRequest, Numbered, Distinct, OfPair, Absent;
    var c := s.calls[step.id];
    assert CallOk(s.log, c);
    if step.LookUp? { LookUpOk(s.log, c); }
    ReplaceCall(hash, s, step.id, Apply(s, step).calls[step.id]);
  }

  lemma {:induction false} EndKeeps(hash: Pair -> nat, s: State, step: Step)
    requires Inv(hash, s) && Enabled(hash, s, step) && (step.Commit? || step.CommitLost?)
    ensures Inv(hash, Apply(s, step))
  {
    var c := s.calls[step.id];
    assert CallOk(s.log, c);
    if c.phase.Inserted? {
      CommitKeeps(hash, s, step.id, Apply(s, step).calls[step.id]);
    } else if step.Commit? {
      ReplaceCall(hash, s, step.id, c.(phase := Done(c.phase.reply)));
    } else {
      FailureKeeps(hash, s, step.id, step.failure);
    }
  }

  lemma {:induction false} NextKeeps(hash: Pair -> nat, s: State, step: Step)
    requires Inv(hash, s)
    ensures Inv(hash, Next(hash, s, step))
  {
    hide Inv;
    if Enabled(hash, s, step) {
      match step
      case Submit(id, r) => SubmitKeeps(hash, s, id, r);
      case Insert(id, envelopeId) => InsertKeeps(hash, s, id, envelopeId);
      case Commit(_) => EndKeeps(hash, s, step);
      case CommitLost(_, _) => EndKeeps(hash, s, step);
      case Abort(id, f) => FailureKeeps(hash, s, id, f);
      case _ => PhaseKeeps(hash, s, step);
    }
  }

  lemma {:induction false} RunKeeps(hash: Pair -> nat, steps: seq<Step>)
    ensures Inv(hash, Run(hash, steps))
  {
    if steps != [] {
      RunKeeps(hash, steps[..|steps| - 1]);
      NextKeeps(hash, Run(hash, steps[..|steps| - 1]), steps[|steps| - 1]);
    }
  }

  // ------------------------------------------------ main results

  /** In every reachable state the committed numbers of each unordered pair are
      1..n in commit order, whatever the lock hash and whatever aborts. */
  lemma {:induction false} GapFreeNumbering(hash: Pair -> nat, steps: seq<Step>, p: Pair, i: nat)
    requires i < |OfPair(Run(hash, steps).log, p)|
    ensures OfPair(Run(hash, steps).log, p)[i].number == i + 1
  {
    RunKeeps(hash, steps);
  }

  /** Each (sender, recipient, message_id) has at most one row. */
  lemma {:induction false} AtMostOneRow(hash: Pair -> nat, steps: seq<Step>, i: nat, j: nat)
    requires var log := Run(hash, steps).log; i < |log| && j < |log| && KeyOf(log[i]) == KeyOf(log[j])
    ensures i == j
  {
    RunKeeps(hash, steps);
  }

  /** Every Success or Duplicate reply carries the committed row of its key, with the request's own content. */
  lemma {:induction false} RepliesAreTheStoredRow(hash: Pair -> nat, steps: seq<Step>, id: nat)
    requires var s := Run(hash, steps);
      && id in s.calls && s.calls[id].phase.Done?
      && (s.calls[id].phase.reply.Success? || s.calls[id].phase.reply.Duplicate?)
    ensures var s := Run(hash, steps); var e := s.calls[id].phase.reply.envelope;
      e in s.log && Answers(e, s.calls[id].req) && forall x :: x in s.log && KeyOf(x) == KeyOf(e) ==> x == e
  {
    RunKeeps(hash, steps);
    var s := Run(hash, steps);
    assert CallOk(s.log, s.calls[id]);
  }

  /** A Conflict reply is given only when the key is stored with other content. */
  lemma {:induction false} ConflictMeansOtherContent(hash: Pair -> nat, steps: seq<Step>, id: nat)
    requires var s := Run(hash, steps); id in s.calls && s.calls[id].phase == Done(Conflict)
    ensures var s := Run(hash, steps);
      exists e :: e in s.log && KeyOf(e) == RequestKey(s.calls[id].req) && !Answers(e, s.calls[id].req)
  {
    RunKeeps(hash, steps);
    assert CallOk(Run(hash, steps).log, Run(hash, steps).calls[id]);
  }

  /** Over concurrent duplicates, internal retries, aborts and lost acknowledgements, at most one Success per key. */
  lemma {:induction false} AtMostOneSuccess(hash: Pair -> nat, steps: seq<Step>, p: nat, q: nat)
    requires var s := Run(hash, steps);
      && p in s.calls && q in s.calls && RequestKey(s.calls[p].req) == RequestKey(s.calls[q].req)
      && s.calls[p].phase.Done? && s.calls[p].phase.reply.Success?
      && s.calls[q].phase.Done? && s.calls[q].phase.reply.Success?
    ensures p == q
  {
    var s := Run(hash, steps);
    RepliesAreTheStoredRow(hash, steps, p);
    RepliesAreTheStoredRow(hash, steps, q);
    RunKeeps(hash, steps);
    assert OwnRow(s.calls[p]) == OwnRow(s.calls[q]);
  }

  /** The unique indexes on the retry key and on the pair number never reject an insert. */
  lemma {:induction false} IndexesNeverFire(hash: Pair -> nat, steps: seq<Step>, id: nat, i: nat)
    requires var s := Run(hash, steps); id in s.calls && s.calls[id].phase.Inserted? && i < |s.log|
    ensures var s := Run(hash, steps); var e := s.calls[id].phase.row;
      && KeyOf(e) != KeyOf(s.log[i])
      && !(EnvelopePair(e) == EnvelopePair(s.log[i]) && e.number == s.log[i].number)
  {
    RunKeeps(hash, steps);
    var s := Run(hash, steps);
    assert CallOk(s.log, s.calls[id]);
    var k := OfPairMember(s.log, i);
  }

  /** Every step leaves the log alone or appends one envelope numbered next in its pair. */
  lemma {:induction false} LogStep(hash: Pair -> nat, s: State, step: Step)
    requires Inv(hash, s)
    ensures var log := Next(hash, s, step).log;
      log == s.log || exists e :: log == s.log + [e] && e.number == |OfPair(s.log, EnvelopePair(e))| + 1
  {
  }
}
