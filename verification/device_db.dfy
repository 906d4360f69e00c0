/** The transactions that touch a device's life, interleaved arbitrarily: its
    revocation, login completion, refresh-token rotation, prekey upload and
    claim, and envelope save. PostgreSQL is a small trusted semantics: row
    locks held to the end of the transaction, a row checked at the moment its
    lock is granted, writes visible at commit, abort always possible, and
    primary keys (waiting for an uncommitted equal key). */
module DeviceDb {
  import opened Bytes

  type Id = nat

  datatype Status = Active | Revoked | NotActive

  datatype Device = Device(owner: Id, status: Status)
  datatype Token = Token(user: Id, device: Id, revoked: bool)
  datatype Ticket = Ticket(user: Id, consumed: bool)
  datatype Key = Key(device: Id, id: nat)

  /** What commits leave behind, in commit order. */
  datatype Record =
    | RevokedDevice(device: Id)
    | Registered(device: Id)
    | Issued(token: Id, device: Id)
    | Consumed(ticket: Id)
    | Uploaded(device: Id, ids: set<nat>)
    | Claimed(key: Key)
    | Stored(sender: Id, recipient: Id)

  datatype Db = Db(devices: map<Id, Device>, bundles: set<Id>, tokens: map<Id, Token>, tickets: map<Id, Ticket>,
                   prekeys: map<Key, bool>, history: seq<Record>) // prekeys: true is claimed

  datatype Refusal =
    | DeviceNotFound | DeviceNotOwned | AlreadyRevoked | DeviceNotActive
    | InvalidTicket | AccountDisabled | RotationRefused | UploadRefused
    | DeviceUnavailable | NoPrekey | PermissionDenied

  datatype Outcome = Refused(why: Refusal) | Committed | Aborted | AcknowledgementLost

  /** Stage 0 holds no lock. `tokens` is the set a revocation's token update has locked. */
  datatype Tx =
    | Revoking(actor: Id, d: Id, stage: nat, tokens: set<Id>)
    | Completing(ticket: Id, user: Id, d: Id, registering: bool, token: Id, stage: nat)
    | Rotating(spent: Id, user: Id, d: Id, issued: Id, stage: nat)
    | Uploading(user: Id, d: Id, ids: set<nat>, stage: nat)
    | Claiming(user: Id, d: Id, id: nat, stage: nat)
    | Saving(user: Id, s: Id, r: Id, stage: nat)
    | Finished(outcome: Outcome)

  // ------------------------------------------------ locks held by a transaction

  function Shared(t: Tx): set<Id> {
    match t
    case Completing(_, _, d, registering, _, stage) => if !registering && stage >= 3 then {d} else {}
    case Rotating(_, _, d, _, stage) => if stage >= 2 then {d} else {}
    case Uploading(_, d, _, stage) => if stage >= 1 then {d} else {}
    case Claiming(_, d, _, stage) => if stage >= 1 then {d} else {}
    case Saving(_, s, r, stage) => if stage >= 1 then {s, r} else {}
    case _ => {}
  }

  function Exclusive(t: Tx): set<Id> {
    if t.Revoking? && t.stage >= 1 then {t.d} else {}
  }

  function TicketLock(t: Tx): set<Id> {
    if t.Completing? && t.stage >= 1 then {t.ticket} else {}
  }

  function TokenLocks(t: Tx): set<Id> {
    match t
    case Revoking(_, _, stage, tokens) => if stage >= 2 then tokens else {}
    case Rotating(spent, _, _, _, stage) => if stage >= 1 then {spent} else {}
    case _ => {}
  }

  /** Token rows written but not committed. */
  function NewTokens(t: Tx): set<Id> {
    match t
    case Completing(_, _, _, _, token, stage) => if stage >= 5 then {token} else {}
    case Rotating(_, _, _, issued, stage) => if stage >= 2 then {issued} else {}
    case _ => {}
  }

  function NewDevices(t: Tx): set<Id> {
    if t.Completing? && t.registering && t.stage >= 4 then {t.d} else {}
  }

  function KeysOf(d: Id, ids: set<nat>): set<Key> { set i | i in ids :: Key(d, i) }

  /** Prekey rows locked by a claim or written by an upload. */
  function KeyLocks(t: Tx): set<Key> {
    match t
    case Uploading(_, d, ids, stage) => if stage >= 2 then KeysOf(d, ids) else {}
    case Claiming(_, d, id, stage) => if stage >= 2 then {Key(d, id)} else {}
    case _ => {}
  }

  ghost predicate Compatible(p: Tx, q: Tx) {
    && Exclusive(p) !! Exclusive(q) && Exclusive(p) !! Shared(q) && Shared(p) !! Exclusive(q)
    && TicketLock(p) !! TicketLock(q) && TokenLocks(p) !! TokenLocks(q)
    && NewTokens(p) !! NewTokens(q) && NewDevices(p) !! NewDevices(q) && KeyLocks(p) !! KeyLocks(q)
  }

  // ------------------------------------------------ running a transaction

  function ActiveOwned(db: Db, d: Id, user: Id): bool {
    d in db.devices && db.devices[d].status.Active? && db.devices[d].owner == user
  }

  function IsActive(db: Db, d: Id): bool { d in db.devices && db.devices[d].status.Active? }

  function TokensOf(db: Db, d: Id): set<Id> {
    set h | h in db.tokens && db.tokens[h].device == d
  }

  function RevokeRefusal(db: Db, actor: Id, d: Id): Option<Refusal> {
    if d !in db.devices then Some(DeviceNotFound)
    else if db.devices[d].owner != actor then Some(DeviceNotOwned)
    else if db.devices[d].status.Revoked? then Some(AlreadyRevoked)
    else if !db.devices[d].status.Active? then Some(DeviceNotActive)
    else None
  }

  function LoginRefusal(db: Db, user: Id, d: Id): Option<Refusal> {
    if d !in db.devices then Some(DeviceNotFound)
    else if db.devices[d].owner != user then Some(DeviceNotOwned)
    else if !db.devices[d].status.Active? then Some(DeviceNotActive)
    else None
  }

  function Or(why: Option<Refusal>, t: Tx): Tx {
    if why.Some? then Finished(Refused(why.value)) else t
  }

  /** The next statement. `ok` is an outside check (account active, ticket or token unexpired,
      friendship) and `pick` a choice of the database (a new device id or the claimed prekey). */
  function Advance(db: Db, t: Tx, ok: bool, pick: nat): Tx {
    match t
    case Revoking(actor, d, stage, _) =>
      if stage == 0 then Or(RevokeRefusal(db, actor, d), Revoking(actor, d, 1, {}))
      else Revoking(actor, d, 2, TokensOf(db, d))
    case Completing(ticket, user, d, registering, token, stage) =>
      if stage == 0 then
        if ok && ticket in db.tickets && !db.tickets[ticket].consumed
        then Completing(ticket, db.tickets[ticket].user, d, registering, token, 1) else Finished(Refused(InvalidTicket))
      else if stage == 1 then
        if ok then Completing(ticket, user, d, registering, token, 2) else Finished(Refused(AccountDisabled))
      else if stage == 2 then
        Or(if registering then None else LoginRefusal(db, user, d), Completing(ticket, user, d, registering, token, 3))
      else if stage == 3 then
        if ok then Completing(ticket, user, if registering then pick else d, registering, token, 4)
        else Finished(Refused(InvalidTicket))
      else Completing(ticket, user, d, registering, token, 5)
    case Rotating(spent, user, d, issued, stage) =>
      if stage == 0 then
        if ok && spent in db.tokens && !db.tokens[spent].revoked
        then Rotating(spent, db.tokens[spent].user, db.tokens[spent].device, issued, 1)
        else Finished(Refused(RotationRefused))
      else Rotating(spent, user, d, issued, 2)
    case Uploading(user, d, ids, stage) =>
      if stage == 0 then
        if ok && ActiveOwned(db, d, user) then Uploading(user, d, ids, 1) else Finished(Refused(UploadRefused))
      else Uploading(user, d, ids, 2)
    case Claiming(user, d, _, stage) =>
      if stage == 0 then
        if ok && ActiveOwned(db, d, user) then Claiming(user, d, 0, 1) else Finished(Refused(DeviceUnavailable))
      else if ok then Claiming(user, d, pick, 2) else Finished(Refused(NoPrekey))
    case Saving(user, s, r, stage) =>
      if stage == 0 then
        if ok && ActiveOwned(db, s, user) && IsActive(db, r) then Saving(user, s, r, 1)
        else Finished(Refused(PermissionDenied))
      else Saving(user, s, r, 2)
    case Finished(_) => t
  }

  predicate LastStage(t: Tx) {
    match t
    case Revoking(_, _, stage, _) => stage == 2
    case Completing(_, _, _, _, _, stage) => stage == 5
    case Rotating(_, _, _, _, stage) => stage == 2
    case Uploading(_, _, _, stage) => stage == 2
    case Claiming(_, _, _, stage) => stage == 2
    case Saving(_, _, _, stage) => stage == 2
    case Finished(_) => false
  }

  /** A statement that fails (a trigger or unique violation) shows only as an abort, so it must be possible here. */
  ghost predicate StatementPossible(db: Db, t: Tx, pick: nat) {
    match t
    case Completing(_, user, d, registering, token, stage) =>
      && (stage == 3 && registering ==> pick !in db.devices)
      && (stage == 4 ==> token !in db.tokens && (registering || ActiveOwned(db, d, user)))
    case Rotating(_, user, d, issued, stage) => stage == 1 ==> issued !in db.tokens && ActiveOwned(db, d, user)
    case Uploading(_, d, ids, stage) => stage == 1 ==> KeysOf(d, ids) !! db.prekeys.Keys
    case _ => true
  }

  /** The effect of a commit. */
  function CommitTx(db: Db, t: Tx): Db {
    match t
    case Revoking(_, d, _, tokens) =>
      if d in db.devices then
        db.(devices := db.devices[d := db.devices[d].(status := Revoked)],
            tokens := map h | h in db.tokens :: if h in tokens then db.tokens[h].(revoked := true) else db.tokens[h],
            history := db.history + [RevokedDevice(d)])
      else db
    case Completing(ticket, user, d, registering, token, _) =>
      if ticket in db.tickets then
        db.(tickets := db.tickets[ticket := db.tickets[ticket].(consumed := true)],
            devices := if registering then db.devices[d := Device(user, Active)] else db.devices,
            bundles := if registering then db.bundles + {d} else db.bundles,
            tokens := db.tokens[token := Token(user, d, false)],
            history :=
              db.history + [Consumed(ticket)] + (if registering then [Registered(d)] else []) + [Issued(token, d)])
      else db
    case Rotating(spent, user, d, issued, _) =>
      if spent in db.tokens then
        db.(tokens := db.tokens[spent := db.tokens[spent].(revoked := true)][issued := Token(user, d, false)],
            history := db.history + [Issued(issued, d)])
      else db
    case Uploading(_, d, ids, _) =>
      db.(prekeys := db.prekeys + (map k | k in KeysOf(d, ids) :: false),
          history := db.history + [Uploaded(d, ids)])
    case Claiming(_, d, id, _) =>
      db.(prekeys := db.prekeys[Key(d, id) := true], history := db.history + [Claimed(Key(d, id))])
    case Saving(_, s, r, _) => db.(history := db.history + [Stored(s, r)])
    case Finished(_) => db
  }

  datatype State = State(db: Db, txs: map<nat, Tx>)

  datatype Step =
    | Begin(id: nat, tx: Tx)
    | Statement(id: nat, ok: bool, pick: nat)
    | Commit(id: nat)
    | CommitLost(id: nat)
    | Abort(id: nat)
    | IssueTicket(ticket: Id, user: Id)
    | Enroll(device: Id, row: Device)        // a device registered outside a login
    | DropToken(token: Id, delete: bool)     // logout, expiry clean-up

  ghost predicate Grantable(s: State, id: nat, t: Tx) {
    forall q :: q in s.txs && q != id ==> Compatible(t, s.txs[q])
  }

  /** An available prekey whose row no other transaction holds. */
  ghost predicate Free(s: State, id: nat, k: Key) {
    && k in s.db.prekeys && !s.db.prekeys[k]
    && forall q :: q in s.txs && q != id ==> k !in KeyLocks(s.txs[q])
  }

  /** A claim skips locked rows and takes the smallest free id; it finds none only when none is free. */
  ghost predicate ClaimChoice(s: State, id: nat, d: Id, found: bool, pick: nat) {
    if found then Free(s, id, Key(d, pick)) && forall i: nat :: i < pick ==> !Free(s, id, Key(d, i))
    else forall i: nat :: !Free(s, id, Key(d, i))
  }

  ghost predicate Enabled(s: State, step: Step) {
    match step
    case Begin(id, t) => id !in s.txs && !t.Finished? && t.stage == 0
    case Statement(id, ok, pick) =>
      && id in s.txs && !s.txs[id].Finished? && !LastStage(s.txs[id])
      && StatementPossible(s.db, s.txs[id], pick) && Grantable(s, id, Advance(s.db, s.txs[id], ok, pick))
      && (s.txs[id].Claiming? && s.txs[id].stage == 1 ==> ClaimChoice(s, id, s.txs[id].d, ok, pick))
    case Commit(id) => id in s.txs && LastStage(s.txs[id])
    case CommitLost(id) => id in s.txs && LastStage(s.txs[id])
    case Abort(id) => id in s.txs && !s.txs[id].Finished?
    case IssueTicket(h, _) => h !in s.db.tickets
    case Enroll(d, row) =>
      d !in s.db.devices && !row.status.Revoked? && forall q :: q in s.txs ==> d !in NewDevices(s.txs[q])
    case DropToken(h, _) => h in s.db.tokens && forall q :: q in s.txs ==> h !in TokenLocks(s.txs[q])
  }

  ghost function Apply(s: State, step: Step): State
    requires Enabled(s, step)
  {
    match step
    case Begin(id, t) => s.(txs := s.txs[id := t])
    case Statement(id, ok, pick) => s.(txs := s.txs[id := Advance(s.db, s.txs[id], ok, pick)])
    case Commit(id) => State(CommitTx(s.db, s.txs[id]), s.txs[id := Finished(Committed)])
    case CommitLost(id) => State(CommitTx(s.db, s.txs[id]), s.txs[id := Finished(AcknowledgementLost)])
    case Abort(id) => s.(txs := s.txs[id := Finished(Aborted)])
    case IssueTicket(h, u) => s.(db := s.db.(tickets := s.db.tickets[h := Ticket(u, false)]))
    case Enroll(d, row) => s.(db := s.db.(devices := s.db.devices[d := row]))
    case DropToken(h, delete) =>
      var tokens := s.db.tokens;
      s.(db := s.db.(tokens := if delete then tokens - {h} else tokens[h := tokens[h].(revoked := true)]))
  }

  ghost function Next(s: State, step: Step): State {
    if Enabled(s, step) then Apply(s, step) else s
  }

  const EMPTY: Db := Db(map[], {}, map[], map[], map[], [])

  ghost function Run(steps: seq<Step>): State {
    if steps == [] then State(EMPTY, map[]) else Next(Run(steps[..|steps| - 1]), steps[|steps| - 1])
  }

  // ------------------------------------------------ the invariant

  predicate Names(r: Record, d: Id) {
    match r
    case Issued(_, x) => x == d
    case Uploaded(x, _) => x == d
    case Stored(s, t) => s == d || t == d
    case Claimed(k) => k.device == d
    case Registered(x) => x == d
    case RevokedDevice(x) => x == d
    case Consumed(_) => false
  }

  ghost predicate HistoryOk(db: Db) {
    && (forall i, j :: 0 <= i < j < |db.history| && db.history[i].RevokedDevice? ==>
          !Names(db.history[j], db.history[i].device))
    && (forall i :: 0 <= i < |db.history| && db.history[i].RevokedDevice? ==>
          db.history[i].device in db.devices && db.devices[db.history[i].device].status.Revoked?)
    && (forall i, j :: 0 <= i < j < |db.history| && db.history[i].Consumed? ==> db.history[j] != db.history[i])
    && (forall i :: 0 <= i < |db.history| && db.history[i].Consumed? ==>
          db.history[i].ticket in db.tickets && db.tickets[db.history[i].ticket].consumed)
    && (forall i, j :: 0 <= i < j < |db.history| && db.history[i].Claimed? ==> db.history[j] != db.history[i])
    && (forall i :: 0 <= i < |db.history| && db.history[i].Claimed? ==>
          db.history[i].key in db.prekeys && db.prekeys[db.history[i].key])
  }

  ghost predicate TokenOk(db: Db, h: Id)
    requires h in db.tokens
  {
    var t := db.tokens[h];
    && t.device in db.devices && db.devices[t.device].owner == t.user
    && (db.devices[t.device].status.Revoked? ==> t.revoked)
  }

  ghost predicate DbOk(db: Db) {
    HistoryOk(db) && forall h :: h in db.tokens ==> TokenOk(db, h)
  }

  /** What a transaction knows of the rows it has locked. */
  ghost predicate TxOk(db: Db, t: Tx) {
    match t
    case Revoking(actor, d, stage, tokens) =>
      stage <= 2 && (stage >= 1 ==> ActiveOwned(db, d, actor)) && (stage >= 2 ==> tokens == TokensOf(db, d))
    case Completing(ticket, user, d, registering, token, stage) =>
      && stage <= 5
      && (stage >= 1 ==> ticket in db.tickets && !db.tickets[ticket].consumed && db.tickets[ticket].user == user)
      && (stage >= 3 && !registering ==> ActiveOwned(db, d, user))
      && (stage >= 4 && registering ==> d !in db.devices)
      && (stage >= 5 ==> token !in db.tokens)
    case Rotating(spent, user, d, issued, stage) =>
      && stage <= 2
      && (stage >= 1 ==> spent in db.tokens && db.tokens[spent] == Token(user, d, false))
      && (stage >= 2 ==> ActiveOwned(db, d, user) && issued !in db.tokens)
    case Uploading(user, d, ids, stage) =>
      stage <= 2 && (stage >= 1 ==> ActiveOwned(db, d, user)) && (stage >= 2 ==> KeyLocks(t) !! db.prekeys.Keys)
    case Claiming(user, d, id, stage) =>
      && stage <= 2 && (stage >= 1 ==> ActiveOwned(db, d, user))
      && (stage >= 2 ==> Key(d, id) in db.prekeys && !db.prekeys[Key(d, id)])
    case Saving(user, s, r, stage) => stage <= 2 && (stage >= 1 ==> ActiveOwned(db, s, user) && IsActive(db, r))
    case Finished(_) => true
  }

  ghost predicate Inv(s: State) {
    && DbOk(s.db)
    && (forall q :: q in s.txs ==> TxOk(s.db, s.txs[q]))
    && (forall p, q :: p in s.txs && q in s.txs && p != q ==> Compatible(s.txs[p], s.txs[q]))
  }

  // ------------------------------------------------ frame reasoning

  /** What changed between two databases lies within the locks of `t`. */
  ghost predicate Within(a: Db, b: Db, t: Tx) {
    && (forall d :: d in a.devices && d !in Exclusive(t) ==> d in b.devices && b.devices[d] == a.devices[d])
    && (forall d :: d in b.devices && d !in a.devices ==> d in NewDevices(t))
    && (forall h :: h in a.tokens && h !in TokenLocks(t) ==> h in b.tokens && b.tokens[h] == a.tokens[h])
    && (forall h :: h in b.tokens && h !in a.tokens ==>
          h in NewTokens(t) && (b.tokens[h].device in Shared(t) || b.tokens[h].device in NewDevices(t)))
    && (forall h :: h in a.tokens && h in b.tokens ==> b.tokens[h].device == a.tokens[h].device)
    && (forall k :: k in a.tickets && k !in TicketLock(t) ==> k in b.tickets && b.tickets[k] == a.tickets[k])
    && (forall k :: k in a.prekeys && k !in KeyLocks(t) ==> k in b.prekeys && b.prekeys[k] == a.prekeys[k])
    && (forall k :: k in b.prekeys && k !in a.prekeys ==> k in KeyLocks(t))
  }

  lemma {:induction false} CommitWithin(db: Db, t: Tx)
    requires LastStage(t) && TxOk(db, t)
    ensures Within(db, CommitTx(db, t), t)
  {
    hide Within, CommitTx, TxOk;
    match t
    case Completing(_, _, _, _, _, _) => CompletingWithin(db, t);
    case Uploading(_, _, _, _) => UploadingWithin(db, t);
    case _ => OtherWithin(db, t);
  }

  lemma {:induction false} OtherWithin(db: Db, t: Tx)
    requires !t.Completing? && !t.Uploading? && LastStage(t) && TxOk(db, t)
    ensures Within(db, CommitTx(db, t), t)
  {
  }

  lemma {:induction false} CompletingWithin(db: Db, t: Tx)
    requires t.Completing? && LastStage(t) && TxOk(db, t)
    ensures Within(db, CommitTx(db, t), t)
  {
  }

  lemma {:induction false} UploadingWithin(db: Db, t: Tx)
    requires t.Uploading? && LastStage(t) && TxOk(db, t)
    ensures Within(db, CommitTx(db, t), t)
  {
  }

  /** What a transaction knows survives another's commit, because their locks are compatible. */
  lemma {:induction false} TxStable(a: Db, b: Db, p: Tx, q: Tx)
    requires Within(a, b, p) && Compatible(p, q) && TxOk(a, q)
    requires q.Revoking? && q.stage >= 1 ==> q.d !in NewDevices(p)
    ensures TxOk(b, q)
  {
  }

  lemma {:induction false} AdvanceKeeps(db: Db, t: Tx, ok: bool, pick: nat)
    requires TxOk(db, t) && !LastStage(t) && StatementPossible(db, t, pick)
    requires t.Claiming? && t.stage == 1 && ok ==> Key(t.d, pick) in db.prekeys && !db.prekeys[Key(t.d, pick)]
    ensures TxOk(db, Advance(db, t, ok, pick))
  {
  }

  lemma {:induction false} CompatibleSymmetric(p: Tx, q: Tx)
    requires Compatible(p, q)
    ensures Compatible(q, p)
  {
  }

  lemma {:induction false} FinishedIsFree(o: Outcome, q: Tx)
    ensures Compatible(Finished(o), q) && Compatible(q, Finished(o))
  {
  }

  /** Replacing one transaction by another that fits the locks. */
  lemma {:induction false} ReplaceTx(s: State, id: nat, t: Tx)
    requires Inv(s) && TxOk(s.db, t) && Grantable(s, id, t)
    ensures Inv(s.(txs := s.txs[id := t]))
  {
    hide Compatible, TxOk, DbOk;
    var txs := s.txs[id := t];
    forall p, q | p in txs && q in txs && p != q
      ensures Compatible(txs[p], txs[q])
    {
      if q == id { CompatibleSymmetric(t, s.txs[p]); }
    }
  }

  lemma {:induction false} ReplaceByFinished(s: State, id: nat, o: Outcome)
    requires Inv(s)
    ensures Inv(s.(txs := s.txs[id := Finished(o)]))
  {
    hide Compatible, DbOk;
    forall q | q in s.txs && q != id
      ensures Compatible(Finished(o), s.txs[q])
    {
      FinishedIsFree(o, s.txs[q]);
    }
    ReplaceTx(s, id, Finished(o));
  }

  ghost predicate Lockless(t: Tx) {
    && Exclusive(t) == {} && Shared(t) == {} && TicketLock(t) == {} && TokenLocks(t) == {}
    && NewTokens(t) == {} && NewDevices(t) == {} && KeyLocks(t) == {}
  }

  lemma {:induction false} LocklessIsFree(t: Tx, q: Tx)
    requires Lockless(t)
    ensures Compatible(t, q)
  {
  }

  lemma {:induction false} BeginKeeps(s: State, id: nat, t: Tx)
    requires Inv(s) && !t.Finished? && t.stage == 0
    ensures Inv(s.(txs := s.txs[id := t]))
  {
    hide DbOk, Compatible;
    assert Lockless(t);
    forall q | q in s.txs && q != id
      ensures Compatible(t, s.txs[q])
    {
      LocklessIsFree(t, s.txs[q]);
    }
    ReplaceTx(s, id, t);
  }

  /** A changed database that stays within the locks of `p` keeps what every other transaction knows. */
  lemma {:induction false} DbChange(s: State, b: Db, p: Tx)
    requires Inv(s) && Within(s.db, b, p) && DbOk(b)
    requires forall q :: q in s.txs && !s.txs[q].Finished? ==> Compatible(p, s.txs[q])
    requires forall d :: d in NewDevices(p) ==> d !in s.db.devices
    ensures Inv(s.(db := b))
  {
    hide Compatible, Within, DbOk, NewDevices;
    forall q | q in s.txs
      ensures TxOk(b, s.txs[q])
    {
      assert TxOk(s.db, s.txs[q]);
      if !s.txs[q].Finished? { TxStable(s.db, b, p, s.txs[q]); }
    }
  }

  // ------------------------------------------------ commits keep the database sound

  lemma {:induction false} CommitTokens(db: Db, t: Tx, h: Id)
    requires DbOk(db) && LastStage(t) && TxOk(db, t) && h in CommitTx(db, t).tokens
    ensures TokenOk(CommitTx(db, t), h)
  {
  }

  /** A committed transaction names only devices that are not revoked, and consumes and claims what was free. */
  ghost predicate Fresh(db: Db, r: Record) {
    && (forall d :: Names(r, d) ==> d in db.devices ==> !db.devices[d].status.Revoked?)
    && (r.Consumed? ==> r.ticket in db.tickets ==> !db.tickets[r.ticket].consumed)
    && (r.Claimed? ==> r.key in db.prekeys ==> !db.prekeys[r.key])
  }

  /** The facts the history rests on only grow. */
  ghost predicate Grows(a: Db, b: Db) {
    && (forall d :: d in a.devices && a.devices[d].status.Revoked? ==> d in b.devices && b.devices[d].status.Revoked?)
    && (forall k :: k in a.tickets && a.tickets[k].consumed ==> k in b.tickets && b.tickets[k].consumed)
    && (forall k :: k in a.prekeys && a.prekeys[k] ==> k in b.prekeys && b.prekeys[k])
  }

  /** `r` is backed by the rows it speaks of. */
  ghost predicate Backed(b: Db, r: Record) {
    && (r.RevokedDevice? ==> r.device in b.devices && b.devices[r.device].status.Revoked?)
    && (r.Consumed? ==> r.ticket in b.tickets && b.tickets[r.ticket].consumed)
    && (r.Claimed? ==> r.key in b.prekeys && b.prekeys[r.key])
  }

  lemma {:induction false} HistoryAppend(a: Db, b: Db, r: Record)
    requires HistoryOk(a) && Grows(a, b) && Fresh(a, r) && Backed(b, r) && b.history == a.history + [r]
    ensures HistoryOk(b)
  {
    var n := |a.history|;
    forall i | 0 <= i < n && a.history[i].RevokedDevice?
      ensures !Names(r, a.history[i].device)
    {
    }
  }

  lemma {:induction false} CommitGrows(db: Db, t: Tx)
    requires LastStage(t) && TxOk(db, t)
    ensures Grows(db, CommitTx(db, t))
  {
  }

  lemma {:induction false} CompletingHistory(db: Db, t: Tx)
    requires t.Completing? && HistoryOk(db) && LastStage(t) && TxOk(db, t)
    ensures HistoryOk(CommitTx(db, t))
  {
    hide HistoryOk, TokensOf;
    var b := CommitTx(db, t);
    CommitGrows(db, t);
    var h1 := db.history + [Consumed(t.ticket)];
    var h2 := if t.registering then h1 + [Registered(t.d)] else h1;
    HistoryAppend(db, b.(history := h1), Consumed(t.ticket));
    if t.registering { HistoryAppend(b.(history := h1), b.(history := h2), Registered(t.d)); }
    assert b.history == h2 + [Issued(t.token, t.d)];
    HistoryAppend(b.(history := h2), b, Issued(t.token, t.d));
  }

  lemma {:induction false} CommitHistory(db: Db, t: Tx)
    requires HistoryOk(db) && LastStage(t) && TxOk(db, t)
    ensures HistoryOk(CommitTx(db, t))
  {
    hide HistoryOk, TokensOf, Grows;
    CommitGrows(db, t);
    var b := CommitTx(db, t);
    match t
    case Revoking(_, d, _, _) => HistoryAppend(db, b, RevokedDevice(d));
    case Completing(_, _, _, _, _, _) => CompletingHistory(db, t);
    case Rotating(_, _, d, issued, _) => HistoryAppend(db, b, Issued(issued, d));
    case Uploading(_, d, ids, _) => HistoryAppend(db, b, Uploaded(d, ids));
    case Claiming(_, d, id, _) => HistoryAppend(db, b, Claimed(Key(d, id)));
    case Saving(_, x, r, _) => HistoryAppend(db, b, Stored(x, r));
  }

  lemma {:induction false} CommitDbOk(db: Db, t: Tx)
    requires DbOk(db) && LastStage(t) && TxOk(db, t)
    ensures DbOk(CommitTx(db, t))
  {
    hide HistoryOk, TokenOk, CommitTx, TxOk;
    CommitHistory(db, t);
    forall h | h in CommitTx(db, t).tokens
      ensures TokenOk(CommitTx(db, t), h)
    {
      CommitTokens(db, t, h);
    }
  }

  lemma {:induction false} NewDeviceAbsent(db: Db, t: Tx, d: Id)
    requires TxOk(db, t) && d in NewDevices(t)
    ensures d !in db.devices
  {
  }

  lemma {:induction false} CommitKeeps(s: State, id: nat, o: Outcome)
    requires Inv(s) && id in s.txs && LastStage(s.txs[id])
    ensures Inv(State(CommitTx(s.db, s.txs[id]), s.txs[id := Finished(o)]))
  {
    hide Compatible, TxOk, DbOk, CommitTx, Within, NewDevices;
    var t := s.txs[id];
    CommitDbOk(s.db, t);
    CommitWithin(s.db, t);
    ReplaceByFinished(s, id, o);
    var s1 := s.(txs := s.txs[id := Finished(o)]);
    forall d | d in NewDevices(t)
      ensures d !in s.db.devices
    {
      NewDeviceAbsent(s.db, t, d);
    }
    DbChange(s1, CommitTx(s.db, t), t);
  }

  /** Dropping a token stays within the lock of that one row. */
  lemma {:induction false} DropWithin(a: Db, b: Db, h: Id, delete: bool)
    requires h in a.tokens
    requires b == a.(tokens := if delete then a.tokens - {h} else a.tokens[h := a.tokens[h].(revoked := true)])
    ensures Within(a, b, Rotating(h, 0, 0, 0, 1))
    ensures DbOk(a) ==> DbOk(b)
  {
    hide HistoryOk;
    if DbOk(a) {
      DropDbOk(a, b);
      forall x | x in b.tokens
        ensures TokenOk(b, x)
      {
        assert TokenOk(a, x);
      }
    }
  }

  lemma {:induction false} RowLockFree(h: Id, q: Tx)
    requires h !in TokenLocks(q)
    ensures Compatible(Rotating(h, 0, 0, 0, 1), q)
  {
  }

  lemma {:induction false} DropKeeps(s: State, h: Id, delete: bool)
    requires Inv(s) && Enabled(s, DropToken(h, delete))
    ensures Inv(Apply(s, DropToken(h, delete)))
  {
    hide DbOk, Compatible, Within, TxOk;
    var b := Apply(s, DropToken(h, delete)).db;
    DropWithin(s.db, b, h, delete);
    forall q | q in s.txs
      ensures Compatible(Rotating(h, 0, 0, 0, 1), s.txs[q])
    {
      RowLockFree(h, s.txs[q]);
    }
    DbChange(s, b, Rotating(h, 0, 0, 0, 1));
  }

  lemma {:induction false} DropDbOk(a: Db, b: Db)
    requires HistoryOk(a) && b == a.(tokens := b.tokens)
    ensures HistoryOk(b)
  {
  }

  lemma {:induction false} IssueDbOk(a: Db, b: Db, h: Id, user: Id)
    requires DbOk(a) && h !in a.tickets && b == a.(tickets := a.tickets[h := Ticket(user, false)])
    ensures DbOk(b) && Within(a, b, Finished(Aborted))
  {
  }

  lemma {:induction false} IssueKeeps(s: State, h: Id, user: Id)
    requires Inv(s) && h !in s.db.tickets
    ensures Inv(s.(db := s.db.(tickets := s.db.tickets[h := Ticket(user, false)])))
  {
    hide DbOk, Compatible, Within, TxOk;
    var b := s.db.(tickets := s.db.tickets[h := Ticket(user, false)]);
    IssueDbOk(s.db, b, h, user);
    forall q | q in s.txs
      ensures Compatible(Finished(Aborted), s.txs[q])
    {
      FinishedIsFree(Aborted, s.txs[q]);
    }
    DbChange(s, b, Finished(Aborted));
  }

  /** A device row enrolled outside a login: nothing known about other rows changes. */
  lemma {:induction false} EnrollTx(a: Db, b: Db, d: Id, row: Device, q: Tx)
    requires TxOk(a, q) && d !in a.devices && d !in NewDevices(q) && b == a.(devices := a.devices[d := row])
    ensures TxOk(b, q)
  {
  }

  lemma {:induction false} EnrollDbOk(a: Db, b: Db, d: Id, row: Device)
    requires DbOk(a) && d !in a.devices && b == a.(devices := a.devices[d := row])
    ensures DbOk(b)
  {
  }

  lemma {:induction false} EnrollKeeps(s: State, d: Id, row: Device)
    requires Inv(s) && Enabled(s, Enroll(d, row))
    ensures Inv(Apply(s, Enroll(d, row)))
  {
    hide DbOk, Compatible, TxOk, NewDevices;
    var b := s.db.(devices := s.db.devices[d := row]);
    EnrollDbOk(s.db, b, d, row);
    forall q | q in s.txs
      ensures TxOk(b, s.txs[q])
    {
      EnrollTx(s.db, b, d, row, s.txs[q]);
    }
  }

  lemma {:induction false} NextKeeps(s: State, step: Step)
    requires Inv(s)
    ensures Inv(Next(s, step))
  {
    hide Compatible, TxOk, DbOk, CommitTx, Advance;
    if Enabled(s, step) {
      match step
      case Begin(id, t) => BeginKeeps(s, id, t);
      case Statement(id, ok, pick) =>
        AdvanceKeeps(s.db, s.txs[id], ok, pick);
        ReplaceTx(s, id, Advance(s.db, s.txs[id], ok, pick));
      case Commit(id) => CommitKeeps(s, id, Committed);
      case CommitLost(id) => CommitKeeps(s, id, AcknowledgementLost);
      case Abort(id) => ReplaceByFinished(s, id, Aborted);
      case IssueTicket(h, u) => IssueKeeps(s, h, u);
      case Enroll(d, row) => EnrollKeeps(s, d, row);
      case DropToken(h, delete) => DropKeeps(s, h, delete);
    }
  }

  lemma {:induction false} RunKeeps(steps: seq<Step>)
    ensures Inv(Run(steps))
  {
    hide Next;
    if steps != [] {
      RunKeeps(steps[..|steps| - 1]);
      NextKeeps(Run(steps[..|steps| - 1]), steps[|steps| - 1]);
    }
  }

  // ------------------------------------------------ main results

  /** In every interleaving, a revoked device has only revoked refresh tokens. */
  lemma {:induction false} RevokedDeviceHasNoLiveToken(steps: seq<Step>, h: Id)
    requires var db := Run(steps).db;
      h in db.tokens && db.tokens[h].device in db.devices && db.devices[db.tokens[h].device].status.Revoked?
    ensures Run(steps).db.tokens[h].revoked
  {
    hide Run;
    RunKeeps(steps);
    assert TokenOk(Run(steps).db, h);
  }

  /** Nothing naming a device - token, prekey, claim, envelope, registration - commits after its revocation. */
  lemma {:induction false} NothingAfterRevocation(steps: seq<Step>, i: nat, j: nat)
    requires var h := Run(steps).db.history; i < j < |h| && h[i].RevokedDevice?
    ensures var h := Run(steps).db.history; !Names(h[j], h[i].device)
  {
    hide Run;
    RunKeeps(steps);
  }

  /** A login ticket is consumed by at most one commit. */
  lemma {:induction false} TicketIsOneShot(steps: seq<Step>, i: nat, j: nat)
    requires var h := Run(steps).db.history; i < |h| && j < |h| && h[i].Consumed? && h[j] == h[i]
    ensures i == j
  {
    hide Run;
    RunKeeps(steps);
  }

  /** No two successful claims return the same device and prekey id. */
  lemma {:induction false} PrekeyIsClaimedOnce(steps: seq<Step>, i: nat, j: nat)
    requires var h := Run(steps).db.history; i < |h| && j < |h| && h[i].Claimed? && h[j] == h[i]
    ensures i == j
  {
    hide Run;
    RunKeeps(steps);
  }

  /** Only a commit (or its lost acknowledgement) of a transaction writes; refusals and aborts change nothing. */
  lemma {:induction false} OnlyCommitsWrite(s: State, step: Step)
    requires Next(s, step).db != s.db
    ensures step.Commit? || step.CommitLost? || step.IssueTicket? || step.Enroll? || step.DropToken?
  {
  }

  /** What a completed login leaves: the consumption, one live token for an active device of the
      ticket's user, and a new device with its key bundle exactly when registering. */
  lemma {:induction false} CompletionWrites(steps: seq<Step>, id: nat)
    requires var s := Run(steps); id in s.txs && s.txs[id].Completing? && LastStage(s.txs[id])
    ensures var s := Run(steps); var t, a, b := s.txs[id], s.db, CommitTx(s.db, s.txs[id]);
      && t.ticket in a.tickets && !a.tickets[t.ticket].consumed && t.user == a.tickets[t.ticket].user
      && b.tickets == a.tickets[t.ticket := Ticket(t.user, true)]
      && t.token !in a.tokens && b.tokens == a.tokens[t.token := Token(t.user, t.d, false)]
      && ActiveOwned(b, t.d, t.user)
      && (t.registering ==> t.d !in a.devices && b.devices == a.devices[t.d := Device(t.user, Active)])
      && (t.registering ==> b.bundles == a.bundles + {t.d})
      && (!t.registering ==> b.devices == a.devices && b.bundles == a.bundles)
      && b.prekeys == a.prekeys
  {
    hide Run;
    RunKeeps(steps);
    assert TxOk(Run(steps).db, Run(steps).txs[id]);
  }

  function LiveTokens(db: Db): set<Id> {
    set h | h in db.tokens && !db.tokens[h].revoked
  }

  /** What a committed revocation leaves: exactly that device revoked, exactly its tokens no longer live, nothing
      else touched. */
  lemma {:induction false} RevocationWrites(steps: seq<Step>, id: nat)
    requires var s := Run(steps); id in s.txs && s.txs[id].Revoking? && LastStage(s.txs[id])
    ensures var s := Run(steps); var t, a, b := s.txs[id], s.db, CommitTx(s.db, s.txs[id]);
      && ActiveOwned(a, t.d, t.actor)
      && b.devices == a.devices[t.d := Device(t.actor, Revoked)]
      && LiveTokens(b) == LiveTokens(a) - TokensOf(a, t.d) && b.tokens.Keys == a.tokens.Keys
      && b.tickets == a.tickets && b.prekeys == a.prekeys && b.bundles == a.bundles
  {
    hide Run;
    RunKeeps(steps);
    assert TxOk(Run(steps).db, Run(steps).txs[id]);
  }

  /** A rotation conserves the number of live tokens: one live token of an active device is spent, one for the
      same user and device is issued. */
  lemma {:induction false} RotationConserves(steps: seq<Step>, id: nat)
    requires var s := Run(steps); id in s.txs && s.txs[id].Rotating? && LastStage(s.txs[id])
    ensures var s := Run(steps); var t, a, b := s.txs[id], s.db, CommitTx(s.db, s.txs[id]);
      && t.spent in LiveTokens(a) && t.issued !in a.tokens
      && LiveTokens(b) == LiveTokens(a) - {t.spent} + {t.issued} && |LiveTokens(b)| == |LiveTokens(a)|
      && b.tokens[t.issued] == a.tokens[t.spent] && ActiveOwned(b, b.tokens[t.issued].device, b.tokens[t.issued].user)
      && b.devices == a.devices && b.tickets == a.tickets && b.prekeys == a.prekeys
  {
    hide Run;
    RunKeeps(steps);
    assert TxOk(Run(steps).db, Run(steps).txs[id]);
    var s := Run(steps);
    var t, a, b := s.txs[id], s.db, CommitTx(s.db, s.txs[id]);
    assert LiveTokens(b) == LiveTokens(a) - {t.spent} + {t.issued};
  }

  /** A prekey only goes from available to claimed, and is never withdrawn. */
  lemma {:induction false} PrekeysOnlyGetClaimed(steps: seq<Step>, step: Step, k: Key)
    requires k in Run(steps).db.prekeys
    ensures var a, b := Run(steps).db, Next(Run(steps), step).db;
      k in b.prekeys && (a.prekeys[k] ==> b.prekeys[k])
  {
    hide Run;
    RunKeeps(steps);
    var s := Run(steps);
    if Enabled(s, step) && (step.Commit? || step.CommitLost?) {
      assert TxOk(s.db, s.txs[step.id]);
      CommitPrekeys(s.db, s.txs[step.id], k);
    }
  }

  lemma {:induction false} CommitPrekeys(db: Db, t: Tx, k: Key)
    requires LastStage(t) && TxOk(db, t) && k in db.prekeys
    ensures var b := CommitTx(db, t); k in b.prekeys && (db.prekeys[k] ==> b.prekeys[k])
    ensures t.Uploading? ==> forall i :: i in t.ids ==> Key(t.d, i) in CommitTx(db, t).prekeys
  {
  }

  /** An upload batch is stored whole: a commit adds exactly its ids, all available, over no existing key. */
  lemma {:induction false} UploadIsWhole(steps: seq<Step>, id: nat)
    requires var s := Run(steps); id in s.txs && s.txs[id].Uploading? && LastStage(s.txs[id])
    ensures var s := Run(steps); var t, a, b := s.txs[id], s.db, CommitTx(s.db, s.txs[id]);
      && ActiveOwned(a, t.d, t.user)
      && a.prekeys.Keys !! KeysOf(t.d, t.ids) && b.prekeys.Keys == a.prekeys.Keys + KeysOf(t.d, t.ids)
      && (forall k :: k in KeysOf(t.d, t.ids) ==> !b.prekeys[k])
      && (forall k :: k in a.prekeys ==> b.prekeys[k] == a.prekeys[k])
  {
    hide Run;
    RunKeeps(steps);
    assert TxOk(Run(steps).db, Run(steps).txs[id]);
  }
}
