/** What the device transactions answer, in terms of the rows alone, and that each of them does succeed: from every
    reachable state in which no other transaction is open, a transaction whose rows permit it runs to its commit. */
module DeviceAnswers {
  import opened Bytes
  import opened DeviceDb

  // ------------------------------------------------ the answer of each check

  /** The row of a device: owner and status. */
  ghost predicate Row(db: Db, d: Id, owner: Id, status: Status) {
    d in db.devices && db.devices[d] == Device(owner, status)
  }

  /** A revocation goes on exactly for the actor's own active device, and otherwise names the reason; whose device it is
      comes before what state it is in. */
  lemma RevocationAnswers(db: Db, actor: Id, d: Id, ok: bool, pick: nat)
    ensures var t := Advance(db, Revoking(actor, d, 0, {}), ok, pick);
      && (t == Revoking(actor, d, 1, {}) <==> Row(db, d, actor, Active))
      && (t == Finished(Refused(DeviceNotFound)) <==> d !in db.devices)
      && (t == Finished(Refused(DeviceNotOwned)) <==> d in db.devices && db.devices[d].owner != actor)
      && (t == Finished(Refused(AlreadyRevoked)) <==> Row(db, d, actor, Revoked))
      && (t == Finished(Refused(DeviceNotActive)) <==> Row(db, d, actor, NotActive))
  {
  }

  /** A login: the ticket must be unconsumed and unexpired, the account active, and an existing device the user's
      own and active; the expiry is checked again when the ticket is consumed. */
  lemma LoginAnswers(db: Db, h: Id, user: Id, d: Id, registering: bool, token: Id, ok: bool, pick: nat)
    ensures Advance(db, Completing(h, user, d, registering, token, 0), ok, pick)
         == if ok && h in db.tickets && !db.tickets[h].consumed
            then Completing(h, db.tickets[h].user, d, registering, token, 1) else Finished(Refused(InvalidTicket))
    ensures Advance(db, Completing(h, user, d, registering, token, 1), ok, pick)
         == if ok then Completing(h, user, d, registering, token, 2) else Finished(Refused(AccountDisabled))
    ensures Advance(db, Completing(h, user, d, true, token, 2), ok, pick) == Completing(h, user, d, true, token, 3)
    ensures var t := Advance(db, Completing(h, user, d, false, token, 2), ok, pick);
      && (t == Completing(h, user, d, false, token, 3) <==> Row(db, d, user, Active))
      && (t == Finished(Refused(DeviceNotFound)) <==> d !in db.devices)
      && (t == Finished(Refused(DeviceNotOwned)) <==> d in db.devices && db.devices[d].owner != user)
      && (t == Finished(Refused(DeviceNotActive)) <==>
            d in db.devices && db.devices[d].owner == user && db.devices[d].status != Active)
    ensures Advance(db, Completing(h, user, d, registering, token, 3), ok, pick)
         == if ok then Completing(h, user, if registering then pick else d, registering, token, 4)
            else Finished(Refused(InvalidTicket))
  {
  }

  /** A rotation goes on exactly for a live, unexpired token, and takes user and device from it. */
  lemma RotationAnswers(db: Db, spent: Id, user: Id, d: Id, issued: Id, ok: bool, pick: nat)
    ensures Advance(db, Rotating(spent, user, d, issued, 0), ok, pick)
         == if ok && spent in db.tokens && !db.tokens[spent].revoked
            then Rotating(spent, db.tokens[spent].user, db.tokens[spent].device, issued, 1)
            else Finished(Refused(RotationRefused))
  {
  }

  /** Uploads, claims and saves go on exactly for active devices: the uploader's own, the claimed friend's, and for a
      save the sender's own and any recipient. */
  lemma DeviceAnswersOf(db: Db, user: Id, d: Id, r: Id, ids: set<nat>, ok: bool, pick: nat)
    ensures Advance(db, Uploading(user, d, ids, 0), ok, pick)
         == if ok && Row(db, d, user, Active) then Uploading(user, d, ids, 1) else Finished(Refused(UploadRefused))
    ensures Advance(db, Claiming(user, d, 0, 0), ok, pick)
         == if ok && Row(db, d, user, Active) then Claiming(user, d, 0, 1) else Finished(Refused(DeviceUnavailable))
    ensures Advance(db, Claiming(user, d, 0, 1), ok, pick)
         == if ok then Claiming(user, d, pick, 2) else Finished(Refused(NoPrekey))
    ensures Advance(db, Saving(user, d, r, 0), ok, pick)
         == if ok && Row(db, d, user, Active) && r in db.devices && db.devices[r].status == Active
            then Saving(user, d, r, 1) else Finished(Refused(PermissionDenied))
  {
  }

  // ------------------------------------------------ alone to the commit

  /** No transaction but `id` is open. */
  ghost predicate Alone(s: State, id: nat) {
    forall q :: q in s.txs && q != id ==> s.txs[q].Finished?
  }

  lemma {:induction false} OneMore(steps: seq<Step>, step: Step)
    ensures Run(steps + [step]) == Next(Run(steps), step)
  {
    assert (steps + [step])[..|steps|] == steps;
  }

  lemma {:induction false} Begins(s: State, id: nat, t: Tx)
    requires id !in s.txs && !t.Finished? && t.stage == 0
    ensures Next(s, Begin(id, t)) == State(s.db, s.txs[id := t])
  {
  }

  /** A statement of the only open transaction is never blocked. */
  lemma {:induction false} Proceeds(s: State, id: nat, ok: bool, pick: nat)
    requires Alone(s, id) && id in s.txs && !s.txs[id].Finished? && !LastStage(s.txs[id])
    requires StatementPossible(s.db, s.txs[id], pick)
    requires s.txs[id].Claiming? && s.txs[id].stage == 1 ==> ClaimChoice(s, id, s.txs[id].d, ok, pick)
    ensures Next(s, Statement(id, ok, pick)) == State(s.db, s.txs[id := Advance(s.db, s.txs[id], ok, pick)])
  {
    hide Advance, StatementPossible, Compatible, ClaimChoice;
    forall q | q in s.txs && q != id
      ensures Compatible(Advance(s.db, s.txs[id], ok, pick), s.txs[q])
    {
      FinishedIsFree(s.txs[q].outcome, Advance(s.db, s.txs[id], ok, pick));
    }
  }

  lemma {:induction false} Commits(s: State, id: nat)
    requires id in s.txs && LastStage(s.txs[id])
    ensures Next(s, Commit(id)) == State(CommitTx(s.db, s.txs[id]), s.txs[id := Finished(Committed)])
  {
  }

  /** `t` is where the only open transaction stands after `steps`, the database being still `db`. */
  ghost predicate Stands(steps: seq<Step>, id: nat, db: Db, t: Tx) {
    Run(steps).db == db && id in Run(steps).txs && Run(steps).txs[id] == t && Alone(Run(steps), id)
  }

  lemma {:induction false} Starts(steps: seq<Step>, id: nat, t: Tx)
    requires id !in Run(steps).txs && Alone(Run(steps), id) && !t.Finished? && t.stage == 0
    ensures Stands(steps + [Begin(id, t)], id, Run(steps).db, t)
  {
    hide Run;
    OneMore(steps, Begin(id, t));
    Begins(Run(steps), id, t);
  }

  lemma {:induction false} Goes(steps: seq<Step>, id: nat, db: Db, t: Tx, ok: bool, pick: nat)
    requires Stands(steps, id, db, t) && !t.Finished? && !LastStage(t) && StatementPossible(db, t, pick)
    requires t.Claiming? && t.stage == 1 ==> ClaimChoice(Run(steps), id, t.d, ok, pick)
    ensures Stands(steps + [Statement(id, ok, pick)], id, db, Advance(db, t, ok, pick))
  {
    hide Run, Advance, LastStage, StatementPossible, ClaimChoice, Next;
    OneMore(steps, Statement(id, ok, pick));
    Proceeds(Run(steps), id, ok, pick);
  }

  lemma {:induction false} Ends(steps: seq<Step>, id: nat, db: Db, t: Tx)
    requires Stands(steps, id, db, t) && LastStage(t)
    ensures var s := Run(steps + [Commit(id)]);
      s.db == CommitTx(db, t) && id in s.txs && s.txs[id] == Finished(Committed)
  {
    hide Run, LastStage, CommitTx;
    OneMore(steps, Commit(id));
    Commits(Run(steps), id);
  }

  /** The statements of a transaction that all succeed. */
  function Attempt(id: nat, t: Tx, picks: seq<nat>): seq<Step> {
    [Begin(id, t)] + Statements(id, picks) + [Commit(id)]
  }

  function Statements(id: nat, picks: seq<nat>): seq<Step> {
    if picks == [] then [] else Statements(id, picks[..|picks| - 1]) + [Statement(id, true, picks[|picks| - 1])]
  }

  /** Where a transaction stands after some of its statements. */
  function After(db: Db, t: Tx, picks: seq<nat>): Tx {
    if picks == [] then t else Advance(db, After(db, t, picks[..|picks| - 1]), true, picks[|picks| - 1])
  }

  /** Each statement can be made. */
  ghost predicate Possible(steps: seq<Step>, id: nat, db: Db, t: Tx, picks: seq<nat>) {
    picks == [] ||
    (var front, last := picks[..|picks| - 1], picks[|picks| - 1];
     var u := After(db, t, front);
     && Possible(steps, id, db, t, front) && !u.Finished? && !LastStage(u) && StatementPossible(db, u, last)
     && (u.Claiming? && u.stage == 1 ==>
           ClaimChoice(Run(steps + [Begin(id, t)] + Statements(id, front)), id, u.d, true, last)))
  }

  lemma {:induction false} StandsAfter(steps: seq<Step>, id: nat, t: Tx, picks: seq<nat>)
    requires id !in Run(steps).txs && Alone(Run(steps), id) && !t.Finished? && t.stage == 0
    requires Possible(steps, id, Run(steps).db, t, picks)
    ensures Stands(steps + [Begin(id, t)] + Statements(id, picks), id, Run(steps).db, After(Run(steps).db, t, picks))
  {
    hide Run, Advance, Stands, ClaimChoice, LastStage, StatementPossible;
    Starts(steps, id, t);
    if picks == [] {
      assert steps + [Begin(id, t)] + [] == steps + [Begin(id, t)];
    } else {
      var front, last := picks[..|picks| - 1], picks[|picks| - 1];
      StandsAfter(steps, id, t, front);
      var db := Run(steps).db;
      Goes(steps + [Begin(id, t)] + Statements(id, front), id, db, After(db, t, front), true, last);
      assert steps + [Begin(id, t)] + Statements(id, front) + [Statement(id, true, last)]
          == steps + [Begin(id, t)] + Statements(id, picks);
    }
  }

  /** A transaction that reaches its last stage commits. */
  lemma {:induction false} Succeeds(steps: seq<Step>, id: nat, t: Tx, picks: seq<nat>)
    requires id !in Run(steps).txs && Alone(Run(steps), id) && !t.Finished? && t.stage == 0
    requires Possible(steps, id, Run(steps).db, t, picks) && LastStage(After(Run(steps).db, t, picks))
    ensures var s := Run(steps + Attempt(id, t, picks));
      s.db == CommitTx(Run(steps).db, After(Run(steps).db, t, picks)) && id in s.txs && s.txs[id] == Finished(Committed)
  {
    hide Run, Possible, After, LastStage, CommitTx;
    StandsAfter(steps, id, t, picks);
    var mid := steps + [Begin(id, t)] + Statements(id, picks);
    Ends(mid, id, Run(steps).db, After(Run(steps).db, t, picks));
    assert mid + [Commit(id)] == steps + Attempt(id, t, picks);
  }

  lemma {:induction false} Unfold(db: Db, t: Tx, id: nat, picks: seq<nat>, last: nat)
    ensures After(db, t, picks + [last]) == Advance(db, After(db, t, picks), true, last)
    ensures Statements(id, picks + [last]) == Statements(id, picks) + [Statement(id, true, last)]
    ensures After(db, t, []) == t && Statements(id, []) == []
  {
    assert (picks + [last])[..|picks|] == picks;
  }

  lemma {:induction false} PossibleNext(steps: seq<Step>, id: nat, db: Db, t: Tx, picks: seq<nat>, last: nat)
    requires Possible(steps, id, db, t, picks)
    requires var u := After(db, t, picks); !u.Finished? && !LastStage(u) && StatementPossible(db, u, last)
    requires var u := After(db, t, picks); u.Claiming? && u.stage == 1 ==>
      ClaimChoice(Run(steps + [Begin(id, t)] + Statements(id, picks)), id, u.d, true, last)
    ensures Possible(steps, id, db, t, picks + [last])
  {
    hide Run, Advance, LastStage, StatementPossible, ClaimChoice;
    assert (picks + [last])[..|picks|] == picks;
  }

  // ------------------------------------------------ each transaction succeeds

  /** Two statements of a transaction whose first one goes on. */
  lemma {:induction false} TwoStatements(steps: seq<Step>, id: nat, t: Tx, a: nat, b: nat)
    requires id !in Run(steps).txs && Alone(Run(steps), id) && !t.Finished? && t.stage == 0 && !t.Claiming?
    requires var db := Run(steps).db; var u := Advance(db, t, true, a);
      && !LastStage(t) && StatementPossible(db, t, a)
      && !u.Finished? && !u.Claiming? && !LastStage(u) && StatementPossible(db, u, b)
      && LastStage(Advance(db, u, true, b))
    ensures var db := Run(steps).db; var s := Run(steps + Attempt(id, t, [a, b]));
      && s.db == CommitTx(db, Advance(db, Advance(db, t, true, a), true, b))
      && id in s.txs && s.txs[id] == Finished(Committed)
  {
    hide Run, Advance, LastStage, StatementPossible, CommitTx;
    var db := Run(steps).db;
    Unfold(db, t, id, [], a);
    Unfold(db, t, id, [a], b);
    assert [] + [a] == [a] && [a] + [b] == [a, b];
    assert Possible(steps, id, db, t, []);
    PossibleNext(steps, id, db, t, [], a);
    PossibleNext(steps, id, db, t, [a], b);
    Succeeds(steps, id, t, [a, b]);
  }

  /** From every reachable state with no open transaction, an owner can revoke an active device. */
  lemma {:induction false} RevocationSucceeds(steps: seq<Step>, id: nat, actor: Id, d: Id)
    requires id !in Run(steps).txs && Alone(Run(steps), id) && Row(Run(steps).db, d, actor, Active)
    ensures var s := Run(steps + Attempt(id, Revoking(actor, d, 0, {}), [0, 0]));
      && s.db.history == Run(steps).db.history + [RevokedDevice(d)] && Row(s.db, d, actor, Revoked)
      && id in s.txs && s.txs[id] == Finished(Committed)
  {
    hide Run;
    TwoStatements(steps, id, Revoking(actor, d, 0, {}), 0, 0);
  }

  /** So does a rotation of a live token of an active device, */
  lemma {:induction false} RotationSucceeds(steps: seq<Step>, id: nat, spent: Id, issued: Id)
    requires id !in Run(steps).txs && Alone(Run(steps), id)
    requires var db := Run(steps).db;
      && spent in db.tokens && !db.tokens[spent].revoked && issued !in db.tokens
      && Row(db, db.tokens[spent].device, db.tokens[spent].user, Active)
    ensures var was := Run(steps).db.tokens[spent];
      var s := Run(steps + Attempt(id, Rotating(spent, 0, 0, issued, 0), [0, 0]));
      && s.db.history == Run(steps).db.history + [Issued(issued, was.device)]
      && issued in s.db.tokens && s.db.tokens[issued] == was && spent in s.db.tokens && s.db.tokens[spent].revoked
  {
    hide Run;
    TwoStatements(steps, id, Rotating(spent, 0, 0, issued, 0), 0, 0);
  }

  /** an upload of new keys for the user's active device, */
  lemma {:induction false} UploadSucceeds(steps: seq<Step>, id: nat, user: Id, d: Id, ids: set<nat>)
    requires id !in Run(steps).txs && Alone(Run(steps), id) && Row(Run(steps).db, d, user, Active)
    requires KeysOf(d, ids) !! Run(steps).db.prekeys.Keys
    ensures var s := Run(steps + Attempt(id, Uploading(user, d, ids, 0), [0, 0]));
      && s.db.history == Run(steps).db.history + [Uploaded(d, ids)]
      && forall i :: i in ids ==> Key(d, i) in s.db.prekeys && !s.db.prekeys[Key(d, i)]
  {
    hide Run;
    TwoStatements(steps, id, Uploading(user, d, ids, 0), 0, 0);
    forall i | i in ids
      ensures Key(d, i) in KeysOf(d, ids)
    {
    }
  }

  /** and a save between an active device of the user and any active device. */
  lemma {:induction false} SaveSucceeds(steps: seq<Step>, id: nat, user: Id, d: Id, r: Id)
    requires id !in Run(steps).txs && Alone(Run(steps), id) && Row(Run(steps).db, d, user, Active)
    requires r in Run(steps).db.devices && Run(steps).db.devices[r].status == Active
    ensures var s := Run(steps + Attempt(id, Saving(user, d, r, 0), [0, 0]));
      s.db.history == Run(steps).db.history + [Stored(d, r)] && id in s.txs && s.txs[id] == Finished(Committed)
  {
    hide Run;
    TwoStatements(steps, id, Saving(user, d, r, 0), 0, 0);
  }

  lemma {:induction false} AloneChoice(s: State, id: nat, d: Id, k: nat)
    requires Alone(s, id) && Key(d, k) in s.db.prekeys && !s.db.prekeys[Key(d, k)]
    requires forall i: nat :: i < k && Key(d, i) in s.db.prekeys ==> s.db.prekeys[Key(d, i)]
    ensures ClaimChoice(s, id, d, true, k)
  {
    forall q | q in s.txs && q != id
      ensures KeyLocks(s.txs[q]) == {}
    {
    }
  }

  /** A claim takes the smallest available prekey of an active device of the friend. */
  lemma {:induction false} ClaimSucceeds(steps: seq<Step>, id: nat, user: Id, d: Id, k: nat)
    requires id !in Run(steps).txs && Alone(Run(steps), id) && Row(Run(steps).db, d, user, Active)
    requires Key(d, k) in Run(steps).db.prekeys && !Run(steps).db.prekeys[Key(d, k)]
    requires forall i: nat :: i < k && Key(d, i) in Run(steps).db.prekeys ==> Run(steps).db.prekeys[Key(d, i)]
    ensures var s := Run(steps + Attempt(id, Claiming(user, d, 0, 0), [0, k]));
      && s.db.history == Run(steps).db.history + [Claimed(Key(d, k))]
      && s.db.prekeys == Run(steps).db.prekeys[Key(d, k) := true]
  {
    hide Run, Possible, After, Statements, ClaimChoice;
    var db, t := Run(steps).db, Claiming(user, d, 0, 0);
    Unfold(db, t, id, [], 0);
    Unfold(db, t, id, [0], k);
    assert [] + [0] == [0] && [0] + [k] == [0, k];
    PossibleNone(steps, id, db, t);
    PossibleNext(steps, id, db, t, [], 0);
    StandsAfter(steps, id, t, [0]);
    AloneChoice(Run(steps + [Begin(id, t)] + Statements(id, [0])), id, d, k);
    PossibleNext(steps, id, db, t, [0], k);
    Succeeds(steps, id, t, [0, k]);
  }

  lemma {:induction false} PossibleNone(steps: seq<Step>, id: nat, db: Db, t: Tx)
    ensures Possible(steps, id, db, t, [])
  {
  }

  /** A login with an unconsumed ticket succeeds on the user's own active device, and by registering a new one. */
  lemma {:induction false} LoginSucceeds(steps: seq<Step>, id: nat, h: Id, d: Id, registering: bool, token: Id,
                                         device': Id)
    requires id !in Run(steps).txs && Alone(Run(steps), id)
    requires var db := Run(steps).db;
      && h in db.tickets && !db.tickets[h].consumed && token !in db.tokens
      && (if registering then device' !in db.devices else Row(db, d, db.tickets[h].user, Active))
    ensures var db := Run(steps).db; var user, x := db.tickets[h].user, if registering then device' else d;
      var s := Run(steps + Attempt(id, Completing(h, 0, d, registering, token, 0), [0, 0, 0, device', 0]));
      && s.db.history
         == db.history + [Consumed(h)] + (if registering then [Registered(x)] else []) + [Issued(token, x)]
      && Row(s.db, x, user, Active) && h in s.db.tickets && s.db.tickets[h].consumed
      && token in s.db.tokens && s.db.tokens[token] == Token(user, x, false)
  {
    hide Run, Possible, After, Statements, ClaimChoice;
    var db, t := Run(steps).db, Completing(h, 0, d, registering, token, 0);
    PossibleNone(steps, id, db, t);
    Unfold(db, t, id, [], 0);
    Unfold(db, t, id, [0], 0);
    Unfold(db, t, id, [0, 0], 0);
    Unfold(db, t, id, [0, 0, 0], device');
    Unfold(db, t, id, [0, 0, 0, device'], 0);
    assert [] + [0] == [0] && [0] + [0] == [0, 0] && [0, 0] + [0] == [0, 0, 0];
    assert [0, 0, 0] + [device'] == [0, 0, 0, device'] && [0, 0, 0, device'] + [0] == [0, 0, 0, device', 0];
    PossibleNext(steps, id, db, t, [], 0);
    PossibleNext(steps, id, db, t, [0], 0);
    PossibleNext(steps, id, db, t, [0, 0], 0);
    PossibleNext(steps, id, db, t, [0, 0, 0], device');
    PossibleNext(steps, id, db, t, [0, 0, 0, device'], 0);
    Succeeds(steps, id, t, [0, 0, 0, device', 0]);
  }

  /** What a committed claim changes: the one key, from available to claimed. */
  lemma {:induction false} ClaimWrites(steps: seq<Step>, id: nat)
    requires var s := Run(steps); id in s.txs && s.txs[id].Claiming? && LastStage(s.txs[id])
    ensures var s := Run(steps); var t, a, b := s.txs[id], s.db, CommitTx(s.db, s.txs[id]);
      && Key(t.d, t.id) in a.prekeys && !a.prekeys[Key(t.d, t.id)] && ActiveOwned(a, t.d, t.user)
      && b == a.(prekeys := a.prekeys[Key(t.d, t.id) := true], history := a.history + [Claimed(Key(t.d, t.id))])
  {
    hide Run;
    RunKeeps(steps);
    assert TxOk(Run(steps).db, Run(steps).txs[id]);
  }

  /** For every user and device there is a run that ends with the revocation of that device. */
  lemma {:induction false} RevocationHappens(user: Id, d: Id)
    ensures var steps := [Enroll(d, Device(user, Active))] + Attempt(0, Revoking(user, d, 0, {}), [0, 0]);
      Run(steps).db.history == [RevokedDevice(d)] && Row(Run(steps).db, d, user, Revoked)
  {
    var first := [Enroll(d, Device(user, Active))];
    OneMore([], first[0]);
    assert [] + first == first;
    assert Run([]) == State(EMPTY, map[]);
    hide Run;
    RevocationSucceeds(first, 0, user, d);
    assert [] + [RevokedDevice(d)] == [RevokedDevice(d)];
  }

  /** A claim passes over a smaller available prekey only while another transaction holds it, and finds none only if
      every available prekey of the device is held so. */
  lemma {:induction false} ClaimPassesOver(s: State, id: nat, ok: bool, pick: nat, i: nat)
    requires id in s.txs && s.txs[id].Claiming? && s.txs[id].stage == 1 && Enabled(s, Statement(id, ok, pick))
    requires ok ==> i < pick
    requires var k := Key(s.txs[id].d, i); k in s.db.prekeys && !s.db.prekeys[k]
    ensures exists q :: q in s.txs && q != id && Key(s.txs[id].d, i) in KeyLocks(s.txs[q])
  {
    hide Advance, Compatible, KeyLocks;
    assert !Free(s, id, Key(s.txs[id].d, i));
  }

  /** The steps before a first login: a device of the user and a ticket. */
  function Prepared(user: Id, d: Id, h: Id): seq<Step> {
    [Enroll(d, Device(user, Active))] + [IssueTicket(h, user)]
  }

  lemma {:induction false} PreparedRun(user: Id, d: Id, h: Id)
    ensures Run(Prepared(user, d, h))
         == State(EMPTY.(devices := map[d := Device(user, Active)], tickets := map[h := Ticket(user, false)]), map[])
  {
    var e0, e1 := Enroll(d, Device(user, Active)), IssueTicket(h, user);
    OneMore([], e0);
    OneMore([e0], e1);
    assert [] + [e0] == [e0];
    assert Run([]) == State(EMPTY, map[]);
  }

  /** For every user, device, ticket and token there is a run in which an issued ticket logs the device in. */
  lemma {:induction false} LoginHappens(user: Id, d: Id, h: Id, token: Id)
    ensures var steps := Prepared(user, d, h) + Attempt(0, Completing(h, 0, d, false, token, 0), [0, 0, 0, 0, 0]);
      Run(steps).db.history == [Consumed(h), Issued(token, d)]
  {
    hide Run;
    PreparedRun(user, d, h);
    LoginSucceeds(Prepared(user, d, h), 0, h, d, false, token, 0);
    assert [] + [Consumed(h)] + [] + [Issued(token, d)] == [Consumed(h), Issued(token, d)];
  }
}
