/**
  One database connection and its transaction wrapper.

  The server's reaction to each command is an input: it may do the command, refuse it, or the
  connection may break with the command done or not.  `committed` counts the transactions the
  server has made durable.
*/
module Transactions {

  datatype Txn = Idle | InTransaction | InError | Unsettled

  datatype Reaction = Done | Refused | Broken(done: bool)

  /** How the callback left the connection. */
  datatype Callback = Callback(throws: bool, open: bool, healthy: bool, txn: Txn)

  datatype Outcome = Returned | Threw

  /** The transaction began and the callback returned with it intact, so a COMMIT is sent. */
  predicate Commits(begin: Reaction, callback: Callback) {
    begin == Done && callback == Callback(false, true, true, InTransaction)
  }

  class DatabaseConnection {
    var open: bool
    var healthy: bool
    var txn: Txn
    ghost var committed: nat

    /** Fit for another borrower: connected and outside any transaction. */
    predicate Clean()
      reads this
    {
      open && healthy && txn == Idle
    }

    /** A constructor that cannot connect throws; one that returns has a clean connection. */
    constructor ()
      ensures Clean() && committed == 0
    {
      open, healthy, txn, committed := true, true, Idle, 0;
    }

    method Close()
      modifies this
      ensures !open && committed == old(committed)
    {
      open := false;
    }

    /** A broken connection is given up at once. */
    method RequireConnection() returns (ok: bool)
      modifies this`open
      ensures ok == (old(open) && healthy)
      ensures open == ok
    {
      if !open { return false; }
      if !healthy {
        open := false;
        return false;
      }
      ok := true;
    }

    method Begin(reaction: Reaction) returns (ok: bool)
      modifies this
      ensures committed == old(committed)
      ensures ok <==> old(Clean()) && reaction == Done
      ensures ok ==> open && healthy && txn == InTransaction
      ensures !ok ==> !open || (old(txn) != Idle && txn == old(txn) && open == old(open) && healthy == old(healthy))
    {
      ok := RequireConnection();
      if !ok { return; }
      if txn != Idle { return false; }
      if reaction == Done {
        txn := InTransaction;
      } else {
        if reaction.Broken? { healthy, txn := false, Unsettled; }
        open := false;
        ok := false;
      }
    }

    /** The only command that makes anything durable. */
    method Commit(reaction: Reaction) returns (ok: bool)
      modifies this
      ensures ok <==> old(open) && old(healthy) && old(txn) == InTransaction && reaction == Done
      ensures ok ==> Clean() && committed == old(committed) + 1
      ensures !ok && old(open && healthy && txn == InTransaction) && reaction == Broken(true) ==>
        committed == old(committed) + 1
      ensures !ok && !(old(open && healthy && txn == InTransaction) && reaction == Broken(true)) ==>
        committed == old(committed)
    {
      ok := RequireConnection();
      if !ok { return; }
      if txn != InTransaction { return false; }
      match reaction
      case Done =>
        txn := Idle;
        committed := committed + 1;
      case Refused =>
        txn := Idle;
        ok := false;
      case Broken(done) =>
        healthy, txn := false, Unsettled;
        if done { committed := committed + 1; }
        ok := false;
    }

    /** `after` is the transaction status the server reports after a rollback it answered. */
    method Rollback(reaction: Reaction, after: Txn)
      modifies this
      ensures open ==> Clean()
      ensures committed == old(committed)
      ensures old(open) && old(healthy) && reaction == Done && after == Idle ==> Clean()
    {
      if !open { return; }
      var ok := RequireConnection();
      if !ok { return; }
      match reaction
      case Done =>
        txn := after;
        if txn != Idle { open := false; }
      case Refused =>
        open := false;
      case Broken(_) =>
        healthy, txn, open := false, Unsettled, false;
    }

    /**
      The transaction wrapper: it returns exactly when everything up to the commit succeeded, and then the
      transaction is durable; when it throws nothing is durable, except that the acknowledgement of a commit may have
      been lost.  Either way a connection that was outside a transaction is left clean or closed.
    */
    method WithTransaction(begin: Reaction, callback: Callback, commit: Reaction, rollback: Reaction, after: Txn)
      returns (r: Outcome)
      modifies this
      ensures r == Returned <==> old(Clean()) && Commits(begin, callback) && commit == Done
      ensures r == Returned ==> Clean() && committed == old(committed) + 1
      ensures r == Threw && old(Clean()) && Commits(begin, callback) && commit == Broken(true) ==>
        committed == old(committed) + 1
      ensures r == Threw && !(old(Clean()) && Commits(begin, callback) && commit == Broken(true)) ==>
        committed == old(committed)
      ensures old(txn) == Idle && open ==> Clean()
      ensures !old(Clean()) && open ==> old(txn) != Idle && txn == old(txn) && healthy == old(healthy)
    {
      var begun := Begin(begin);
      if !begun { return Threw; }
      open, healthy, txn := callback.open, callback.healthy, callback.txn;
      if !callback.throws {
        var ok := Commit(commit);
        if ok { return Returned; }
      }
      Rollback(rollback, after);
      r := Threw;
    }

    /** What the pool asks before it takes a connection back: true means clean, false means closed. */
    method Reset(reaction: Reaction, after: Txn) returns (ok: bool)
      modifies this
      ensures committed == old(committed)
      ensures ok ==> Clean()
      ensures !ok ==> !open
      ensures old(Clean()) ==> ok
      ensures old(open && healthy && txn in {InTransaction, InError}) && reaction == Done && after == Idle ==> ok
      ensures old(txn) == Unsettled ==> !ok
    {
      if !open || !healthy {
        Close();
        return false;
      }
      match txn {
        case Idle =>
        case InTransaction => Rollback(reaction, after);
        case InError => Rollback(reaction, after);
        case Unsettled =>
          Close();
          return false;
      }
      if !open || !healthy || txn != Idle {
        Close();
        return false;
      }
      ok := true;
    }
  }
}
