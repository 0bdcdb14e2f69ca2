/** The data layer as an object. Each method is one atomic statement or transaction, and its new state is the one the
    statement functions define; the methods that chain several statements say what the chain amounts to. */
module Database {
  import opened Common
  import opened Tasks
  import opened TaskDb
  import opened Evolution

  class Database {
    var rows: map<nat, Row>
    var accounts: map<int, real>
    var nextId: nat

    function View(): Tables
      reads this
    {
      Tables(rows, accounts, nextId)
    }

    constructor (accounts: map<int, real>)
      ensures View() == Tables(map[], accounts, 1)
    {
      rows := map[];
      this.accounts := accounts;
      nextId := 1;
    }

    /** Claim the next task. Uninterrupted, the conditional update cannot miss: there is nothing to claim exactly when
        no task is due and none has lapsed; otherwise the caller gets the row it selected, now its own under the next
        generation, for the lease it asked for. Nothing else changes. */
    method ClaimNextTask(owner: string, now: real, leaseSec: real, stamp: string) returns (claimed: Option<(nat, Row)>)
      modifies this
      ensures claimed == None <==> NextClaim(old(View()), now) == None
      ensures claimed == None <==>
        forall x :: x in old(rows) ==>
          && !(old(rows)[x].status == Pending && old(rows)[x].nextAttemptAt <= now)
          && !(old(rows)[x].status == Processing && old(rows)[x].leaseUntil <= now)
      ensures claimed == None ==> View() == old(View())
      ensures claimed.Some? ==>
        var (sid, r) := claimed.value;
        var p := NextClaim(old(View()), now).value;
        && sid == p.sid && View().rows.Keys == old(rows).Keys && r == rows[sid]
        && ClaimUpdate(old(View()), p, owner, now, leaseSec, stamp) == Some(View())
        && HeldUntil(View(), sid, owner, old(rows)[sid].generation + 1,
                     now + (if leaseSec >= 0.1 then leaseSec else 0.1))
        && var was := old(rows)[sid];
        && rows == old(rows)[sid := was.(status := Processing, owner := Some(owner), generation := was.generation + 1,
                                         nextAttemptAt := if was.status == Pending then 0.0 else was.nextAttemptAt,
                                         leaseUntil := r.leaseUntil, updatedAt := stamp)]
        && accounts == old(accounts) && nextId == old(nextId)
    {
      var pick := NextClaim(View(), now);
      if pick == None {
        assert forall x :: x in rows ==> x !in Waiting(View(), now) + Lapsed(View(), now);
        return None;
      }
      var p := pick.value;
      var r := rows[p.sid];
      if p.wasPending {
        r := r.(status := Processing, owner := Some(owner), generation := p.generation + 1,
                leaseUntil := LeaseEnd(now, leaseSec), nextAttemptAt := 0.0, updatedAt := stamp);
      } else {
        r := r.(owner := Some(owner), generation := p.generation + 1, leaseUntil := LeaseEnd(now, leaseSec),
                updatedAt := stamp);
      }
      ClaimHoldsForLease(View(), p, owner, now, leaseSec, stamp);
      rows := rows[p.sid := r];
      claimed := Some((p.sid, rows[p.sid]));
      hide HeldUntil, Waiting, Lapsed;
    }

    method RenewProcessingLease(sid: nat, owner: string, generation: nat, now: real, leaseSec: real, stamp: string)
      returns (ok: bool)
      modifies this
      ensures (View(), ok) == RenewLease(old(View()), sid, owner, generation, now, leaseSec, stamp)
      ensures ok <==>
        && sid in old(rows) && old(rows)[sid].status == Processing && old(rows)[sid].owner == Some(owner)
        && old(rows)[sid].generation == generation && old(rows)[sid].leaseUntil > now
      ensures !ok ==> View() == old(View())
      ensures ok ==>
        && HeldUntil(View(), sid, owner, generation, now + (if leaseSec >= 0.1 then leaseSec else 0.1))
        && rows == old(rows)[sid := old(rows)[sid].(leaseUntil := rows[sid].leaseUntil, updatedAt := stamp)]
        && accounts == old(accounts) && nextId == old(nextId)
    {
      ok := Fenced(View(), sid, owner, generation, now);
      if ok {
        rows := rows[sid := rows[sid].(leaseUntil := LeaseEnd(now, leaseSec), updatedAt := stamp)];
      }
    }

    /** The fenced update. It sets the columns named and no others, except that leaving `processing` also gives up the
        owner and the lease. */
    method UpdateProcessingOwned(sid: nat, owner: string, generation: nat, fields: Patch, now: real, stamp: string)
      returns (ok: bool)
      modifies this
      ensures (View(), ok) == UpdateOwned(old(View()), sid, owner, generation, fields, now, stamp)
      ensures ok <==>
        && fields != NOTHING && sid in old(rows) && old(rows)[sid].status == Processing
        && old(rows)[sid].owner == Some(owner) && old(rows)[sid].generation == generation
        && old(rows)[sid].leaseUntil > now
      ensures !ok ==> View() == old(View())
      ensures ok ==>
        && rows == old(rows)[sid := rows[sid]] && accounts == old(accounts) && nextId == old(nextId)
        && var r, was := rows[sid], old(rows)[sid];
        && (if fields.status in {None, Some(Processing)} then Sets(was, r, fields, stamp)
            else Sets(was, r, fields.(owner := Some(None), leaseUntil := Some(0.0)), stamp))
    {
      if fields == NOTHING {
        return false;
      }
      var data := fields;
      if data.status.Some? && data.status.value != Processing {
        data := data.(owner := Some(None), leaseUntil := Some(0.0));
      }
      ok := Fenced(View(), sid, owner, generation, now);
      if ok {
        rows := rows[sid := Patched(rows[sid], data, stamp)];
      }
    }

    /** The finalize transaction. Both updates are made, and both are undone when the charge does not go through. */
    method FinalizeProcessingAndCharge(sid: nat, owner: string, generation: nat, cost: real, version: string,
                                       required: string, msg: string, now: real, stamp: string)
      returns (ok: bool, balanceAfter: Option<real>)
      modifies this
      ensures var payer := FinalizeSelect(old(View()), sid, owner, generation, now);
        if payer == None then !ok && balanceAfter == None && View() == old(View())
        else (View(), ok) == FinalizeWrite(old(View()), sid, owner, generation, payer.value, cost, version, required,
                                           msg, now, stamp)
      ensures !ok ==> View() == old(View())
      ensures var payer := FinalizeSelect(old(View()), sid, owner, generation, now);
        balanceAfter == if payer == None || (ok && cost <= 0.0) || payer.value !in accounts then None
                        else Some(accounts[payer.value])
      ensures ok && cost > 0.0 ==> balanceAfter.Some? && balanceAfter.value >= 0.0
      ensures ok <==>
        && sid in old(rows) && old(rows)[sid].status == Processing && old(rows)[sid].owner == Some(owner)
        && old(rows)[sid].generation == generation && old(rows)[sid].leaseUntil > now
        && (cost <= 0.0 || (old(rows)[sid].userId in old(accounts) && old(accounts)[old(rows)[sid].userId] >= cost))
      ensures ok ==>
        rows == old(rows)[sid := old(rows)[sid].(
          status := Done, owner := None, leaseUntil := 0.0, detectedVersion := Some(version),
          requiredVersion := Some(required), resultMsg := Some(msg), updatedAt := stamp)]
      ensures ok ==> forall u ::
        Balance(View(), u) == Balance(old(View()), u) - (if cost > 0.0 && u == old(rows)[sid].userId then cost else 0.0)
    {
      if !Fenced(View(), sid, owner, generation, now) {
        return false, None;
      }
      var before := rows;
      var payer := rows[sid].userId;
      rows := rows[sid := rows[sid].(status := Done, owner := None, leaseUntil := 0.0, detectedVersion := Some(version),
                                     requiredVersion := Some(required), resultMsg := Some(msg), updatedAt := stamp)];
      balanceAfter := None;
      if cost > 0.0 {
        if payer in accounts && accounts[payer] >= cost {
          accounts := accounts[payer := accounts[payer] - cost];
          balanceAfter := Some(accounts[payer]);
        } else {
          rows := before;
          return false, if payer in accounts then Some(accounts[payer]) else None;
        }
      }
      ok := true;
    }

    method Charge(userId: int, cost: real) returns (ok: bool)
      modifies this
      ensures (View(), ok) == TaskDb.Charge(old(View()), userId, cost)
      ensures ok <==> userId in old(accounts) && old(accounts)[userId] >= cost
      ensures rows == old(rows)
      ensures forall u :: Balance(View(), u) == Balance(old(View()), u) - (if ok && u == userId then cost else 0.0)
    {
      ok := userId in accounts && accounts[userId] >= cost;
      if ok {
        accounts := accounts[userId := accounts[userId] - cost];
      }
    }

    /** An account update from outside. It goes through exactly when it leaves no debt. */
    method Adjust(userId: int, delta: real) returns (ok: bool)
      modifies this
      ensures View() == Adjusted(old(View()), userId, delta)
      ensures ok <==> Balance(old(View()), userId) + delta >= 0.0
      ensures rows == old(rows)
      ensures forall u :: Balance(View(), u) == Balance(old(View()), u) + (if ok && u == userId then delta else 0.0)
    {
      var b := Balance(View(), userId) + delta;
      ok := b >= 0.0;
      if ok {
        accounts := accounts[userId := b];
      }
    }

    /** Reserve a submission before any object is written. The flag says whether this call created the row; either way
        the row returned is the one row of that key. */
    method ReserveUpload(userId: int, key: string, hash: string, now: real, leaseSec: real, stamp: string)
      returns (sid: nat, row: Row, created: bool)
      requires TablesOk(View())
      modifies this
      ensures TablesOk(View()) && sid in rows && row == rows[sid] && SameKey(View(), userId, key) == {sid}
      ensures created <==> SameKey(old(View()), userId, key) == {}
      ensures !created ==> View() == old(View())
      ensures created ==>
        TaskDb.ReserveUpload(old(View()), userId, key, hash, now, leaseSec, stamp) == Some(View()) && sid == old(nextId)
      ensures created ==>
        && row.userId == userId && row.idemKey == key && row.fileHash == hash && row.status == Uploading
        && row.generation == 0 && row.retryCount == 0 && row.owner == None && row.nextAttemptAt == 0.0
        && rows == old(rows)[sid := row] && nextId == sid + 1 && accounts == old(accounts)
        && forall at: real ::
             TaskDb.ClaimStaleUpload(View(), sid, hash, at, leaseSec, stamp).1 <==> at >= now + leaseSec
    {
      var t := View();
      var found := FindByKey(t, userId, key);
      if found == None {
        created := true;
        sid := nextId;
        row := FreshRow(userId, key, hash, Uploading, now + leaseSec, None, stamp);
        RowInserted(t, row);
        rows := rows[sid := row];
        nextId := nextId + 1;
      } else {
        created := false;
        sid := found.value;
        row := rows[sid];
      }
      assert sid in SameKey(View(), userId, key);
      assert forall x :: x in SameKey(View(), userId, key) ==> SameRequest(rows[x], rows[sid]);
    }

    /** Remember a refused file; `None` is the integrity error of a key that is already taken. */
    method InsertRejected(userId: int, key: string, msg: string, hash: string, stamp: string) returns (sid: Option<nat>)
      modifies this
      ensures sid == None <==> SameKey(old(View()), userId, key) != {}
      ensures sid == None ==> View() == old(View())
      ensures sid.Some? ==>
        TaskDb.InsertRejected(old(View()), userId, key, hash, msg, stamp) == Some(View()) && sid.value == old(nextId)
      ensures sid.Some? ==>
        && sid.value in rows && rows == old(rows)[sid.value := rows[sid.value]] && nextId == sid.value + 1
        && accounts == old(accounts)
        && var r := rows[sid.value];
        && r.userId == userId && r.idemKey == key && r.fileHash == hash && r.status == Rejected
        && r.resultMsg == Some(msg) && r.generation == 0 && r.retryCount == 0 && r.owner == None
    {
      if SameKey(View(), userId, key) != {} {
        return None;
      }
      sid := Some(nextId);
      rows := rows[nextId := FreshRow(userId, key, hash, Rejected, 0.0, Some(msg), stamp)];
      nextId := nextId + 1;
    }

    method ClaimStaleUpload(sid: nat, hash: string, now: real, leaseSec: real, stamp: string) returns (ok: bool)
      modifies this
      ensures (View(), ok) == TaskDb.ClaimStaleUpload(old(View()), sid, hash, now, leaseSec, stamp)
      ensures ok <==> && sid in old(rows) && old(rows)[sid].status == Uploading && old(rows)[sid].fileHash == hash
                      && old(rows)[sid].uploadLeaseUntil <= now
      ensures ok ==>
        && rows == old(rows)[sid := old(rows)[sid].(uploadLeaseUntil := rows[sid].uploadLeaseUntil, updatedAt := stamp)]
        && accounts == old(accounts) && nextId == old(nextId)
        && forall at: real ::
             TaskDb.ClaimStaleUpload(View(), sid, hash, at, leaseSec, stamp).1 <==> at >= now + leaseSec
      ensures !ok ==> View() == old(View())
    {
      ok := sid in rows && rows[sid].status == Uploading && rows[sid].fileHash == hash
        && rows[sid].uploadLeaseUntil <= now;
      if ok {
        rows := rows[sid := rows[sid].(uploadLeaseUntil := now + leaseSec, updatedAt := stamp)];
      }
    }

    method UpdateTask(sid: nat, expected: Status, fields: Patch, stamp: string) returns (ok: bool)
      modifies this
      ensures (View(), ok) == TaskDb.UpdateTask(old(View()), sid, expected, fields, stamp)
      ensures ok <==> fields != NOTHING && sid in old(rows) && old(rows)[sid].status == expected
      ensures ok ==>
        && rows == old(rows)[sid := rows[sid]] && accounts == old(accounts) && nextId == old(nextId)
        && Sets(old(rows)[sid], rows[sid], fields, stamp)
      ensures !ok ==> View() == old(View())
    {
      ok := fields != NOTHING && sid in rows && rows[sid].status == expected;
      if ok {
        rows := rows[sid := Patched(rows[sid], fields, stamp)];
      }
    }

    /** A state transition outside worker ownership, uninterrupted. It succeeds exactly from `uploading` or `arrears` to
        `pending`, the edges of the table that do not touch `processing`, and changes nothing otherwise. */
    method Transition(sid: nat, to: Status, fields: Patch, stamp: string) returns (ok: bool)
      modifies this
      ensures ok <==> sid in old(rows) && old(rows)[sid].status in {Uploading, Arrears} && to == Pending
      ensures ok ==> View() == WithRow(old(View()), sid, Patched(old(rows)[sid], fields.(status := Some(to)), stamp))
      ensures ok ==>
        && rows == old(rows)[sid := rows[sid]] && accounts == old(accounts) && nextId == old(nextId)
        && Sets(old(rows)[sid], rows[sid], fields.(status := Some(to)), stamp)
      ensures !ok ==> View() == old(View())
    {
      if sid !in rows {
        return false;
      }
      var current := rows[sid].status;
      MovesExactly(current, to);
      hide CanTransition;
      if current == to || current == Processing || to == Processing || !CanTransition(current, to) {
        return false;
      }
      ok := UpdateTask(sid, current, fields.(status := Some(to)), stamp);
    }

    /** A worker's exit other than success: only along an edge out of `processing`, and only through the fence. */
    method TransitionOwned(sid: nat, to: Status, owner: string, generation: nat, fields: Patch, now: real,
                           stamp: string)
      returns (ok: bool)
      modifies this
      ensures ok <==>
        && to in {Pending, Dlq, Arrears}
        && sid in old(rows) && old(rows)[sid].status == Processing && old(rows)[sid].owner == Some(owner)
        && old(rows)[sid].generation == generation && old(rows)[sid].leaseUntil > now
      ensures (View(), ok) == if to !in {Pending, Dlq, Arrears} then (old(View()), false)
        else UpdateOwned(old(View()), sid, owner, generation, fields.(status := Some(to)), now, stamp)
      ensures ok ==>
        && rows == old(rows)[sid := rows[sid]] && accounts == old(accounts) && nextId == old(nextId)
        && Sets(old(rows)[sid], rows[sid],
                fields.(status := Some(to), owner := Some(None), leaseUntil := Some(0.0)), stamp)
    {
      if to == Done || !CanTransition(Processing, to) {
        return false;
      }
      ok := UpdateProcessingOwned(sid, owner, generation, fields.(status := Some(to)), now, stamp);
    }
  }
}
