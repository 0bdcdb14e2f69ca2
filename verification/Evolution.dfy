/** What every step of every actor guarantees about a row, and what a row always satisfies. */
module Evolution {
  import opened Common
  import opened ObjectNames
  import opened Tasks
  import opened TaskDb

  predicate Submitted(s: Status) {
    s in {Pending, Processing, Done, Dlq, Arrears}
  }

  ghost predicate RowOk(sid: nat, r: Row) {
    && (r.status == Processing <==> r.owner.Some?)
    && (r.status != Processing ==> r.leaseUntil == 0.0)
    && (r.status != Uploading ==> r.uploadLeaseUntil == 0.0)
    && r.retryCount <= MAX_RETRY
    && (r.retryCount == MAX_RETRY <==> r.status == Dlq)
    && (!Submitted(r.status) ==> r.generation == 0 && r.objectKey == None)
    && (Submitted(r.status) ==> r.objectKey == Some(ObjectKey(sid)))
    && (r.status in {Processing, Done, Dlq, Arrears} ==> r.generation > 0)
  }

  /** The rely/guarantee relation between a row before and after one step of the system. */
  ghost predicate Evolves(r: Row, r': Row) {
    && r'.userId == r.userId && r'.idemKey == r.idemKey && r'.fileHash == r.fileHash
    && (r'.status != r.status ==> CanTransition(r.status, r'.status))
    && (IsTerminal(r.status) ==> r' == r)
    && (r'.generation != r.generation ==>
          && r'.generation == r.generation + 1 && r'.status == Processing
          && r.status in {Pending, Processing} && r'.retryCount == r.retryCount)
    && (r'.generation == r.generation && r'.status == Processing ==>
          && r.status == Processing && r'.owner == r.owner && r'.retryCount == r.retryCount)
    && (r'.retryCount != r.retryCount ==>
          r'.retryCount == r.retryCount + 1 && r.status == Processing && r'.status in {Pending, Dlq})
  }

  predicate SameRequest(r: Row, q: Row) {
    r.userId == q.userId && r.idemKey == q.idemKey
  }

  ghost predicate TablesOk(t: Tables) {
    && (forall sid :: sid in t.rows ==> sid < t.nextId && RowOk(sid, t.rows[sid]))
    && (forall a, b :: a in t.rows && b in t.rows && SameRequest(t.rows[a], t.rows[b]) ==> a == b)
    && (forall u :: u in t.accounts ==> t.accounts[u] >= 0.0)
  }

  ghost predicate TablesEvolve(t: Tables, t': Tables) {
    && t.nextId <= t'.nextId
    && (forall sid :: sid in t.rows ==> sid in t'.rows && Evolves(t.rows[sid], t'.rows[sid]))
    && (forall sid :: sid in t'.rows && sid !in t.rows ==>
          t'.rows[sid].status in {Uploading, Rejected} && t'.rows[sid].generation == 0 && t'.rows[sid].retryCount == 0)
  }

  lemma TablesReflexive(t: Tables)
    ensures TablesEvolve(t, t)
  {
  }

  /** Replacing one row by a legal successor keeps the tables legal. */
  lemma RowReplaced(t: Tables, sid: nat, r': Row)
    requires TablesOk(t) && sid in t.rows && RowOk(sid, r') && Evolves(t.rows[sid], r')
    ensures TablesOk(WithRow(t, sid, r')) && TablesEvolve(t, WithRow(t, sid, r'))
  {
  }

  lemma RowInserted(t: Tables, r: Row)
    requires TablesOk(t) && RowOk(t.nextId, r) && r.retryCount == 0 && r.status in {Uploading, Rejected}
    ensures Insert(t, r).Some? ==> TablesOk(Insert(t, r).value) && TablesEvolve(t, Insert(t, r).value)
  {
    if Insert(t, r).Some? {
      var t' := Insert(t, r).value;
      assert forall sid :: sid in t.rows ==> sid !in SameKey(t, r.userId, r.idemKey);
      assert forall sid :: sid in t.rows ==> !SameRequest(t.rows[sid], r);
    }
  }
}
