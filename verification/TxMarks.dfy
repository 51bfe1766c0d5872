/**
 What every operation of a queue that never prunes keeps: allocated nonces are distinct,
 execution marks are true of the current chain, and marked transactions form a prefix in
 nonce order. The chain is the sequence of account nonces by block number.
 */
module TxMarks {
  import opened Wrappers
  import opened Numbers
  import opened Fees
  import opened TxTable
  import opened TxQueue
  import opened Blocks

  type Nonces = seq<nat>

  /** The account nonce never decreases along a chain. */
  predicate ChainOk(chain: Nonces, status: BlockStatus) {
    && |chain| == status.latest + 1
    && status.safe <= status.latest
    && forall i, j :: 0 <= i <= j < |chain| ==> chain[i] <= chain[j]
  }

  /** One chain view follows another: they agree on every block both of them have. */
  predicate Follows(chain: Nonces, next: Nonces) {
    forall n :: 0 <= n < |chain| && n < |next| ==> chain[n] == next[n]
  }

  /** A marked transaction has a nonce the account had moved past at the mark's block. */
  predicate MarkSound(r: Row, chain: Nonces) {
    r.executed.Some? ==>
      r.nonce.Some? && r.executed.value < |chain| && r.nonce.value < chain[r.executed.value]
  }

  /** Only allocated transactions are marked. */
  predicate MarkAllocated(r: Row) {
    r.executed.Some? ==> r.nonce.Some?
  }

  ghost predicate MarksSound(rows: Table, chain: Nonces) {
    forall r :: r in rows ==> MarkSound(r, chain)
  }

  /** Below a marked nonce everything is marked, no later than it. */
  predicate MarkedBefore(a: Row, b: Row) {
    b.executed.Some? && a.nonce.Some? && b.nonce.Some? && a.nonce.value < b.nonce.value ==>
      a.executed.Some? && a.executed.value <= b.executed.value
  }

  ghost predicate MarksPrefix(rows: Table) {
    forall a, b :: a in rows && b in rows ==> MarkedBefore(a, b)
  }

  predicate NoncesDistinct(rows: Table) {
    forall i, j :: 0 <= i < j < |rows| && rows[i].nonce.Some? ==> rows[i].nonce != rows[j].nonce
  }

  ghost predicate RowsOk(rows: Table, chain: Nonces) {
    NoncesDistinct(rows) && MarksPrefix(rows) && MarksSound(rows, chain)
  }

  // ---------------------------------------------------------------- single statements

  lemma {:induction false} BelowBound(rows: Table)
    ensures forall r :: r in rows && r.nonce.Some? ==> r.nonce.value < NonceBound(rows)
  {
    if rows != [] {
      BelowBound(rows[1..]);
      assert forall r :: r in rows ==> r == rows[0] || r in rows[1..];
    }
  }

  /** The position of the oldest queued row. */
  lemma {:induction false} AllocateAt(rows: Table, block: nat) returns (k: nat)
    requires Oldest(rows, block).Some?
    ensures k < |rows| && Queued(rows[k], block) && Oldest(rows, block) == Some(rows[k])
    ensures forall i :: 0 <= i < k ==> !Queued(rows[i], block)
    ensures forall nonce :: Allocate(rows, block, nonce) == rows[k := rows[k].(nonce := Some(nonce))]
  {
    if Queued(rows[0], block) {
      k := 0;
    } else {
      var tail := AllocateAt(rows[1..], block);
      k := tail + 1;
      assert forall i :: 0 < i < k ==> rows[i] == rows[1..][i - 1];
    }
    OldestIs(rows, block, k);
  }

  /** A nonce above every allocated one keeps the table in order. */
  lemma AllocateKeeps(rows: Table, chain: Nonces, block: nat, account: nat)
    requires RowsOk(rows, chain) && Oldest(rows, block).Some?
    ensures RowsOk(Allocate(rows, block, NextNonce(rows, account)), chain)
  {
    var k := AllocateAt(rows, block);
    BelowBound(rows);
    var nonce := NextNonce(rows, account);
    var row := rows[k].(nonce := Some(nonce));
    var next := rows[k := row];
    assert forall r :: r in next ==> r == row || r in rows;
    assert MarkSound(rows[k], chain);
  }

  /** Every row of a changed table is a changed row. */
  lemma ChangedFrom(rows: Table, change: Change)
    ensures forall x :: x in Apply(rows, change) ==> exists r :: r in rows && x == ChangeRow(r, change)
  {
    var next := Apply(rows, change);
    forall x | x in next ensures exists r :: r in rows && x == ChangeRow(r, change) {
      var i :| 0 <= i < |next| && next[i] == x;
      assert rows[i] in rows && x == ChangeRow(rows[i], change);
    }
  }

  lemma ChangeKeepsNonces(rows: Table, change: Change)
    requires NoncesDistinct(rows)
    ensures NoncesDistinct(Apply(rows, change))
  {
  }

  /** Recording a submission does not touch nonces or marks. */
  lemma RecordKeeps(rows: Table, chain: Nonces, s: Submission)
    requires RowsOk(rows, chain)
    ensures RowsOk(Apply(rows, Record(s)), chain)
  {
    ChangedFrom(rows, Record(s));
    forall a, b | a in Apply(rows, Record(s)) && b in Apply(rows, Record(s)) ensures MarkedBefore(a, b) {
      var r :| r in rows && a == ChangeRow(r, Record(s));
      var q :| q in rows && b == ChangeRow(q, Record(s));
      assert MarkedBefore(r, q);
    }
    forall x | x in Apply(rows, Record(s)) ensures MarkSound(x, chain) {
      var r :| r in rows && x == ChangeRow(r, Record(s));
      assert MarkSound(r, chain);
    }
  }

  /** Marking at the head everything below the account nonce at the head. */
  lemma MarkKeeps(rows: Table, chain: Nonces)
    requires RowsOk(rows, chain) && chain != []
    ensures RowsOk(Apply(rows, Mark(|chain| - 1, chain[|chain| - 1])), chain)
  {
    var mark := Mark(|chain| - 1, chain[|chain| - 1]);
    ChangedFrom(rows, mark);
    forall a, b | a in Apply(rows, mark) && b in Apply(rows, mark) ensures MarkedBefore(a, b) {
      var r :| r in rows && a == ChangeRow(r, mark);
      var q :| q in rows && b == ChangeRow(q, mark);
      assert MarkedBefore(r, q) && MarkSound(r, chain) && MarkSound(q, chain);
    }
    forall x | x in Apply(rows, mark) ensures MarkSound(x, chain) {
      var r :| r in rows && x == ChangeRow(r, mark);
      assert MarkSound(r, chain);
    }
  }

  /** Clearing the marks from `block` on leaves marks that are sound for every chain that
      agrees with the old one below `block`. */
  lemma UnmarkKeeps(rows: Table, chain: Nonces, block: nat, next: Nonces)
    requires NoncesDistinct(rows) && MarksPrefix(rows)
    requires forall r :: r in rows && r.executed.Some? && r.executed.value < block ==> MarkSound(r, chain)
    requires Follows(chain, next) && block <= |next|
    ensures RowsOk(Apply(rows, Unmark(block)), next)
  {
    var unmark := Unmark(block);
    ChangedFrom(rows, unmark);
    forall a, b | a in Apply(rows, unmark) && b in Apply(rows, unmark) ensures MarkedBefore(a, b) {
      var r :| r in rows && a == ChangeRow(r, unmark);
      var q :| q in rows && b == ChangeRow(q, unmark);
      assert MarkedBefore(r, q);
    }
    forall x | x in Apply(rows, unmark) ensures MarkSound(x, next) {
      var r :| r in rows && x == ChangeRow(r, unmark);
    }
  }

  lemma ExtendKeeps(rows: Table, chain: Nonces, next: Nonces)
    requires RowsOk(rows, chain) && Follows(chain, next) && |chain| <= |next|
    ensures RowsOk(rows, next)
  {
    forall r | r in rows ensures MarkSound(r, next) {
      assert MarkSound(r, chain);
    }
  }

  lemma EnqueueKeeps(rows: Table, chain: Nonces, transactions: seq<(Tx, Option<nat>)>)
    requires RowsOk(rows, chain)
    ensures RowsOk(rows + NewRows(transactions), chain)
  {
    var more := NewRows(transactions);
    forall r | r in more ensures r.nonce.None? && r.executed.None? {
    }
    assert forall r :: r in rows + more ==> r in rows || r in more;
  }

  // ---------------------------------------------------------------- operations

  /** The invariant of a started queue. */
  ghost predicate QueueOk(q: Queue, chain: Nonces) {
    && RowsOk(q.rows, chain)
    && q.status.Some? && ChainOk(chain, q.status.value)
    && (q.nonceCache.Some? ==> q.nonceCache.value == chain[q.status.value.latest])
  }

  /** The node's nonce reply is the account nonce at the head of the chain view. */
  predicate NodeOk(node: Node, chain: Nonces) {
    chain != [] && (node.account.Some? ==> node.account.value == chain[|chain| - 1])
  }

  lemma SubmitKeeps(c: Config, q: Queue, row: Row, block: nat, node: Node, chain: Nonces)
    requires QueueOk(q, chain)
    ensures QueueOk(Submit(c, q, row, block, node).queue, chain)
  {
    var q1 := WithFees(c, q, node);
    if q1.feeCache.Some? {
      var fees := Bump(q1.feeCache.value, row.fees);
      RecordKeeps(q1.rows, chain, Submission(Some(block), NonceOf(row), fees));
      RecordKeeps(q1.rows, chain, Submission(None, NonceOf(row), fees));
    }
  }

  lemma SubmitOldestKeeps(c: Config, q: Queue, block: nat, node: Node, chain: Nonces)
    requires QueueOk(q, chain) && NodeOk(node, chain)
    ensures QueueOk(SubmitOldest(c, q, block, node).0.queue, chain)
  {
    var q1 := WithNonce(q, node);
    if q1.nonceCache.Some? && Oldest(q1.rows, block).Some? {
      var row := Oldest(q1.rows, block).value;
      var nonce := NextNonce(q1.rows, q1.nonceCache.value);
      AllocateKeeps(q1.rows, chain, block, q1.nonceCache.value);
      var q2 := q1.(rows := Allocate(q1.rows, block, nonce));
      SubmitKeeps(c, q2, row.(nonce := Some(nonce)), block, node, chain);
    }
  }

  lemma {:induction false} SubmitNewKeeps(c: Config, q: Queue, budget: nat, block: nat, node: Node, chain: Nonces)
    requires QueueOk(q, chain) && NodeOk(node, chain)
    ensures QueueOk(SubmitNew(c, q, budget, block, node).queue, chain)
    decreases budget
  {
    if budget > 0 {
      SubmitOldestKeeps(c, q, block, node, chain);
      SubmitNewKeeps(c, SubmitOldest(c, q, block, node).0.queue, budget - 1, block, node, chain);
    }
  }

  lemma {:induction false} SubmitAllKeeps(c: Config, q: Queue, rows: Table, block: nat, node: Node, chain: Nonces)
    requires QueueOk(q, chain)
    ensures QueueOk(SubmitAll(c, q, rows, block, node).queue, chain)
    decreases |rows|
  {
    if rows != [] {
      SubmitKeeps(c, q, rows[0], block, node, chain);
      SubmitAllKeeps(c, Submit(c, q, rows[0], block, node).queue, rows[1..], block, node, chain);
    }
  }

  lemma AdvanceKeeps(c: Config, q: Queue, node: Node, chain: Nonces)
    requires QueueOk(q, chain) && NodeOk(node, chain)
    ensures QueueOk(Advance(c, q, q.status.value.latest, node).queue, chain)
  {
    var latest := q.status.value.latest;
    var q1 := WithNonce(q, node);
    if q1.nonceCache.Some? {
      MarkKeeps(q1.rows, chain);
      var q2 := q1.(rows := Apply(q1.rows, Mark(latest, q1.nonceCache.value)));
      SubmitAllKeeps(c, q2, Stale(q2.rows, CheckedSub(latest, c.blocksBeforeResubmit)), latest, node, chain);
      var q3 := ResubmitStale(c, q2, latest, node).queue;
      SubmitNewKeeps(c, q3, Budget(c, q3), latest, node, chain);
    }
  }

  /** A new chain view: what it must satisfy relative to the previous one. A service that has
      just started trusts the marks at or below the first safe block. */
  ghost predicate StatusOk(q: Queue, chain: Nonces, status: BlockStatus, next: Nonces) {
    && ChainOk(next, status)
    && match q.status
       case None =>
         && q.nonceCache.None? && q.feeCache.None?
         && NoncesDistinct(q.rows) && MarksPrefix(q.rows)
         && (forall r :: r in q.rows ==> MarkAllocated(r))
         && forall r :: r in q.rows && r.executed.Some? && r.executed.value <= status.safe ==> MarkSound(r, next)
       case Some(previous) =>
         && QueueOk(q, chain)
         && previous.safe <= status.safe
         && Follows(chain, next)
  }

  lemma ReconciledKeeps(q: Queue, chain: Nonces, status: BlockStatus, next: Nonces)
    requires StatusOk(q, chain, status, next)
    ensures QueueOk(Reconciled(false, q, status).queue, next)
  {
    if q.status.None? {
      UnmarkKeeps(q.rows, next, status.safe + 1, next);
    } else if q.status.value.latest > status.latest {
      UnmarkKeeps(q.rows, chain, status.latest + 1, next);
    } else {
      ExtendKeeps(q.rows, chain, next);
    }
  }

  lemma UpdateKeeps(c: Config, q: Queue, chain: Nonces, status: BlockStatus, next: Nonces, node: Node)
    requires StatusOk(q, chain, status, next) && NodeOk(node, next)
    ensures QueueOk(UpdateStatus(c, false, q, status, node).queue, next)
  {
    if q.status == Some(status) {
      ExtendKeeps(q.rows, chain, next);
    } else {
      ReconciledKeeps(q, chain, status, next);
      AdvanceKeeps(c, Reconciled(false, q, status).queue, node, next);
    }
  }

  lemma EnqueueOpKeeps(c: Config, q: Queue, chain: Nonces, transactions: seq<(Tx, Option<nat>)>, node: Node)
    requires QueueOk(q, chain) && NodeOk(node, chain)
    ensures QueueOk(Enqueue(c, q, transactions, node).queue, chain)
  {
    EnqueueKeeps(q.rows, chain, transactions);
    var q1 := q.(rows := q.rows + NewRows(transactions));
    SubmitNewKeeps(c, q1, Budget(c, q1), q1.status.value.latest, node, chain);
  }
}
