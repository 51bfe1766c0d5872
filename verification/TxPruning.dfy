/**
 Pruning is unobservable: within one process lifetime the queue that deletes rows takes the
 same actions as one that never does. What the reference queue keeps (TxMarks, and the nonce
 order below) therefore also holds of the pruned one.
 */
module TxPruning {
  import opened Wrappers
  import opened Fees
  import opened TxTable
  import opened TxQueue
  import Blocks
  import opened TxMarks

  /** The row was executed or has expired unsubmitted, at or before `safe`. */
  predicate Dead(r: Row, safe: nat) {
    Prunable(r, safe) && MarkAllocated(r)
  }

  /** `kept` is `all` without some rows that were dead at block `safe`. */
  predicate PrunedFrom(kept: Table, all: Table, safe: nat) {
    if all == [] then kept == []
    else
      || (kept != [] && kept[0] == all[0] && PrunedFrom(kept[1..], all[1..], safe))
      || (Dead(all[0], safe) && PrunedFrom(kept, all[1..], safe))
  }

  lemma {:induction false} PrunedRefl(rows: Table, safe: nat)
    ensures PrunedFrom(rows, rows, safe)
  {
    if rows != [] {
      PrunedRefl(rows[1..], safe);
    }
  }

  lemma {:induction false} PrunedMembers(kept: Table, all: Table, safe: nat)
    requires PrunedFrom(kept, all, safe)
    ensures forall r :: r in kept ==> r in all
  {
    if all != [] {
      if kept != [] && kept[0] == all[0] && PrunedFrom(kept[1..], all[1..], safe) {
        PrunedMembers(kept[1..], all[1..], safe);
        assert forall r :: r in kept ==> r == kept[0] || r in kept[1..];
      } else {
        PrunedMembers(kept, all[1..], safe);
      }
    }
  }

  /** Pruning at a later safe block only removes more. */
  lemma {:induction false} PruneMore(kept: Table, all: Table, safe: nat, later: nat)
    requires PrunedFrom(kept, all, safe) && safe <= later
    requires forall r :: r in all ==> MarkAllocated(r)
    ensures PrunedFrom(kept, all, later)
    ensures PrunedFrom(Prune(kept, later), all, later)
  {
    if all != [] {
      if kept != [] && kept[0] == all[0] && PrunedFrom(kept[1..], all[1..], safe) {
        PruneMore(kept[1..], all[1..], safe, later);
        if !Prunable(kept[0], later) {
          assert Prune(kept, later)[1..] == Prune(kept[1..], later);
        } else {
          assert Prune(kept, later) == Prune(kept[1..], later);
        }
      } else {
        PruneMore(kept, all[1..], safe, later);
      }
    }
  }

  // ---------------------------------------------------------------- statements on both tables

  /** A dead row is invisible to every query at or above the safe block. */
  lemma DeadInvisible(r: Row, safe: nat, block: nat)
    requires Dead(r, safe) && safe <= block
    ensures !InFlight(r) && !Queued(r, block) && !Outstanding(r, block)
  {
  }

  lemma {:induction false} QueriesAgree(kept: Table, all: Table, safe: nat, block: nat, before: Option<nat>)
    requires PrunedFrom(kept, all, safe) && safe <= block
    ensures InFlightCount(kept) == InFlightCount(all)
    ensures OutstandingCount(kept, block) == OutstandingCount(all, block)
    ensures Oldest(kept, block) == Oldest(all, block)
    ensures Stale(kept, before) == Stale(all, before)
  {
    if all != [] {
      if kept != [] && kept[0] == all[0] && PrunedFrom(kept[1..], all[1..], safe) {
        QueriesAgree(kept[1..], all[1..], safe, block, before);
      } else {
        QueriesAgree(kept, all[1..], safe, block, before);
        DeadInvisible(all[0], safe, block);
      }
    }
  }

  /** The deleted rows' nonces are below the account nonce, so `MAX(nonce)` over the rows that
      are left yields the same next nonce. */
  lemma {:induction false} NextNonceAgrees(kept: Table, all: Table, safe: nat, account: nat)
    requires PrunedFrom(kept, all, safe)
    requires forall r :: r in all && Dead(r, safe) && r.nonce.Some? ==> r.nonce.value < account
    ensures NextNonce(kept, account) == NextNonce(all, account)
  {
    if all != [] {
      if kept != [] && kept[0] == all[0] && PrunedFrom(kept[1..], all[1..], safe) {
        NextNonceAgrees(kept[1..], all[1..], safe, account);
      } else {
        assert all[0] in all;
        NextNonceAgrees(kept, all[1..], safe, account);
      }
    }
  }

  lemma {:induction false} AllocateAgrees(kept: Table, all: Table, safe: nat, block: nat, nonce: nat)
    requires PrunedFrom(kept, all, safe) && safe <= block
    ensures PrunedFrom(Allocate(kept, block, nonce), Allocate(all, block, nonce), safe)
  {
    if all != [] {
      if kept != [] && kept[0] == all[0] && PrunedFrom(kept[1..], all[1..], safe) {
        AllocateAgrees(kept[1..], all[1..], safe, block, nonce);
      } else {
        AllocateAgrees(kept, all[1..], safe, block, nonce);
        DeadInvisible(all[0], safe, block);
        assert Allocate(all, block, nonce)[1..] == Allocate(all[1..], block, nonce);
      }
    }
  }

  /** The change leaves dead rows dead and does not touch their marks. */
  predicate ChangeSpares(change: Change, safe: nat) {
    change.Unmark? ==> change.block > safe
  }

  lemma {:induction false} ChangeAgrees(kept: Table, all: Table, safe: nat, change: Change)
    requires PrunedFrom(kept, all, safe) && ChangeSpares(change, safe)
    ensures PrunedFrom(Apply(kept, change), Apply(all, change), safe)
    ensures Marks(kept, change) == Marks(all, change)
  {
    if all != [] {
      assert Apply(all, change)[1..] == Apply(all[1..], change);
      if kept != [] && kept[0] == all[0] && PrunedFrom(kept[1..], all[1..], safe) {
        ChangeAgrees(kept[1..], all[1..], safe, change);
        assert Apply(kept, change)[1..] == Apply(kept[1..], change);
      } else {
        ChangeAgrees(kept, all[1..], safe, change);
        assert Dead(ChangeRow(all[0], change), safe);
        assert ChangeRow(all[0], change).executed == all[0].executed;
      }
    }
  }

  lemma {:induction false} EnqueueAgrees(kept: Table, all: Table, safe: nat, more: Table)
    requires PrunedFrom(kept, all, safe)
    ensures PrunedFrom(kept + more, all + more, safe)
  {
    if all == [] {
      PrunedRefl(more, safe);
      assert kept + more == more && all + more == more;
    } else {
      assert (all + more)[1..] == all[1..] + more;
      if kept != [] && kept[0] == all[0] && PrunedFrom(kept[1..], all[1..], safe) {
        EnqueueAgrees(kept[1..], all[1..], safe, more);
        assert (kept + more)[1..] == kept[1..] + more;
      } else {
        EnqueueAgrees(kept, all[1..], safe, more);
      }
    }
  }

  // ---------------------------------------------------------------- operations on both queues

  /** The pruning queue `p` and the reference queue `q` differ only in deleted rows. */
  predicate Mirrors(p: Queue, q: Queue, safe: nat) {
    && p.status == q.status && p.nonceCache == q.nonceCache && p.feeCache == q.feeCache
    && PrunedFrom(p.rows, q.rows, safe)
  }

  predicate SameOutcome(a: Outcome, b: Outcome, safe: nat) {
    a.actions == b.actions && a.ok == b.ok && Mirrors(a.queue, b.queue, safe)
  }

  lemma SubmitMirrors(c: Config, p: Queue, q: Queue, row: Row, block: nat, node: Node, safe: nat)
    requires Mirrors(p, q, safe)
    ensures SameOutcome(Submit(c, p, row, block, node), Submit(c, q, row, block, node), safe)
  {
    var q1 := WithFees(c, q, node);
    if q1.feeCache.Some? {
      var fees := Bump(q1.feeCache.value, row.fees);
      ChangeAgrees(p.rows, q.rows, safe, Record(Submission(Some(block), NonceOf(row), fees)));
      ChangeAgrees(p.rows, q.rows, safe, Record(Submission(None, NonceOf(row), fees)));
    }
  }

  /** Marks at or below the safe block are below the account nonce at the head. */
  lemma DeadNonces(q: Queue, chain: Nonces, safe: nat)
    requires QueueOk(q, chain) && safe <= q.status.value.latest
    ensures forall r :: r in q.rows && Dead(r, safe) && r.nonce.Some? ==>
              r.nonce.value < chain[q.status.value.latest]
  {
    forall r | r in q.rows
      ensures Dead(r, safe) && r.nonce.Some? ==> r.nonce.value < chain[q.status.value.latest]
    {
      assert MarkSound(r, chain);
    }
  }

  lemma SubmitOldestMirrors(c: Config, p: Queue, q: Queue, node: Node, chain: Nonces, safe: nat)
    requires Mirrors(p, q, safe) && QueueOk(q, chain) && NodeOk(node, chain)
    requires safe <= q.status.value.latest
    ensures var block := q.status.value.latest;
            var (a, more) := SubmitOldest(c, p, block, node);
            var (b, more') := SubmitOldest(c, q, block, node);
            more == more' && SameOutcome(a, b, safe)
  {
    var block := q.status.value.latest;
    var (p1, q1) := (WithNonce(p, node), WithNonce(q, node));
    DeadNonces(q, chain, safe);
    QueriesAgree(p.rows, q.rows, safe, block, None);
    if q1.nonceCache.Some? && Oldest(q1.rows, block).Some? {
      var account := q1.nonceCache.value;
      NextNonceAgrees(p.rows, q.rows, safe, account);
      var nonce := NextNonce(q1.rows, account);
      AllocateAgrees(p.rows, q.rows, safe, block, nonce);
      SubmitMirrors(c, p1.(rows := Allocate(p1.rows, block, nonce)), q1.(rows := Allocate(q1.rows, block, nonce)),
                    Oldest(q1.rows, block).value.(nonce := Some(nonce)), block, node, safe);
    }
  }

  lemma {:induction false} SubmitNewMirrors(c: Config, p: Queue, q: Queue, budget: nat, node: Node, chain: Nonces,
                                            safe: nat)
    requires Mirrors(p, q, safe) && QueueOk(q, chain) && NodeOk(node, chain)
    requires safe <= q.status.value.latest
    ensures var block := q.status.value.latest;
            SameOutcome(SubmitNew(c, p, budget, block, node), SubmitNew(c, q, budget, block, node), safe)
    decreases budget
  {
    if budget > 0 {
      var block := q.status.value.latest;
      SubmitOldestMirrors(c, p, q, node, chain, safe);
      SubmitOldestKeeps(c, q, block, node, chain);
      StatusStays(c, q, block, node);
      if SubmitOldest(c, q, block, node).1 {
        SubmitNewMirrors(c, SubmitOldest(c, p, block, node).0.queue, SubmitOldest(c, q, block, node).0.queue,
                         budget - 1, node, chain, safe);
      }
    }
  }

  lemma StatusStays(c: Config, q: Queue, block: nat, node: Node)
    ensures SubmitOldest(c, q, block, node).0.queue.status == q.status
  {
  }

  lemma {:induction false} SubmitAllMirrors(c: Config, p: Queue, q: Queue, rows: Table, block: nat, node: Node,
                                            safe: nat)
    requires Mirrors(p, q, safe)
    ensures SameOutcome(SubmitAll(c, p, rows, block, node), SubmitAll(c, q, rows, block, node), safe)
    ensures SubmitAll(c, q, rows, block, node).queue.status == q.status
    decreases |rows|
  {
    if rows != [] {
      SubmitMirrors(c, p, q, rows[0], block, node, safe);
      SubmitAllMirrors(c, Submit(c, p, rows[0], block, node).queue, Submit(c, q, rows[0], block, node).queue,
                       rows[1..], block, node, safe);
    }
  }

  lemma SubmitPendingMirrors(c: Config, p: Queue, q: Queue, node: Node, chain: Nonces, safe: nat)
    requires Mirrors(p, q, safe) && QueueOk(q, chain) && NodeOk(node, chain)
    requires safe <= q.status.value.latest
    ensures var block := q.status.value.latest;
            SameOutcome(SubmitPending(c, p, block, node), SubmitPending(c, q, block, node), safe)
  {
    DeadNonces(q, chain, safe);
    QueriesAgree(p.rows, q.rows, safe, q.status.value.latest, None);
    SubmitNewMirrors(c, p, q, Budget(c, q), node, chain, safe);
  }

  lemma AdvanceMirrors(c: Config, p: Queue, q: Queue, node: Node, chain: Nonces, safe: nat)
    requires Mirrors(p, q, safe) && QueueOk(q, chain) && NodeOk(node, chain)
    requires safe <= q.status.value.latest
    ensures var latest := q.status.value.latest;
            SameOutcome(Advance(c, p, latest, node), Advance(c, q, latest, node), safe)
  {
    var latest := q.status.value.latest;
    var (p1, q1) := (WithNonce(p, node), WithNonce(q, node));
    if q1.nonceCache.Some? {
      var mark := Mark(latest, q1.nonceCache.value);
      var before := CheckedSub(latest, c.blocksBeforeResubmit);
      MarkKeeps(q1.rows, chain);
      ChangeAgrees(p.rows, q.rows, safe, mark);
      var (p2, q2) := (p1.(rows := Apply(p1.rows, mark)), q1.(rows := Apply(q1.rows, mark)));
      DeadNonces(q2, chain, safe);
      QueriesAgree(p2.rows, q2.rows, safe, latest, before);
      var stale := Stale(q2.rows, before);
      SubmitAllMirrors(c, p2, q2, stale, latest, node, safe);
      SubmitAllKeeps(c, q2, stale, latest, node, chain);
      SubmitPendingMirrors(c, ResubmitStale(c, p2, latest, node).queue, ResubmitStale(c, q2, latest, node).queue, node,
                           chain, safe);
    }
  }

  lemma ReconciledMirrors(p: Queue, q: Queue, status: Blocks.BlockStatus, safe: nat)
    requires Mirrors(p, q, safe) && safe <= status.safe <= status.latest
    requires forall r :: r in q.rows ==> MarkAllocated(r)
    requires q.status.Some? ==> q.status.value.safe == safe
    ensures SameOutcome(Reconciled(true, p, status), Reconciled(false, q, status), status.safe)
  {
    PruneMore(p.rows, q.rows, safe, status.safe);
    var rows := if p.status.None? || p.status.value.safe != status.safe then Prune(p.rows, status.safe) else p.rows;
    ChangeAgrees(rows, q.rows, status.safe, Unmark(status.safe + 1));
    ChangeAgrees(rows, q.rows, status.safe, Unmark(status.latest + 1));
  }

  lemma UpdateMirrors(c: Config, p: Queue, q: Queue, chain: Nonces, status: Blocks.BlockStatus, next: Nonces,
                      node: Node, safe: nat)
    requires Mirrors(p, q, safe) && StatusOk(q, chain, status, next) && NodeOk(node, next)
    requires if q.status.Some? then q.status.value.safe == safe else safe == 0
    ensures SameOutcome(UpdateStatus(c, true, p, status, node), UpdateStatus(c, false, q, status, node), status.safe)
    ensures UpdateStatus(c, false, q, status, node).queue.status == Some(status)
  {
    if q.status != Some(status) {
      forall r | r in q.rows ensures MarkAllocated(r) {
        assert q.status.Some? ==> MarkSound(r, chain);
      }
      ReconciledMirrors(p, q, status, safe);
      ReconciledKeeps(q, chain, status, next);
      var (p1, q1) := (Reconciled(true, p, status).queue, Reconciled(false, q, status).queue);
      DeadNonces(q1, next, status.safe);
      QueriesAgree(p1.rows, q1.rows, status.safe, status.latest, None);
      AdvanceMirrors(c, p1, q1, node, next, status.safe);
      AdvanceStatus(c, q1, status.latest, node);
    }
  }

  lemma AdvanceStatus(c: Config, q: Queue, latest: nat, node: Node)
    ensures Advance(c, q, latest, node).queue.status == q.status
  {
    var q1 := WithNonce(q, node);
    if q1.nonceCache.Some? {
      var q2 := q1.(rows := Apply(q1.rows, Mark(latest, q1.nonceCache.value)));
      var stale := Stale(q2.rows, CheckedSub(latest, c.blocksBeforeResubmit));
      PrunedRefl(q2.rows, 0);
      SubmitAllMirrors(c, q2, q2, stale, latest, node, 0);
      var q3 := ResubmitStale(c, q2, latest, node).queue;
      SubmitNewStatus(c, q3, Budget(c, q3), latest, node);
    }
  }

  lemma {:induction false} SubmitNewStatus(c: Config, q: Queue, budget: nat, block: nat, node: Node)
    ensures SubmitNew(c, q, budget, block, node).queue.status == q.status
    decreases budget
  {
    if budget > 0 {
      StatusStays(c, q, block, node);
      SubmitNewStatus(c, SubmitOldest(c, q, block, node).0.queue, budget - 1, block, node);
    }
  }

  lemma EnqueueMirrors(c: Config, p: Queue, q: Queue, chain: Nonces, transactions: seq<(Tx, Option<nat>)>, node: Node,
                       safe: nat)
    requires Mirrors(p, q, safe)
    requires q.status.Some? ==> QueueOk(q, chain) && NodeOk(node, chain) && safe <= q.status.value.latest
    ensures SameOutcome(Enqueue(c, p, transactions, node), Enqueue(c, q, transactions, node), safe)
    ensures Enqueue(c, q, transactions, node).queue.status == q.status
  {
    var more := NewRows(transactions);
    EnqueueAgrees(p.rows, q.rows, safe, more);
    if q.status.Some? {
      EnqueueKeeps(q.rows, chain, transactions);
      var (p1, q1) := (p.(rows := p.rows + more), q.(rows := q.rows + more));
      SubmitPendingMirrors(c, p1, q1, node, chain, safe);
      SubmitNewStatus(c, q1, Budget(c, q1), q1.status.value.latest, node);
    }
  }
}
