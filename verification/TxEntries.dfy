/**
 No transaction is lost or invented: what the queue holds is, in order, what was handed to it, but
 for what pruning takes out; and what the driver hands to it is what the commands of a turn encode.
 */
module TxEntries {
  import opened Wrappers
  import opened TxTable
  import opened TxQueue
  import opened Drivers
  import Blocks

  type Entry = (TxTable.Tx, Option<nat>)

  /** The transactions in the table and their expiries, in insertion order. */
  function EntriesOf(rows: Table): (entries: seq<Entry>)
    ensures |entries| == |rows|
  {
    seq(|rows|, i requires 0 <= i < |rows| => (rows[i].tx, rows[i].expires))
  }

  // ---------------------------------------------------------------- pruning

  /** Executed, or expired without a nonce, at or below the safe block. */
  predicate Over(r: Row, safe: nat) {
    match r.executed
    case Some(block) => block <= safe || (r.nonce.None? && r.expires.Some? && r.expires.value <= safe)
    case None => r.nonce.None? && r.expires.Some? && r.expires.value <= safe
  }

  /** Pruning takes out all rows that are over and keeps all copies of the others. */
  lemma {:induction false} PrunesWhatIsOver(rows: Table, safe: nat, r: Row)
    ensures multiset(Prune(rows, safe))[r] == if Over(r, safe) then 0 else multiset(rows)[r]
  {
    if rows != [] {
      PrunesWhatIsOver(rows[1..], safe, r);
      assert rows == [rows[0]] + rows[1..];
    }
  }

  // ---------------------------------------------------------------- operations

  lemma ApplyKeeps(rows: Table, change: Change)
    ensures EntriesOf(Apply(rows, change)) == EntriesOf(rows)
  {
  }

  lemma {:induction false} AllocateKeeps(rows: Table, block: nat, nonce: nat)
    ensures EntriesOf(Allocate(rows, block, nonce)) == EntriesOf(rows)
  {
    if rows != [] {
      AllocateKeeps(rows[1..], block, nonce);
      var next := Allocate(rows, block, nonce);
      assert EntriesOf(rows) == [(rows[0].tx, rows[0].expires)] + EntriesOf(rows[1..]);
      assert EntriesOf(next) == [(next[0].tx, next[0].expires)] + EntriesOf(next[1..]);
    }
  }

  lemma SubmitKeeps(c: Config, q: Queue, row: Row, block: nat, node: Node)
    ensures EntriesOf(Submit(c, q, row, block, node).queue.rows) == EntriesOf(q.rows)
  {
  }

  lemma SubmitOldestKeeps(c: Config, q: Queue, block: nat, node: Node)
    ensures EntriesOf(SubmitOldest(c, q, block, node).0.queue.rows) == EntriesOf(q.rows)
  {
    var q1 := WithNonce(q, node);
    if q1.nonceCache.Some? && Oldest(q1.rows, block).Some? {
      var nonce := NextNonce(q1.rows, q1.nonceCache.value);
      AllocateKeeps(q1.rows, block, nonce);
      SubmitKeeps(c, q1.(rows := Allocate(q1.rows, block, nonce)),
                  Oldest(q1.rows, block).value.(nonce := Some(nonce)), block, node);
    }
  }

  lemma {:induction false} SubmitNewKeeps(c: Config, q: Queue, budget: nat, block: nat, node: Node)
    ensures EntriesOf(SubmitNew(c, q, budget, block, node).queue.rows) == EntriesOf(q.rows)
    decreases budget
  {
    if budget > 0 {
      SubmitOldestKeeps(c, q, block, node);
      SubmitNewKeeps(c, SubmitOldest(c, q, block, node).0.queue, budget - 1, block, node);
    }
  }

  lemma {:induction false} SubmitAllKeeps(c: Config, q: Queue, rows: Table, block: nat, node: Node)
    ensures EntriesOf(SubmitAll(c, q, rows, block, node).queue.rows) == EntriesOf(q.rows)
    decreases |rows|
  {
    if rows != [] {
      SubmitKeeps(c, q, rows[0], block, node);
      SubmitAllKeeps(c, Submit(c, q, rows[0], block, node).queue, rows[1..], block, node);
    }
  }

  lemma AdvanceKeeps(c: Config, q: Queue, latest: nat, node: Node)
    ensures EntriesOf(TxQueue.Advance(c, q, latest, node).queue.rows) == EntriesOf(q.rows)
  {
    var q1 := WithNonce(q, node);
    if q1.nonceCache.Some? {
      var mark := Mark(latest, q1.nonceCache.value);
      ApplyKeeps(q1.rows, mark);
      var q2 := q1.(rows := Apply(q1.rows, mark));
      var stale := ResubmitStale(c, q2, latest, node);
      SubmitAllKeeps(c, q2, Stale(q2.rows, CheckedSub(latest, c.blocksBeforeResubmit)), latest, node);
      SubmitNewKeeps(c, stale.queue, Budget(c, stale.queue), latest, node);
    }
  }

  /** The rows a status update leaves: those below the new safe block that are over go once it moves. */
  function Remaining(pruning: bool, q: Queue, safe: nat): Table {
    if pruning && (q.status.None? || q.status.value.safe != safe) then Prune(q.rows, safe) else q.rows
  }

  /** Reconciling with any view, whatever the node answers, loses nothing but what is over. */
  lemma UpdateLosesOnlyPruned(c: Config, pruning: bool, q: Queue, status: Blocks.BlockStatus, node: Node)
    ensures EntriesOf(UpdateStatus(c, pruning, q, status, node).queue.rows)
            == EntriesOf(Remaining(pruning, q, status.safe))
  {
    if q.status != Some(status) {
      var reconciled := Reconciled(pruning, q, status);
      AdvanceKeeps(c, reconciled.queue, status.latest, node);
    }
  }

  /** Handing transactions over appends exactly them, in order, even when a submission fails. */
  lemma EnqueueAppends(c: Config, q: Queue, transactions: seq<Entry>, node: Node)
    ensures EntriesOf(Enqueue(c, q, transactions, node).queue.rows) == EntriesOf(q.rows) + transactions
  {
    var q1 := q.(rows := q.rows + NewRows(transactions));
    assert EntriesOf(q1.rows) == EntriesOf(q.rows) + transactions;
    if q1.status.Some? {
      SubmitNewKeeps(c, q1, Budget(c, q1), q1.status.value.latest, node);
    }
  }

  // ---------------------------------------------------------------- the driver

  lemma DispatchAppends(c: Config, q: Queue, transactions: seq<Entry>, node: Node)
    ensures EntriesOf(Dispatch(c, q, transactions, node).queue.rows) == EntriesOf(q.rows) + transactions
  {
    if transactions == [] {
      assert EntriesOf(q.rows) + transactions == EntriesOf(q.rows);
    } else {
      EnqueueAppends(c, q, transactions, node);
    }
  }

  /** Whatever a turn of the driver brings, the actions among its commands, each encoded once and in
      order, come to stand behind what was queued before; of that only what is over at the safe
      block is gone, and only where the turn processed an update. */
  lemma CommandsAreQueued<S, R, C>(setup: Setup<S, R, C>, pruning: bool, w: World<S>, turn: Turn<R>)
    requires Drive(setup, pruning, w, turn).Continues?
    ensures var turned := Drive(setup, pruning, w, turn);
            var entries := EntriesOf(turned.world.queue.rows);
            var commanded := Encoded(setup.encode, turned.commands);
            || entries == EntriesOf(w.queue.rows) + commanded
            || (turn.Watch?
                && entries == EntriesOf(Remaining(pruning, w.queue, Blocks.StatusOf(turned.world.view).safe))
                              + commanded)
  {
    var turned := Drive(setup, pruning, w, turn);
    match turn
    case Watch(poll, reconciling, queueing) =>
      var status := Blocks.StatusOf(turned.world.view);
      var reconciled := UpdateStatus(setup.queue, pruning, w.queue, status, reconciling);
      UpdateLosesOnlyPruned(setup.queue, pruning, w.queue, status, reconciling);
      DispatchAppends(setup.queue, reconciled.queue, Encoded(setup.encode, turned.commands), queueing);
      assert EntriesOf(w.queue.rows) + [] == EntriesOf(w.queue.rows);
    case Completed(value, queueing) =>
      DispatchAppends(setup.queue, w.queue, Encoded(setup.encode, turned.commands), queueing);
  }
}
