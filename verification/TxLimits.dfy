/**
 The in-flight limit: the transactions in flight exceed the limit only after execution marks
 were cleared, at a reorg or at the first view.
 */
module TxLimits {
  import opened Wrappers
  import opened Numbers
  import opened Fees
  import opened TxTable
  import opened TxQueue
  import opened TxPruning
  import opened TxRuns
  import opened TxOrder
  import Blocks

  lemma {:induction false} RecordCount(rows: Table, s: Submission)
    ensures InFlightCount(Apply(rows, Record(s))) == InFlightCount(rows)
  {
    if rows != [] {
      assert Apply(rows, Record(s))[1..] == Apply(rows[1..], Record(s));
      RecordCount(rows[1..], s);
    }
  }

  lemma {:induction false} AllocateCount(rows: Table, block: nat, nonce: nat)
    ensures InFlightCount(Allocate(rows, block, nonce)) <= InFlightCount(rows) + 1
  {
    if rows != [] && !Queued(rows[0], block) {
      AllocateCount(rows[1..], block, nonce);
      assert Allocate(rows, block, nonce)[1..] == Allocate(rows[1..], block, nonce);
    }
  }

  lemma SubmitCount(c: Config, q: Queue, row: Row, block: nat, node: Node)
    ensures InFlightCount(Submit(c, q, row, block, node).queue.rows) == InFlightCount(q.rows)
  {
    var q1 := WithFees(c, q, node);
    if q1.feeCache.Some? {
      var fees := Bump(q1.feeCache.value, row.fees);
      RecordCount(q1.rows, Submission(Some(block), NonceOf(row), fees));
      RecordCount(q1.rows, Submission(None, NonceOf(row), fees));
    }
  }

  lemma {:induction false} SubmitNewCount(c: Config, q: Queue, budget: nat, block: nat, node: Node)
    ensures InFlightCount(SubmitNew(c, q, budget, block, node).queue.rows) <= InFlightCount(q.rows) + budget
    decreases budget
  {
    if budget > 0 {
      var q1 := WithNonce(q, node);
      if q1.nonceCache.Some? && Oldest(q1.rows, block).Some? {
        var nonce := NextNonce(q1.rows, q1.nonceCache.value);
        AllocateCount(q1.rows, block, nonce);
        SubmitCount(c, q1.(rows := Allocate(q1.rows, block, nonce)),
                    Oldest(q1.rows, block).value.(nonce := Some(nonce)), block, node);
      }
      SubmitNewCount(c, SubmitOldest(c, q, block, node).0.queue, budget - 1, block, node);
    }
  }

  /** Submitting never takes the queue over the limit; only clearing marks after a reorg can. */
  lemma SubmitRespectsLimit(c: Config, q: Queue, block: nat, node: Node)
    ensures InFlightCount(SubmitPending(c, q, block, node).queue.rows) <= Max(InFlightCount(q.rows), c.maxInFlight)
  {
    SubmitNewCount(c, q, Budget(c, q), block, node);
  }

  // ---------------------------------------------------------------- operations and runs

  lemma {:induction false} PruneCount(rows: Table, safe: nat)
    ensures InFlightCount(Prune(rows, safe)) <= InFlightCount(rows)
  {
    if rows != [] {
      PruneCount(rows[1..], safe);
      if Prunable(rows[0], safe) {
        assert Prune(rows, safe) == Prune(rows[1..], safe);
      } else {
        assert Prune(rows, safe)[1..] == Prune(rows[1..], safe);
      }
    }
  }

  lemma {:induction false} MarkCount(rows: Table, block: nat, nonce: nat)
    ensures InFlightCount(Apply(rows, Mark(block, nonce))) <= InFlightCount(rows)
  {
    if rows != [] {
      assert Apply(rows, Mark(block, nonce))[1..] == Apply(rows[1..], Mark(block, nonce));
      MarkCount(rows[1..], block, nonce);
    }
  }

  lemma {:induction false} AppendCount(rows: Table, transactions: seq<(Tx, Option<nat>)>)
    ensures InFlightCount(rows + NewRows(transactions)) == InFlightCount(rows)
  {
    var more := NewRows(transactions);
    if rows == [] {
      assert rows + more == more;
      NoneInFlight(more);
    } else {
      assert (rows + more)[1..] == rows[1..] + more;
      AppendCount(rows[1..], transactions);
    }
  }

  lemma {:induction false} NoneInFlight(rows: Table)
    requires forall i :: 0 <= i < |rows| ==> rows[i].nonce.None?
    ensures InFlightCount(rows) == 0
  {
    if rows != [] {
      NoneInFlight(rows[1..]);
    }
  }

  lemma {:induction false} SubmitAllCount(c: Config, q: Queue, rows: Table, block: nat, node: Node)
    ensures InFlightCount(SubmitAll(c, q, rows, block, node).queue.rows) == InFlightCount(q.rows)
    decreases |rows|
  {
    if rows != [] {
      SubmitCount(c, q, rows[0], block, node);
      SubmitAllCount(c, Submit(c, q, rows[0], block, node).queue, rows[1..], block, node);
    }
  }

  lemma AdvanceCount(c: Config, q: Queue, latest: nat, node: Node)
    ensures InFlightCount(Advance(c, q, latest, node).queue.rows) <= Max(InFlightCount(q.rows), c.maxInFlight)
  {
    var q1 := WithNonce(q, node);
    if q1.nonceCache.Some? {
      var q2 := q1.(rows := Apply(q1.rows, Mark(latest, q1.nonceCache.value)));
      MarkCount(q1.rows, latest, q1.nonceCache.value);
      SubmitAllCount(c, q2, Stale(q2.rows, CheckedSub(latest, c.blocksBeforeResubmit)), latest, node);
      SubmitRespectsLimit(c, ResubmitStale(c, q2, latest, node).queue, latest, node);
    }
  }

  /** The operation clears execution marks: the first view, or one with a lower head. */
  predicate ClearsMarks(q: Queue, input: Input) {
    input.NewView? && (q.status.None? || input.status.latest < q.status.value.latest)
  }

  /** Only clearing marks takes the number in flight above the limit and above what it was. */
  lemma OnlyClearingExceeds(c: Config, pruning: bool, q: Queue, input: Input)
    requires !ClearsMarks(q, input)
    ensures InFlightCount(Perform(c, pruning, q, input).queue.rows) <= Max(InFlightCount(q.rows), c.maxInFlight)
  {
    match input
    case NewTransactions(transactions, node) =>
      AppendCount(q.rows, transactions);
      if q.status.Some? {
        SubmitRespectsLimit(c, q.(rows := q.rows + NewRows(transactions)), q.status.value.latest, node);
      }
    case NewView(status, _, node) =>
      PruneCount(q.rows, status.safe);
      AdvanceCount(c, Reconciled(pruning, q, status).queue, status.latest, node);
  }

  lemma StatusAfter(c: Config, pruning: bool, q: Queue, input: Input)
    ensures Perform(c, pruning, q, input).queue.status == if input.NewView? then Some(input.status) else q.status
  {
    match input
    case NewTransactions(transactions, node) =>
      var q1 := q.(rows := q.rows + NewRows(transactions));
      if q.status.Some? {
        SubmitNewStatus(c, q1, Budget(c, q1), q.status.value.latest, node);
      }
    case NewView(status, _, node) =>
      AdvanceStatus(c, Reconciled(pruning, q, status).queue, status.latest, node);
  }

  /** Once a view has been taken over, the number in flight never exceeds the limit or what it was
      then, while the latest block never decreases. */
  lemma {:induction false} InFlightStaysBounded(c: Config, pruning: bool, q: Queue, inputs: seq<Input>)
    requires q.status.Some? && NeverBack(inputs, q.status.value.latest)
    ensures var done := Run(c, pruning, q, inputs).queue;
            && InFlightCount(done.rows) <= Max(InFlightCount(q.rows), c.maxInFlight)
            && done.status.Some? && done.status.value.latest == HeadOf(inputs, q.status.value.latest)
  {
    if inputs != [] {
      var k := |inputs| - 1;
      InFlightStaysBounded(c, pruning, q, inputs[..k]);
      var before := Run(c, pruning, q, inputs[..k]).queue;
      OnlyClearingExceeds(c, pruning, before, inputs[k]);
      StatusAfter(c, pruning, before, inputs[k]);
    }
  }
}
