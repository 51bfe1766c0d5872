/**
 What a completed operation of the transaction queue has achieved: it has marked everything the
 account moved past, rebroadcast exactly what is due, filled the in-flight limit, and offered at
 least the current fee estimate.
 */
module TxProgress {
  import opened Wrappers
  import opened Fees
  import opened TxTable
  import opened TxQueue
  import opened TxMarks
  import opened FeeFloors
  import Blocks

  // ---------------------------------------------------------------- what is due

  /** A row is due for a broadcast if and only if it is in flight and its last recorded submission,
      if any, is at least the configured number of blocks old. */
  lemma DueIff(rows: Table, block: nat, delay: nat)
    requires NoncesDistinct(rows)
    ensures forall r :: r in Stale(rows, CheckedSub(block, delay)) <==>
              r in rows && InFlight(r) && (r.submitted.None? || r.submitted.value + delay <= block)
  {
    StaleOrdered(rows, CheckedSub(block, delay));
  }

  /** One broadcast per row, in order. */
  predicate Broadcasts(actions: seq<Action>, rows: Table) {
    && |actions| == |rows|
    && forall i :: 0 <= i < |rows| ==>
         actions[i].Sent? && actions[i].tx == rows[i].tx && actions[i].nonce == NonceOf(rows[i])
  }

  lemma {:induction false} SubmitAllBroadcasts(c: Config, q: Queue, rows: Table, block: nat, node: Node)
    requires SubmitAll(c, q, rows, block, node).ok
    ensures Broadcasts(SubmitAll(c, q, rows, block, node).actions, rows)
    decreases |rows|
  {
    if rows != [] {
      var first := Submit(c, q, rows[0], block, node);
      SubmitAllBroadcasts(c, first.queue, rows[1..], block, node);
      var rest := SubmitAll(c, first.queue, rows[1..], block, node);
      assert |first.actions| == 1;
      forall i | 0 < i < |rows| ensures (first.actions + rest.actions)[i] == rest.actions[i - 1] && rows[i]
          == rows[1..][i - 1] {
      }
    }
  }

  /** A completed resubmission broadcasts exactly the due rows, each once, in nonce order. */
  lemma ResubmitsWhatIsDue(c: Config, q: Queue, block: nat, node: Node)
    requires NoncesDistinct(q.rows) && ResubmitStale(c, q, block, node).ok
    ensures var due := Stale(q.rows, CheckedSub(block, c.blocksBeforeResubmit));
            && Broadcasts(ResubmitStale(c, q, block, node).actions, due) && NonceOrder(due)
            && forall r :: r in due <==>
                 r in q.rows && InFlight(r) && (r.submitted.None?
                                                || r.submitted.value + c.blocksBeforeResubmit <= block)
  {
    var before := CheckedSub(block, c.blocksBeforeResubmit);
    SubmitAllBroadcasts(c, q, Stale(q.rows, before), block, node);
    StaleOrdered(q.rows, before);
    DueIff(q.rows, block, c.blocksBeforeResubmit);
  }

  /** An accepted broadcast rests for the configured number of blocks, an underpriced one is due
      again at once, and a rejected one is as due as it was. */
  lemma SubmissionRests(c: Config, q: Queue, row: Row, block: nat, node: Node)
    requires row.nonce.Some? && WithFees(c, q, node).feeCache.Some?
    ensures var done := Submit(c, q, row, block, node).queue.rows;
            match node.send(row.nonce.value)
            case Rejected => done == q.rows
            case Accepted => forall r :: r in done && r.nonce == row.nonce ==> r.submitted == Some(block)
            case Underpriced => forall r :: r in done && r.nonce == row.nonce ==> r.submitted == None
  {
    var q1 := WithFees(c, q, node);
    var fees := Bump(q1.feeCache.value, row.fees);
    ChangedFrom(q1.rows, Record(Submission(Some(block), row.nonce.value, fees)));
    ChangedFrom(q1.rows, Record(Submission(None, row.nonce.value, fees)));
  }

  /** A transaction that was never broadcast offers a new estimate at its base fee, with the
      largest priority fee not above the estimated one that meets the configured cap; the
      percentage is in millionths of the total fee. Without a cap it offers the estimate. */
  lemma FreshOfferMeetsCap(c: Config, q: Queue, row: Row, block: nat, node: Node)
    requires q.feeCache.None? && node.estimate.Some? && Proper(node.estimate.value)
    requires row.nonce.Some? && row.fees.None?
    requires c.priorityCap.Some? ==>
               && c.priorityCap.value < PRECISION
               && (node.estimate.value.maxFee - node.estimate.value.priority) * c.priorityCap.value <= U128_MAX
    ensures var estimate := node.estimate.value;
            var actions := Submit(c, q, row, block, node).actions;
            && |actions| == 1 && actions[0].Sent? && actions[0].tx == row.tx && actions[0].nonce == row.nonce.value
            && var offered := actions[0].fees;
            && Proper(offered) && offered.maxFee - offered.priority == estimate.maxFee - estimate.priority
            && forall p: nat :: p <= offered.priority <==>
                 && p <= estimate.priority
                 && (c.priorityCap.Some? ==>
                       p * PRECISION <= c.priorityCap.value * (estimate.maxFee - estimate.priority + p))
  {
    if c.priorityCap.Some? {
      CapIsLargest(node.estimate.value, c.priorityCap.value);
    }
  }

  // ---------------------------------------------------------------- filling the limit

  ghost predicate AllMarkAllocated(rows: Table) {
    forall r :: r in rows ==> MarkAllocated(r)
  }

  lemma {:induction false} AllocateCounts(rows: Table, block: nat, nonce: nat)
    requires AllMarkAllocated(rows) && Oldest(rows, block).Some?
    ensures InFlightCount(Allocate(rows, block, nonce)) == InFlightCount(rows) + 1
    ensures AllMarkAllocated(Allocate(rows, block, nonce))
  {
    var next := Allocate(rows, block, nonce);
    assert rows[0] in rows;
    if Queued(rows[0], block) {
      assert next[1..] == rows[1..];
      assert forall r :: r in next ==> r == next[0] || r in rows;
    } else {
      AllocateCounts(rows[1..], block, nonce);
      assert next[1..] == Allocate(rows[1..], block, nonce);
      assert forall r :: r in next ==> r == rows[0] || r in next[1..];
    }
  }

  lemma {:induction false} RecordCounts(rows: Table, s: Submission)
    ensures InFlightCount(Apply(rows, Record(s))) == InFlightCount(rows)
    ensures AllMarkAllocated(rows) ==> AllMarkAllocated(Apply(rows, Record(s)))
  {
    ChangedFrom(rows, Record(s));
    if rows != [] {
      assert Apply(rows, Record(s))[1..] == Apply(rows[1..], Record(s));
      RecordCounts(rows[1..], s);
    }
  }

  lemma SubmitCounts(c: Config, q: Queue, row: Row, block: nat, node: Node)
    requires AllMarkAllocated(q.rows)
    ensures var done := Submit(c, q, row, block, node).queue;
            AllMarkAllocated(done.rows) && InFlightCount(done.rows) == InFlightCount(q.rows)
  {
    var q1 := WithFees(c, q, node);
    if q1.feeCache.Some? {
      var fees := Bump(q1.feeCache.value, row.fees);
      RecordCounts(q1.rows, Submission(Some(block), NonceOf(row), fees));
      RecordCounts(q1.rows, Submission(None, NonceOf(row), fees));
    }
  }

  lemma {:induction false} SubmitNewFills(c: Config, q: Queue, budget: nat, block: nat, node: Node)
    requires AllMarkAllocated(q.rows) && SubmitNew(c, q, budget, block, node).ok
    ensures var done := SubmitNew(c, q, budget, block, node).queue.rows;
            Oldest(done, block).None? || InFlightCount(done) == InFlightCount(q.rows) + budget
    decreases budget
  {
    if budget > 0 {
      var q1 := WithNonce(q, node);
      if q1.nonceCache.Some? && Oldest(q1.rows, block).Some? {
        var nonce := NextNonce(q1.rows, q1.nonceCache.value);
        var row := Oldest(q1.rows, block).value.(nonce := Some(nonce));
        AllocateCounts(q1.rows, block, nonce);
        SubmitCounts(c, q1.(rows := Allocate(q1.rows, block, nonce)), row, block, node);
        var (first, more) := SubmitOldest(c, q, block, node);
        if more {
          SubmitNewFills(c, first.queue, budget - 1, block, node);
        }
      }
    }
  }

  /** A completed submission round leaves nothing that could be submitted: no live transaction is
      queued, or as many as the limit allows are in flight. */
  lemma SubmitsUpToLimit(c: Config, q: Queue, block: nat, node: Node)
    requires AllMarkAllocated(q.rows) && SubmitPending(c, q, block, node).ok
    ensures var done := SubmitPending(c, q, block, node).queue.rows;
            Oldest(done, block).None? || InFlightCount(done) >= c.maxInFlight
  {
    SubmitNewFills(c, q, Budget(c, q), block, node);
  }

  // ---------------------------------------------------------------- marks and fees

  /** The capped estimate the node gives now. */
  function CurrentEstimate(c: Config, node: Node): Option<Fees> {
    WithFees(c, Queue([], None, None, None), node).feeCache
  }

  /** Everything in flight is still ahead of the account. */
  predicate AllAhead(rows: Table, account: nat) {
    forall i :: 0 <= i < |rows| && InFlight(rows[i]) ==> account <= rows[i].nonce.value
  }

  /** Every broadcast offers at least the estimate. */
  predicate Offers(actions: seq<Action>, estimate: Option<Fees>) {
    forall i :: 0 <= i < |actions| && actions[i].Sent? ==>
      && estimate.Some?
      && actions[i].fees.maxFee >= estimate.value.maxFee && actions[i].fees.priority >= estimate.value.priority
  }

  /** The caches hold what the node answers at the current head. */
  predicate Current(c: Config, q: Queue, account: nat, node: Node) {
    && AllAhead(q.rows, account) && q.nonceCache == Some(account)
    && (q.feeCache.Some? ==> q.feeCache == CurrentEstimate(c, node))
  }

  predicate StaysCurrent(c: Config, done: Outcome, account: nat, node: Node) {
    Current(c, done.queue, account, node) && Offers(done.actions, CurrentEstimate(c, node))
  }

  lemma CurrentAfter(c: Config, first: seq<Action>, rest: Outcome, account: nat, node: Node)
    requires Offers(first, CurrentEstimate(c, node)) && StaysCurrent(c, rest, account, node)
    ensures StaysCurrent(c, After(first, rest), account, node)
  {
  }

  lemma SubmitCurrent(c: Config, q: Queue, row: Row, block: nat, node: Node, account: nat)
    requires Current(c, q, account, node)
    ensures StaysCurrent(c, Submit(c, q, row, block, node), account, node)
  {
    var q1 := WithFees(c, q, node);
    assert q1.feeCache.Some? ==> q1.feeCache == CurrentEstimate(c, node);
  }

  lemma SubmitOldestCurrent(c: Config, q: Queue, block: nat, node: Node, account: nat)
    requires Current(c, q, account, node)
    ensures StaysCurrent(c, SubmitOldest(c, q, block, node).0, account, node)
  {
    if Oldest(q.rows, block).Some? {
      var nonce := NextNonce(q.rows, account);
      var row := Oldest(q.rows, block).value.(nonce := Some(nonce));
      var k := AllocateAt(q.rows, block);
      var q2 := q.(rows := Allocate(q.rows, block, nonce));
      SubmitCurrent(c, q2, row, block, node, account);
      CurrentAfter(c, [Allocated(row.tx, nonce)], Submit(c, q2, row, block, node), account, node);
    }
  }

  lemma {:induction false} SubmitNewCurrent(c: Config, q: Queue, budget: nat, block: nat, node: Node, account: nat)
    requires Current(c, q, account, node)
    ensures StaysCurrent(c, SubmitNew(c, q, budget, block, node), account, node)
    decreases budget
  {
    if budget > 0 {
      var (first, more) := SubmitOldest(c, q, block, node);
      SubmitOldestCurrent(c, q, block, node, account);
      if more {
        SubmitNewCurrent(c, first.queue, budget - 1, block, node, account);
        CurrentAfter(c, first.actions, SubmitNew(c, first.queue, budget - 1, block, node), account, node);
      }
    }
  }

  lemma {:induction false} SubmitAllCurrent(c: Config, q: Queue, rows: Table, block: nat, node: Node, account: nat)
    requires Current(c, q, account, node)
    ensures StaysCurrent(c, SubmitAll(c, q, rows, block, node), account, node)
    decreases |rows|
  {
    if rows != [] {
      var first := Submit(c, q, rows[0], block, node);
      SubmitCurrent(c, q, rows[0], block, node, account);
      if first.ok {
        SubmitAllCurrent(c, first.queue, rows[1..], block, node, account);
        CurrentAfter(c, first.actions, SubmitAll(c, first.queue, rows[1..], block, node), account, node);
      }
    }
  }

  lemma {:induction false} MarksSendNothing(rows: Table, change: Change)
    ensures forall i :: 0 <= i < |Marks(rows, change)| ==> !Marks(rows, change)[i].Sent?
  {
    if rows != [] {
      MarksSendNothing(rows[1..], change);
    }
  }

  lemma AdvanceCurrent(c: Config, q: Queue, latest: nat, node: Node)
    requires q.nonceCache.None? && q.feeCache.None? && node.account.Some?
    ensures StaysCurrent(c, Advance(c, q, latest, node), node.account.value, node)
  {
    var account := node.account.value;
    var q1 := WithNonce(q, node);
    var mark := Mark(latest, account);
    var q2 := q1.(rows := Apply(q1.rows, mark));
    MarksSendNothing(q1.rows, mark);
    var rows := Stale(q2.rows, CheckedSub(latest, c.blocksBeforeResubmit));
    SubmitAllCurrent(c, q2, rows, latest, node, account);
    var stale := ResubmitStale(c, q2, latest, node);
    var resubmitted := After(Marks(q1.rows, mark), stale);
    CurrentAfter(c, Marks(q1.rows, mark), stale, account, node);
    if stale.ok {
      SubmitNewCurrent(c, stale.queue, Budget(c, stale.queue), latest, node, account);
      CurrentAfter(c, resubmitted.actions, SubmitPending(c, stale.queue, latest, node), account, node);
    }
  }

  lemma {:induction false} NoneOutstanding(rows: Table, block: nat)
    requires OutstandingCount(rows, block) == 0
    ensures forall i :: 0 <= i < |rows| ==> !InFlight(rows[i])
  {
    if rows != [] {
      NoneOutstanding(rows[1..], block);
      assert forall i :: 0 < i < |rows| ==> rows[i] == rows[1..][i - 1];
    }
  }

  /** When the head has advanced and the update completed, everything the account has moved past is
      marked: whatever is in flight is still ahead of the account nonce at the head. And every
      broadcast of the update offers at least the estimate the node gives at this head. */
  lemma UpdateIsComplete(c: Config, pruning: bool, q: Queue, status: Blocks.BlockStatus, node: Node)
    requires q.status.None? || q.status.value.latest < status.latest
    requires UpdateStatus(c, pruning, q, status, node).ok
    ensures var done := UpdateStatus(c, pruning, q, status, node);
            && (node.account.Some? ==> AllAhead(done.queue.rows, node.account.value))
            && (node.account.None? ==> forall i :: 0 <= i < |done.queue.rows| ==> !InFlight(done.queue.rows[i]))
            && Offers(done.actions, CurrentEstimate(c, node))
  {
    var reconciled := Reconciled(pruning, q, status);
    ReconciledSendsNothing(pruning, q, status);
    if OutstandingCount(reconciled.queue.rows, status.latest) > 0 {
      AdvanceCurrent(c, reconciled.queue, status.latest, node);
    } else {
      NoneOutstanding(reconciled.queue.rows, status.latest);
    }
  }

  lemma ReconciledSendsNothing(pruning: bool, q: Queue, status: Blocks.BlockStatus)
    ensures Offers(Reconciled(pruning, q, status).actions, None)
  {
    var rows := if pruning && (q.status.None? || q.status.value.safe != status.safe) then Prune(q.rows, status.safe)
        else q.rows;
    MarksSendNothing(rows, Unmark(status.safe + 1));
    MarksSendNothing(rows, Unmark(status.latest + 1));
  }
}
