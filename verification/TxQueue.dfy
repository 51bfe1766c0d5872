/**
 The transaction queue (crates/core/src/tx/mod.rs): reconciliation with the chain view,
 nonce allocation, submission and resubmission. Every answer of the node during one
 operation is an input; the actions an operation takes are returned in order.
 */
module TxQueue {
  import opened Wrappers
  import opened Fees
  import opened TxTable
  import opened Blocks

  datatype Config = Config(maxInFlight: nat, blocksBeforeResubmit: nat, priorityCap: Option<nat>)

  datatype SendResult = Accepted | Underpriced | Rejected

  /** The node's answers: the account nonce at the latest block and the fee estimate (`None`
      when the request fails), and the outcome of broadcasting each nonce. */
  datatype Node = Node(account: Option<nat>, estimate: Option<Fees>, send: nat -> SendResult)

  datatype Action =
    | Allocated(tx: Tx, nonce: nat)
    | Sent(tx: Tx, nonce: nat, fees: Fees, result: SendResult)
    | Executed(nonce: nat, block: nat)
    | Unexecuted(nonce: nat)

  datatype Queue = Queue(rows: Table, status: Option<BlockStatus>, nonceCache: Option<nat>, feeCache: Option<Fees>)

  /** The queue after an operation, its actions, and whether it ran to completion. */
  datatype Outcome = Outcome(queue: Queue, actions: seq<Action>, ok: bool)

  function After(actions: seq<Action>, rest: Outcome): Outcome {
    rest.(actions := actions + rest.actions)
  }

  lemma AfterAfter(first: seq<Action>, second: seq<Action>, rest: Outcome)
    ensures After(first, After(second, rest)) == After(first + second, rest)
    ensures After([], rest) == rest
  {
    assert first + (second + rest.actions) == (first + second) + rest.actions;
  }

  // ---------------------------------------------------------------- specification

  function WithNonce(q: Queue, node: Node): Queue {
    if q.nonceCache.Some? then q else q.(nonceCache := node.account)
  }

  function WithFees(c: Config, q: Queue, node: Node): Queue {
    if q.feeCache.Some? || node.estimate.None? then q
    else
      var fees := node.estimate.value;
      q.(feeCache := Some(if c.priorityCap.Some? then CapPriorityFee(fees, c.priorityCap.value) else fees))
  }

  /** Broadcasts one allocated transaction. Only an accepted or underpriced submission raises
      the recorded fees. */
  function Submit(c: Config, q: Queue, row: Row, block: nat, node: Node): Outcome {
    var q1 := WithFees(c, q, node);
    if q1.feeCache.None? then Outcome(q1, [], false)
    else
      var nonce := NonceOf(row);
      var fees := Bump(q1.feeCache.value, row.fees);
      var sent := [Sent(row.tx, nonce, fees, node.send(nonce))];
      match node.send(nonce)
      case Accepted => Outcome(q1.(rows := Apply(q1.rows, Record(Submission(Some(block), nonce, fees)))), sent, true)
      case Underpriced => Outcome(q1.(rows := Apply(q1.rows, Record(Submission(None, nonce, fees)))), sent, true)
      case Rejected => Outcome(q1, sent, true)
  }

  /** Allocates a nonce to the oldest queued transaction and broadcasts it; the flag says
      whether the loop goes on. */
  function SubmitOldest(c: Config, q: Queue, block: nat, node: Node): (Outcome, bool) {
    var q1 := WithNonce(q, node);
    if q1.nonceCache.None? then (Outcome(q1, [], false), false)
    else match Oldest(q1.rows, block)
      case None => (Outcome(q1, [], true), false)
      case Some(row) =>
        var nonce := NextNonce(q1.rows, q1.nonceCache.value);
        var q2 := q1.(rows := Allocate(q1.rows, block, nonce));
        var submitted := Submit(c, q2, row.(nonce := Some(nonce)), block, node);
        (After([Allocated(row.tx, nonce)], submitted), submitted.ok)
  }

  function SubmitNew(c: Config, q: Queue, budget: nat, block: nat, node: Node): Outcome
    decreases budget
  {
    if budget == 0 then Outcome(q, [], true)
    else
      var (first, more) := SubmitOldest(c, q, block, node);
      if !more then first else After(first.actions, SubmitNew(c, first.queue, budget - 1, block, node))
  }

  /** One turn of the submission loop, after some actions. */
  lemma SubmitNewStep(c: Config, q: Queue, left: nat, block: nat, node: Node, done: seq<Action>,
                      first: Outcome, more: bool)
    requires left > 0 && SubmitOldest(c, q, block, node) == (first, more)
    ensures After(done, SubmitNew(c, q, left, block, node)) ==
            if more then After(done + first.actions, SubmitNew(c, first.queue, left - 1, block, node))
            else Outcome(first.queue, done + first.actions, first.ok)
  {
    AfterAfter(done, first.actions, SubmitNew(c, first.queue, left - 1, block, node));
  }

  function Budget(c: Config, q: Queue): nat {
    var inFlight := InFlightCount(q.rows);
    if inFlight < c.maxInFlight then c.maxInFlight - inFlight else 0
  }

  function SubmitPending(c: Config, q: Queue, block: nat, node: Node): Outcome {
    SubmitNew(c, q, Budget(c, q), block, node)
  }

  function SubmitAll(c: Config, q: Queue, rows: Table, block: nat, node: Node): Outcome
    decreases |rows|
  {
    if rows == [] then Outcome(q, [], true)
    else
      var first := Submit(c, q, rows[0], block, node);
      if !first.ok then first else After(first.actions, SubmitAll(c, first.queue, rows[1..], block, node))
  }

  function CheckedSub(a: nat, b: nat): Option<nat> {
    if b <= a then Some(a - b) else None
  }

  function ResubmitStale(c: Config, q: Queue, block: nat, node: Node): Outcome {
    SubmitAll(c, q, Stale(q.rows, CheckedSub(block, c.blocksBeforeResubmit)), block, node)
  }

  /** The rows whose execution mark a change sets or clears, in insertion order. */
  function Marks(rows: Table, change: Change): seq<Action> {
    if rows == [] then []
    else
      var next := ChangeRow(rows[0], change);
      (if next.executed == rows[0].executed then []
       else if next.executed.Some? then [Executed(NonceOf(rows[0]), next.executed.value)]
       else [Unexecuted(NonceOf(rows[0]))])
      + Marks(rows[1..], change)
  }

  /** The chain view is taken over, caches are dropped when the head moved, the table is pruned
      when the safe block moved, and marks above the still valid blocks are cleared. */
  function Reconciled(pruning: bool, q: Queue, status: BlockStatus): Outcome {
    var previous := q.status;
    var moved := previous.None? || previous.value.latest != status.latest;
    var q1 := Queue(q.rows, Some(status), if moved then None else q.nonceCache, if moved then None else q.feeCache);
    var q2 := if pruning && (previous.None? || previous.value.safe != status.safe)
              then q1.(rows := Prune(q1.rows, status.safe)) else q1;
    var cleared := if previous.None? then Some(status.safe + 1)
                   else if previous.value.latest > status.latest then Some(status.latest + 1)
                   else None;
    if cleared.None? then Outcome(q2, [], true)
    else Outcome(q2.(rows := Apply(q2.rows, Unmark(cleared.value))), Marks(q2.rows, Unmark(cleared.value)), true)
  }

  /** Marks what the account has moved past, then resubmits, then submits. */
  function Advance(c: Config, q: Queue, latest: nat, node: Node): Outcome {
    var q1 := WithNonce(q, node);
    if q1.nonceCache.None? then Outcome(q1, [], false)
    else
      var mark := Mark(latest, q1.nonceCache.value);
      var q2 := q1.(rows := Apply(q1.rows, mark));
      var stale := ResubmitStale(c, q2, latest, node);
      var resubmitted := After(Marks(q1.rows, mark), stale);
      if !stale.ok then resubmitted
      else After(resubmitted.actions, SubmitPending(c, stale.queue, latest, node))
  }

  /** Reconciles the queue with a new chain view. `pruning` switches the deletion of rows. */
  function UpdateStatus(c: Config, pruning: bool, q: Queue, status: BlockStatus, node: Node): Outcome {
    if q.status == Some(status) then Outcome(q, [], true)
    else
      var reconciled := Reconciled(pruning, q, status);
      if (q.status.None? || q.status.value.latest < status.latest)
         && OutstandingCount(reconciled.queue.rows, status.latest) > 0
      then After(reconciled.actions, Advance(c, reconciled.queue, status.latest, node))
      else reconciled
  }

  function Enqueue(c: Config, q: Queue, transactions: seq<(Tx, Option<nat>)>, node: Node): Outcome {
    var q1 := q.(rows := q.rows + NewRows(transactions));
    if q1.status.None? then Outcome(q1, [], true)
    else SubmitPending(c, q1, q1.status.value.latest, node)
  }

  // ---------------------------------------------------------------- the class

  class TransactionQueue {
    const config: Config
    const storage: TransactionStorage
    var blockStatus: Option<BlockStatus>
    var nonceCache: Option<nat>
    var feeCache: Option<Fees>

    constructor (config: Config, storage: TransactionStorage)
      ensures this.config == config && this.storage == storage
      ensures Abs() == Queue(storage.rows, None, None, None)
    {
      this.config, this.storage := config, storage;
      blockStatus, nonceCache, feeCache := None, None, None;
    }

    function Abs(): Queue
      reads this, storage
    {
      Queue(storage.rows, blockStatus, nonceCache, feeCache)
    }

    /** The account nonce at the latest block, asked for once per block. */
    method Nonce(node: Node) returns (nonce: Option<nat>)
      modifies this
      ensures Abs() == WithNonce(old(Abs()), node) && nonce == nonceCache
    {
      if nonceCache.None? { nonceCache := node.account; }
      nonce := nonceCache;
    }

    method EstimatedFees(node: Node) returns (fees: Option<Fees>)
      modifies this
      ensures Abs() == WithFees(config, old(Abs()), node) && fees == feeCache
    {
      if feeCache.None? && node.estimate.Some? {
        var estimate := node.estimate.value;
        feeCache := Some(if config.priorityCap.Some? then CapPriorityFee(estimate, config.priorityCap.value)
                         else estimate);
      }
      fees := feeCache;
    }

    /** The submission is always recorded: its nonce is in the table. */
    method SubmitTransaction(row: Row, block: nat, node: Node) returns (actions: seq<Action>, ok: bool)
      requires storage.Valid() && row.nonce.Some? && HasNonce(storage.rows, row.nonce.value)
      modifies this, storage
      ensures storage.Valid()
      ensures forall nonce :: HasNonce(old(storage.rows), nonce) ==> HasNonce(storage.rows, nonce)
      ensures Outcome(Abs(), actions, ok) == Submit(config, old(Abs()), row, block, node)
    {
      var estimate := EstimatedFees(node);
      if estimate.None? { return [], false; }
      var nonce := row.nonce.value;
      var fees := Bump(estimate.value, row.fees);
      actions, ok := [Sent(row.tx, nonce, fees, node.send(nonce))], true;
      ghost var before := storage.rows;
      var included: Option<nat> := None;
      match node.send(nonce) {
        case Accepted => included := Some(block);
        case Underpriced =>
        case Rejected => return;
      }
      var found := storage.RecordSubmission(Submission(included, nonce, fees));
      assert found;
      forall n | HasNonce(before, n) ensures HasNonce(storage.rows, n) {
        ApplyKeepsNonce(before, Record(Submission(included, nonce, fees)), n);
      }
    }

    method SubmitNext(block: nat, node: Node) returns (actions: seq<Action>, ok: bool, more: bool)
      requires storage.Valid()
      modifies this, storage
      ensures storage.Valid()
      ensures (Outcome(Abs(), actions, ok), more) == SubmitOldest(config, old(Abs()), block, node)
    {
      var nonce := Nonce(node);
      if nonce.None? { return [], false, false; }
      ghost var rows := storage.rows;
      var row := storage.NextTransaction(nonce.value, block);
      if row.None? { return [], true, false; }
      AllocatedIsThere(rows, block, row.value.nonce.value);
      var sent, submitted := SubmitTransaction(row.value, block, node);
      actions := [Allocated(row.value.tx, row.value.nonce.value)] + sent;
      ok, more := submitted, submitted;
    }

    /** Submits queued transactions while fewer than the maximum are in flight. */
    method SubmitQueued(block: nat, node: Node) returns (actions: seq<Action>, ok: bool)
      requires storage.Valid()
      modifies this, storage
      ensures storage.Valid()
      ensures Outcome(Abs(), actions, ok) == SubmitPending(config, old(Abs()), block, node)
    {
      var inFlight := storage.CountInFlight();
      var limit := if inFlight < config.maxInFlight then config.maxInFlight - inFlight else 0;
      actions, ok := SubmitUpTo(limit, block, node);
    }

    method SubmitUpTo(limit: nat, block: nat, node: Node) returns (actions: seq<Action>, ok: bool)
      requires storage.Valid()
      modifies this, storage
      ensures storage.Valid()
      ensures Outcome(Abs(), actions, ok) == SubmitNew(config, old(Abs()), limit, block, node)
    {
      ghost var q := Abs();
      ghost var whole := SubmitNew(config, q, limit, block, node);
      actions, ok := [], true;
      AfterAfter([], [], whole);
      for i := 0 to limit
        invariant storage.Valid() && Abs() == q
        invariant ok && whole == After(actions, SubmitNew(config, q, limit - i, block, node))
      {
        var sent, more;
        sent, ok, more := SubmitNext(block, node);
        SubmitNewStep(config, q, limit - i, block, node, actions, Outcome(Abs(), sent, ok), more);
        q := Abs();
        actions := actions + sent;
        if !more { return; }
      }
    }

    /** Rebroadcasts the in-flight transactions that have gone unexecuted for too long. */
    method Resubmit(block: nat, node: Node) returns (actions: seq<Action>, ok: bool)
      requires storage.Valid()
      modifies this, storage
      ensures storage.Valid()
      ensures Outcome(Abs(), actions, ok) == ResubmitStale(config, old(Abs()), block, node)
    {
      ghost var whole := ResubmitStale(config, Abs(), block, node);
      var stale := storage.StaleSubmissions(CheckedSub(block, config.blocksBeforeResubmit));
      StaleMembers(storage.rows, CheckedSub(block, config.blocksBeforeResubmit));
      actions := [];
      assert stale[0..] == stale;
      AfterAfter([], [], whole);
      for i := 0 to |stale|
        invariant storage.Valid()
        invariant forall k :: i <= k < |stale| ==> HasNonce(storage.rows, NonceOf(stale[k]))
        invariant whole == After(actions, SubmitAll(config, Abs(), stale[i..], block, node))
      {
        var sent, submitted := SubmitTransaction(stale[i], block, node);
        if !submitted { return actions + sent, false; }
        assert stale[i..][1..] == stale[i + 1..];
        AfterAfter(actions, sent, SubmitAll(config, Abs(), stale[i + 1..], block, node));
        actions := actions + sent;
      }
      ok := true;
    }

    method QueueTransactions(transactions: seq<(Tx, Option<nat>)>, node: Node) returns (actions: seq<Action>, ok: bool)
      requires storage.Valid()
      modifies this, storage
      ensures storage.Valid()
      ensures Outcome(Abs(), actions, ok) == Enqueue(config, old(Abs()), transactions, node)
    {
      storage.Enqueue(transactions);
      actions, ok := [], true;
      if blockStatus.Some? {
        actions, ok := SubmitQueued(blockStatus.value.latest, node);
      }
    }

    /** Reconciles the queue with the block watcher's current view of the chain. */
    method UpdateBlockStatus(status: BlockStatus, node: Node) returns (actions: seq<Action>, ok: bool)
      requires storage.Valid()
      modifies this, storage
      ensures storage.Valid()
      ensures Outcome(Abs(), actions, ok) == UpdateStatus(config, true, old(Abs()), status, node)
    {
      var previous := blockStatus;
      if previous == Some(status) { return [], true; }
      ghost var reconciled := Reconciled(true, Abs(), status);

      blockStatus := Some(status);
      if previous.None? || previous.value.latest != status.latest {
        nonceCache, feeCache := None, None;
      }
      if previous.None? || previous.value.safe != status.safe {
        storage.PruneBelow(status.safe);
      }
      actions := [];
      var cleared: Option<nat> := None;
      if previous.None? {
        // There may have been a reorg while the service was down.
        cleared := Some(status.safe + 1);
      } else if previous.value.latest > status.latest {
        cleared := Some(status.latest + 1);
      }
      if cleared.Some? {
        actions := Marks(storage.rows, Unmark(cleared.value));
        storage.UnmarkExecuted(cleared.value);
      }
      assert Outcome(Abs(), actions, true) == reconciled;

      var outstanding := storage.CountOutstanding(status.latest);
      if (previous.None? || previous.value.latest < status.latest) && outstanding > 0 {
        var more;
        more, ok := AdvanceTo(status.latest, node);
        actions := actions + more;
      } else {
        ok := true;
      }
    }

    method AdvanceTo(latest: nat, node: Node) returns (actions: seq<Action>, ok: bool)
      requires storage.Valid()
      modifies this, storage
      ensures storage.Valid()
      ensures Outcome(Abs(), actions, ok) == Advance(config, old(Abs()), latest, node)
    {
      var nonce := Nonce(node);
      if nonce.None? { return [], false; }
      actions := Marks(storage.rows, Mark(latest, nonce.value));
      storage.MarkExecuted(latest, nonce.value);
      var more;
      more, ok := Resubmit(latest, node);
      actions := actions + more;
      if !ok { return; }
      more, ok := SubmitQueued(latest, node);
      actions := actions + more;
    }
  }

  lemma {:induction false} InsertedMembers(r: Row, sorted: Table)
    ensures forall x :: x in InsertByNonce(r, sorted) ==> x == r || x in sorted
  {
    if sorted != [] && NonceOf(r) > NonceOf(sorted[0]) {
      InsertedMembers(r, sorted[1..]);
    }
  }

  /** Stale rows are allocated rows of the table. */
  lemma {:induction false} StaleMembers(rows: Table, before: Option<nat>)
    ensures forall x :: x in Stale(rows, before) ==> x in rows && x.nonce.Some?
    ensures forall k :: 0 <= k < |Stale(rows, before)| ==> HasNonce(rows, NonceOf(Stale(rows, before)[k]))
  {
    if rows != [] {
      StaleMembers(rows[1..], before);
      if IsStale(rows[0], before) {
        InsertedMembers(rows[0], Stale(rows[1..], before));
      }
    }
    var stale := Stale(rows, before);
    assert forall x :: x in stale ==> x in rows && x.nonce.Some?;
    forall k | 0 <= k < |stale| ensures HasNonce(rows, NonceOf(stale[k])) {
      assert stale[k] in stale;
      var i :| 0 <= i < |rows| && rows[i] == stale[k];
    }
  }
}
