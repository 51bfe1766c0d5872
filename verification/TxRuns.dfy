/**
 Whole runs of the transaction queue within one process lifetime: any sequence of chain
 views and queued transactions. Pruning the table is unobservable; execution marks are sound
 and form a prefix after every operation; and nonces are allocated in increasing order.
 */
module TxRuns {
  import opened Wrappers
  import opened TxTable
  import opened TxQueue
  import opened TxMarks
  import opened TxPruning
  import Blocks
  import Fees

  /** One operation, with the node's answers. `chain` is the chain of the new view. */
  datatype Input =
    | NewView(status: Blocks.BlockStatus, chain: Nonces, node: Node)
    | NewTransactions(transactions: seq<(Tx, Option<nat>)>, node: Node)

  function Perform(c: Config, pruning: bool, q: Queue, input: Input): Outcome {
    match input
    case NewView(status, _, node) => UpdateStatus(c, pruning, q, status, node)
    case NewTransactions(transactions, node) => Enqueue(c, q, transactions, node)
  }

  /** The queue after all inputs, and every action taken on the way. */
  function Run(c: Config, pruning: bool, q: Queue, inputs: seq<Input>): Outcome {
    if inputs == [] then Outcome(q, [], true)
    else
      var k := |inputs| - 1;
      var before := Run(c, pruning, q, inputs[..k]);
      After(before.actions, Perform(c, pruning, before.queue, inputs[k]))
  }

  /** A queue as it is created over a table left by an earlier process. */
  function Created(rows: Table): Queue {
    Queue(rows, None, None, None)
  }

  /** A chain view: its bounds and the account nonces along its chain. */
  datatype ChainView = ChainView(status: Blocks.BlockStatus, chain: Nonces)

  /** The last chain view among the inputs. */
  function Seen(inputs: seq<Input>): Option<ChainView> {
    if inputs == [] then None
    else
      var last := inputs[|inputs| - 1];
      if last.NewView? then Some(ChainView(last.status, last.chain)) else Seen(inputs[..|inputs| - 1])
  }

  /** What the queue assumes of the watcher and of the node. Account nonces never decrease
      along a chain; consecutive views agree on the blocks both of them have, and the safe
      block does not move back; the node answers for the head of the current view. At the
      first view, stored marks at or below its safe block are true. */
  ghost predicate Honest(rows: Table, inputs: seq<Input>) {
    inputs == [] ||
      var k := |inputs| - 1;
      var seen := Seen(inputs[..k]);
      && Honest(rows, inputs[..k])
      && match inputs[k]
         case NewView(status, chain, node) =>
           && ChainOk(chain, status) && NodeOk(node, chain)
           && (seen.None? ==> forall r :: r in rows && r.executed.Some? && r.executed.value <= status.safe ==>
                 MarkSound(r, chain))
           && (seen.Some? ==>
                 seen.value.status.safe <= status.safe && Follows(seen.value.chain, chain))
         case NewTransactions(_, node) =>
           seen.Some? ==> NodeOk(node, seen.value.chain)
  }

  /** What a process finds in the table when it starts, and leaves there (`StoredAfterwards`). */
  ghost predicate Stored(rows: Table) {
    NoncesDistinct(rows) && MarksPrefix(rows) && forall r :: r in rows ==> MarkAllocated(r)
  }

  /** Before the first view: the stored rows, then new ones. */
  ghost predicate Unstarted(rows: Table, q: Queue) {
    && q.status.None? && q.nonceCache.None? && q.feeCache.None?
    && Stored(q.rows)
    && forall r :: r in q.rows && r.executed.Some? ==> r in rows
  }

  /** The reference queue after a run: its invariant, and the view it has taken over. */
  ghost predicate Reached(rows: Table, q: Queue, inputs: seq<Input>) {
    var seen := Seen(inputs);
    if seen.Some? then
      q.status == Some(seen.value.status) && QueueOk(q, seen.value.chain)
    else Unstarted(rows, q)
  }

  /** The safe block at which the rows missing from the pruned table were dead. */
  function SafeOf(inputs: seq<Input>): nat {
    var seen := Seen(inputs);
    if seen.Some? then seen.value.status.safe else 0
  }

  lemma UnstartedEnqueue(rows: Table, q: Queue, transactions: seq<(Tx, Option<nat>)>)
    requires Unstarted(rows, q)
    ensures Unstarted(rows, q.(rows := q.rows + NewRows(transactions)))
  {
    var more := NewRows(transactions);
    forall r | r in more ensures r.nonce.None? && r.executed.None? {
    }
    assert forall r :: r in q.rows + more ==> r in q.rows || r in more;
  }

  /** One operation on the two queues. */
  lemma PerformAgrees(c: Config, rows: Table, p: Queue, q: Queue, inputs: seq<Input>)
    requires inputs != [] && Honest(rows, inputs)
    requires var before := inputs[..|inputs| - 1];
             Reached(rows, q, before) && Mirrors(p, q, SafeOf(before))
    ensures var input := inputs[|inputs| - 1];
            && Reached(rows, Perform(c, false, q, input).queue, inputs)
            && SameOutcome(Perform(c, true, p, input), Perform(c, false, q, input), SafeOf(inputs))
  {
    var k := |inputs| - 1;
    var seen := Seen(inputs[..k]);
    match inputs[k]
    case NewView(status, next, node) =>
      var chain := if seen.Some? then seen.value.chain else [];
      UpdateMirrors(c, p, q, chain, status, next, node, SafeOf(inputs[..k]));
      UpdateKeeps(c, q, chain, status, next, node);
    case NewTransactions(transactions, node) =>
      var chain := if seen.Some? then seen.value.chain else [];
      EnqueueMirrors(c, p, q, chain, transactions, node, SafeOf(inputs[..k]));
      if seen.Some? {
        EnqueueOpKeeps(c, q, chain, transactions, node);
      } else {
        UnstartedEnqueue(rows, q, transactions);
      }
  }

  lemma {:induction false} RunAgrees(c: Config, rows: Table, inputs: seq<Input>)
    requires Stored(rows) && Honest(rows, inputs)
    ensures Reached(rows, Run(c, false, Created(rows), inputs).queue, inputs)
    ensures SameOutcome(Run(c, true, Created(rows), inputs), Run(c, false, Created(rows), inputs), SafeOf(inputs))
  {
    if inputs == [] {
      PrunedRefl(rows, 0);
    } else {
      var before := inputs[..|inputs| - 1];
      RunAgrees(c, rows, before);
      PerformAgrees(c, rows, Run(c, true, Created(rows), before).queue, Run(c, false, Created(rows), before).queue,
                    inputs);
    }
  }

  /** Pruning the transaction table is unobservable: the queue makes the same allocations with
      the same nonces, the same broadcasts with the same fees, and sets and clears the same
      marks, in the same order, as a queue that never deletes a row. */
  lemma PruningUnobservable(c: Config, rows: Table, inputs: seq<Input>)
    requires Stored(rows) && Honest(rows, inputs)
    ensures Run(c, true, Created(rows), inputs).actions == Run(c, false, Created(rows), inputs).actions
    ensures Run(c, true, Created(rows), inputs).ok == Run(c, false, Created(rows), inputs).ok
  {
    RunAgrees(c, rows, inputs);
  }

  // ---------------------------------------------------------------- marks

  /** After every operation, marks of the real table are true of the current chain, and the
      marked transactions form a prefix in nonce order with non-decreasing mark blocks. */
  lemma MarksAreSound(c: Config, rows: Table, inputs: seq<Input>)
    requires Stored(rows) && Honest(rows, inputs)
    ensures var table := Run(c, true, Created(rows), inputs).queue.rows;
            var seen := Seen(inputs);
            && MarksPrefix(table) && NoncesDistinct(table)
            && (seen.Some? ==>
                  |seen.value.chain| == seen.value.status.latest + 1
                  && forall r :: r in table && r.executed.Some? ==>
                    && r.executed.value <= seen.value.status.latest
                    && r.nonce.Some? && r.nonce.value < seen.value.chain[r.executed.value])
  {
    RunAgrees(c, rows, inputs);
    var p := Run(c, true, Created(rows), inputs).queue;
    var q := Run(c, false, Created(rows), inputs).queue;
    PrunedMembers(p.rows, q.rows, SafeOf(inputs));
    PrunedDistinct(p.rows, q.rows, SafeOf(inputs));
    var seen := Seen(inputs);
    if seen.Some? {
      forall r | r in p.rows && r.executed.Some?
        ensures r.executed.value <= seen.value.status.latest
        ensures r.nonce.Some? && r.nonce.value < seen.value.chain[r.executed.value]
      {
        assert MarkSound(r, seen.value.chain);
      }
    }
  }

  lemma {:induction false} PrunedDistinct(kept: Table, all: Table, safe: nat)
    requires PrunedFrom(kept, all, safe) && NoncesDistinct(all)
    ensures NoncesDistinct(kept)
  {
    if all != [] {
      assert forall i, j :: 0 <= i < j < |all[1..]| ==> all[1..][i] == all[i + 1] && all[1..][j] == all[j + 1];
      if kept != [] && kept[0] == all[0] && PrunedFrom(kept[1..], all[1..], safe) {
        PrunedDistinct(kept[1..], all[1..], safe);
        PrunedMembers(kept[1..], all[1..], safe);
        forall i, j | 0 <= i < j < |kept| && kept[i].nonce.Some? ensures kept[i].nonce != kept[j].nonce {
          if i == 0 {
            assert kept[j] == kept[1..][j - 1];
            assert kept[j] in all[1..];
          } else {
            assert kept[i] == kept[1..][i - 1] && kept[j] == kept[1..][j - 1];
          }
        }
      } else {
        PrunedDistinct(kept, all[1..], safe);
      }
    }
  }

  /** What the process leaves in the table is what the next one assumes of it. */
  lemma StoredAfterwards(c: Config, rows: Table, inputs: seq<Input>)
    requires Stored(rows) && Honest(rows, inputs)
    ensures Stored(Run(c, true, Created(rows), inputs).queue.rows)
  {
    RunAgrees(c, rows, inputs);
    var (p, q) := (Run(c, true, Created(rows), inputs).queue, Run(c, false, Created(rows), inputs).queue);
    PrunedMembers(p.rows, q.rows, SafeOf(inputs));
    PrunedDistinct(p.rows, q.rows, SafeOf(inputs));
    var seen := Seen(inputs);
    forall r | r in p.rows ensures MarkAllocated(r) {
      assert seen.Some? ==> MarkSound(r, seen.value.chain);
    }
  }

  // ---------------------------------------------------------------- nonces in order

  /** Allocated nonces increase strictly from `low` up, ending below `high`. */
  predicate Ascends(actions: seq<Action>, low: nat, high: nat) {
    if actions == [] then low <= high
    else match actions[0]
      case Allocated(_, nonce) => low <= nonce && Ascends(actions[1..], nonce + 1, high)
      case _ => Ascends(actions[1..], low, high)
  }

  /** Nonces are allocated without gaps: each is the next free one, or jumps ahead to one of the
      account nonces that the node has reported. */
  predicate Dense(actions: seq<Action>, low: nat, high: nat, accounts: set<nat>) {
    if actions == [] then low == high
    else match actions[0]
      case Allocated(_, nonce) =>
        (nonce == low || (low < nonce && nonce in accounts)) && Dense(actions[1..], nonce + 1, high, accounts)
      case _ => Dense(actions[1..], low, high, accounts)
  }

  lemma {:induction false} DenseAscends(actions: seq<Action>, low: nat, high: nat, accounts: set<nat>)
    requires Dense(actions, low, high, accounts)
    ensures Ascends(actions, low, high)
  {
    if actions != [] {
      DenseAscends(actions[1..], if actions[0].Allocated? then actions[0].nonce + 1 else low, high, accounts);
    }
  }

  lemma {:induction false} DenseMore(actions: seq<Action>, low: nat, high: nat, accounts: set<nat>, more: set<nat>)
    requires Dense(actions, low, high, accounts) && accounts <= more
    ensures Dense(actions, low, high, more)
  {
    if actions != [] {
      DenseMore(actions[1..], if actions[0].Allocated? then actions[0].nonce + 1 else low, high, accounts, more);
    }
  }

  lemma {:induction false} DenseOn(first: seq<Action>, second: seq<Action>, low: nat, middle: nat, high: nat,
                                   accounts: set<nat>)
    requires Dense(first, low, middle, accounts) && Dense(second, middle, high, accounts)
    ensures Dense(first + second, low, high, accounts)
    decreases |first|
  {
    if first == [] {
      assert first + second == second;
    } else {
      assert (first + second)[1..] == first[1..] + second;
      DenseOn(first[1..], second, if first[0].Allocated? then first[0].nonce + 1 else low, middle, high, accounts);
    }
  }

  lemma {:induction false} MarksAllocateNothing(rows: Table, change: Change, low: nat, accounts: set<nat>)
    ensures Dense(Marks(rows, change), low, low, accounts)
  {
    if rows != [] {
      MarksAllocateNothing(rows[1..], change, low, accounts);
      var rest := Marks(rows[1..], change);
      var first := Marks(rows, change)[..|Marks(rows, change)| - |rest|];
      assert Marks(rows, change) == first + rest;
      DenseOn(first, rest, low, low, low, accounts);
    }
  }

  lemma {:induction false} BoundOfAppend(rows: Table, transactions: seq<(Tx, Option<nat>)>)
    ensures NonceBound(rows + NewRows(transactions)) == NonceBound(rows)
  {
    var more := NewRows(transactions);
    if rows == [] {
      assert rows + more == more;
      NoBound(more);
    } else {
      assert (rows + more)[1..] == rows[1..] + more;
      BoundOfAppend(rows[1..], transactions);
    }
  }

  lemma {:induction false} NoBound(rows: Table)
    requires forall i :: 0 <= i < |rows| ==> rows[i].nonce.None?
    ensures NonceBound(rows) == 0
  {
    if rows != [] {
      NoBound(rows[1..]);
    }
  }

  lemma {:induction false} BoundOfApply(rows: Table, change: Change)
    ensures NonceBound(Apply(rows, change)) == NonceBound(rows)
  {
    if rows != [] {
      assert Apply(rows, change)[1..] == Apply(rows[1..], change);
      BoundOfApply(rows[1..], change);
    }
  }

  lemma {:induction false} BoundOfAllocate(rows: Table, block: nat, nonce: nat)
    requires Oldest(rows, block).Some? && NonceBound(rows) <= nonce
    ensures NonceBound(Allocate(rows, block, nonce)) == nonce + 1
  {
    if !Queued(rows[0], block) {
      BoundOfAllocate(rows[1..], block, nonce);
      assert Allocate(rows, block, nonce)[1..] == Allocate(rows[1..], block, nonce);
    }
  }

  predicate Known(q: Queue, accounts: set<nat>) {
    q.nonceCache.Some? ==> q.nonceCache.value in accounts
  }

  predicate Answers(node: Node, accounts: set<nat>) {
    node.account.Some? ==> node.account.value in accounts
  }

  /** An operation allocates nonces without gaps, from the table's bound to its new bound. */
  predicate Orderly(rows: Table, done: Outcome, accounts: set<nat>) {
    Dense(done.actions, NonceBound(rows), NonceBound(done.queue.rows), accounts) && Known(done.queue, accounts)
  }

  lemma OrderlyAfter(rows: Table, first: Outcome, rest: Outcome, accounts: set<nat>)
    requires Orderly(rows, first, accounts) && Orderly(first.queue.rows, rest, accounts)
    ensures Orderly(rows, After(first.actions, rest), accounts)
  {
    DenseOn(first.actions, rest.actions, NonceBound(rows), NonceBound(first.queue.rows), NonceBound(rest.queue.rows),
            accounts);
  }

  lemma ApplyOrderly(q: Queue, change: Change, accounts: set<nat>)
    requires Known(q, accounts)
    ensures Orderly(q.rows, Outcome(q.(rows := Apply(q.rows, change)), Marks(q.rows, change), true), accounts)
  {
    BoundOfApply(q.rows, change);
    MarksAllocateNothing(q.rows, change, NonceBound(q.rows), accounts);
  }

  lemma SubmitOrderly(c: Config, q: Queue, row: Row, block: nat, node: Node, accounts: set<nat>)
    requires Known(q, accounts)
    ensures Orderly(q.rows, Submit(c, q, row, block, node), accounts)
  {
    var q1 := WithFees(c, q, node);
    if q1.feeCache.Some? {
      var fees := Fees.Bump(q1.feeCache.value, row.fees);
      BoundOfApply(q1.rows, Record(Submission(Some(block), NonceOf(row), fees)));
      BoundOfApply(q1.rows, Record(Submission(None, NonceOf(row), fees)));
    }
  }

  lemma SubmitOldestOrderly(c: Config, q: Queue, block: nat, node: Node, accounts: set<nat>)
    requires Known(q, accounts) && Answers(node, accounts)
    ensures Orderly(q.rows, SubmitOldest(c, q, block, node).0, accounts)
  {
    var q1 := WithNonce(q, node);
    if q1.nonceCache.Some? && Oldest(q1.rows, block).Some? {
      var nonce := NextNonce(q1.rows, q1.nonceCache.value);
      var row := Oldest(q1.rows, block).value;
      BoundOfAllocate(q1.rows, block, nonce);
      var q2 := q1.(rows := Allocate(q1.rows, block, nonce));
      SubmitOrderly(c, q2, row.(nonce := Some(nonce)), block, node, accounts);
      FirstIsDense(q.rows, Outcome(q2, [Allocated(row.tx, nonce)], true), row.tx, nonce, accounts);
      OrderlyAfter(q.rows, Outcome(q2, [Allocated(row.tx, nonce)], true),
                   Submit(c, q2, row.(nonce := Some(nonce)), block, node), accounts);
    }
  }

  lemma FirstIsDense(rows: Table, done: Outcome, tx: Tx, nonce: nat, accounts: set<nat>)
    requires done.actions == [Allocated(tx, nonce)] && NonceBound(done.queue.rows) == nonce + 1
    requires Known(done.queue, accounts) && done.queue.nonceCache.Some?
    requires nonce == NextNonce(rows, done.queue.nonceCache.value)
    ensures Orderly(rows, done, accounts)
  {
    assert done.actions[1..] == [];
    BoundIsTight(rows);
    NextIsFirstFree(rows, done.queue.nonceCache.value);
  }

  lemma {:induction false} SubmitNewOrderly(c: Config, q: Queue, budget: nat, block: nat, node: Node,
                                            accounts: set<nat>)
    requires Known(q, accounts) && Answers(node, accounts)
    ensures Orderly(q.rows, SubmitNew(c, q, budget, block, node), accounts)
    decreases budget
  {
    if budget > 0 {
      var (first, more) := SubmitOldest(c, q, block, node);
      SubmitOldestOrderly(c, q, block, node, accounts);
      if more {
        SubmitNewOrderly(c, first.queue, budget - 1, block, node, accounts);
        OrderlyAfter(q.rows, first, SubmitNew(c, first.queue, budget - 1, block, node), accounts);
      }
    }
  }

  lemma {:induction false} SubmitAllOrderly(c: Config, q: Queue, rows: Table, block: nat, node: Node,
                                            accounts: set<nat>)
    requires Known(q, accounts)
    ensures Orderly(q.rows, SubmitAll(c, q, rows, block, node), accounts)
    decreases |rows|
  {
    if rows != [] {
      var first := Submit(c, q, rows[0], block, node);
      SubmitOrderly(c, q, rows[0], block, node, accounts);
      if first.ok {
        SubmitAllOrderly(c, first.queue, rows[1..], block, node, accounts);
        OrderlyAfter(q.rows, first, SubmitAll(c, first.queue, rows[1..], block, node), accounts);
      }
    }
  }

  lemma AdvanceOrderly(c: Config, q: Queue, latest: nat, node: Node, accounts: set<nat>)
    requires Known(q, accounts) && Answers(node, accounts)
    ensures Orderly(q.rows, Advance(c, q, latest, node), accounts)
  {
    var q1 := WithNonce(q, node);
    if q1.nonceCache.Some? {
      var mark := Mark(latest, q1.nonceCache.value);
      var marked := Outcome(q1.(rows := Apply(q1.rows, mark)), Marks(q1.rows, mark), true);
      ApplyOrderly(q1, mark, accounts);
      var stale := ResubmitStale(c, marked.queue, latest, node);
      SubmitAllOrderly(c, marked.queue, Stale(marked.queue.rows, CheckedSub(latest, c.blocksBeforeResubmit)), latest,
                       node, accounts);
      OrderlyAfter(q.rows, marked, stale, accounts);
      if stale.ok {
        SubmitNewOrderly(c, stale.queue, Budget(c, stale.queue), latest, node, accounts);
        OrderlyAfter(q.rows, After(marked.actions, stale), SubmitPending(c, stale.queue, latest, node), accounts);
      }
    }
  }

  lemma ReconciledOrderly(q: Queue, status: Blocks.BlockStatus, accounts: set<nat>)
    requires Known(Reconciled(false, q, status).queue, accounts)
    ensures Orderly(q.rows, Reconciled(false, q, status), accounts)
  {
    var dropped := q.(nonceCache := None);
    ApplyOrderly(dropped, Unmark(status.safe + 1), accounts);
    ApplyOrderly(dropped, Unmark(status.latest + 1), accounts);
  }

  lemma UpdateOrderly(c: Config, q: Queue, status: Blocks.BlockStatus, node: Node, accounts: set<nat>)
    requires q.status.Some? && q.status.value.latest == status.latest ==> Known(q, accounts)
    requires Answers(node, accounts)
    ensures Orderly(q.rows, UpdateStatus(c, false, q, status, node), accounts)
  {
    if q.status != Some(status) {
      var reconciled := Reconciled(false, q, status);
      ReconciledOrderly(q, status, accounts);
      AdvanceOrderly(c, reconciled.queue, status.latest, node, accounts);
      OrderlyAfter(q.rows, reconciled, Advance(c, reconciled.queue, status.latest, node), accounts);
    }
  }

  lemma EnqueueOrderly(c: Config, q: Queue, transactions: seq<(Tx, Option<nat>)>, node: Node, accounts: set<nat>)
    requires Known(q, accounts) && (q.status.Some? ==> Answers(node, accounts))
    ensures Orderly(q.rows, Enqueue(c, q, transactions, node), accounts)
  {
    var q1 := q.(rows := q.rows + NewRows(transactions));
    BoundOfAppend(q.rows, transactions);
    if q.status.Some? {
      var latest := q.status.value.latest;
      SubmitNewOrderly(c, q1, Budget(c, q1), latest, node, accounts);
      OrderlyAfter(q.rows, Outcome(q1, [], true), SubmitPending(c, q1, latest, node), accounts);
    }
  }

  /** The account nonces the node has answered with. */
  function AccountsIn(inputs: seq<Input>): set<nat> {
    set i | 0 <= i < |inputs| && inputs[i].node.account.Some? :: inputs[i].node.account.value
  }

  /** All nonces allocated in one process lifetime increase strictly and without gaps, whatever the
      node and the watcher do. */
  lemma {:induction false} ReferenceDense(c: Config, q: Queue, inputs: seq<Input>)
    requires q.nonceCache.None?
    ensures Orderly(q.rows, Run(c, false, q, inputs), AccountsIn(inputs))
  {
    if inputs != [] {
      var k := |inputs| - 1;
      ReferenceDense(c, q, inputs[..k]);
      var before := Run(c, false, q, inputs[..k]);
      var last := Perform(c, false, before.queue, inputs[k]);
      var accounts := AccountsIn(inputs);
      assert AccountsIn(inputs[..k]) <= accounts;
      DenseMore(before.actions, NonceBound(q.rows), NonceBound(before.queue.rows), AccountsIn(inputs[..k]), accounts);
      match inputs[k] {
        case NewView(status, _, node) => UpdateOrderly(c, before.queue, status, node, accounts);
        case NewTransactions(transactions, node) => EnqueueOrderly(c, before.queue, transactions, node, accounts);
      }
      OrderlyAfter(q.rows, before, last, accounts);
    }
  }

  /** Over every run of the real queue, no nonce is skipped: each allocation takes the next nonce
      after all those ever allocated, unless the account has moved past it. */
  lemma NoNonceIsSkipped(c: Config, rows: Table, inputs: seq<Input>)
    requires Stored(rows) && Honest(rows, inputs)
    ensures exists high: nat ::
              Dense(Run(c, true, Created(rows), inputs).actions, NonceBound(rows), high, AccountsIn(inputs))
  {
    PruningUnobservable(c, rows, inputs);
    ReferenceDense(c, Created(rows), inputs);
  }

  /** The account nonce at the head of the current view. */
  function HeadNonce(inputs: seq<Input>): set<nat> {
    var seen := Seen(inputs);
    if seen.Some? && seen.value.chain != [] then {seen.value.chain[|seen.value.chain| - 1]} else {}
  }

  /** Each operation allocates without gaps from the account nonce at the head it works at. */
  lemma OperationIsDense(c: Config, rows: Table, inputs: seq<Input>)
    requires Stored(rows) && Honest(rows, inputs) && inputs != []
    ensures var before := Run(c, false, Created(rows), inputs[..|inputs| - 1]).queue;
            Orderly(before.rows, Perform(c, false, before, inputs[|inputs| - 1]), HeadNonce(inputs))
  {
    var k := |inputs| - 1;
    RunAgrees(c, rows, inputs[..k]);
    var before := Run(c, false, Created(rows), inputs[..k]).queue;
    match inputs[k]
    case NewView(status, chain, node) => UpdateOrderly(c, before, status, node, HeadNonce(inputs));
    case NewTransactions(transactions, node) => EnqueueOrderly(c, before, transactions, node, HeadNonce(inputs));
  }

  /** The real queue never allocates a nonce twice, nor one it found in the table, although it
      computes the next one from the rows that survive pruning. */
  lemma NoncesAscend(c: Config, rows: Table, inputs: seq<Input>)
    requires Stored(rows) && Honest(rows, inputs)
    ensures exists high: nat :: Ascends(Run(c, true, Created(rows), inputs).actions, NonceBound(rows), high)
  {
    NoNonceIsSkipped(c, rows, inputs);
    var high: nat :| Dense(Run(c, true, Created(rows), inputs).actions, NonceBound(rows), high, AccountsIn(inputs));
    DenseAscends(Run(c, true, Created(rows), inputs).actions, NonceBound(rows), high, AccountsIn(inputs));
  }

  /** No two allocations among the actions share a nonce. */
  lemma {:induction false} AscendingIsDistinct(actions: seq<Action>, low: nat, high: nat, i: nat, j: nat)
    requires Ascends(actions, low, high)
    requires i < j < |actions| && actions[i].Allocated? && actions[j].Allocated?
    ensures low <= actions[i].nonce < actions[j].nonce < high
  {
    if i > 0 {
      AscendingIsDistinct(actions[1..], if actions[0].Allocated? then actions[0].nonce + 1 else low, high, i - 1,
                          j - 1);
    } else {
      AscendingAbove(actions[1..], actions[0].nonce + 1, high, j - 1);
    }
  }

  lemma {:induction false} AscendingAbove(actions: seq<Action>, low: nat, high: nat, j: nat)
    requires Ascends(actions, low, high)
    requires j < |actions| && actions[j].Allocated?
    ensures low <= actions[j].nonce < high
  {
    if j > 0 {
      AscendingAbove(actions[1..], if actions[0].Allocated? then actions[0].nonce + 1 else low, high, j - 1);
    } else {
      AscendingEnds(actions[1..], actions[0].nonce + 1, high);
    }
  }

  lemma {:induction false} AscendingEnds(actions: seq<Action>, low: nat, high: nat)
    requires Ascends(actions, low, high)
    ensures low <= high
  {
    if actions != [] {
      AscendingEnds(actions[1..], if actions[0].Allocated? then actions[0].nonce + 1 else low, high);
    }
  }
}
