/**
 Nonces and insertion order. An operation keeps allocated nonces in the order in which their
 transactions were queued exactly when its submission round has no live queued entry before an
 allocated one; and there is none while the latest block never decreases.
 */
module TxOrder {
  import opened Wrappers
  import opened TxTable
  import opened TxQueue
  import opened TxMarks
  import opened TxPruning
  import opened TxRuns
  import Blocks
  import Fees

  /** Allocated nonces increase in insertion order. */
  predicate AllocatedInOrder(rows: Table) {
    forall i, j :: 0 <= i < j < |rows| && rows[i].nonce.Some? && rows[j].nonce.Some? ==>
      rows[i].nonce.value < rows[j].nonce.value
  }

  /** A live queued entry stands before an allocated one: a later transaction has overtaken it. */
  predicate Overtaken(rows: Table, block: nat) {
    exists i, j :: 0 <= i < j < |rows| && Queued(rows[i], block) && rows[j].nonce.Some?
  }

  /** In insertion order, over all entries but those that expired without a nonce. */
  predicate Fifo(rows: Table, latest: nat) {
    AllocatedInOrder(rows) && !Overtaken(rows, latest)
  }

  // ---------------------------------------------------------------- what decides the order

  /** The same entries, with the same nonces and expiries. */
  predicate SameNonces(a: Table, b: Table) {
    |a| == |b| && forall i :: 0 <= i < |a| ==> a[i].nonce == b[i].nonce && a[i].expires == b[i].expires
  }

  lemma SameOrder(a: Table, b: Table, block: nat)
    requires SameNonces(a, b)
    ensures AllocatedInOrder(a) <==> AllocatedInOrder(b)
    ensures Overtaken(a, block) <==> Overtaken(b, block)
  {
    if i, j :| 0 <= i < j < |a| && Queued(a[i], block) && a[j].nonce.Some? {
      assert Queued(b[i], block) && b[j].nonce.Some?;
    }
    if i, j :| 0 <= i < j < |b| && Queued(b[i], block) && b[j].nonce.Some? {
      assert Queued(a[i], block) && a[j].nonce.Some?;
    }
  }

  /** Nothing but allocation touches nonces. */
  lemma ApplySame(rows: Table, change: Change)
    ensures SameNonces(rows, Apply(rows, change))
  {
  }

  lemma SubmitSame(c: Config, q: Queue, row: Row, block: nat, node: Node)
    ensures SameNonces(q.rows, Submit(c, q, row, block, node).queue.rows)
    ensures Submit(c, q, row, block, node).queue.nonceCache == q.nonceCache
  {
  }

  lemma {:induction false} SubmitAllSame(c: Config, q: Queue, rows: Table, block: nat, node: Node)
    ensures SameNonces(q.rows, SubmitAll(c, q, rows, block, node).queue.rows)
    ensures SubmitAll(c, q, rows, block, node).queue.nonceCache == q.nonceCache
    decreases |rows|
  {
    if rows != [] {
      SubmitSame(c, q, rows[0], block, node);
      SubmitAllSame(c, Submit(c, q, rows[0], block, node).queue, rows[1..], block, node);
    }
  }

  /** Entries stay where they are, and an allocated one keeps its nonce. */
  predicate NoncesStand(before: Table, after: Table) {
    |before| <= |after|
    && forall i :: 0 <= i < |before| && before[i].nonce.Some? ==> after[i].nonce == before[i].nonce
  }

  /** Order once broken stays broken. */
  lemma BrokenStays(before: Table, after: Table)
    requires NoncesStand(before, after) && !AllocatedInOrder(before)
    ensures !AllocatedInOrder(after)
  {
  }

  // ---------------------------------------------------------------- one submission round

  lemma {:induction false} NothingQueued(rows: Table, block: nat)
    requires Oldest(rows, block).None?
    ensures forall i :: 0 <= i < |rows| ==> !Queued(rows[i], block)
  {
    if rows != [] {
      NothingQueued(rows[1..], block);
      assert forall i :: 0 < i < |rows| ==> rows[i] == rows[1..][i - 1];
    }
  }

  /** A nonce above all others given to the first queued entry. */
  predicate GivesFirst(rows: Table, next: Table, block: nat, k: nat, nonce: nat) {
    && k < |rows| && Queued(rows[k], block) && next == rows[k := rows[k].(nonce := Some(nonce))]
    && (forall i :: 0 <= i < k ==> !Queued(rows[i], block))
    && (forall i :: 0 <= i < |rows| && rows[i].nonce.Some? ==> rows[i].nonce.value < nonce)
  }

  lemma GivenBehind(rows: Table, next: Table, block: nat, k: nat, nonce: nat)
    requires AllocatedInOrder(rows) && GivesFirst(rows, next, block, k, nonce) && !Overtaken(rows, block)
    ensures AllocatedInOrder(next) && !Overtaken(next, block)
  {
    forall j | k < j < |rows| ensures rows[j].nonce.None? {
      assert Queued(rows[k], block);
    }
  }

  lemma GivenAhead(rows: Table, next: Table, block: nat, k: nat, nonce: nat)
    requires GivesFirst(rows, next, block, k, nonce) && Overtaken(rows, block)
    ensures !AllocatedInOrder(next)
  {
    var i, j :| 0 <= i < j < |rows| && Queued(rows[i], block) && rows[j].nonce.Some?;
    assert k <= i && next[j] == rows[j] && next[k].nonce == Some(nonce);
  }

  /** The next nonce is in order exactly when no later entry is allocated. */
  lemma AllocateInOrder(rows: Table, block: nat, account: nat)
    requires AllocatedInOrder(rows) && Oldest(rows, block).Some?
    ensures OrderStep(rows, Allocate(rows, block, NextNonce(rows, account)), block)
  {
    var k := AllocateAt(rows, block);
    BelowBound(rows);
    var nonce := NextNonce(rows, account);
    var next := rows[k := rows[k].(nonce := Some(nonce))];
    assert forall i :: 0 <= i < |rows| ==> rows[i] in rows;
    if Overtaken(rows, block) {
      GivenAhead(rows, next, block, k, nonce);
    } else {
      GivenBehind(rows, next, block, k, nonce);
    }
  }

  /** Nonces stand, and order is kept exactly when no queued entry was overtaken. */
  predicate OrderStep(rows: Table, next: Table, block: nat) {
    && NoncesStand(rows, next)
    && (AllocatedInOrder(next) <==> !Overtaken(rows, block))
    && (!Overtaken(rows, block) ==> !Overtaken(next, block))
  }

  /** The guard of a submission round that breaks insertion order. */
  predicate RoundOvertakes(q: Queue, budget: nat, block: nat, node: Node) {
    budget > 0 && WithNonce(q, node).nonceCache.Some? && Overtaken(q.rows, block)
  }

  /** A submission round keeps allocated nonces in insertion order if and only if no live queued
      entry stands before an allocated one (or nothing may be submitted). */
  lemma {:induction false} RoundKeepsOrderIff(c: Config, q: Queue, budget: nat, block: nat, node: Node)
    requires AllocatedInOrder(q.rows)
    ensures var done := SubmitNew(c, q, budget, block, node).queue.rows;
            && NoncesStand(q.rows, done)
            && (AllocatedInOrder(done) <==> !RoundOvertakes(q, budget, block, node))
            && (!Overtaken(q.rows, block) ==> !Overtaken(done, block))
    decreases budget
  {
    var q1 := WithNonce(q, node);
    if budget > 0 && q1.nonceCache.Some? {
      if Oldest(q1.rows, block).None? {
        NothingQueued(q1.rows, block);
      } else {
        RoundAllocates(c, q, budget, block, node);
      }
    }
  }

  lemma FirstSubmitted(c: Config, q: Queue, block: nat, node: Node)
    requires AllocatedInOrder(q.rows)
    requires WithNonce(q, node).nonceCache.Some? && Oldest(q.rows, block).Some?
    ensures OrderStep(q.rows, SubmitOldest(c, q, block, node).0.queue.rows, block)
    ensures SubmitOldest(c, q, block, node).0.queue.nonceCache.Some?
  {
    var q1 := WithNonce(q, node);
    var nonce := NextNonce(q1.rows, q1.nonceCache.value);
    var row := Oldest(q1.rows, block).value.(nonce := Some(nonce));
    var q2 := q1.(rows := Allocate(q1.rows, block, nonce));
    AllocateInOrder(q1.rows, block, q1.nonceCache.value);
    SubmitSame(c, q2, row, block, node);
    SameOrder(q2.rows, Submit(c, q2, row, block, node).queue.rows, block);
  }

  lemma OrderContinues(rows: Table, first: Table, done: Table, block: nat)
    requires OrderStep(rows, first, block) && NoncesStand(first, done)
    requires !Overtaken(rows, block) ==> AllocatedInOrder(done) && !Overtaken(done, block)
    ensures OrderStep(rows, done, block)
  {
    if Overtaken(rows, block) {
      BrokenStays(first, done);
    }
  }

  lemma {:induction false} RoundAllocates(c: Config, q: Queue, budget: nat, block: nat, node: Node)
    requires AllocatedInOrder(q.rows) && budget > 0
    requires WithNonce(q, node).nonceCache.Some? && Oldest(q.rows, block).Some?
    ensures OrderStep(q.rows, SubmitNew(c, q, budget, block, node).queue.rows, block)
    decreases budget, 0
  {
    FirstSubmitted(c, q, block, node);
    var (first, more) := SubmitOldest(c, q, block, node);
    if more {
      RoundStands(c, first.queue, budget - 1, block, node);
      if !Overtaken(q.rows, block) {
        RoundKeepsOrderIff(c, first.queue, budget - 1, block, node);
      }
      OrderContinues(q.rows, first.queue.rows, SubmitNew(c, first.queue, budget - 1, block, node).queue.rows, block);
    }
  }

  lemma {:induction false} RoundStands(c: Config, q: Queue, budget: nat, block: nat, node: Node)
    ensures NoncesStand(q.rows, SubmitNew(c, q, budget, block, node).queue.rows)
    decreases budget
  {
    var q1 := WithNonce(q, node);
    if budget > 0 && q1.nonceCache.Some? && Oldest(q1.rows, block).Some? {
      var nonce := NextNonce(q1.rows, q1.nonceCache.value);
      var k := AllocateAt(q1.rows, block);
      var q2 := q1.(rows := Allocate(q1.rows, block, nonce));
      SubmitSame(c, q2, Oldest(q1.rows, block).value.(nonce := Some(nonce)), block, node);
      RoundStands(c, SubmitOldest(c, q, block, node).0.queue, budget - 1, block, node);
    }
  }

  // ---------------------------------------------------------------- one operation

  /** The entries an operation works on: those that survive its pruning, and the new ones. */
  function Entries(pruning: bool, q: Queue, input: Input): Table {
    match input
    case NewTransactions(transactions, _) => q.rows + NewRows(transactions)
    case NewView(status, _, _) =>
      if pruning && (q.status.None? || q.status.value.safe != status.safe) then Prune(q.rows, status.safe) else q.rows
  }

  /** The queue at the start of the operation's submission round, and the round's block; none when
      the operation does not get that far. */
  function Round(c: Config, pruning: bool, q: Queue, input: Input): Option<(Queue, nat)> {
    match input
    case NewTransactions(transactions, node) =>
      if q.status.None? then None else Some((q.(rows := q.rows + NewRows(transactions)), q.status.value.latest))
    case NewView(status, _, node) =>
      if q.status == Some(status) then None
      else
        var reconciled := Reconciled(pruning, q, status).queue;
        var advances := (q.status.None? || q.status.value.latest < status.latest)
                        && OutstandingCount(reconciled.rows, status.latest) > 0;
        var known := WithNonce(reconciled, node);
        if !advances || known.nonceCache.None? then None
        else
          var marked := known.(rows := Apply(known.rows, Mark(status.latest, known.nonceCache.value)));
          var stale := ResubmitStale(c, marked, status.latest, node);
          if stale.ok then Some((stale.queue, status.latest)) else None
  }

  lemma SameThrough(a: Table, b: Table, d: Table)
    requires SameNonces(a, b) && SameNonces(b, d)
    ensures SameNonces(a, d)
  {
  }

  lemma ReconciledSame(pruning: bool, q: Queue, input: Input)
    requires input.NewView?
    ensures SameNonces(Entries(pruning, q, input), Reconciled(pruning, q, input.status).queue.rows)
  {
    ApplySame(Entries(pruning, q, input), Unmark(input.status.safe + 1));
    ApplySame(Entries(pruning, q, input), Unmark(input.status.latest + 1));
  }

  /** Up to its submission round an operation leaves the nonces of its entries alone, and after it
      does nothing. */
  lemma OperationIsRound(c: Config, pruning: bool, q: Queue, input: Input)
    ensures var done := Perform(c, pruning, q, input).queue.rows;
            match Round(c, pruning, q, input)
            case None => SameNonces(Entries(pruning, q, input), done)
            case Some((r, block)) =>
              && SameNonces(Entries(pruning, q, input), r.rows)
              && done == SubmitPending(c, r, block, input.node).queue.rows
  {
    if input.NewView? && q.status != Some(input.status) {
      ViewIsRound(c, pruning, q, input);
    }
  }

  lemma ViewIsRound(c: Config, pruning: bool, q: Queue, input: Input)
    requires input.NewView? && q.status != Some(input.status)
    ensures var done := Perform(c, pruning, q, input).queue.rows;
            match Round(c, pruning, q, input)
            case None => SameNonces(Entries(pruning, q, input), done)
            case Some((r, block)) =>
              && SameNonces(Entries(pruning, q, input), r.rows)
              && done == SubmitPending(c, r, block, input.node).queue.rows
  {
    var (status, node) := (input.status, input.node);
    var reconciled := Reconciled(pruning, q, status).queue;
    ReconciledSame(pruning, q, input);
    var known := WithNonce(reconciled, node);
    if known.nonceCache.Some? {
      var mark := Mark(status.latest, known.nonceCache.value);
      ApplySame(known.rows, mark);
      var marked := known.(rows := Apply(known.rows, mark));
      var rows := Stale(marked.rows, CheckedSub(status.latest, c.blocksBeforeResubmit));
      SubmitAllSame(c, marked, rows, status.latest, node);
      SameThrough(Entries(pruning, q, input), known.rows, marked.rows);
      SameThrough(Entries(pruning, q, input), marked.rows, ResubmitStale(c, marked, status.latest, node).queue.rows);
    }
  }

  /** The operation starts a submission round in which it may allocate, while among its entries a
      live queued one stands before an allocated one. */
  predicate Overtakes(c: Config, pruning: bool, q: Queue, input: Input) {
    match Round(c, pruning, q, input)
    case None => false
    case Some((r, block)) =>
      && Budget(c, r) > 0 && WithNonce(r, input.node).nonceCache.Some?
      && Overtaken(Entries(pruning, q, input), block)
  }

  /** Without pruning, the new entries decide nothing: the table before the operation does. */
  lemma EntriesOrder(q: Queue, input: Input, block: nat)
    ensures AllocatedInOrder(Entries(false, q, input)) <==> AllocatedInOrder(q.rows)
    ensures Overtaken(Entries(false, q, input), block) <==> Overtaken(q.rows, block)
    ensures NoncesStand(q.rows, Entries(false, q, input))
  {
    var rows := Entries(false, q, input);
    assert forall j :: |q.rows| <= j < |rows| ==> rows[j].nonce.None?;
    assert forall j :: 0 <= j < |q.rows| ==> rows[j] == q.rows[j];
    if i, j :| 0 <= i < j < |q.rows| && Queued(q.rows[i], block) && q.rows[j].nonce.Some? {
      assert Queued(rows[i], block) && rows[j].nonce.Some?;
    }
    if !AllocatedInOrder(q.rows) {
      BrokenStays(q.rows, rows);
    }
  }

  /** On any table, pruned or not, an operation leaves allocated nonces in insertion order if and
      only if its entries are in order and it does not overtake. */
  lemma OperationKeepsOrderIff(c: Config, pruning: bool, q: Queue, input: Input)
    ensures AllocatedInOrder(Perform(c, pruning, q, input).queue.rows)
            <==> AllocatedInOrder(Entries(pruning, q, input)) && !Overtakes(c, pruning, q, input)
  {
    var entries := Entries(pruning, q, input);
    OperationIsRound(c, pruning, q, input);
    match Round(c, pruning, q, input) {
      case None =>
        SameOrder(entries, Perform(c, pruning, q, input).queue.rows, 0);
      case Some((r, block)) =>
        SameOrder(entries, r.rows, block);
        if AllocatedInOrder(r.rows) {
          RoundKeepsOrderIff(c, r, Budget(c, r), block, input.node);
        } else {
          RoundStands(c, r, Budget(c, r), block, input.node);
          BrokenStays(r.rows, SubmitPending(c, r, block, input.node).queue.rows);
        }
    }
  }

  // ---------------------------------------------------------------- runs

  /** No operation of the run overtakes. */
  predicate NeverOvertakes(c: Config, pruning: bool, q: Queue, inputs: seq<Input>) {
    inputs == [] ||
    var k := |inputs| - 1;
    && NeverOvertakes(c, pruning, q, inputs[..k])
    && !Overtakes(c, pruning, Run(c, pruning, q, inputs[..k]).queue, inputs[k])
  }

  /** Over every run, whatever the node and the watcher do: the nonces of all transactions ever
      queued follow insertion order if and only if no operation overtakes. */
  lemma {:induction false} InsertionOrderIff(c: Config, q: Queue, inputs: seq<Input>)
    requires AllocatedInOrder(q.rows)
    ensures AllocatedInOrder(Run(c, false, q, inputs).queue.rows) <==> NeverOvertakes(c, false, q, inputs)
  {
    if inputs != [] {
      var k := |inputs| - 1;
      InsertionOrderIff(c, q, inputs[..k]);
      var before := Run(c, false, q, inputs[..k]).queue;
      OperationKeepsOrderIff(c, false, before, inputs[k]);
      EntriesOrder(before, inputs[k], 0);
    }
  }

  /** The table is in insertion order at the start and after every operation of the run. */
  predicate StaysInOrder(c: Config, pruning: bool, q: Queue, inputs: seq<Input>) {
    && AllocatedInOrder(Run(c, pruning, q, inputs).queue.rows)
    && (inputs == [] || StaysInOrder(c, pruning, q, inputs[..|inputs| - 1]))
  }

  lemma {:induction false} PruneKeepsOrder(rows: Table, safe: nat)
    requires AllocatedInOrder(rows)
    ensures AllocatedInOrder(Prune(rows, safe))
    ensures forall r :: r in Prune(rows, safe) ==> r in rows
  {
    if rows != [] {
      var rest := Prune(rows[1..], safe);
      assert forall i :: 0 <= i < |rows[1..]| ==> rows[1..][i] == rows[i + 1];
      PruneKeepsOrder(rows[1..], safe);
      forall i | 0 <= i < |rest| && rows[0].nonce.Some? && rest[i].nonce.Some?
        ensures rows[0].nonce.value < rest[i].nonce.value
      {
        assert rest[i] in rows[1..];
      }
      var kept := Prune(rows, safe);
      if Prunable(rows[0], safe) {
        assert kept == rest;
      } else {
        assert kept == [rows[0]] + rest;
      }
    }
  }

  lemma EntriesInOrder(pruning: bool, q: Queue, input: Input)
    requires AllocatedInOrder(q.rows)
    ensures AllocatedInOrder(Entries(pruning, q, input))
  {
    EntriesOrder(q, input, 0);
    if input.NewView? {
      PruneKeepsOrder(q.rows, input.status.safe);
    }
  }

  /** The real table, with the rows that survive pruning, stays in insertion order throughout a run
      if and only if it starts so and no operation overtakes among the surviving rows. */
  lemma {:induction false} StaysInOrderIff(c: Config, pruning: bool, q: Queue, inputs: seq<Input>)
    ensures StaysInOrder(c, pruning, q, inputs) <==> AllocatedInOrder(q.rows) && NeverOvertakes(c, pruning, q, inputs)
  {
    if inputs != [] {
      var k := |inputs| - 1;
      StaysInOrderIff(c, pruning, q, inputs[..k]);
      var before := Run(c, pruning, q, inputs[..k]).queue;
      OperationKeepsOrderIff(c, pruning, before, inputs[k]);
      if AllocatedInOrder(before.rows) {
        EntriesInOrder(pruning, before, inputs[k]);
      }
    }
  }

  lemma {:induction false} PrunedAt(kept: Table, all: Table, safe: nat, i: nat, j: nat) returns (k: nat, l: nat)
    requires PrunedFrom(kept, all, safe) && i < j < |kept|
    ensures k < l < |all| && all[k] == kept[i] && all[l] == kept[j]
  {
    if kept[0] == all[0] && PrunedFrom(kept[1..], all[1..], safe) {
      if i > 0 {
        k, l := PrunedAt(kept[1..], all[1..], safe, i - 1, j - 1);
        k, l := k + 1, l + 1;
      } else {
        PrunedMembers(kept[1..], all[1..], safe);
        assert kept[1..][j - 1] in all[1..];
        var m :| 0 <= m < |all[1..]| && all[1..][m] == kept[j];
        k, l := 0, m + 1;
      }
    } else {
      k, l := PrunedAt(kept, all[1..], safe, i, j);
      k, l := k + 1, l + 1;
    }
  }

  lemma PrunedFifo(kept: Table, all: Table, safe: nat, latest: nat)
    requires PrunedFrom(kept, all, safe)
    ensures AllocatedInOrder(all) ==> AllocatedInOrder(kept)
    ensures !Overtaken(all, latest) ==> !Overtaken(kept, latest)
  {
    if i, j :| 0 <= i < j < |kept| && kept[i].nonce.Some? && kept[j].nonce.Some?
               && kept[i].nonce.value >= kept[j].nonce.value {
      var k, l := PrunedAt(kept, all, safe, i, j);
    }
    if i, j :| 0 <= i < j < |kept| && Queued(kept[i], latest) && kept[j].nonce.Some? {
      var k, l := PrunedAt(kept, all, safe, i, j);
      assert Queued(all[k], latest) && all[l].nonce.Some?;
    }
  }

  // ---------------------------------------------------------------- while the head never moves back

  /** The head of the view after the inputs; `head` before the first view. */
  function HeadOf(inputs: seq<Input>, head: nat): nat {
    if Seen(inputs).Some? then Seen(inputs).value.status.latest else head
  }

  /** The latest block never decreases, from `head` on. */
  predicate NeverBack(inputs: seq<Input>, head: nat) {
    inputs == [] ||
    var k := |inputs| - 1;
    NeverBack(inputs[..k], head) && (inputs[k].NewView? ==> HeadOf(inputs[..k], head) <= inputs[k].status.latest)
  }

  /** Expired entries stay expired while the head does not move back. */
  lemma FifoLater(rows: Table, latest: nat, later: nat)
    requires Fifo(rows, latest) && latest <= later
    ensures Fifo(rows, later)
  {
    forall i, j | 0 <= i < j < |rows| && rows[j].nonce.Some? ensures !Queued(rows[i], later) {
      assert !Queued(rows[i], latest);
    }
  }

  lemma OperationKeepsFifo(c: Config, q: Queue, input: Input, latest: nat)
    requires Fifo(q.rows, latest)
    requires Round(c, false, q, input).Some? ==> Round(c, false, q, input).value.1 == latest
    ensures !Overtakes(c, false, q, input) && Fifo(Perform(c, false, q, input).queue.rows, latest)
  {
    OperationIsRound(c, false, q, input);
    EntriesOrder(q, input, latest);
    match Round(c, false, q, input) {
      case None => SameOrder(Entries(false, q, input), Perform(c, false, q, input).queue.rows, latest);
      case Some((r, block)) =>
        SameOrder(Entries(false, q, input), r.rows, block);
        RoundKeepsOrderIff(c, r, Budget(c, r), block, input.node);
    }
  }

  lemma {:induction false} ReferenceFifo(c: Config, rows: Table, inputs: seq<Input>, head: nat)
    requires Stored(rows) && Honest(rows, inputs)
    requires NeverBack(inputs, head) && Fifo(rows, head)
    ensures NeverOvertakes(c, false, Created(rows), inputs)
    ensures Fifo(Run(c, false, Created(rows), inputs).queue.rows, HeadOf(inputs, head))
  {
    if inputs != [] {
      var k := |inputs| - 1;
      ReferenceFifo(c, rows, inputs[..k], head);
      RunAgrees(c, rows, inputs[..k]);
      var before := Run(c, false, Created(rows), inputs[..k]).queue;
      FifoLater(before.rows, HeadOf(inputs[..k], head), HeadOf(inputs, head));
      OperationKeepsFifo(c, before, inputs[k], HeadOf(inputs, head));
    }
  }

  /** While the latest block never decreases, nonces increase strictly in the order in which
      transactions were queued, except over entries that expired without one. It suffices that the
      table found at the start is in order for a head that no view goes below, as a table is that
      an earlier process left at such a head. */
  lemma NoncesFollowInsertion(c: Config, rows: Table, inputs: seq<Input>, head: nat)
    requires Stored(rows) && Honest(rows, inputs)
    requires NeverBack(inputs, head) && Fifo(rows, head)
    ensures Fifo(Run(c, true, Created(rows), inputs).queue.rows, HeadOf(inputs, head))
  {
    ReferenceFifo(c, rows, inputs, head);
    RunAgrees(c, rows, inputs);
    PrunedFifo(Run(c, true, Created(rows), inputs).queue.rows, Run(c, false, Created(rows), inputs).queue.rows,
               SafeOf(inputs), HeadOf(inputs, head));
  }

  /** When no operation overtakes among all entries ever queued, the real table is in order too. */
  lemma RealTableInOrder(c: Config, rows: Table, inputs: seq<Input>)
    requires Stored(rows) && Honest(rows, inputs)
    requires AllocatedInOrder(rows) && NeverOvertakes(c, false, Created(rows), inputs)
    ensures AllocatedInOrder(Run(c, true, Created(rows), inputs).queue.rows)
  {
    InsertionOrderIff(c, Created(rows), inputs);
    RunAgrees(c, rows, inputs);
    PrunedFifo(Run(c, true, Created(rows), inputs).queue.rows, Run(c, false, Created(rows), inputs).queue.rows,
               SafeOf(inputs), 0);
  }

  // ---------------------------------------------------------------- a run that overtakes

  const SMALL: Config := Config(4, 10, None)

  function Quiet(fees: Fees.Fees): Node {
    Node(Some(0), Some(fees), nonce => Accepted)
  }

  /** Two transactions are queued, of which the first expires; the head goes up to block 6 and
      back to block 4, and a third one is queued. */
  function BackAndForth(fees: Fees.Fees): seq<Input> {
    var node := Quiet(fees);
    [NewTransactions([(1, Some(5)), (2, None)], node),
     NewView(Blocks.BlockStatus(6, 0), seq(7, i => 0), node),
     NewView(Blocks.BlockStatus(4, 0), seq(5, i => 0), node),
     NewTransactions([(3, None)], node)]
  }

  lemma SubmitOne(q: Queue, block: nat, fees: Fees.Fees, nonce: nat)
    requires q.feeCache == None || q.feeCache == Some(fees)
    requires q.nonceCache == None || q.nonceCache == Some(0)
    requires Oldest(q.rows, block).Some? && NonceBound(q.rows) == nonce
    requires Oldest(q.rows, block).value.fees.None?
    ensures var next := SubmitOldest(SMALL, q, block, Quiet(fees));
            && next.1
            && next.0.queue == Queue(Apply(Allocate(q.rows, block, nonce),
                                           Record(Submission(Some(block), nonce, fees))),
                                     q.status, Some(0), Some(fees))
  {
  }

  /** With one queued transaction, a submission round allocates and sends just that one. */
  lemma SubmitsOnlyOne(q: Queue, budget: nat, block: nat, fees: Fees.Fees, nonce: nat, rows: Table)
    requires q.feeCache == None || q.feeCache == Some(fees)
    requires q.nonceCache == None || q.nonceCache == Some(0)
    requires Oldest(q.rows, block).Some? && NonceBound(q.rows) == nonce
    requires Oldest(q.rows, block).value.fees.None?
    requires rows == Apply(Allocate(q.rows, block, nonce), Record(Submission(Some(block), nonce, fees)))
    requires budget >= 2 && Oldest(rows, block) == None
    ensures SubmitNew(SMALL, q, budget, block, Quiet(fees)).queue == Queue(rows, q.status, Some(0), Some(fees))
  {
    SubmitOne(q, block, fees, nonce);
    var next := Queue(rows, q.status, Some(0), Some(fees));
    assert SubmitOldest(SMALL, next, block, Quiet(fees)) == (Outcome(next, [], true), false);
    assert SubmitNew(SMALL, next, budget - 1, block, Quiet(fees)).queue == next;
  }

  function SentRow(fees: Fees.Fees): Row {
    Row(2, None, Some(0), Some(6), Some(fees), None)
  }

  lemma HighSubmits(fees: Fees.Fees)
    ensures var rows := [NewRow(1, Some(5)), NewRow(2, None)];
            var seen := Some(Blocks.BlockStatus(6, 0));
            SubmitPending(SMALL, Queue(rows, seen, Some(0), None), 6, Quiet(fees)).queue
            == Queue([NewRow(1, Some(5)), SentRow(fees)], seen, Some(0), Some(fees))
  {
    var rows := [NewRow(1, Some(5)), NewRow(2, None)];
    var after := [NewRow(1, Some(5)), SentRow(fees)];
    assert rows[1..] == [NewRow(2, None)] && after[1..] == [SentRow(fees)];
    assert Oldest(rows[1..], 6) == Some(rows[1]) && Oldest(after[1..], 6) == None;
    assert NonceBound(rows[1..]) == 0 && InFlightCount(rows[1..]) == 0;
    assert Allocate(rows[1..], 6, 0) == [NewRow(2, None).(nonce := Some(0))];
    assert Apply(Allocate(rows, 6, 0), Record(Submission(Some(6), 0, fees))) == after;
    SubmitsOnlyOne(Queue(rows, Some(Blocks.BlockStatus(6, 0)), Some(0), None), 4, 6, fees, 0, after);
  }

  lemma HighHead(fees: Fees.Fees)
    ensures var rows := [NewRow(1, Some(5)), NewRow(2, None)];
            UpdateStatus(SMALL, true, Created(rows), Blocks.BlockStatus(6, 0), Quiet(fees)).queue
            == Queue([NewRow(1, Some(5)), SentRow(fees)], Some(Blocks.BlockStatus(6, 0)), Some(0), Some(fees))
  {
    var rows := [NewRow(1, Some(5)), NewRow(2, None)];
    var seen := Some(Blocks.BlockStatus(6, 0));
    assert rows[1..] == [NewRow(2, None)];
    assert Prune(rows, 0) == rows;
    assert Apply(rows, Unmark(1)) == rows;
    assert Reconciled(true, Created(rows), seen.value).queue == Queue(rows, seen, None, None);
    assert OutstandingCount(rows[1..], 6) == 1;
    assert Apply(rows, Mark(6, 0)) == rows;
    assert Stale(rows, None) == [];
    HighSubmits(fees);
  }

  lemma OneInFlight(fees: Fees.Fees)
    ensures InFlightCount([NewRow(1, Some(5)), SentRow(fees), NewRow(3, None)]) == 1
  {
    var (last, tail) := ([NewRow(3, None)], [SentRow(fees), NewRow(3, None)]);
    assert last[1..] == [] && tail[1..] == last;
    assert InFlightCount(last) == 0 && InFlightCount(tail) == 1;
    assert [NewRow(1, Some(5)), SentRow(fees), NewRow(3, None)][1..] == tail;
  }

  /** Back at block 4 the first entry is live again, behind the second one's nonce. */
  lemma LowHead(fees: Fees.Fees)
    ensures var q := Queue([NewRow(1, Some(5)), SentRow(fees)], Some(Blocks.BlockStatus(6, 0)), Some(0), Some(fees));
            var low := UpdateStatus(SMALL, true, q, Blocks.BlockStatus(4, 0), Quiet(fees)).queue;
            !AllocatedInOrder(Enqueue(SMALL, low, [(3, None)], Quiet(fees)).queue.rows)
  {
    var rows := [NewRow(1, Some(5)), SentRow(fees)];
    assert Apply(rows, Unmark(5)) == rows;
    var all := [NewRow(1, Some(5)), SentRow(fees), NewRow(3, None)];
    assert rows + NewRows([(3, None)]) == all;
    OneInFlight(fees);
    var q := Queue(all, Some(Blocks.BlockStatus(4, 0)), None, None);
    assert Queued(all[0], 4) && all[1].nonce.Some?;
    RoundKeepsOrderIff(SMALL, q, 3, 4, Quiet(fees));
  }

  lemma BackAndForthHonest(fees: Fees.Fees)
    ensures Honest([], BackAndForth(fees)) && !NeverBack(BackAndForth(fees), 0)
  {
    var inputs := BackAndForth(fees);
    assert inputs[..3][..2] == inputs[..2] && inputs[..2][..1] == inputs[..1];
    assert inputs[..1][..0] == [];
    assert Honest([], inputs[..1]);
    assert Honest([], inputs[..2]);
    assert Seen(inputs[..2]) == Some(ChainView(inputs[1].status, inputs[1].chain));
    assert Seen(inputs[..3]) == Some(ChainView(inputs[2].status, inputs[2].chain));
    assert Honest([], inputs[..3]);
  }

  /** When the latest block does decrease, an entry that had expired is live again and can get a
      larger nonce than a later one. */
  lemma ReorgBreaksOrder(fees: Fees.Fees)
    ensures Honest([], BackAndForth(fees)) && !NeverBack(BackAndForth(fees), 0)
    ensures !AllocatedInOrder(Run(SMALL, true, Created([]), BackAndForth(fees)).queue.rows)
  {
    BackAndForthHonest(fees);
    RunSteps(BackAndForth(fees));
    QueuedTwo(Quiet(fees));
    HighHead(fees);
    LowHead(fees);
  }

  lemma QueuedTwo(node: Node)
    ensures Enqueue(SMALL, Created([]), [(1, Some(5)), (2, None)], node).queue
            == Created([NewRow(1, Some(5)), NewRow(2, None)])
  {
    assert [] + NewRows([(1, Some(5)), (2, None)]) == [NewRow(1, Some(5)), NewRow(2, None)];
  }

  lemma RunSteps(inputs: seq<Input>)
    requires |inputs| == 4
    ensures var q1 := Perform(SMALL, true, Created([]), inputs[0]).queue;
            var q2 := Perform(SMALL, true, q1, inputs[1]).queue;
            var q3 := Perform(SMALL, true, q2, inputs[2]).queue;
            Run(SMALL, true, Created([]), inputs).queue == Perform(SMALL, true, q3, inputs[3]).queue
  {
    assert inputs[..3][..2] == inputs[..2] && inputs[..2][..1] == inputs[..1];
    assert inputs[..1][..0] == [];
    assert Run(SMALL, true, Created([]), inputs[..1]).queue == Perform(SMALL, true, Created([]), inputs[0]).queue;
    assert Run(SMALL, true, Created([]), inputs[..2]).queue
           == Perform(SMALL, true, Run(SMALL, true, Created([]), inputs[..1]).queue, inputs[1]).queue;
  }
}
