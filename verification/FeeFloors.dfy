/**
 The fees recorded for one nonce over a whole run of the transaction queue: every recorded
 submission raises the floor left by the one before it, nothing else changes it, and the
 priority fee stays within the total fee.
 */
module FeeFloors {
  import opened Wrappers
  import opened Fees
  import opened TxTable
  import opened TxQueue
  import opened TxMarks
  import opened TxPruning
  import opened TxRuns
  import Blocks

  /** The fees of the recorded submissions of a nonce, in order. */
  function Recorded(actions: seq<Action>, nonce: nat): seq<Fees> {
    if actions == [] then []
    else
      var first := actions[0];
      (if first.Sent? && first.nonce == nonce && first.result != Rejected then [first.fees] else [])
      + Recorded(actions[1..], nonce)
  }

  lemma {:induction false} RecordedConcat(a: seq<Action>, b: seq<Action>, nonce: nat)
    ensures Recorded(a + b, nonce) == Recorded(a, nonce) + Recorded(b, nonce)
  {
    if a == [] {
      assert a + b == b;
    } else {
      assert (a + b)[1..] == a[1..] + b;
      RecordedConcat(a[1..], b, nonce);
    }
  }

  /** In a table that never loses a row: the rows of the nonce carry the floor its recorded
      submissions have reached, and before it is allocated there are none. */
  ghost predicate FloorHolds(rows: Table, nonce: nat, floor: Option<Fees>, recorded: seq<Fees>) {
    && (floor.Some? ==> Proper(floor.value))
    && Climbs(floor, recorded)
    && (forall r :: r in rows && r.nonce == Some(nonce) ==> r.fees == Floor(floor, recorded))
    && (forall r :: r in rows && r.nonce.None? ==> r.fees.None?)
    && (!HasNonce(rows, nonce) ==> recorded == [] && floor == None)
  }

  ghost predicate FeesHold(q: Queue, nonce: nat, floor: Option<Fees>, recorded: seq<Fees>) {
    FloorHolds(q.rows, nonce, floor, recorded) && (q.feeCache.Some? ==> Proper(q.feeCache.value))
  }

  /** The node's estimates keep the priority fee within the total fee. */
  predicate Estimates(node: Node) {
    node.estimate.Some? ==> Proper(node.estimate.value)
  }

  /** The operation continues the record of the nonce. */
  ghost predicate Continues(done: Outcome, nonce: nat, floor: Option<Fees>, recorded: seq<Fees>) {
    FeesHold(done.queue, nonce, floor, recorded + Recorded(done.actions, nonce))
  }

  lemma FloorIsProper(floor: Option<Fees>, recorded: seq<Fees>)
    requires (floor.Some? ==> Proper(floor.value)) && Climbs(floor, recorded)
    ensures Floor(floor, recorded).Some? ==> Proper(Floor(floor, recorded).value)
  {
  }

  lemma CapStaysProper(fees: Fees, percent: nat)
    requires Proper(fees)
    ensures Proper(CapPriorityFee(fees, percent))
  {
  }

  lemma AfterContinues(first: seq<Action>, rest: Outcome, nonce: nat, floor: Option<Fees>, recorded: seq<Fees>)
    requires Continues(rest, nonce, floor, recorded + Recorded(first, nonce))
    ensures Continues(After(first, rest), nonce, floor, recorded)
  {
    RecordedConcat(first, rest.actions, nonce);
    assert recorded + (Recorded(first, nonce) + Recorded(rest.actions, nonce))
           == recorded + Recorded(first, nonce) + Recorded(rest.actions, nonce);
  }

  lemma QuietContinues(done: Outcome, nonce: nat, floor: Option<Fees>, recorded: seq<Fees>)
    requires FeesHold(done.queue, nonce, floor, recorded) && Recorded(done.actions, nonce) == []
    ensures Continues(done, nonce, floor, recorded)
  {
    assert recorded + [] == recorded;
  }

  // ---------------------------------------------------------------- statements

  /** Recording another nonce's submission. */
  lemma OtherRecorded(rows: Table, s: Submission, nonce: nat, floor: Option<Fees>, recorded: seq<Fees>)
    requires FloorHolds(rows, nonce, floor, recorded) && s.nonce != nonce
    ensures FloorHolds(Apply(rows, TxTable.Record(s)), nonce, floor, recorded)
  {
    ChangedFrom(rows, TxTable.Record(s));
    NoncesStay(rows, TxTable.Record(s), nonce);
  }

  lemma NoncesStay(rows: Table, change: Change, nonce: nat)
    ensures HasNonce(Apply(rows, change), nonce) <==> HasNonce(rows, nonce)
  {
    if HasNonce(rows, nonce) {
      ApplyKeepsNonce(rows, change, nonce);
    }
    if HasNonce(Apply(rows, change), nonce) {
      var i :| 0 <= i < |rows| && Apply(rows, change)[i].nonce == Some(nonce);
      assert rows[i].nonce == Some(nonce);
    }
  }

  /** Recording a raised submission of the nonce itself. */
  lemma OwnRecorded(rows: Table, s: Submission, nonce: nat, floor: Option<Fees>, recorded: seq<Fees>)
    requires FloorHolds(rows, nonce, floor, recorded) && s.nonce == nonce && HasNonce(rows, nonce)
    requires Raises(Floor(floor, recorded), s.fees)
    ensures FloorHolds(Apply(rows, TxTable.Record(s)), nonce, floor, recorded + [s.fees])
  {
    ChangedFrom(rows, TxTable.Record(s));
    NoncesStay(rows, TxTable.Record(s), nonce);
    var more := recorded + [s.fees];
    assert more[..|more| - 1] == recorded;
  }

  /** Marks do not touch fees. */
  lemma MarkFloor(rows: Table, change: Change, nonce: nat, floor: Option<Fees>, recorded: seq<Fees>)
    requires FloorHolds(rows, nonce, floor, recorded) && !change.Record?
    ensures FloorHolds(Apply(rows, change), nonce, floor, recorded)
  {
    ChangedFrom(rows, change);
    NoncesStay(rows, change, nonce);
  }

  lemma {:induction false} MarksRecordNothing(rows: Table, change: Change, nonce: nat)
    ensures Recorded(Marks(rows, change), nonce) == []
  {
    if rows != [] {
      MarksRecordNothing(rows[1..], change, nonce);
      var rest := Marks(rows[1..], change);
      var first := Marks(rows, change)[..|Marks(rows, change)| - |rest|];
      assert Marks(rows, change) == first + rest;
      RecordedConcat(first, rest, nonce);
    }
  }

  /** A fresh nonce has no floor. */
  lemma AllocateFloor(rows: Table, block: nat, account: nat, nonce: nat, floor: Option<Fees>, recorded: seq<Fees>)
    requires FloorHolds(rows, nonce, floor, recorded) && Oldest(rows, block).Some?
    ensures FloorHolds(Allocate(rows, block, NextNonce(rows, account)), nonce, floor, recorded)
  {
    var k := AllocateAt(rows, block);
    BelowBound(rows);
    var row := rows[k].(nonce := Some(NextNonce(rows, account)));
    var next := rows[k := row];
    assert rows[k] in rows && row.fees.None?;
    assert forall r :: r in next ==> r == row || r in rows;
    if HasNonce(rows, nonce) {
      var i :| 0 <= i < |rows| && rows[i].nonce == Some(nonce);
      assert rows[i] in rows && next[i].nonce == Some(nonce);
    } else if HasNonce(next, nonce) {
      assert recorded == [] && floor == None;
    }
  }

  lemma EnqueueFloor(rows: Table, transactions: seq<(Tx, Option<nat>)>, nonce: nat, floor: Option<Fees>,
                     recorded: seq<Fees>)
    requires FloorHolds(rows, nonce, floor, recorded)
    ensures FloorHolds(rows + NewRows(transactions), nonce, floor, recorded)
  {
    var more := NewRows(transactions);
    forall r | r in more ensures r.nonce.None? && r.fees.None? {
    }
    assert forall r :: r in rows + more ==> r in rows || r in more;
    if HasNonce(rows, nonce) {
      var i :| 0 <= i < |rows| && rows[i].nonce == Some(nonce);
      assert (rows + more)[i].nonce == Some(nonce);
    }
  }

  // ---------------------------------------------------------------- operations

  /** The row, as read before the submission, carries the floor of its nonce. */
  ghost predicate Current(q: Queue, row: Row, nonce: nat, floor: Option<Fees>, recorded: seq<Fees>) {
    row.nonce == Some(nonce) ==> row.fees == Floor(floor, recorded) && HasNonce(q.rows, nonce)
  }

  lemma SubmitContinues(c: Config, q: Queue, row: Row, block: nat, node: Node, nonce: nat, floor: Option<Fees>,
                        recorded: seq<Fees>)
    requires FeesHold(q, nonce, floor, recorded) && Estimates(node)
    requires row.nonce.Some? && Current(q, row, nonce, floor, recorded)
    ensures Continues(Submit(c, q, row, block, node), nonce, floor, recorded)
    ensures NonceOf(row) != nonce ==> Recorded(Submit(c, q, row, block, node).actions, nonce) == []
    ensures HasNonce(Submit(c, q, row, block, node).queue.rows, nonce) <==> HasNonce(q.rows, nonce)
  {
    var q1 := WithFees(c, q, node);
    if node.estimate.Some? && c.priorityCap.Some? {
      CapStaysProper(node.estimate.value, c.priorityCap.value);
    }
    if q1.feeCache.Some? {
      SendContinues(q1, row, block, node, nonce, floor, recorded);
    } else {
      QuietContinues(Submit(c, q, row, block, node), nonce, floor, recorded);
    }
  }

  /** The recorded part of one broadcast. */
  lemma SendContinues(q: Queue, row: Row, block: nat, node: Node, nonce: nat, floor: Option<Fees>, recorded: seq<Fees>)
    requires FeesHold(q, nonce, floor, recorded) && q.feeCache.Some?
    requires row.nonce.Some? && Current(q, row, nonce, floor, recorded)
    ensures var sent := NonceOf(row);
            var fees := Bump(q.feeCache.value, row.fees);
            var actions := [Sent(row.tx, sent, fees, node.send(sent))];
            && (sent != nonce ==> Recorded(actions, nonce) == [])
            && (node.send(sent) == Rejected ==> FloorHolds(q.rows, nonce, floor, recorded + Recorded(actions, nonce)))
            && (node.send(sent) != Rejected ==>
                  forall included: Option<nat> ::
                    && FloorHolds(Apply(q.rows, TxTable.Record(Submission(included, sent, fees))), nonce, floor,
                                  recorded + Recorded(actions, nonce))
                    && (HasNonce(Apply(q.rows, TxTable.Record(Submission(included, sent, fees))), nonce)
                        <==> HasNonce(q.rows, nonce)))
  {
    var sent := NonceOf(row);
    var fees := Bump(q.feeCache.value, row.fees);
    var actions := [Sent(row.tx, sent, fees, node.send(sent))];
    assert actions[1..] == [];
    assert recorded + [] == recorded;
    if node.send(sent) != Rejected {
      forall included: Option<nat>
        ensures FloorHolds(Apply(q.rows, TxTable.Record(Submission(included, sent, fees))), nonce, floor,
                           recorded + Recorded(actions, nonce))
        ensures HasNonce(Apply(q.rows, TxTable.Record(Submission(included, sent, fees))), nonce)
                <==> HasNonce(q.rows, nonce)
      {
        var s := Submission(included, sent, fees);
        NoncesStay(q.rows, TxTable.Record(s), nonce);
        if sent == nonce {
          assert Recorded(actions, nonce) == [fees];
          FloorIsProper(floor, recorded);
          BumpRaises(q.feeCache.value, row.fees);
          OwnRecorded(q.rows, s, nonce, floor, recorded);
        } else {
          OtherRecorded(q.rows, s, nonce, floor, recorded);
        }
      }
    }
  }

  lemma SubmitOldestContinues(c: Config, q: Queue, block: nat, node: Node, nonce: nat, floor: Option<Fees>,
                              recorded: seq<Fees>)
    requires FeesHold(q, nonce, floor, recorded) && Estimates(node)
    ensures Continues(SubmitOldest(c, q, block, node).0, nonce, floor, recorded)
  {
    var q1 := WithNonce(q, node);
    if q1.nonceCache.Some? && Oldest(q1.rows, block).Some? {
      var account := q1.nonceCache.value;
      var next := NextNonce(q1.rows, account);
      var row := Oldest(q1.rows, block).value.(nonce := Some(next));
      var q2 := q1.(rows := Allocate(q1.rows, block, next));
      AllocateFloor(q1.rows, block, account, nonce, floor, recorded);
      AllocatedRow(q1.rows, block, next);
      AllocatedIsThere(q1.rows, block, next);
      var first := [Allocated(row.tx, next)];
      assert Recorded(first, nonce) == [];
      assert recorded + [] == recorded;
      SubmitContinues(c, q2, row, block, node, nonce, floor, recorded);
      AfterContinues(first, Submit(c, q2, row, block, node), nonce, floor, recorded);
    } else {
      QuietContinues(SubmitOldest(c, q, block, node).0, nonce, floor, recorded);
    }
  }

  /** The allocated row is in the table. */
  lemma AllocatedRow(rows: Table, block: nat, nonce: nat)
    requires Oldest(rows, block).Some?
    ensures Oldest(rows, block).value.(nonce := Some(nonce)) in Allocate(rows, block, nonce)
  {
    var k := AllocateAt(rows, block);
    assert Allocate(rows, block, nonce)[k] == rows[k].(nonce := Some(nonce));
  }

  lemma {:induction false} SubmitNewContinues(c: Config, q: Queue, budget: nat, block: nat, node: Node, nonce: nat,
                                              floor: Option<Fees>, recorded: seq<Fees>)
    requires FeesHold(q, nonce, floor, recorded) && Estimates(node)
    ensures Continues(SubmitNew(c, q, budget, block, node), nonce, floor, recorded)
    decreases budget
  {
    if budget == 0 {
      QuietContinues(SubmitNew(c, q, budget, block, node), nonce, floor, recorded);
    } else {
      var (first, more) := SubmitOldest(c, q, block, node);
      SubmitOldestContinues(c, q, block, node, nonce, floor, recorded);
      if more {
        SubmitNewContinues(c, first.queue, budget - 1, block, node, nonce, floor,
                           recorded + Recorded(first.actions, nonce));
        AfterContinues(first.actions, SubmitNew(c, first.queue, budget - 1, block, node), nonce, floor, recorded);
      }
    }
  }

  /** Stale rows come in nonce order, each nonce once. */
  predicate NonceOrder(rows: Table) {
    && (forall i :: 0 <= i < |rows| ==> rows[i].nonce.Some?)
    && (forall i, j :: 0 <= i < j < |rows| ==> NonceOf(rows[i]) < NonceOf(rows[j]))
  }

  lemma {:induction false} InsertOrdered(r: Row, sorted: Table)
    requires NonceOrder(sorted) && r.nonce.Some?
    requires forall i :: 0 <= i < |sorted| ==> sorted[i].nonce != r.nonce
    ensures NonceOrder(InsertByNonce(r, sorted))
    ensures forall x :: x in InsertByNonce(r, sorted) <==> x == r || x in sorted
  {
    if sorted != [] && NonceOf(r) > NonceOf(sorted[0]) {
      InsertOrdered(r, sorted[1..]);
      var rest := InsertByNonce(r, sorted[1..]);
      forall i | 0 <= i < |rest| ensures NonceOf(sorted[0]) < NonceOf(rest[i]) {
        assert rest[i] in rest;
      }
    }
  }

  /** The stale submissions are exactly the stale rows, in strictly increasing nonce order. */
  lemma {:induction false} StaleOrdered(rows: Table, before: Option<nat>)
    requires NoncesDistinct(rows)
    ensures NonceOrder(Stale(rows, before))
    ensures forall x :: x in Stale(rows, before) <==> x in rows && IsStale(x, before)
  {
    if rows != [] {
      StaleOrdered(rows[1..], before);
      assert forall x :: x in rows <==> x == rows[0] || x in rows[1..];
      if IsStale(rows[0], before) {
        var rest := Stale(rows[1..], before);
        StaleMembers(rows[1..], before);
        forall i | 0 <= i < |rest| ensures rest[i].nonce != rows[0].nonce {
          assert rest[i] in rest;
          var j :| 0 <= j < |rows[1..]| && rows[1..][j] == rest[i];
          assert rows[j + 1] == rest[i];
        }
        InsertOrdered(rows[0], rest);
      }
    }
  }

  lemma {:induction false} SubmitAllContinues(c: Config, q: Queue, rows: Table, block: nat, node: Node, nonce: nat,
                                              floor: Option<Fees>, recorded: seq<Fees>)
    requires FeesHold(q, nonce, floor, recorded) && Estimates(node)
    requires NonceOrder(rows)
    requires forall x :: x in rows ==> Current(q, x, nonce, floor, recorded)
    ensures Continues(SubmitAll(c, q, rows, block, node), nonce, floor, recorded)
    decreases |rows|
  {
    if rows == [] {
      QuietContinues(SubmitAll(c, q, rows, block, node), nonce, floor, recorded);
    } else {
      var first := Submit(c, q, rows[0], block, node);
      assert rows[0] in rows;
      SubmitContinues(c, q, rows[0], block, node, nonce, floor, recorded);
      if first.ok {
        var more := recorded + Recorded(first.actions, nonce);
        forall x | x in rows[1..] ensures Current(first.queue, x, nonce, floor, more) {
          var j :| 0 <= j < |rows[1..]| && rows[1..][j] == x;
          assert rows[j + 1] == x && x in rows;
          if x.nonce == Some(nonce) {
            assert NonceOf(rows[0]) < NonceOf(x);
            assert recorded + [] == recorded;
          }
        }
        SubmitAllContinues(c, first.queue, rows[1..], block, node, nonce, floor, more);
        AfterContinues(first.actions, SubmitAll(c, first.queue, rows[1..], block, node), nonce, floor, recorded);
      }
    }
  }

  lemma AdvanceContinues(c: Config, q: Queue, latest: nat, node: Node, nonce: nat, floor: Option<Fees>,
                         recorded: seq<Fees>)
    requires FeesHold(q, nonce, floor, recorded) && Estimates(node) && NoncesDistinct(q.rows)
    ensures Continues(Advance(c, q, latest, node), nonce, floor, recorded)
  {
    var q1 := WithNonce(q, node);
    if q1.nonceCache.None? {
      QuietContinues(Advance(c, q, latest, node), nonce, floor, recorded);
    } else {
      var mark := TxTable.Mark(latest, q1.nonceCache.value);
      var marks := Marks(q1.rows, mark);
      var q2 := q1.(rows := Apply(q1.rows, mark));
      MarkFloor(q1.rows, mark, nonce, floor, recorded);
      MarksRecordNothing(q1.rows, mark, nonce);
      assert recorded + [] == recorded;
      StaleContinues(c, q2, latest, node, nonce, floor, recorded);
      var stale := ResubmitStale(c, q2, latest, node);
      AfterContinues(marks, stale, nonce, floor, recorded);
      if stale.ok {
        var resubmitted := After(marks, stale);
        SubmitNewContinues(c, stale.queue, Budget(c, stale.queue), latest, node, nonce, floor,
                           recorded + Recorded(resubmitted.actions, nonce));
        AfterContinues(resubmitted.actions, SubmitPending(c, stale.queue, latest, node), nonce, floor, recorded);
      }
    }
  }

  lemma StaleContinues(c: Config, q: Queue, latest: nat, node: Node, nonce: nat, floor: Option<Fees>,
                       recorded: seq<Fees>)
    requires FeesHold(q, nonce, floor, recorded) && Estimates(node) && NoncesDistinct(q.rows)
    ensures Continues(ResubmitStale(c, q, latest, node), nonce, floor, recorded)
  {
    var before := CheckedSub(latest, c.blocksBeforeResubmit);
    var rows := Stale(q.rows, before);
    StaleOrdered(q.rows, before);
    StaleMembers(q.rows, before);
    forall x | x in rows ensures Current(q, x, nonce, floor, recorded) {
      var j :| 0 <= j < |rows| && rows[j] == x;
      assert x in q.rows;
    }
    SubmitAllContinues(c, q, rows, latest, node, nonce, floor, recorded);
  }

  lemma UpdateContinues(c: Config, q: Queue, status: Blocks.BlockStatus, node: Node, nonce: nat, floor: Option<Fees>,
                        recorded: seq<Fees>)
    requires FeesHold(q, nonce, floor, recorded) && Estimates(node) && NoncesDistinct(q.rows)
    ensures Continues(UpdateStatus(c, false, q, status, node), nonce, floor, recorded)
  {
    if q.status == Some(status) {
      QuietContinues(UpdateStatus(c, false, q, status, node), nonce, floor, recorded);
    } else {
      var reconciled := Reconciled(false, q, status);
      ReconciledContinues(q, status, nonce, floor, recorded);
      AdvanceContinues(c, reconciled.queue, status.latest, node, nonce, floor,
                       recorded + Recorded(reconciled.actions, nonce));
      AfterContinues(reconciled.actions, Advance(c, reconciled.queue, status.latest, node), nonce, floor, recorded);
    }
  }

  lemma UnmarkContinues(q: Queue, block: nat, nonce: nat, floor: Option<Fees>, recorded: seq<Fees>)
    requires FeesHold(q, nonce, floor, recorded) && NoncesDistinct(q.rows)
    ensures var done := Outcome(q.(rows := Apply(q.rows, Unmark(block))), Marks(q.rows, Unmark(block)), true);
            Continues(done, nonce, floor, recorded) && NoncesDistinct(done.queue.rows)
  {
    MarkFloor(q.rows, Unmark(block), nonce, floor, recorded);
    MarksRecordNothing(q.rows, Unmark(block), nonce);
    ChangeKeepsNonces(q.rows, Unmark(block));
    QuietContinues(Outcome(q.(rows := Apply(q.rows, Unmark(block))), Marks(q.rows, Unmark(block)), true), nonce, floor,
                   recorded);
  }

  lemma ReconciledContinues(q: Queue, status: Blocks.BlockStatus, nonce: nat, floor: Option<Fees>, recorded: seq<Fees>)
    requires FeesHold(q, nonce, floor, recorded) && NoncesDistinct(q.rows)
    ensures Continues(Reconciled(false, q, status), nonce, floor, recorded)
    ensures NoncesDistinct(Reconciled(false, q, status).queue.rows)
  {
    var moved := q.status.None? || q.status.value.latest != status.latest;
    var seen := Queue(q.rows, Some(status), if moved then None else q.nonceCache, if moved then None else q.feeCache);
    if q.status.None? {
      UnmarkContinues(seen, status.safe + 1, nonce, floor, recorded);
    } else if q.status.value.latest > status.latest {
      UnmarkContinues(seen, status.latest + 1, nonce, floor, recorded);
    } else {
      QuietContinues(Outcome(seen, [], true), nonce, floor, recorded);
    }
  }

  lemma EnqueueContinues(c: Config, q: Queue, transactions: seq<(Tx, Option<nat>)>, node: Node, nonce: nat,
                         floor: Option<Fees>, recorded: seq<Fees>)
    requires FeesHold(q, nonce, floor, recorded) && Estimates(node)
    ensures Continues(Enqueue(c, q, transactions, node), nonce, floor, recorded)
  {
    var q1 := q.(rows := q.rows + NewRows(transactions));
    EnqueueFloor(q.rows, transactions, nonce, floor, recorded);
    if q.status.None? {
      QuietContinues(Enqueue(c, q, transactions, node), nonce, floor, recorded);
    } else {
      SubmitNewContinues(c, q1, Budget(c, q1), q1.status.value.latest, node, nonce, floor, recorded);
    }
  }

  // ---------------------------------------------------------------- runs

  predicate EstimatesIn(inputs: seq<Input>) {
    forall i :: 0 <= i < |inputs| ==> Estimates(inputs[i].node)
  }

  /** The floor a stored table gives a nonce. */
  ghost predicate StoredFloor(rows: Table, nonce: nat, floor: Option<Fees>) {
    FloorHolds(rows, nonce, floor, [])
  }

  lemma {:induction false} ReferenceFloor(c: Config, rows: Table, inputs: seq<Input>, nonce: nat, floor: Option<Fees>)
    requires Stored(rows) && Honest(rows, inputs) && EstimatesIn(inputs) && StoredFloor(rows, nonce, floor)
    ensures Continues(Run(c, false, Created(rows), inputs), nonce, floor, [])
  {
    if inputs == [] {
      QuietContinues(Run(c, false, Created(rows), inputs), nonce, floor, []);
    } else {
      var k := |inputs| - 1;
      ReferenceFloor(c, rows, inputs[..k], nonce, floor);
      RunAgrees(c, rows, inputs[..k]);
      var before := Run(c, false, Created(rows), inputs[..k]);
      var recorded := Recorded(before.actions, nonce);
      assert [] + recorded == recorded;
      assert NoncesDistinct(before.queue.rows);
      match inputs[k] {
        case NewView(status, _, node) => UpdateContinues(c, before.queue, status, node, nonce, floor, recorded);
        case NewTransactions(transactions, node) =>
          EnqueueContinues(c, before.queue, transactions, node, nonce, floor, recorded);
      }
      AfterContinues(before.actions, Perform(c, false, before.queue, inputs[k]), nonce, floor, []);
    }
  }

  /** Over every run of the real queue, the recorded submissions of a nonce climb from its stored
      floor, each raising both fees by at least a tenth and keeping the priority fee within the
      total fee; and the surviving row of the nonce carries the last of them, so that no other
      failure moves the floor. */
  lemma RecordedFeesClimb(c: Config, rows: Table, inputs: seq<Input>, nonce: nat, floor: Option<Fees>)
    requires Stored(rows) && Honest(rows, inputs) && EstimatesIn(inputs) && StoredFloor(rows, nonce, floor)
    ensures var done := Run(c, true, Created(rows), inputs);
            var recorded := Recorded(done.actions, nonce);
            && Climbs(floor, recorded)
            && forall r :: r in done.queue.rows && r.nonce == Some(nonce) ==> r.fees == Floor(floor, recorded)
  {
    ReferenceFloor(c, rows, inputs, nonce, floor);
    RunAgrees(c, rows, inputs);
    var actual := Run(c, true, Created(rows), inputs);
    var reference := Run(c, false, Created(rows), inputs);
    assert [] + Recorded(reference.actions, nonce) == Recorded(reference.actions, nonce);
    PrunedMembers(actual.queue.rows, reference.queue.rows, SafeOf(inputs));
  }

  /** The fees a nonce starts from: its stored ones, or else the first it is sent with. */
  function FirstFees(floor: Option<Fees>, recorded: seq<Fees>): Option<Fees> {
    if floor.Some? || recorded == [] then floor else Some(recorded[0])
  }

  /** How many more submissions of it were recorded. */
  function Resubmissions(floor: Option<Fees>, recorded: seq<Fees>): nat {
    if floor.Some? || recorded == [] then |recorded| else |recorded| - 1
  }

  /** After `k` more recorded submissions of a nonce, found in the table or allocated in the run,
      each fee has grown by (11/10)^k or has reached the 128-bit maximum. */
  lemma RecordedFeesGrow(c: Config, rows: Table, inputs: seq<Input>, nonce: nat, floor: Option<Fees>)
    requires Stored(rows) && Honest(rows, inputs) && EstimatesIn(inputs) && StoredFloor(rows, nonce, floor)
    ensures var done := Run(c, true, Created(rows), inputs);
            var recorded := Recorded(done.actions, nonce);
            var first := FirstFees(floor, recorded);
            var k := Resubmissions(floor, recorded);
            forall r :: r in done.queue.rows && r.nonce == Some(nonce) ==>
              if first.None? then r.fees.None?
              else
                && r.fees.Some? && Proper(r.fees.value)
                && (r.fees.value.maxFee >= U128_MAX
                    || Pow(10, k) * r.fees.value.maxFee >= Pow(11, k) * first.value.maxFee)
                && (r.fees.value.priority >= U128_MAX
                    || Pow(10, k) * r.fees.value.priority >= Pow(11, k) * first.value.priority)
  {
    RecordedFeesClimb(c, rows, inputs, nonce, floor);
    var recorded := Recorded(Run(c, true, Created(rows), inputs).actions, nonce);
    FloorIsProper(floor, recorded);
    if floor.Some? {
      ClimbsGrow(floor.value, recorded);
    } else if recorded != [] {
      ClimbsFromFirst(recorded);
      ClimbsGrow(recorded[0], recorded[1..]);
    }
  }

  /** The table a process leaves gives the nonce the floor its submissions have reached, so that
      growth goes on over restarts. */
  lemma FloorAfterwards(c: Config, rows: Table, inputs: seq<Input>, nonce: nat, floor: Option<Fees>)
    requires Stored(rows) && Honest(rows, inputs) && EstimatesIn(inputs) && StoredFloor(rows, nonce, floor)
    ensures var done := Run(c, true, Created(rows), inputs);
            StoredFloor(done.queue.rows, nonce,
                        if HasNonce(done.queue.rows, nonce) then Floor(floor, Recorded(done.actions, nonce)) else None)
  {
    ReferenceFloor(c, rows, inputs, nonce, floor);
    RunAgrees(c, rows, inputs);
    var actual := Run(c, true, Created(rows), inputs);
    var reference := Run(c, false, Created(rows), inputs);
    assert [] + Recorded(reference.actions, nonce) == Recorded(reference.actions, nonce);
    PrunedMembers(actual.queue.rows, reference.queue.rows, SafeOf(inputs));
    FloorIsProper(floor, Recorded(reference.actions, nonce));
    if !HasNonce(actual.queue.rows, nonce) {
      forall r | r in actual.queue.rows ensures r.nonce != Some(nonce) {
        var i :| 0 <= i < |actual.queue.rows| && actual.queue.rows[i] == r;
      }
    }
  }
}
