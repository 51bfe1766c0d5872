/**
 The transaction table (crates/core/src/tx/storage.rs). Rows are kept in insertion order; the
 SQL statements are functions over the whole table. The class adds the SQLite row ids, which
 an `INTEGER PRIMARY KEY` assigns as one above the largest id present, so that an id may be
 used again once its row is pruned.
 */
module TxTable {
  import opened Wrappers
  import opened Numbers
  import opened Fees

  type Tx = nat

  datatype Row = Row(
    tx: Tx,
    expires: Option<nat>,
    nonce: Option<nat>,
    submitted: Option<nat>,
    fees: Option<Fees>,
    executed: Option<nat>)

  type Table = seq<Row>

  function NewRow(tx: Tx, expires: Option<nat>): Row {
    Row(tx, expires, None, None, None, None)
  }

  /** Submission details: no block means the node found the fees too low. */
  datatype Submission = Submission(block: Option<nat>, nonce: nat, fees: Fees)

  // ---------------------------------------------------------------- selections

  predicate InFlight(r: Row) {
    r.nonce.Some? && r.executed.None?
  }

  predicate Expired(r: Row, block: nat) {
    r.expires.Some? && r.expires.value <= block
  }

  predicate Queued(r: Row, block: nat) {
    r.nonce.None? && !Expired(r, block)
  }

  predicate Outstanding(r: Row, block: nat) {
    r.executed.None? && (r.nonce.Some? || !Expired(r, block))
  }

  function InFlightCount(rows: Table): nat {
    if rows == [] then 0 else (if InFlight(rows[0]) then 1 else 0) + InFlightCount(rows[1..])
  }

  function OutstandingCount(rows: Table, block: nat): nat {
    if rows == [] then 0 else (if Outstanding(rows[0], block) then 1 else 0) + OutstandingCount(rows[1..], block)
  }

  /** `MAX(nonce) + 1`, or 0 when no nonce is allocated. */
  function NonceBound(rows: Table): nat {
    if rows == [] then 0
    else if rows[0].nonce.Some? then Max(rows[0].nonce.value + 1, NonceBound(rows[1..]))
    else NonceBound(rows[1..])
  }

  /** The first free nonce at or above the account nonce. */
  function NextNonce(rows: Table, account: nat): nat {
    Max(account, NonceBound(rows))
  }

  /** At or above the account nonce, above every allocated one, and as low as either allows. */
  predicate FirstFree(rows: Table, account: nat, nonce: nat) {
    && account <= nonce
    && (forall i :: 0 <= i < |rows| && rows[i].nonce.Some? ==> rows[i].nonce.value < nonce)
    && (nonce == account || exists i :: 0 <= i < |rows| && rows[i].nonce == Some(nonce - 1))
  }

  lemma {:induction false} BoundIsTight(rows: Table)
    ensures forall i :: 0 <= i < |rows| && rows[i].nonce.Some? ==> rows[i].nonce.value < NonceBound(rows)
    ensures NonceBound(rows) > 0 ==> exists i :: 0 <= i < |rows| && rows[i].nonce == Some(NonceBound(rows) - 1)
  {
    if rows != [] {
      BoundIsTight(rows[1..]);
      assert forall i :: 0 < i < |rows| ==> rows[i] == rows[1..][i - 1];
      assert forall i :: 0 <= i < |rows[1..]| ==> rows[1..][i] == rows[i + 1];
      if NonceBound(rows) > 0 {
        if rows[0].nonce == Some(NonceBound(rows) - 1) {
          assert rows[0].nonce == Some(NonceBound(rows) - 1);
        } else {
          var i :| 0 <= i < |rows[1..]| && rows[1..][i].nonce == Some(NonceBound(rows) - 1);
          assert rows[i + 1].nonce == Some(NonceBound(rows) - 1);
        }
      }
    }
  }

  lemma NextIsFirstFree(rows: Table, account: nat)
    ensures FirstFree(rows, account, NextNonce(rows, account))
  {
    BoundIsTight(rows);
  }

  /** The oldest queued row that has not expired. */
  function Oldest(rows: Table, block: nat): Option<Row> {
    if rows == [] then None
    else if Queued(rows[0], block) then Some(rows[0])
    else Oldest(rows[1..], block)
  }

  /** No nonce yet, and an expiry, if any, above the head. */
  predicate Waits(r: Row, head: nat) {
    r.nonce.None? && (r.expires.None? || head < r.expires.value)
  }

  /** The transaction chosen is the first inserted one that waits; one that expires at the head no
      longer does. */
  lemma {:induction false} OldestIsFirst(rows: Table, head: nat)
    ensures match Oldest(rows, head)
            case None => forall r :: r in rows ==> !Waits(r, head)
            case Some(row) =>
              exists k :: 0 <= k < |rows| && rows[k] == row && Waits(row, head)
                          && forall i :: 0 <= i < k ==> !Waits(rows[i], head)
  {
    if rows != [] && !Waits(rows[0], head) {
      OldestIsFirst(rows[1..], head);
      if Oldest(rows, head).Some? {
        var k :| 0 <= k < |rows[1..]| && rows[1..][k] == Oldest(rows, head).value && Waits(rows[1..][k], head)
                 && forall i :: 0 <= i < k ==> !Waits(rows[1..][i], head);
        assert forall i :: 0 < i < k + 1 ==> rows[i] == rows[1..][i - 1];
        assert rows[k + 1] == Oldest(rows, head).value;
      }
    }
  }

  /** Gives the oldest queued row a nonce. */
  function Allocate(rows: Table, block: nat, nonce: nat): Table {
    if rows == [] then []
    else if Queued(rows[0], block) then [rows[0].(nonce := Some(nonce))] + rows[1..]
    else [rows[0]] + Allocate(rows[1..], block, nonce)
  }

  predicate IsStale(r: Row, before: Option<nat>) {
    InFlight(r) && (r.submitted.None? || (before.Some? && r.submitted.value <= before.value))
  }

  /** The stale rows in nonce order. */
  function Stale(rows: Table, before: Option<nat>): Table {
    if rows == [] then []
    else if IsStale(rows[0], before) then InsertByNonce(rows[0], Stale(rows[1..], before))
    else Stale(rows[1..], before)
  }

  function InsertByNonce(r: Row, sorted: Table): Table {
    if sorted == [] || NonceOf(r) <= NonceOf(sorted[0]) then [r] + sorted
    else [sorted[0]] + InsertByNonce(r, sorted[1..])
  }

  function NonceOf(r: Row): nat {
    if r.nonce.Some? then r.nonce.value else 0
  }

  // ---------------------------------------------------------------- updates

  /** The `UPDATE` statements. */
  datatype Change =
    | Mark(block: nat, nonce: nat)
    | Unmark(block: nat)
    | Record(submission: Submission)

  function ChangeRow(r: Row, change: Change): Row {
    match change
    case Mark(block, nonce) =>
      if InFlight(r) && r.nonce.value < nonce then r.(executed := Some(block)) else r
    case Unmark(block) =>
      if r.executed.Some? && r.executed.value >= block then r.(executed := None) else r
    case Record(s) =>
      if r.nonce == Some(s.nonce) then r.(submitted := s.block, fees := Some(s.fees)) else r
  }

  function Apply(rows: Table, change: Change): Table {
    seq(|rows|, i requires 0 <= i < |rows| => ChangeRow(rows[i], change))
  }

  /** The row may be deleted once `safe` is final: it was executed, or has expired without
      being submitted, at or before `safe`. */
  predicate Prunable(r: Row, safe: nat) {
    (r.executed.Some? && r.executed.value <= safe) || (r.nonce.None? && Expired(r, safe))
  }

  function Prune(rows: Table, safe: nat): Table {
    if rows == [] then []
    else (if Prunable(rows[0], safe) then [] else [rows[0]]) + Prune(rows[1..], safe)
  }

  function NewRows(transactions: seq<(Tx, Option<nat>)>): Table {
    seq(|transactions|, i requires 0 <= i < |transactions| => NewRow(transactions[i].0, transactions[i].1))
  }

  predicate HasNonce(rows: Table, nonce: nat) {
    exists i :: 0 <= i < |rows| && rows[i].nonce == Some(nonce)
  }

  lemma {:induction false} AllocatedIsThere(rows: Table, block: nat, nonce: nat)
    requires Oldest(rows, block).Some?
    ensures HasNonce(Allocate(rows, block, nonce), nonce)
  {
    if Queued(rows[0], block) {
      assert Allocate(rows, block, nonce)[0].nonce == Some(nonce);
    } else {
      AllocatedIsThere(rows[1..], block, nonce);
      var rest := Allocate(rows[1..], block, nonce);
      var i :| 0 <= i < |rest| && rest[i].nonce == Some(nonce);
      assert Allocate(rows, block, nonce)[i + 1].nonce == Some(nonce);
    }
  }

  /** No statement loses a nonce. */
  lemma ApplyKeepsNonce(rows: Table, change: Change, nonce: nat)
    requires HasNonce(rows, nonce)
    ensures HasNonce(Apply(rows, change), nonce)
  {
    var i :| 0 <= i < |rows| && rows[i].nonce == Some(nonce);
    assert Apply(rows, change)[i].nonce == Some(nonce);
  }

  // ---------------------------------------------------------------- the class

  lemma {:induction false} OldestIs(rows: Table, block: nat, k: nat)
    requires k < |rows| && Queued(rows[k], block)
    requires forall i :: 0 <= i < k ==> !Queued(rows[i], block)
    ensures Oldest(rows, block) == Some(rows[k])
    ensures forall nonce :: Allocate(rows, block, nonce) == rows[k := rows[k].(nonce := Some(nonce))]
  {
    if k > 0 {
      OldestIs(rows[1..], block, k - 1);
      assert rows == [rows[0]] + rows[1..];
      forall nonce ensures Allocate(rows, block, nonce) == rows[k := rows[k].(nonce := Some(nonce))] {
        assert [rows[0]] + rows[1..][k - 1 := rows[k].(nonce := Some(nonce))]
            == rows[k := rows[k].(nonce := Some(nonce))];
      }
    }
  }

  lemma {:induction false} NoneQueued(rows: Table, block: nat)
    requires forall i :: 0 <= i < |rows| ==> !Queued(rows[i], block)
    ensures Oldest(rows, block) == None
  {
    if rows != [] {
      NoneQueued(rows[1..], block);
    }
  }

  /** Ids increase in insertion order. */
  predicate Increasing(ids: seq<nat>) {
    forall i, j :: 0 <= i < j < |ids| ==> ids[i] < ids[j]
  }

  /** The ids that survive pruning. */
  function PruneIds(ids: seq<nat>, rows: Table, safe: nat): (kept: seq<nat>)
    requires |ids| == |rows|
    ensures |kept| == |Prune(rows, safe)|
    ensures forall x :: x in kept ==> x in ids
    ensures Increasing(ids) ==> Increasing(kept)
  {
    if rows == [] then []
    else
      var rest := PruneIds(ids[1..], rows[1..], safe);
      assert Increasing(ids) ==> Increasing(ids[1..]) && forall x :: x in ids[1..] ==> ids[0] < x;
      if Prunable(rows[0], safe) then rest
      else
        assert Increasing(ids) ==> forall j :: 0 <= j < |rest| ==> rest[j] in ids[1..];
        [ids[0]] + rest
  }

  /** The rows with their ids. The ids increase, so that this tells the order of the rows too. */
  function Pairs(ids: seq<nat>, rows: Table): set<(nat, Row)>
    requires |ids| == |rows|
  {
    set i | 0 <= i < |ids| :: (ids[i], rows[i])
  }

  lemma PairsFirst(ids: seq<nat>, rows: Table)
    requires |ids| == |rows| > 0
    ensures Pairs(ids, rows) == {(ids[0], rows[0])} + Pairs(ids[1..], rows[1..])
  {
    forall p | p in Pairs(ids, rows) ensures p in {(ids[0], rows[0])} + Pairs(ids[1..], rows[1..]) {
      var i :| 0 <= i < |ids| && p == (ids[i], rows[i]);
      if i > 0 {
        assert p == (ids[1..][i - 1], rows[1..][i - 1]);
      }
    }
    forall p | p in Pairs(ids[1..], rows[1..]) ensures p in Pairs(ids, rows) {
      var i :| 0 <= i < |ids[1..]| && p == (ids[1..][i], rows[1..][i]);
      assert p == (ids[i + 1], rows[i + 1]);
    }
  }

  /** Pruning deletes exactly the prunable rows, and leaves every other under its id. */
  lemma {:induction false} PrunesExactly(ids: seq<nat>, rows: Table, safe: nat)
    requires |ids| == |rows|
    ensures Pairs(PruneIds(ids, rows, safe), Prune(rows, safe)) == set p | p in Pairs(ids, rows) && !Prunable(p.1, safe)
  {
    if rows != [] {
      PrunesExactly(ids[1..], rows[1..], safe);
      PairsFirst(ids, rows);
      var (keptIds, kept) := (PruneIds(ids, rows, safe), Prune(rows, safe));
      if Prunable(rows[0], safe) {
        assert kept == Prune(rows[1..], safe);
      } else {
        assert keptIds[1..] == PruneIds(ids[1..], rows[1..], safe) && kept[1..] == Prune(rows[1..], safe);
        PairsFirst(keptIds, kept);
      }
    }
  }

  class TransactionStorage {
    var rows: Table
    var ids: seq<nat>

    predicate Valid()
      reads this
    {
      |ids| == |rows| && Increasing(ids)
    }

    constructor ()
      ensures Valid() && rows == []
    {
      rows, ids := [], [];
    }

    method Enqueue(transactions: seq<(Tx, Option<nat>)>)
      requires Valid()
      modifies this
      ensures Valid() && rows == old(rows) + NewRows(transactions)
    {
      for i := 0 to |transactions|
        invariant Valid() && rows == old(rows) + NewRows(transactions)[..i]
      {
        // SQLite assigns one above the largest id in the table.
        var id := if ids == [] then 1 else ids[|ids| - 1] + 1;
        rows := rows + [NewRow(transactions[i].0, transactions[i].1)];
        ids := ids + [id];
      }
    }

    method CountInFlight() returns (count: nat)
      ensures count == InFlightCount(rows)
    {
      count := InFlightCount(rows);
    }

    /** `ORDER BY id ASC LIMIT 1` over the queued rows, whatever ids were used before. */
    method NextTransaction(account: nat, block: nat) returns (row: Option<Row>)
      requires Valid()
      modifies this
      ensures Valid()
      ensures match Oldest(old(rows), block)
              case None => row == None && rows == old(rows)
              case Some(oldest) =>
                var nonce := NextNonce(old(rows), account);
                && row == Some(oldest.(nonce := Some(nonce)))
                && rows == Allocate(old(rows), block, nonce)
      ensures row.Some? ==> row.value.nonce.Some? && FirstFree(old(rows), account, row.value.nonce.value)
    {
      NextIsFirstFree(rows, account);
      var best: Option<nat> := None;
      for i := 0 to |rows|
        invariant best.None? ==> forall j :: 0 <= j < i ==> !Queued(rows[j], block)
        invariant best.Some? ==>
                    && best.value < i && Queued(rows[best.value], block)
                    && forall j :: 0 <= j < i && Queued(rows[j], block) ==> ids[best.value] <= ids[j]
      {
        if Queued(rows[i], block) && (best.None? || ids[i] < ids[best.value]) {
          best := Some(i);
        }
      }
      if best.None? {
        NoneQueued(rows, block);
        return None;
      }
      OldestIs(rows, block, best.value);
      var nonce := NextNonce(rows, account);
      rows := rows[best.value := rows[best.value].(nonce := Some(nonce))];
      row := Some(rows[best.value]);
    }

    /** Fails when no row has the submission's nonce. */
    method RecordSubmission(submission: Submission) returns (found: bool)
      requires Valid()
      modifies this
      ensures Valid() && rows == Apply(old(rows), Record(submission))
      ensures found == HasNonce(old(rows), submission.nonce)
    {
      found := HasNonce(rows, submission.nonce);
      rows := Apply(rows, Record(submission));
    }

    method CountOutstanding(block: nat) returns (count: nat)
      ensures count == OutstandingCount(rows, block)
    {
      count := OutstandingCount(rows, block);
    }

    method MarkExecuted(block: nat, nonce: nat)
      requires Valid()
      modifies this
      ensures Valid() && rows == Apply(old(rows), Mark(block, nonce))
    {
      rows := Apply(rows, Mark(block, nonce));
    }

    method UnmarkExecuted(block: nat)
      requires Valid()
      modifies this
      ensures Valid() && rows == Apply(old(rows), Unmark(block))
    {
      rows := Apply(rows, Unmark(block));
    }

    method PruneBelow(safe: nat)
      requires Valid()
      modifies this
      ensures Valid() && rows == Prune(old(rows), safe)
      ensures Pairs(ids, rows) == set p | p in Pairs(old(ids), old(rows)) && !Prunable(p.1, safe)
    {
      PrunesExactly(ids, rows, safe);
      rows, ids := Prune(rows, safe), PruneIds(ids, rows, safe);
    }

    method StaleSubmissions(before: Option<nat>) returns (stale: Table)
      ensures stale == Stale(rows, before)
    {
      stale := Stale(rows, before);
    }
  }
}
