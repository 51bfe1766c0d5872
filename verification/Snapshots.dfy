/**
 The snapshot store (crates/core/src/state/storage.rs): one state per committed block, with
 roll back to the parent of an uncled block and pruning below the safe block. The table is
 keyed by block number, as the SQL table is.
 */
module Snapshots {
  import opened Wrappers
  import opened Blocks
  import opened Sets

  datatype StoreError = MissingSnapshot(number: nat) | BlockNumberOverflow

  function Bounds(keys: set<nat>): Option<BlockStatus> {
    if keys == {} then None else Some(BlockStatus(Max(keys), Min(keys)))
  }

  function Below<S>(table: map<nat, S>, uncle: nat): map<nat, S> {
    map b | b in table && b < uncle :: table[b]
  }

  function Kept(keys: set<nat>, safe: nat): set<nat> {
    set b | b in keys && (b >= safe || b == Max(keys))
  }

  function Pruned<S>(table: map<nat, S>, safe: nat): map<nat, S> {
    map b | b in table && b in Kept(table.Keys, safe) :: table[b]
  }

  /** Pruning cannot be noticed from the safe block on: the latest snapshot, every snapshot from the
      safe block on, and every roll back of a block above it are as they were. Below the safe block
      at most the latest snapshot is left. */
  lemma PruneIsInvisible<S>(table: map<nat, S>, safe: nat, uncle: nat)
    ensures var pruned := Pruned(table, safe);
            && (table.Keys != {} ==> pruned.Keys != {} && Max(pruned.Keys) == Max(table.Keys))
            && (forall b :: b in pruned ==> b in table && pruned[b] == table[b])
            && (forall b :: b in pruned && b < safe ==> forall k :: k in table ==> k <= b)
            && (forall b :: b >= safe ==> (b in pruned <==> b in table))
            && (uncle > safe ==> (uncle - 1 in pruned <==> uncle - 1 in table))
            && (forall b :: b >= safe ==> (b in Below(pruned, uncle) <==> b in Below(table, uncle)))
  {
    var pruned := Pruned(table, safe);
    if table.Keys != {} {
      assert Max(table.Keys) in pruned;
    }
  }

  class SnapshotStore<S> {
    var table: map<nat, S>

    constructor ()
      ensures table == map[]
    {
      table := map[];
    }

    method Current() returns (tip: Option<(nat, S)>)
      ensures tip == if table.Keys == {} then None else Some((Max(table.Keys), table[Max(table.Keys)]))
    {
      if table.Keys == {} { return None; }
      var latest := Max(table.Keys);
      tip := Some((latest, table[latest]));
    }

    method Status() returns (status: Option<BlockStatus>)
      ensures status == Bounds(table.Keys)
    {
      if table.Keys == {} { return None; }
      status := Some(BlockStatus(Max(table.Keys), Min(table.Keys)));
    }

    method Commit(number: nat, state: S)
      modifies this
      ensures table == old(table)[number := state]
    {
      table := table[number := state];
    }

    /** Discards `uncle` and everything above it and returns the parent's snapshot; without
        that snapshot the store is left unchanged. */
    method Reorg(uncle: nat) returns (result: Result<(nat, S), StoreError>)
      modifies this
      ensures uncle == 0 ==> result == Err(BlockNumberOverflow) && table == old(table)
      ensures uncle > 0 && uncle - 1 !in old(table) ==>
                result == Err(MissingSnapshot(uncle - 1)) && table == old(table)
      ensures uncle > 0 && uncle - 1 in old(table) ==>
                result == Ok((uncle - 1, old(table)[uncle - 1])) && table == Below(old(table), uncle)
    {
      if uncle == 0 { return Err(BlockNumberOverflow); }
      if uncle - 1 !in table { return Err(MissingSnapshot(uncle - 1)); }
      result := Ok((uncle - 1, table[uncle - 1]));
      table := map b | b in table && b < uncle :: table[b];
    }

    /** Removes the snapshots below `safe`, but never the latest one. */
    method Prune(safe: nat)
      modifies this
      ensures table == Pruned(old(table), safe)
      ensures forall b :: b in table <==> b in old(table) && (b >= safe || forall x :: x in old(table) ==> x <= b)
    {
      table := map b | b in table && (b >= safe || b == Max(table.Keys)) :: table[b];
    }
  }
}
