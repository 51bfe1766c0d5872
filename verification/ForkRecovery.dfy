/**
 Following a node that stably serves one chain: how many blocks `BlockWatcher::next` uncles,
 what it emits afterwards, and exactly when it gives up.
 */
module ForkRecovery {
  import opened Wrappers
  import opened Blocks

  /** The hashes of the chain the node serves, by block number. */
  type Chain = seq<Hash>

  function Serve(chain: Chain, n: nat): Reply {
    if n >= |chain| then Missing else Found(chain[n], if n == 0 then 0 else chain[n - 1])
  }

  datatype Trace = Trace(view: View, updates: seq<BlockUpdate>, exceeded: bool)

  /** The first `k` polls against the node, stopping early at the depth error. */
  function Follow(v: View, chain: Chain, k: nat): Trace
    decreases k
  {
    if k == 0 then Trace(v, [], false)
    else
      var (w, outcome) := NextSpec(v, Serve(chain, v.pending));
      match outcome
      case Emit(update) =>
        var rest := Follow(w, chain, k - 1);
        rest.(updates := [update] + rest.updates)
      case ExceededMaxReorgDepth => Trace(w, [], true)
      case _ => Follow(w, chain, k - 1)
  }

  /** The node serves the block the view tracks at height `n`. */
  predicate OnChain(v: View, chain: Chain, n: nat) {
    n < |chain| && HashAt(v.safe, v.recent, n) == Some(chain[n])
  }

  /** `a` is the last tracked block the node still serves. */
  ghost predicate ForkPoint(v: View, chain: Chain, a: nat) {
    && OnChain(v, chain, a)
    && forall n: nat :: a < n < v.pending ==> !OnChain(v, chain, n)
  }

  /** No tracked block, not even the anchor, is on the node's chain. */
  ghost predicate Unrelated(v: View, chain: Chain) {
    forall n: nat :: v.safe.number <= n < v.pending ==> !OnChain(v, chain, n)
  }

  /** `Uncle(from), Uncle(from - 1), ...` down to, but excluding, `to`. */
  function UnclesDownTo(from: nat, to: nat): seq<BlockUpdate> {
    if from <= to then [] else [Uncle(from)] + UnclesDownTo(from - 1, to)
  }

  function NewBlocks(chain: Chain, from: nat, count: nat): seq<BlockUpdate>
    requires from + count <= |chain|
  {
    seq(count, i requires 0 <= i < count => New(from + i, chain[from + i]))
  }

  /** The tip is the block at height `pending - 1`. */
  lemma TipIsLast(v: View)
    requires WindowOk(v)
    ensures HashAt(v.safe, v.recent, v.pending - 1) == Some(Tip(v).hash)
    ensures Tip(v).number == v.pending - 1
  {
  }

  lemma ExtendStep(v: View, chain: Chain)
    requires WindowOk(v) && v.queue == []
    requires v.pending < |chain| && Tip(v).hash == chain[v.pending - 1]
    ensures var w := Extend(v, chain[v.pending], Tip(v).hash);
            && NextSpec(v, Serve(chain, v.pending)) == (w, Emit(New(v.pending, chain[v.pending])))
            && WindowOk(w) && w.queue == [] && w.pending == v.pending + 1
            && Tip(w) == Anchor(v.pending, chain[v.pending])
  {
    ExtendKeepsWindow(v, chain[v.pending]);
  }

  lemma FollowStep(v: View, w: View, update: BlockUpdate, chain: Chain, k: nat)
    requires k > 0 && NextSpec(v, Serve(chain, v.pending)) == (w, Emit(update))
    ensures var rest := Follow(w, chain, k - 1);
            Follow(v, chain, k) == rest.(updates := [update] + rest.updates)
  {
  }

  lemma NewBlocksFrom(chain: Chain, from: nat, count: nat)
    requires count > 0 && from + count <= |chain|
    ensures NewBlocks(chain, from, count) == [New(from, chain[from])] + NewBlocks(chain, from + 1, count - 1)
  {
  }

  /** Once the tip is on the node's chain, every further poll emits the chain's next block. */
  lemma {:induction false} FollowsChain(v: View, chain: Chain, k: nat)
    requires WindowOk(v) && v.queue == []
    requires v.pending + k <= |chain|
    requires Tip(v).hash == chain[v.pending - 1]
    ensures var t := Follow(v, chain, k);
            && t.updates == NewBlocks(chain, v.pending, k)
            && !t.exceeded
            && Tip(t.view) == Anchor(v.pending + k - 1, chain[v.pending + k - 1])
    decreases k
  {
    if k == 0 {
      TipIsLast(v);
    } else {
      var w := Extend(v, chain[v.pending], Tip(v).hash);
      ExtendStep(v, chain);
      FollowsChain(w, chain, k - 1);
      FollowStep(v, w, New(v.pending, chain[v.pending]), chain, k);
      NewBlocksFrom(chain, v.pending, k);
    }
  }

  /** One poll against a fork below the tip uncles exactly the tip. */
  lemma UncleStep(v: View, chain: Chain)
    requires WindowOk(v) && v.queue == [] && v.recent != []
    requires v.pending < |chain| && !OnChain(v, chain, v.pending - 1)
    ensures var w := Shrink(v, |v.recent| - 1);
            && NextSpec(v, Serve(chain, v.pending)) == (w, Emit(Uncle(v.pending - 1)))
            && WindowOk(w) && w.pending == v.pending - 1
            && forall n: nat {:trigger OnChain(w, chain, n)} :: n < w.pending ==>
                 (OnChain(w, chain, n) <==> OnChain(v, chain, n))
  {
    TipIsLast(v);
    ShrinkKeepsWindow(v, |v.recent| - 1);
  }

  lemma RecoveredStep(v: View, w: View, chain: Chain, a: nat, n: nat)
    requires a + 1 + n <= |chain| && a + 1 < v.pending == w.pending + 1
    requires NextSpec(v, Serve(chain, v.pending)) == (w, Emit(Uncle(v.pending - 1)))
    requires Recovered(Follow(w, chain, w.pending - 1 - a + n), w.pending - 1, chain, a, n)
    ensures Recovered(Follow(v, chain, v.pending - 1 - a + n), v.pending - 1, chain, a, n)
  {
    var uncles, news := UnclesDownTo(w.pending - 1, a), NewBlocks(chain, a + 1, n);
    assert [Uncle(v.pending - 1)] + (uncles + news) == ([Uncle(v.pending - 1)] + uncles) + news;
  }

  lemma ForkStep(v: View, chain: Chain, a: nat)
    requires WindowOk(v) && v.queue == []
    requires v.pending < |chain|
    requires v.safe.number <= a < v.pending - 1 && ForkPoint(v, chain, a)
    ensures v.recent != []
    ensures var w := Shrink(v, |v.recent| - 1);
            && NextSpec(v, Serve(chain, v.pending)) == (w, Emit(Uncle(v.pending - 1)))
            && WindowOk(w) && w.queue == [] && w.pending == v.pending - 1
            && w.safe == v.safe && ForkPoint(w, chain, a)
  {
    UncleStep(v, chain);
    assert OnChain(Shrink(v, |v.recent| - 1), chain, a);
  }

  /** With a fork point at `a`, the first polls emit exactly one uncle per tracked block after
      `a`, newest first, and the next `n` polls emit the blocks of the fork. */
  lemma {:induction false} RecoversFromFork(v: View, chain: Chain, a: nat, n: nat)
    requires WindowOk(v) && v.queue == []
    requires v.pending < |chain|
    requires v.safe.number <= a < v.pending && ForkPoint(v, chain, a)
    requires a + 1 + n <= |chain|
    ensures Recovered(Follow(v, chain, v.pending - 1 - a + n), v.pending - 1, chain, a, n)
    decreases v.pending
  {
    if a == v.pending - 1 {
      AtForkPoint(v, chain, n);
    } else {
      ForkStep(v, chain, a);
      var w := Shrink(v, |v.recent| - 1);
      RecoversFromFork(w, chain, a, n);
      RecoveredStep(v, w, chain, a, n);
    }
  }

  lemma AtForkPoint(v: View, chain: Chain, n: nat)
    requires WindowOk(v) && v.queue == []
    requires v.pending + n <= |chain| && OnChain(v, chain, v.pending - 1)
    ensures Recovered(Follow(v, chain, n), v.pending - 1, chain, v.pending - 1, n)
  {
    TipIsLast(v);
    FollowsChain(v, chain, n);
    assert UnclesDownTo(v.pending - 1, v.pending - 1) == [];
    assert [] + NewBlocks(chain, v.pending, n) == NewBlocks(chain, v.pending, n);
  }

  ghost predicate Recovered(t: Trace, latest: nat, chain: Chain, a: nat, n: nat)
    requires a + 1 + n <= |chain|
  {
    && t.updates == UnclesDownTo(latest, a) + NewBlocks(chain, a + 1, n)
    && !t.exceeded
    && Tip(t.view) == Anchor(a + n, chain[a + n])
  }

  /** Against a chain unrelated to every tracked block, the whole window is uncled and then
      the depth error is reported. */
  lemma {:induction false} GivesUpBelowAnchor(v: View, chain: Chain, k: nat)
    requires WindowOk(v) && v.queue == []
    requires v.pending < |chain| && Unrelated(v, chain)
    requires k > |v.recent|
    ensures var t := Follow(v, chain, k);
            t.exceeded && t.updates == UnclesDownTo(v.pending - 1, v.safe.number)
    decreases k
  {
    TipIsLast(v);
    assert !OnChain(v, chain, v.pending - 1);
    if v.recent != [] {
      UncleStep(v, chain);
      GivesUpBelowAnchor(Shrink(v, |v.recent| - 1), chain, k - 1);
    }
  }

  /** The last tracked block on the chain, when there is one. */
  lemma {:induction false} FindForkPoint(v: View, chain: Chain, n: nat) returns (a: nat)
    requires v.safe.number <= n < v.pending
    requires OnChain(v, chain, n)
    ensures n <= a < v.pending && ForkPoint(v, chain, a)
    decreases v.pending - n
  {
    if m: nat :| n < m < v.pending && OnChain(v, chain, m) {
      a := FindForkPoint(v, chain, m);
    } else {
      a := n;
    }
  }

  /** With the tip on the chain, no number of polls ever reports the depth error. */
  lemma {:induction false} NeverExceedsOnChain(v: View, chain: Chain, k: nat)
    requires WindowOk(v) && v.queue == []
    requires v.pending <= |chain| && Tip(v).hash == chain[v.pending - 1]
    ensures !Follow(v, chain, k).exceeded
    decreases k
  {
    if k > 0 {
      if v.pending < |chain| {
        ExtendStep(v, chain);
        NeverExceedsOnChain(Extend(v, chain[v.pending], Tip(v).hash), chain, k - 1);
      } else {
        NeverExceedsOnChain(v, chain, k - 1);
      }
    }
  }

  lemma {:induction false} NeverExceedsAboveFork(v: View, chain: Chain, a: nat, k: nat)
    requires WindowOk(v) && v.queue == []
    requires v.pending < |chain|
    requires v.safe.number <= a < v.pending && ForkPoint(v, chain, a)
    ensures !Follow(v, chain, k).exceeded
    decreases v.pending
  {
    TipIsLast(v);
    if a == v.pending - 1 {
      NeverExceedsOnChain(v, chain, k);
    } else if k > 0 {
      ForkStep(v, chain, a);
      NeverExceedsAboveFork(Shrink(v, |v.recent| - 1), chain, a, k - 1);
    }
  }

  /** The depth error is reported exactly when the node's chain shares no tracked block. */
  lemma ExceedsIffUnrelated(v: View, chain: Chain)
    requires WindowOk(v) && v.queue == []
    requires v.pending < |chain|
    ensures (exists k: nat :: Follow(v, chain, k).exceeded) <==> Unrelated(v, chain)
  {
    if Unrelated(v, chain) {
      GivesUpBelowAnchor(v, chain, |v.recent| + 1);
    } else {
      var n: nat :| v.safe.number <= n < v.pending && OnChain(v, chain, n);
      var a := FindForkPoint(v, chain, n);
      forall k: nat ensures !Follow(v, chain, k).exceeded {
        NeverExceedsAboveFork(v, chain, a, k);
      }
    }
  }

  /** When a block hash commits to the parent hash, the chain is unrelated exactly when it
      does not contain the anchor: the fork lies below `safe`. */
  lemma ExceedsIffForkBelowSafe(v: View, chain: Chain)
    requires WindowOk(v) && v.queue == []
    requires v.pending < |chain|
    requires forall n: nat :: v.safe.number < n < v.pending && OnChain(v, chain, n) ==> OnChain(v, chain, n - 1)
    ensures (exists k: nat :: Follow(v, chain, k).exceeded) <==> !OnChain(v, chain, v.safe.number)
  {
    ExceedsIffUnrelated(v, chain);
    if n: nat :| v.safe.number <= n < v.pending && OnChain(v, chain, n) {
      AncestorsOnChain(v, chain, n);
    }
  }

  lemma {:induction false} AncestorsOnChain(v: View, chain: Chain, n: nat)
    requires forall m: nat :: v.safe.number < m < v.pending && OnChain(v, chain, m) ==> OnChain(v, chain, m - 1)
    requires v.safe.number <= n < v.pending && OnChain(v, chain, n)
    ensures OnChain(v, chain, v.safe.number)
    decreases n
  {
    if n > v.safe.number {
      AncestorsOnChain(v, chain, n - 1);
    }
  }

  /** Re-validation against a node that serves one chain gives up the last emitted block if and only
      if the chain does not have it; an answer that fails changes nothing. */
  lemma RevalidatesIffLost(v: View, chain: Chain)
    requires WindowOk(v) && LastEmitted(v).Some?
    ensures var block := v.recent[LastEmitted(v).value];
            var (w, result) := RevalidateSpec(v, Serve(chain, block.number));
            && (result == Invalidated(block.number, block.hash) <==> !OnChain(v, chain, block.number))
            && (result == StillCanonical <==> OnChain(v, chain, block.number))
            && (result == StillCanonical ==> w == v)
    ensures RevalidateSpec(v, Failed) == (v, RevalidationError)
  {
    var i := LastEmitted(v).value;
    assert HashAt(v.safe, v.recent, v.recent[i].number) == Some(v.recent[i].hash);
  }
}
