/**
 How long the watcher remembers: over every run the anchor lies exactly `max_reorg_depth` below
 the highest head ever reported, so that just the reorgs within that depth are survived.
 */
module Depth {
  import opened Wrappers
  import opened Numbers
  import opened Blocks
  import opened ForkRecovery
  import Ev = Events
  import opened Pipeline
  import opened Acceptance
  import Snapshots

  /** The anchor is where the highest head reported so far puts it. */
  predicate AnchoredFor(v: View, highest: nat) {
    && WindowOk(v)
    && v.safe.number == SafeFor(highest, v.depth)
    && StatusOf(v).latest <= highest
  }

  /** The anchor moves only when the head is new, to exactly the configured depth below it. */
  lemma AnchorMoves(v: View, reply: Reply, highest: nat)
    requires AnchoredFor(v, highest)
    ensures var next := NextSpec(v, reply).0;
            && AnchoredFor(next, Max(highest, StatusOf(next).latest))
            && (next.safe.number > v.safe.number ==> StatusOf(next).latest == next.safe.number + v.depth)
            && (next.safe.number > v.safe.number <==>
                  StatusOf(next).latest > highest && StatusOf(next).latest > v.depth)
  {
    NextKeepsWindow(v, reply);
  }

  lemma AnchorStays(v: View, reply: Reply, highest: nat)
    requires AnchoredFor(v, highest)
    ensures var next := RevalidateSpec(v, reply).0;
            AnchoredFor(next, highest) && next.safe == v.safe && next.depth == v.depth
  {
    RevalidateKeepsWindow(v, reply);
  }

  lemma StartAnchored(depth: nat, indexed: Option<BlockStatus>, start: Option<nat>, scanned: seq<Header>, latest: nat)
    requires ScanOf(depth, scanned, latest)
    ensures AnchoredFor(InitView(depth, indexed, start, scanned), latest)
  {
    InitWindow(depth, indexed, start, scanned, latest);
  }

  // ---------------------------------------------------------------- runs

  /** What a call of the watcher may do to the view: poll for the next block, re-validate, or both. */
  lemma WatchedView(c: Ev.Config, s: Sys, poll: Poll)
    ensures var view := WatchSpec(c, s.view, s.step, poll).0;
            var shrunk := RevalidateSpec(s.view, poll.revalidation).0;
            || view == s.view || view == NextSpec(s.view, poll.block).0
            || view == shrunk || view == NextSpec(shrunk, poll.block).0
  {
  }

  lemma WatchAnchored(c: Ev.Config, s: Sys, poll: Poll, highest: nat)
    requires AnchoredFor(s.view, highest)
    ensures var view := WatchSpec(c, s.view, s.step, poll).0;
            view.depth == s.view.depth && AnchoredFor(view, Max(highest, StatusOf(view).latest))
  {
    WatchedView(c, s, poll);
    var shrunk := RevalidateSpec(s.view, poll.revalidation).0;
    NextAnchored(s.view, poll.block, highest);
    AnchorStays(s.view, poll.revalidation, highest);
    NextAnchored(shrunk, poll.block, highest);
  }

  lemma NextAnchored(v: View, reply: Reply, highest: nat)
    requires AnchoredFor(v, highest)
    ensures var next := NextSpec(v, reply).0;
            next.depth == v.depth && AnchoredFor(next, Max(highest, StatusOf(next).latest))
  {
    AnchorMoves(v, reply, highest);
  }

  /** The highest head reported over the polls, from `highest` on. */
  function HighestHead(c: Ev.Config, s: Sys, polls: seq<Poll>, highest: nat): nat
    decreases |polls|
  {
    if polls == [] then highest
    else match Tick(c, s, polls[0])
      case Halted(_) => highest
      case Running(next) => HighestHead(c, next, polls[1..], Max(highest, StatusOf(next.view).latest))
  }

  lemma {:induction false} RunAnchored(c: Ev.Config, s: Sys, polls: seq<Poll>, highest: nat)
    requires AnchoredFor(s.view, highest) && RunSys(c, s, polls).Running?
    ensures var last := RunSys(c, s, polls).sys.view;
            last.depth == s.view.depth && AnchoredFor(last, HighestHead(c, s, polls, highest))
    decreases |polls|
  {
    if polls != [] {
      WatchAnchored(c, s, polls[0], highest);
      var next := Tick(c, s, polls[0]).sys;
      RunAnchored(c, next, polls[1..], Max(highest, StatusOf(next.view).latest));
    }
  }

  /** From every start, whatever the node does, the anchor lies exactly the configured depth below
      the highest head ever reported, or at block 0 while the chain is shorter than that. */
  lemma AnchorIsDepthBelowHighest(c: Ev.Config, depth: nat, start: Option<nat>, keys: set<nat>, scanned: seq<Header>,
                                  latest: nat, polls: seq<Poll>)
    requires ScanOf(depth, scanned, latest)
    requires RunSys(c, Start(depth, start, keys, scanned), polls).Running?
    ensures var s := Start(depth, start, keys, scanned);
            var view := RunSys(c, s, polls).sys.view;
            var highest := HighestHead(c, s, polls, latest);
            AnchoredFor(view, highest) && view.safe.number == SafeFor(highest, depth)
  {
    var s := Start(depth, start, keys, scanned);
    StartAnchored(depth, Snapshots.Bounds(keys), start, scanned, latest);
    RunAnchored(c, s, polls, latest);
  }

  /** A reorg is survived if and only if it reaches at most the configured depth below the highest
      head ever reported: that is, if the node's chain still has the block tracked there. */
  lemma SurvivesIffWithinDepth(v: View, highest: nat, chain: Chain)
    requires AnchoredFor(v, highest) && v.queue == []
    requires v.pending < |chain|
    requires forall n: nat :: v.safe.number < n < v.pending && OnChain(v, chain, n) ==> OnChain(v, chain, n - 1)
    ensures (forall k: nat :: !Follow(v, chain, k).exceeded) <==> OnChain(v, chain, SafeFor(highest, v.depth))
  {
    ExceedsIffForkBelowSafe(v, chain);
  }

  /** Without any assumption on hashes: a reorg that leaves some tracked block from there on in
      place never yields the depth error. */
  lemma WithinDepthNeverExceeds(v: View, highest: nat, chain: Chain, n: nat)
    requires AnchoredFor(v, highest) && v.queue == []
    requires v.pending < |chain|
    requires SafeFor(highest, v.depth) <= n && OnChain(v, chain, n)
    ensures forall k: nat :: !Follow(v, chain, k).exceeded
  {
    ExceedsIffUnrelated(v, chain);
  }
}
