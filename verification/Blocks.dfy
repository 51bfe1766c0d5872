/**
 The block watcher (crates/core/src/index/blocks.rs): a final anchor (`safe`), a bounded
 window of mutable blocks after it (`recent`), the number of the block to fetch next
 (`pending`) and a queue of updates that are ready to be emitted.

 The node is the environment. Every RPC answer is an explicit `Reply`. A `next` that is
 cancelled while it waits is a `Missing` that is never followed by another answer; for the
 re-validation `Missing` says that the node has no such block, and a cancelled one is `Failed`.
 */
module Blocks {
  import opened Wrappers

  type Hash = nat

  datatype Header = Header(number: nat, hash: Hash, parent: Hash)

  datatype Anchor = Anchor(number: nat, hash: Hash)

  datatype BlockUpdate =
    | Warp(from: nat, to: nat)
    | Uncle(number: nat)
    | New(number: nat, hash: Hash)

  datatype BlockStatus = BlockStatus(latest: nat, safe: nat)

  /** The node's answer to a query for one block number. */
  datatype Reply = Found(hash: Hash, parent: Hash) | Missing | Failed

  /** The node's answer to the query for its latest block. */
  datatype LatestReply = Latest(block: Header) | NoLatest | LatestFailed

  datatype View = View(depth: nat, pending: nat, safe: Anchor, recent: seq<Header>, queue: seq<BlockUpdate>)

  datatype Outcome = Emit(update: BlockUpdate) | ExceededMaxReorgDepth | RpcError | Waiting

  datatype Revalidation = StillCanonical | Invalidated(number: nat, hash: Hash) | RevalidationError

  datatype InitError = MissingBlock(number: nat) | MissingLatest | InitRpcError | InitUnfinished

  // ---------------------------------------------------------------- the window

  /** `recent` continues `safe`: consecutive numbers, linked by parent hash, bounded by the
      depth, with the pending block one past its end. */
  predicate WindowOk(v: View) {
    && |v.recent| <= v.depth
    && v.pending == v.safe.number + |v.recent| + 1
    && Linked(v.safe, v.recent)
  }

  predicate Linked(safe: Anchor, recent: seq<Header>) {
    && (forall i :: 0 <= i < |recent| ==> recent[i].number == safe.number + 1 + i)
    && (forall i {:trigger recent[i].parent} :: 0 <= i < |recent| ==>
          recent[i].parent == (if i == 0 then safe.hash else recent[i - 1].hash))
  }

  /** The last tracked block: the back of the window, or the anchor under it. */
  function Tip(v: View): Anchor {
    if v.recent == [] then v.safe
    else var last := v.recent[|v.recent| - 1]; Anchor(last.number, last.hash)
  }

  function StatusOf(v: View): BlockStatus {
    BlockStatus(if v.pending == 0 then 0 else v.pending - 1, v.safe.number)
  }

  /** The tracked hash at height `n`, when that height is still tracked. */
  function HashAt(safe: Anchor, recent: seq<Header>, n: nat): Option<Hash> {
    if n == safe.number then Some(safe.hash)
    else if safe.number < n && n - safe.number - 1 < |recent| then
      Some(recent[n - safe.number - 1].hash)
    else None
  }

  // ---------------------------------------------------------------- one poll

  /** What one call of `next` does once the node has given its final answer. */
  function NextSpec(v: View, reply: Reply): (View, Outcome) {
    if v.queue != [] then (v.(queue := v.queue[1..]), Emit(v.queue[0]))
    else match reply
      case Missing => (v, Waiting)
      case Failed => (v, RpcError)
      case Found(hash, parent) =>
        if Tip(v).hash == parent then (Extend(v, hash, parent), Emit(New(v.pending, hash)))
        else if v.recent == [] then (v, ExceededMaxReorgDepth)
        else (Shrink(v, |v.recent| - 1), Emit(Uncle(Tip(v).number)))
  }

  /** Appends the pending block, promoting the oldest tracked block to anchor when the
      window overflows. */
  function Extend(v: View, hash: Hash, parent: Hash): View {
    var grown := v.recent + [Header(v.pending, hash, parent)];
    if |grown| > v.depth then
      v.(pending := v.pending + 1, safe := Anchor(grown[0].number, grown[0].hash), recent := grown[1..])
    else
      v.(pending := v.pending + 1, recent := grown)
  }

  /** Forgets the tracked blocks from position `i` on and rewinds to the first of them. */
  function Shrink(v: View, i: nat): View
    requires i < |v.recent|
  {
    v.(pending := v.recent[i].number, recent := v.recent[..i])
  }

  /** The answer a waiting poll settles on: the first one that is not `Missing`. */
  function Settle(replies: seq<Reply>): Reply {
    if replies == [] then Missing
    else if replies[0] == Missing then Settle(replies[1..])
    else replies[0]
  }

  // ---------------------------------------------------------------- revalidation

  /** The position in `recent` of the last block that was emitted as an update. */
  function LastEmitted(v: View): Option<nat> {
    if v.queue == [] then LastBelow(v.recent, None)
    else match v.queue[0]
      case New(number, _) => LastBelow(v.recent, Some(number))
      case _ => None
  }

  function LastBelow(recent: seq<Header>, bound: Option<nat>): (r: Option<nat>)
    ensures r.Some? ==> r.value < |recent|
  {
    if recent == [] then None
    else if bound.None? || recent[|recent| - 1].number < bound.value then Some(|recent| - 1)
    else LastBelow(recent[..|recent| - 1], bound)
  }

  function RevalidateSpec(v: View, reply: Reply): (View, Revalidation) {
    var last := LastEmitted(v);
    if last.None? then (v, StillCanonical)
    else
      var block := v.recent[last.value];
      if reply == Failed then (v, RevalidationError)
      else if reply.Found? && reply.hash == block.hash then (v, StillCanonical)
      else (Shrink(v, last.value).(queue := [Uncle(block.number)]), Invalidated(block.number, block.hash))
  }

  // ---------------------------------------------------------------- initialisation

  /** The updates queued before the recent blocks: the synthetic reorg and the warp. */
  function Replay(indexed: Option<BlockStatus>, start: Option<nat>, safe: nat): seq<BlockUpdate> {
    match indexed
    case Some(stored) =>
      var uncle := stored.safe + 1;
      (if uncle <= stored.latest then [Uncle(uncle)] else [])
      + (if uncle <= safe then [Warp(uncle, safe)] else [])
    case None =>
      if start.Some? && start.value <= safe then [Warp(start.value, safe)] else []
  }

  /** The first block number whose update is still to be emitted. */
  function FirstUnprocessed(indexed: Option<BlockStatus>, start: Option<nat>): nat {
    match indexed
    case Some(stored) => stored.safe + 1
    case None => if start.Some? then start.value else 0
  }

  /** `New` updates for the headers numbered `from` or above. */
  function News(headers: seq<Header>, from: nat): seq<BlockUpdate> {
    if headers == [] then []
    else (if headers[0].number >= from then [New(headers[0].number, headers[0].hash)] else [])
         + News(headers[1..], from)
  }

  function InitView(depth: nat, indexed: Option<BlockStatus>, start: Option<nat>, scanned: seq<Header>): View
    requires scanned != []
  {
    var safe := scanned[0].number;
    View(depth, safe + |scanned|, Anchor(safe, scanned[0].hash), scanned[1..],
         Replay(indexed, start, safe) + News(scanned[1..], FirstUnprocessed(indexed, start)))
  }

  function SafeFor(latest: nat, depth: nat): nat {
    if depth <= latest then latest - depth else 0
  }

  /** A scan result: consecutive blocks from `from`, linked by parent hash. */
  predicate Scanned(headers: seq<Header>, from: nat) {
    && (forall i :: 0 <= i < |headers| ==> headers[i].number == from + i)
    && (forall i {:trigger headers[i].parent} :: 0 < i < |headers| ==> headers[i].parent == headers[i - 1].hash)
  }

  /** The restartable range scan over the blocks from `safe` to `head`: `scanned` is what has
      been collected, `cached` whether the header fetched as the latest block may still be
      used, `replies` the answers to come. */
  function ScanSpec(head: Header, safe: nat, scanned: seq<Header>, cached: bool, replies: seq<Reply>)
    : Result<seq<Header>, InitError>
    requires safe + |scanned| <= head.number + 1
    decreases |replies|, cached
  {
    var number := safe + |scanned|;
    if number > head.number then Ok(scanned)
    else if number == head.number && cached then
      if Builds(scanned, head) then ScanSpec(head, safe, scanned + [head], false, replies)
      else ScanSpec(head, safe, [], false, replies)
    else if replies == [] then Err(InitUnfinished)
    else match replies[0]
      case Missing => Err(MissingBlock(number))
      case Failed => Err(InitRpcError)
      case Found(hash, parent) =>
        var block := Header(number, hash, parent);
        if Builds(scanned, block) then ScanSpec(head, safe, scanned + [block], cached, replies[1..])
        else ScanSpec(head, safe, [], false, replies[1..])
  }

  predicate Builds(scanned: seq<Header>, block: Header) {
    scanned == [] || scanned[|scanned| - 1].hash == block.parent
  }

  // ---------------------------------------------------------------- lemmas

  lemma ScannedMore(scanned: seq<Header>, safe: nat, block: Header)
    requires Scanned(scanned, safe) && block.number == safe + |scanned|
    ensures Scanned(if Builds(scanned, block) then scanned + [block] else [], safe)
  {
  }

  /** However often the scan restarts, what it returns is a linked range ending at the head. */
  lemma {:induction false} ScanSound(head: Header, safe: nat, scanned: seq<Header>, cached: bool, replies: seq<Reply>)
    requires safe + |scanned| <= head.number + 1
    requires Scanned(scanned, safe)
    ensures var r := ScanSpec(head, safe, scanned, cached, replies);
            r.Ok? ==> Scanned(r.value, safe) && |r.value| == head.number - safe + 1
    decreases |replies|, cached
  {
    var number := safe + |scanned|;
    if number == head.number && cached {
      ScannedMore(scanned, safe, head);
      ScanSound(head, safe, if Builds(scanned, head) then scanned + [head] else [], false, replies);
    } else if number <= head.number && replies != [] && replies[0].Found? {
      var block := Header(number, replies[0].hash, replies[0].parent);
      ScannedMore(scanned, safe, block);
      ScanSound(head, safe, if Builds(scanned, block) then scanned + [block] else [],
                cached && Builds(scanned, block), replies[1..]);
    }
  }

  /** A node that serves one chain throughout is scanned in a single pass, without asking
      for the latest block a second time. */
  lemma {:induction false} ScanStable(chain: seq<Header>, safe: nat, k: nat)
    requires chain != [] && Scanned(chain, safe) && k < |chain|
    ensures ScanSpec(chain[|chain| - 1], safe, chain[..k], true,
                     seq(|chain| - 1 - k, i requires 0 <= i < |chain| - 1 - k =>
                         Found(chain[k + i].hash, chain[k + i].parent)))
            == Ok(chain)
    decreases |chain| - k
  {
    var n := |chain| - 1 - k;
    var replies := seq(n, i requires 0 <= i < n => Found(chain[k + i].hash, chain[k + i].parent));
    assert chain[..k] + [chain[k]] == chain[..k + 1];
    assert chain[k] == Header(safe + k, chain[k].hash, chain[k].parent);
    assert Builds(chain[..k], chain[k]);
    if n > 0 {
      ScanStable(chain, safe, k + 1);
      assert replies[1..] == seq(n - 1, i requires 0 <= i < n - 1 =>
                                 Found(chain[k + 1 + i].hash, chain[k + 1 + i].parent));
    } else {
      assert chain[..k + 1] == chain;
    }
  }

  lemma InitWindow(depth: nat, indexed: Option<BlockStatus>, start: Option<nat>, scanned: seq<Header>, latest: nat)
    requires Scanned(scanned, SafeFor(latest, depth))
    requires |scanned| == latest - SafeFor(latest, depth) + 1
    ensures WindowOk(InitView(depth, indexed, start, scanned))
    ensures StatusOf(InitView(depth, indexed, start, scanned)) == BlockStatus(latest, SafeFor(latest, depth))
  {
    var v := InitView(depth, indexed, start, scanned);
    forall i | 0 <= i < |v.recent|
      ensures v.recent[i].number == v.safe.number + 1 + i
      ensures v.recent[i].parent == (if i == 0 then v.safe.hash else v.recent[i - 1].hash)
    {
      assert v.recent[i] == scanned[i + 1];
    }
  }

  /** Appending the pending block on top of the tip keeps the window linked and bounded. */
  lemma ExtendKeepsWindow(v: View, hash: Hash)
    requires WindowOk(v)
    ensures WindowOk(Extend(v, hash, Tip(v).hash))
    ensures ViewMoves(v, Extend(v, hash, Tip(v).hash))
  {
    var w := Extend(v, hash, Tip(v).hash);
    var grown := v.recent + [Header(v.pending, hash, Tip(v).hash)];
    var cut := if |grown| > v.depth then 1 else 0;
    assert w.recent == grown[cut..];
    forall n: nat | w.safe.number <= n < v.pending
      ensures HashAt(v.safe, v.recent, n) == HashAt(w.safe, w.recent, n)
      ensures HashAt(w.safe, w.recent, n).Some?
    {
      if n != w.safe.number {
        assert w.recent[n - w.safe.number - 1] == v.recent[n - v.safe.number - 1];
      }
    }
  }

  lemma ShrinkKeepsWindow(v: View, i: nat)
    requires WindowOk(v)
    requires i < |v.recent|
    ensures WindowOk(Shrink(v, i))
    ensures ViewMoves(v, Shrink(v, i))
  {
  }

  /** Every poll keeps the window linked, consecutive and bounded; it leaves every block that
      both views cover unchanged, never moves the anchor back, and advances the head by at
      most one block. */
  lemma NextKeepsWindow(v: View, reply: Reply)
    requires WindowOk(v)
    ensures WindowOk(NextSpec(v, reply).0)
    ensures ViewMoves(v, NextSpec(v, reply).0)
    ensures AnchorMovesLate(v, NextSpec(v, reply).0)
  {
    if v.queue == [] && reply.Found? {
      if Tip(v).hash == reply.parent {
        ExtendKeepsWindow(v, reply.hash);
      } else if v.recent != [] {
        ShrinkKeepsWindow(v, |v.recent| - 1);
      }
    }
  }

  /** The anchor moves only to exactly the depth below the new head, and only when the window is
      full. */
  predicate AnchorMovesLate(v: View, w: View) {
    && w.depth == v.depth
    && (w.safe != v.safe ==> |v.recent| == v.depth && StatusOf(w).latest == w.safe.number + w.depth)
  }

  lemma RevalidateKeepsWindow(v: View, reply: Reply)
    requires WindowOk(v)
    ensures WindowOk(RevalidateSpec(v, reply).0)
    ensures ViewMoves(v, RevalidateSpec(v, reply).0)
  {
    var last := LastEmitted(v);
    if last.Some? {
      ShrinkKeepsWindow(v, last.value);
    }
  }

  /** How the view seen by the rest of the service moves between two polls. */
  ghost predicate ViewMoves(v: View, w: View) {
    && StatusOf(v).safe <= StatusOf(w).safe <= StatusOf(w).latest <= StatusOf(v).latest + 1
    && (forall n: nat {:trigger HashAt(w.safe, w.recent, n)} ::
          StatusOf(w).safe <= n <= StatusOf(w).latest && n <= StatusOf(v).latest ==>
            HashAt(v.safe, v.recent, n) == HashAt(w.safe, w.recent, n) && HashAt(w.safe, w.recent, n).Some?)
  }

  /** In a linked window, `LastBelow` finds the block right under the bound. */
  lemma LastBelowIs(v: View, bound: nat)
    requires WindowOk(v)
    requires bound <= v.pending
    ensures LastBelow(v.recent, Some(bound)) ==
            if bound <= v.safe.number + 1 then None else Some(bound - v.safe.number - 2)
    decreases |v.recent|
  {
    if v.recent != [] && v.recent[|v.recent| - 1].number >= bound {
      assert v.recent[|v.recent| - 1].number == v.pending - 1;
      ShrinkKeepsWindow(v, |v.recent| - 1);
      LastBelowIs(Shrink(v, |v.recent| - 1), bound);
    }
  }

  // ---------------------------------------------------------------- the class

  class BlockWatcher {
    const depth: nat
    const start: Option<nat>
    var pending: nat
    var safe: Anchor
    var recent: seq<Header>
    var queue: seq<BlockUpdate>

    constructor (depth: nat, start: Option<nat>)
      ensures this.depth == depth && this.start == start
      ensures recent == [] && queue == []
    {
      this.depth, this.start := depth, start;
      pending, safe := 0, Anchor(0, 0);
      recent, queue := [], [];
    }

    function Abs(): View
      reads this
    {
      View(depth, pending, safe, recent, queue)
    }

    method Status() returns (status: BlockStatus)
      ensures status == StatusOf(Abs())
    {
      status := BlockStatus(if pending == 0 then 0 else pending - 1, safe.number);
    }

    /** Initialises a new watcher from the node's latest block; `replies` answers the block
        queries of the range scan in order. */
    method Initialize(indexed: Option<BlockStatus>, latest: LatestReply, replies: seq<Reply>)
      returns (result: Result<(), InitError>)
      requires recent == [] && queue == []
      modifies this
      ensures latest.NoLatest? ==> result == Err(MissingLatest)
      ensures latest.LatestFailed? ==> result == Err(InitRpcError)
      ensures latest.Latest? ==>
                var scan := ScanSpec(latest.block, SafeFor(latest.block.number, depth), [], true, replies);
                && (scan.Err? ==> result == Err(scan.error))
                && (scan.Ok? ==>
                    && result.Ok? && scan.value != []
                    && Abs() == InitView(depth, indexed, start, scan.value))
    {
      if latest.NoLatest? { return Err(MissingLatest); }
      if latest.LatestFailed? { return Err(InitRpcError); }
      var head := latest.block;
      var safeNumber := if depth <= head.number then head.number - depth else 0;
      pending := head.number + 1;

      QueueReplay(indexed, safeNumber);
      var scan := Scan(head, safeNumber, replies);
      if scan.Err? { return Err(scan.error); }

      ScanSound(head, safeNumber, [], true, replies);
      Adopt(indexed);
      result := Ok(());
    }

    /** Splits the anchor off the scanned range and queues updates for the rest. */
    method Adopt(indexed: Option<BlockStatus>)
      requires recent != [] && queue == Replay(indexed, start, recent[0].number)
      requires pending == recent[0].number + |recent|
      modifies this
      ensures Abs() == InitView(depth, indexed, start, old(recent))
    {
      safe := Anchor(recent[0].number, recent[0].hash);
      recent := recent[1..];
      QueueNews(if indexed.Some? then indexed.value.safe + 1
                else if start.Some? then start.value else 0);
    }

    /** Queues the synthetic reorg of a resume, and the warp up to the safe block. */
    method QueueReplay(indexed: Option<BlockStatus>, safeNumber: nat)
      requires queue == []
      modifies this`queue
      ensures queue == Replay(indexed, start, safeNumber)
    {
      if indexed.Some? {
        var uncle := indexed.value.safe + 1;
        if uncle <= indexed.value.latest { queue := queue + [Uncle(uncle)]; }
        if uncle <= safeNumber { queue := queue + [Warp(uncle, safeNumber)]; }
      } else if start.Some? && start.value <= safeNumber {
        queue := queue + [Warp(start.value, safeNumber)];
      }
    }

    /** Fetches the blocks `safeNumber..=head.number`, starting over whenever a fetched block
        does not build on the one before it. */
    method Scan(head: Header, safeNumber: nat, replies: seq<Reply>) returns (result: Result<(), InitError>)
      requires recent == [] && safeNumber <= head.number
      modifies this`recent
      ensures var scan := ScanSpec(head, safeNumber, [], true, replies);
              if scan.Ok? then result.Ok? && recent == scan.value else result == Err(scan.error)
    {
      var number := safeNumber;
      var parentHash: Option<Hash> := None;
      var canonicalLatest := Some(head);
      var k := 0;
      while number <= head.number
        invariant safeNumber <= number <= head.number + 1
        invariant 0 <= k <= |replies|
        invariant |recent| == number - safeNumber
        invariant parentHash == if recent == [] then None else Some(recent[|recent| - 1].hash)
        invariant canonicalLatest.Some? ==> canonicalLatest.value == head
        invariant ScanSpec(head, safeNumber, recent, canonicalLatest.Some?, replies[k..])
                  == ScanSpec(head, safeNumber, [], true, replies)
        decreases |replies| - k, canonicalLatest.Some?
      {
        var block: Header;
        if number == head.number && canonicalLatest.Some? {
          // The latest block was already fetched, and is known to be still canonical.
          block := canonicalLatest.value;
          canonicalLatest := None;
        } else {
          if k == |replies| { return Err(InitUnfinished); }
          if replies[k] == Missing { return Err(MissingBlock(number)); }
          if replies[k] == Failed { return Err(InitRpcError); }
          block := Header(number, replies[k].hash, replies[k].parent);
          k := k + 1;
        }
        if parentHash.None? || parentHash.value == block.parent {
          parentHash := Some(block.hash);
          recent := recent + [block];
          number := number + 1;
        } else {
          // A reorg was observed while scanning: discard the range and scan it again.
          parentHash, canonicalLatest := None, None;
          recent := [];
          number := safeNumber;
        }
      }
      result := Ok(());
    }

    /** Queues an update for every tracked block numbered `from` or above. */
    method QueueNews(from: nat)
      modifies this`queue
      ensures queue == old(queue) + News(recent, from)
    {
      var i := 0;
      while i < |recent|
        invariant 0 <= i <= |recent|
        invariant queue + News(recent[i..], from) == old(queue) + News(recent, from)
      {
        var before := queue;
        var update := if recent[i].number >= from then [New(recent[i].number, recent[i].hash)] else [];
        queue := queue + update;
        assert recent[i..][1..] == recent[i + 1..];
        assert before + (update + News(recent[i + 1..], from)) == queue + News(recent[i + 1..], from);
        i := i + 1;
      }
    }

    /** One poll: emits a queued update, or waits for the pending block and either extends
        the window with it, uncles the last tracked block, or gives up below the anchor. */
    method Next(replies: seq<Reply>) returns (outcome: Outcome)
      modifies this
      ensures (Abs(), outcome) == NextSpec(old(Abs()), Settle(replies))
      ensures old(WindowOk(Abs())) ==> WindowOk(Abs()) && AnchorMovesLate(old(Abs()), Abs())
    {
      if WindowOk(Abs()) { NextKeepsWindow(Abs(), Settle(replies)); }
      if queue != [] {
        outcome := Emit(queue[0]);
        queue := queue[1..];
        return;
      }

      var k := 0;
      while k < |replies| && replies[k] == Missing
        invariant 0 <= k <= |replies|
        invariant Settle(replies[k..]) == Settle(replies)
      {
        k := k + 1;
      }
      if k == |replies| { return Waiting; }
      if replies[k] == Failed { return RpcError; }
      var block := Header(pending, replies[k].hash, replies[k].parent);

      if recent != [] && recent[|recent| - 1].hash != block.parent {
        var last := recent[|recent| - 1];
        recent := recent[..|recent| - 1];
        pending := last.number;
        return Emit(Uncle(last.number));
      }
      if recent == [] && safe.hash != block.parent {
        return ExceededMaxReorgDepth;
      }

      pending := block.number + 1;
      recent := recent + [block];
      if |recent| > depth {
        safe := Anchor(recent[0].number, recent[0].hash);
        recent := recent[1..];
      }
      outcome := Emit(New(block.number, block.hash));
    }

    /** Asks the node again about the last emitted block, and uncles it (together with the
        blocks after it and every queued update) when the node no longer serves it. */
    method RevalidateLastBlock(reply: Reply) returns (result: Revalidation)
      modifies this
      ensures (Abs(), result) == RevalidateSpec(old(Abs()), reply)
      ensures old(WindowOk(Abs())) ==> WindowOk(Abs())
    {
      if WindowOk(Abs()) { RevalidateKeepsWindow(Abs(), reply); }
      var bound: Option<nat> := None;
      if queue != [] {
        if !queue[0].New? { return StillCanonical; }
        bound := Some(queue[0].number);
      }

      var i := |recent|;
      assert recent[..i] == recent;
      while i > 0 && bound.Some? && recent[i - 1].number >= bound.value
        invariant 0 <= i <= |recent|
        invariant LastBelow(recent[..i], bound) == LastBelow(recent, bound)
      {
        assert recent[..i][..i - 1] == recent[..i - 1];
        i := i - 1;
      }
      if i == 0 { return StillCanonical; }
      var last := recent[i - 1];

      if reply == Failed { return RevalidationError; }
      if reply.Found? && reply.hash == last.hash { return StillCanonical; }

      recent := recent[..i - 1];
      pending := last.number;
      queue := [Uncle(last.number)];
      result := Invalidated(last.number, last.hash);
    }
  }
}
