/**
 The two watchers and the state machine together (crates/core/src/index/mod.rs and
 crates/core/src/driver.rs): one `Tick` is one call of the watcher followed, when it yields
 an update, by the state machine and the pruning of its snapshots. Each `Poll` holds the
 node's answers to everything the call may ask; a call that is cancelled while it waits for
 an answer is a poll in which that answer is missing. The one exception is the revalidation
 query: there `Missing` says that the node has no such block, and a cancelled call is `Failed`.
 */
module Pipeline {
  import opened Wrappers
  import opened Blocks
  import Ev = Events
  import opened States
  import Snapshots
  import Sets
  import Numbers
  import LogFetch

  datatype Poll = Poll(queries: seq<Ev.QueryReply>, revalidation: Reply, block: Reply)

  datatype Watched =
    | Got(update: Update)
    | Retry
    | TooDeep
    | UnexpectedBlockUpdate
    | UnexpectedBlockInvalidation

  /** Hands the next block update to the event watcher. */
  function NextBlock(c: Ev.Config, view: View, step: Ev.Step, reply: Reply): (View, Ev.Step, Watched) {
    var (next, outcome) := NextSpec(view, reply);
    match outcome
    case Emit(update) =>
      if step.Idle? then (next, Ev.OnUpdate(c, update), Got(BlockChange(update)))
      else (next, step, UnexpectedBlockUpdate)
    case ExceededMaxReorgDepth => (next, step, TooDeep)
    case _ => (next, step, Retry)
  }

  /** One call of `Watcher::next`. */
  function WatchSpec(c: Ev.Config, view: View, step: Ev.Step, poll: Poll): (View, Ev.Step, Watched)
  {
    var (next, logs) := Ev.NextLogsSpec(c, step, poll.queries);
    match logs
    case Drained => NextBlock(c, view, next, poll.block)
    case Ready(from, to, batch) => (view, next, Got(LogsOf(from, to, batch)))
    case NotFinished => (view, next, Retry)
    case LogsFailed(notFound) =>
      if !notFound then (view, next, Retry)
      else
        var (shrunk, result) := RevalidateSpec(view, poll.revalidation);
        if !result.Invalidated? then (shrunk, next, Retry)
        else if next.Block? && next.hash == result.hash then NextBlock(c, shrunk, Ev.Idle, poll.block)
        else (shrunk, next, UnexpectedBlockInvalidation)
  }

  class Watcher {
    const blocks: BlockWatcher
    const events: Ev.EventWatcher

    constructor (blocks: BlockWatcher, events: Ev.EventWatcher)
      ensures this.blocks == blocks && this.events == events
    {
      this.blocks, this.events := blocks, events;
    }

    method Next(poll: Poll) returns (watched: Watched)
      modifies blocks, events
      ensures (blocks.Abs(), events.step, watched)
              == WatchSpec(events.config, old(blocks.Abs()), old(events.step), poll)
    {
      var logs := events.Next(poll.queries);
      match logs {
        case Ready(from, to, batch) => return Got(LogsOf(from, to, batch));
        case NotFinished => return Retry;
        case Drained =>
        case LogsFailed(notFound) =>
          if !notFound { return Retry; }
          // The node may have lost a block it exposed: check that it is still canonical.
          var result := blocks.RevalidateLastBlock(poll.revalidation);
          if !result.Invalidated? { return Retry; }
          var moved := events.OnBlockInvalidated(result.hash);
          if !moved { return UnexpectedBlockInvalidation; }
      }
      var outcome := blocks.Next([poll.block]);
      match outcome {
        case Emit(update) =>
          var accepted := events.OnBlockUpdate(update);
          watched := if accepted then Got(BlockChange(update)) else UnexpectedBlockUpdate;
        case ExceededMaxReorgDepth => watched := TooDeep;
        case _ => watched := Retry;
      }
    }
  }

  // ---------------------------------------------------------------- the system

  datatype Sys = Sys(view: View, step: Ev.Step, status: Status, keys: set<nat>)

  datatype Halt = UpdateRefused | SnapshotMissing | ReorgTooDeep | WatchersOutOfStep

  datatype Ticked = Running(sys: Sys) | Halted(reason: Halt)

  /** The snapshots after an accepted update, before pruning. */
  function KeysAfter(keys: set<nat>, update: Update): set<nat> {
    match update
    case BlockChange(Uncle(number)) => set b | b in keys && b < number
    case BlockChange(_) => keys
    case LogsOf(_, to, _) => keys + {to}
  }

  function Process(s: Sys, view: View, step: Ev.Step, update: Update): Ticked {
    var status := Accept(s.status, update);
    if status.None? then Halted(UpdateRefused)
    else if update.BlockChange? && update.block.Uncle? && RollbackError(s.keys, update.block.number).Some? then
      Halted(SnapshotMissing)
    else
      Running(Sys(view, step, status.value, Snapshots.Kept(KeysAfter(s.keys, update), StatusOf(view).safe)))
  }

  function Tick(c: Ev.Config, s: Sys, poll: Poll): Ticked
  {
    var (view, step, watched) := WatchSpec(c, s.view, s.step, poll);
    match watched
    case Got(update) => Process(s, view, step, update)
    case Retry => Running(s.(view := view, step := step))
    case TooDeep => Halted(ReorgTooDeep)
    case _ => Halted(WatchersOutOfStep)
  }

  /** A started service: the store as it was left, a scanned block range, and idle watchers. */
  function Start(depth: nat, start: Option<nat>, keys: set<nat>, scanned: seq<Header>): Sys
    requires scanned != []
  {
    Sys(InitView(depth, Snapshots.Bounds(keys), start, scanned), Ev.Idle,
        if keys == {} then Initialized else BlockPending(Sets.Max(keys) + 1), keys)
  }

  // ---------------------------------------------------------------- the invariant

  /** Processed in order by a state machine that expects block `p`, the updates lead to it
      expecting block `end`. */
  predicate Feeds(queue: seq<BlockUpdate>, p: nat, end: nat) {
    if queue == [] then p == end
    else match queue[0]
      case New(number, _) => number == p && Feeds(queue[1..], p + 1, end)
      case Warp(from, to) => from == p && from <= to && Feeds(queue[1..], to + 1, end)
      case Uncle(number) => number < p && Feeds(queue[1..], number, end)
  }

  predicate NewsOnly(queue: seq<BlockUpdate>) {
    forall i :: 0 <= i < |queue| ==> queue[i].New?
  }

  predicate WarpThenNews(queue: seq<BlockUpdate>, safe: nat) {
    NewsOnly(queue) || (queue[0].Warp? && queue[0].to == safe <= Numbers.U64_MAX && NewsOnly(queue[1..]))
  }

  /** The only queue with an uncle is the initial one: uncle, then warp, then news. */
  predicate QueueShape(queue: seq<BlockUpdate>, safe: nat) {
    WarpThenNews(queue, safe) || (queue[0].Uncle? && WarpThenNews(queue[1..], safe))
  }

  /** Queued new blocks are the tracked ones. */
  predicate NewsTracked(v: View) {
    forall i :: 0 <= i < |v.queue| && v.queue[i].New? ==>
      HashAt(v.safe, v.recent, v.queue[i].number) == Some(v.queue[i].hash)
  }

  /** The watchers and the state machine agree on what comes next. */
  predicate Coherent(s: Sys) {
    && WindowOk(s.view)
    && Ev.StepOk(s.step)
    && QueueShape(s.view.queue, s.view.safe.number)
    && NewsTracked(s.view)
    && match s.step
       case Idle => (
         match s.status
         case Initialized =>
           if s.view.queue == [] then s.view.recent == []
           else (match s.view.queue[0]
                 case Uncle(_) => false
                 case New(number, _) => Feeds(s.view.queue, number, s.view.pending)
                 case Warp(from, _) => Feeds(s.view.queue, from, s.view.pending))
         case BlockPending(pending) => Feeds(s.view.queue, pending, s.view.pending)
         case _ => false)
       case Block(number, hash, _) =>
         && s.status == BlockEvents(number)
         && NewsOnly(s.view.queue) && Feeds(s.view.queue, number + 1, s.view.pending)
         && (number > s.view.safe.number ==> HashAt(s.view.safe, s.view.recent, number) == Some(hash))
       case Warping(from, to, _) =>
         && s.status == WarpEvents(from, to)
         && to == s.view.safe.number
         && NewsOnly(s.view.queue) && Feeds(s.view.queue, to + 1, s.view.pending)
  }

  /** The initial uncle or warp is still being processed. */
  predicate Replaying(s: Sys) {
    s.step.Warping? || !NewsOnly(s.view.queue)
  }

  /** The first block not yet committed. */
  function Uncommitted(status: Status): nat {
    match status
    case Initialized => 0
    case BlockPending(pending) => pending
    case BlockEvents(latest) => latest
    case WarpEvents(from, _) => from
  }

  /** No snapshot lies below `floor`; and once the replay is over, the store holds every block
      from the safe block (or the floor, when that is higher) to the last committed one. */
  predicate Covered(s: Sys, floor: nat) {
    && (forall b :: b in s.keys ==> b >= floor)
    && (s.status != Initialized ==> Uncommitted(s.status) >= floor)
    && (s.status == Initialized ==> s.keys == {})
    && (if s.status == Initialized && !Replaying(s) then
          floor == (if s.view.queue == [] then s.view.pending else s.view.queue[0].number)
        else if !Replaying(s) then
          forall b: nat :: floor <= b < Uncommitted(s.status) && s.view.safe.number <= b ==> b in s.keys
        else if s.view.queue != [] && s.view.queue[0].Uncle? then
          floor in s.keys && s.view.queue[0] == Uncle(floor + 1)
          && (!NewsOnly(s.view.queue[1..]) ==> floor <= s.view.safe.number)
        else
          floor <= s.view.safe.number
          && (s.view.queue != [] && s.view.queue[0].Warp? ==> floor <= s.view.queue[0].from))
  }

  ghost predicate Good(s: Sys, floor: nat) { Coherent(s) && Covered(s, floor) }

  // ---------------------------------------------------------------- one tick

  /** Queried logs come from one honest set of logs for the queried blocks. */
  ghost predicate HonestPoll(c: Ev.Config, s: Sys, poll: Poll)
  {
    s.step.Idle? ||
    exists all: seq<Ev.RawLog> ::
      && LogFetch.HonestLogs(all, Ev.Queried(s.step).0, Ev.Queried(s.step).1)
      && LogFetch.HonestReplies(c, Ev.Strategy(c, s.step), all, poll.queries)
  }

  predicate ServiceOk(c: Ev.Config) {
    LogFetch.NoDuplicates(c.topics)
  }

  /** The update a tick emits, if any. */
  function Emitted(c: Ev.Config, s: Sys, poll: Poll): Watched
  {
    WatchSpec(c, s.view, s.step, poll).2
  }

  predicate Uncles(watched: Watched, number: nat) {
    watched == Got(BlockChange(Uncle(number)))
  }

  /** What emitting `watched` and coming to `ticked` may be. */
  ghost predicate Allowed(s: Sys, floor: nat, watched: Watched, ticked: Ticked) {
    match ticked
    case Running(next) =>
      && Good(next, floor)
      && next.view.safe.number >= s.view.safe.number
      && (forall number: nat :: Uncles(watched, number) ==> number > floor)
    case Halted(SnapshotMissing) =>
      exists number: nat :: s.view.safe.number < number <= floor && Uncles(watched, number)
    case Halted(reason) => reason == ReorgTooDeep
  }

  ghost predicate TickOk(c: Ev.Config, s: Sys, floor: nat, poll: Poll)
  {
    Allowed(s, floor, Emitted(c, s, poll), Tick(c, s, poll))
  }

  lemma KeptKeeps(keys: set<nat>, safe: nat)
    ensures Snapshots.Kept(keys, safe) <= keys
    ensures forall b :: b in keys && b >= safe ==> b in Snapshots.Kept(keys, safe)
    ensures keys != {} ==> Sets.Max(keys) in Snapshots.Kept(keys, safe)
  {
  }

  lemma PopNew(c: Ev.Config, s: Sys, floor: nat, number: nat, hash: Hash)
    requires ServiceOk(c) && Good(s, floor)
    requires s.step.Idle? && s.view.queue != [] && s.view.queue[0] == New(number, hash)
    ensures var update := BlockChange(New(number, hash));
            Allowed(s, floor, Got(update),
                    Process(s, s.view.(queue := s.view.queue[1..]), Ev.Block(number, hash, 0), update))
  {
    KeptKeeps(s.keys, s.view.safe.number);
    assert NewsOnly(s.view.queue);
  }

  lemma PopWarp(c: Ev.Config, s: Sys, floor: nat, from: nat, to: nat)
    requires ServiceOk(c) && Good(s, floor)
    requires s.step.Idle? && s.view.queue != [] && s.view.queue[0] == Warp(from, to)
    ensures var update := BlockChange(Warp(from, to));
            Allowed(s, floor, Got(update),
                    Process(s, s.view.(queue := s.view.queue[1..]), Ev.Warping(from, to, c.pageSize), update))
  {
    KeptKeeps(s.keys, s.view.safe.number);
  }

  lemma PopUncle(c: Ev.Config, s: Sys, floor: nat, number: nat)
    requires ServiceOk(c) && Good(s, floor)
    requires s.step.Idle? && s.view.queue != [] && s.view.queue[0] == Uncle(number)
    ensures var update := BlockChange(Uncle(number));
            Allowed(s, floor, Got(update), Process(s, s.view.(queue := s.view.queue[1..]), Ev.Idle, update))
  {
    KeptKeeps(KeysAfter(s.keys, BlockChange(Uncle(number))), s.view.safe.number);
    var keys := KeysAfter(s.keys, BlockChange(Uncle(number)));
    assert floor in keys && Sets.Max(keys) == floor;
  }

  /** A queued update is emitted while the watcher is idle. */
  lemma PopKeeps(c: Ev.Config, s: Sys, floor: nat, poll: Poll)
    requires ServiceOk(c) && Good(s, floor)
    requires s.step.Idle? && s.view.queue != []
    ensures TickOk(c, s, floor, poll)
  {
    match s.view.queue[0]
    case New(number, hash) => PopNew(c, s, floor, number, hash);
    case Warp(from, to) => PopWarp(c, s, floor, from, to);
    case Uncle(number) => PopUncle(c, s, floor, number);
  }

  lemma HeadExtends(c: Ev.Config, s: Sys, floor: nat, hash: Hash)
    requires ServiceOk(c) && Good(s, floor)
    requires s.step.Idle? && s.view.queue == []
    ensures var update := BlockChange(New(s.view.pending, hash));
            Allowed(s, floor, Got(update),
                    Process(s, Extend(s.view, hash, Tip(s.view).hash), Ev.Block(s.view.pending, hash, 0), update))
  {
    ExtendKeepsWindow(s.view, hash);
    KeptKeeps(s.keys, Extend(s.view, hash, Tip(s.view).hash).safe.number);
  }

  lemma HeadShrinks(c: Ev.Config, s: Sys, floor: nat)
    requires ServiceOk(c) && Good(s, floor)
    requires s.step.Idle? && s.view.queue == [] && s.view.recent != []
    ensures var update := BlockChange(Uncle(s.view.pending - 1));
            Allowed(s, floor, Got(update), Process(s, Shrink(s.view, |s.view.recent| - 1), Ev.Idle, update))
  {
    ShrinkKeepsWindow(s.view, |s.view.recent| - 1);
    var update := BlockChange(Uncle(s.view.pending - 1));
    KeptKeeps(KeysAfter(s.keys, update), s.view.safe.number);
    assert Uncles(Got(update), s.view.pending - 1);
  }

  /** The pending block extends the tip, uncles it, or is not there yet. */
  lemma HeadTick(c: Ev.Config, s: Sys, poll: Poll)
    requires s.step.Idle? && s.view.queue == [] && WindowOk(s.view)
    ensures var watched := Emitted(c, s, poll);
            if !poll.block.Found? then
              watched == Retry && Tick(c, s, poll) == Running(s)
            else if Tip(s.view).hash == poll.block.parent then
              var view := Extend(s.view, poll.block.hash, poll.block.parent);
              var update := BlockChange(New(s.view.pending, poll.block.hash));
              watched == Got(update)
              && Tick(c, s, poll) == Process(s, view, Ev.Block(s.view.pending, poll.block.hash, 0), update)
            else if s.view.recent == [] then
              watched == TooDeep && Tick(c, s, poll) == Halted(ReorgTooDeep)
            else
              var update := BlockChange(Uncle(s.view.pending - 1));
              watched == Got(update)
              && Tick(c, s, poll) == Process(s, Shrink(s.view, |s.view.recent| - 1), Ev.Idle, update)
  {
  }

  lemma HeadKeeps(c: Ev.Config, s: Sys, floor: nat, poll: Poll)
    requires ServiceOk(c) && Good(s, floor)
    requires s.step.Idle? && s.view.queue == []
    ensures TickOk(c, s, floor, poll)
  {
    HeadTick(c, s, poll);
    if poll.block.Found? {
      if Tip(s.view).hash == poll.block.parent {
        HeadExtends(c, s, floor, poll.block.hash);
      } else if s.view.recent != [] {
        HeadShrinks(c, s, floor);
      }
    }
  }

  /** A batch of logs for the queried range is accepted and committed. */
  lemma CommitBlock(c: Ev.Config, s: Sys, floor: nat, logs: seq<Ev.Log>)
    requires ServiceOk(c) && Good(s, floor) && s.step.Block?
    requires GoodLogs(s.step.number, s.step.number, logs)
    ensures var update := LogsOf(s.step.number, s.step.number, logs);
            Allowed(s, floor, Got(update), Process(s, s.view, Ev.Idle, update))
  {
    KeptKeeps(s.keys + {s.step.number}, s.view.safe.number);
  }

  lemma CommitPage(c: Ev.Config, s: Sys, floor: nat, logs: seq<Ev.Log>)
    requires ServiceOk(c) && Good(s, floor) && s.step.Warping?
    requires GoodLogs(s.step.from, Ev.Queried(s.step).1, logs)
    ensures var update := LogsOf(s.step.from, Ev.Queried(s.step).1, logs);
            Allowed(s, floor, Got(update), Process(s, s.view, Ev.AfterFetch(c, s.step, true), update))
  {
    Ev.PagesAreSound(c, s.step, true);
    KeptKeeps(s.keys + {Ev.Queried(s.step).1}, s.view.safe.number);
  }

  lemma LogsKeep(c: Ev.Config, s: Sys, floor: nat, poll: Poll)
    requires ServiceOk(c) && Good(s, floor) && HonestPoll(c, s, poll)
    requires !s.step.Idle? && Ev.NextLogsSpec(c, s.step, poll.queries).1.Ready?
    ensures TickOk(c, s, floor, poll)
  {
    var (from, to) := Ev.Queried(s.step);
    var all: seq<Ev.RawLog> :|
      && LogFetch.HonestLogs(all, from, to)
      && LogFetch.HonestReplies(c, Ev.Strategy(c, s.step), all, poll.queries);
    LogFetch.HonestBatch(c, Ev.Strategy(c, s.step), all, from, to, poll.queries);
    var logs := Ev.FetchSpec(c, Ev.Strategy(c, s.step), poll.queries).logs;
    if s.step.Warping? {
      CommitPage(c, s, floor, logs);
    } else {
      CommitBlock(c, s, floor, logs);
    }
  }

  lemma FailureKeeps(c: Ev.Config, s: Sys, floor: nat)
    requires Good(s, floor) && !s.step.Idle?
    ensures Good(s.(step := Ev.AfterFetch(c, s.step, false)), floor)
  {
    if s.step.Warping? {
      Ev.PagesAreSound(c, s.step, false);
    }
  }

  /** A failed or cancelled fetch changes nothing but the retry counter or the page size. */
  lemma RetryKeeps(c: Ev.Config, s: Sys, floor: nat, poll: Poll)
    requires ServiceOk(c) && Good(s, floor)
    requires !s.step.Idle?
    requires var logs := Ev.NextLogsSpec(c, s.step, poll.queries).1;
             logs.NotFinished? || logs == Ev.LogsFailed(false)
    ensures TickOk(c, s, floor, poll)
  {
    FailureKeeps(c, s, floor);
  }

  /** While a block's logs are fetched, the last emitted block is that block, when it is
      still tracked; while a warp is fetched, no emitted block is. */
  lemma LastEmittedIs(s: Sys)
    requires Coherent(s) && !s.step.Idle?
    ensures match LastEmitted(s.view)
            case None => true
            case Some(i) =>
              && s.step.Block? && s.view.recent[i].number == s.step.number
              && s.view.recent[i].hash == s.step.hash
  {
    var next := if s.step.Block? then s.step.number + 1 else s.step.to + 1;
    if s.view.queue == [] {
      assert next == s.view.pending;
    } else {
      assert s.view.queue[0].New? && s.view.queue[0].number == next;
      FeedsBelow(s.view.queue, next, s.view.pending);
      LastBelowIs(s.view, next);
    }
  }

  lemma {:induction false} FeedsBelow(queue: seq<BlockUpdate>, p: nat, end: nat)
    requires NewsOnly(queue) && Feeds(queue, p, end)
    ensures end == p + |queue|
  {
    if queue != [] {
      FeedsBelow(queue[1..], p + 1, end);
    }
  }

  /** Uncling the block whose logs are being fetched. */
  lemma InvalidatedKeeps(c: Ev.Config, s: Sys, floor: nat, i: nat)
    requires ServiceOk(c) && Good(s, floor) && s.step.Block?
    requires i < |s.view.recent| && s.view.recent[i].number == s.step.number
    ensures var update := BlockChange(Uncle(s.step.number));
            Allowed(s, floor, Got(update), Process(s, Shrink(s.view, i).(queue := []), Ev.Idle, update))
  {
    var number := s.step.number;
    ShrinkKeepsWindow(s.view, i);
    KeptKeeps(KeysAfter(s.keys, BlockChange(Uncle(number))), s.view.safe.number);
    assert Uncles(Got(BlockChange(Uncle(number))), number);
  }

  lemma NotFoundWatch(c: Ev.Config, s: Sys, poll: Poll)
    requires Coherent(s)
    requires !s.step.Idle? && Ev.NextLogsSpec(c, s.step, poll.queries).1 == Ev.LogsFailed(true)
    ensures var (view, result) := RevalidateSpec(s.view, poll.revalidation);
            if result.Invalidated? then
              && s.step.Block? && LastEmitted(s.view).Some?
              && s.view.recent[LastEmitted(s.view).value].number == s.step.number
              && WatchSpec(c, s.view, s.step, poll)
                 == (Shrink(s.view, LastEmitted(s.view).value).(queue := []), Ev.Idle,
                     Got(BlockChange(Uncle(s.step.number))))
            else
              WatchSpec(c, s.view, s.step, poll) == (s.view, Ev.AfterFetch(c, s.step, false), Retry)
  {
    LastEmittedIs(s);
    var (view, result) := RevalidateSpec(s.view, poll.revalidation);
    if result.Invalidated? {
      assert view.queue == [Uncle(s.step.number)] && view.queue[1..] == [];
    }
  }

  /** The node has lost the block whose logs it was asked for. */
  lemma NotFoundKeeps(c: Ev.Config, s: Sys, floor: nat, poll: Poll)
    requires ServiceOk(c) && Good(s, floor)
    requires !s.step.Idle? && Ev.NextLogsSpec(c, s.step, poll.queries).1 == Ev.LogsFailed(true)
    ensures TickOk(c, s, floor, poll)
  {
    NotFoundWatch(c, s, poll);
    if RevalidateSpec(s.view, poll.revalidation).1.Invalidated? {
      InvalidatedKeeps(c, s, floor, LastEmitted(s.view).value);
    } else {
      FailureKeeps(c, s, floor);
    }
  }

  /** Every tick keeps the invariant; it halts only on a reorg below the safe block, or on an
      uncle at or below the floor, whose parent was never snapshotted. */
  lemma TickKeeps(c: Ev.Config, s: Sys, floor: nat, poll: Poll)
    requires ServiceOk(c) && Good(s, floor) && HonestPoll(c, s, poll)
    ensures TickOk(c, s, floor, poll)
  {
    if s.step.Idle? {
      if s.view.queue != [] { PopKeeps(c, s, floor, poll); } else { HeadKeeps(c, s, floor, poll); }
    } else {
      match Ev.NextLogsSpec(c, s.step, poll.queries).1
      case Ready(_, _, _) => LogsKeep(c, s, floor, poll);
      case NotFinished => RetryKeeps(c, s, floor, poll);
      case LogsFailed(notFound) =>
        if notFound { NotFoundKeeps(c, s, floor, poll); } else { RetryKeeps(c, s, floor, poll); }
    }
  }
}
