/**
 Whole runs of the service: from which starts the update stream is always accepted, when a
 roll back finds its snapshot, and how the chain view handed to the transaction queue moves.
 */
module Acceptance {
  import opened Wrappers
  import opened Blocks
  import Ev = Events
  import opened States
  import Snapshots
  import Sets
  import Numbers
  import opened Pipeline

  function RunSys(c: Ev.Config, s: Sys, polls: seq<Poll>): Ticked
    decreases |polls|
  {
    if polls == [] then Running(s)
    else match Tick(c, s, polls[0])
      case Halted(reason) => Halted(reason)
      case Running(next) => RunSys(c, next, polls[1..])
  }

  /** Every poll of the run is honest at the point it is made. */
  ghost predicate HonestRun(c: Ev.Config, s: Sys, polls: seq<Poll>)
    decreases |polls|
  {
    polls == [] ||
    (HonestPoll(c, s, polls[0])
     && (Tick(c, s, polls[0]).Running? ==> HonestRun(c, Tick(c, s, polls[0]).sys, polls[1..])))
  }

  /** No honest run is refused by the state machine or finds the watchers out of step. */
  ghost predicate AlwaysAccepted(c: Ev.Config, s: Sys) {
    forall polls :: HonestRun(c, s, polls) ==>
      RunSys(c, s, polls) != Halted(UpdateRefused) && RunSys(c, s, polls) != Halted(WatchersOutOfStep)
  }

  lemma {:induction false} RunKeeps(c: Ev.Config, s: Sys, floor: nat, polls: seq<Poll>)
    requires ServiceOk(c) && Good(s, floor) && HonestRun(c, s, polls)
    ensures match RunSys(c, s, polls)
            case Running(next) => Good(next, floor) && next.view.safe.number >= s.view.safe.number
            case Halted(SnapshotMissing) => floor > s.view.safe.number
            case Halted(reason) => reason == ReorgTooDeep
    decreases |polls|
  {
    if polls != [] {
      TickKeeps(c, s, floor, polls[0]);
      var ticked := Tick(c, s, polls[0]);
      if ticked.Running? {
        RunKeeps(c, ticked.sys, floor, polls[1..]);
      }
    }
  }

  // ---------------------------------------------------------------- starting

  /** A resumed service must find its oldest snapshot at or below the node's head; a fresh one
      with a start block above the head must track no reorgable block. */
  predicate StartOk(depth: nat, start: Option<nat>, keys: set<nat>, latest: nat) {
    if keys != {} then Sets.Min(keys) <= latest
    else start.Some? && start.value > latest ==> depth == 0 || latest == 0
  }

  /** The block below which a run can never be rolled back. */
  function FloorOf(depth: nat, start: Option<nat>, keys: set<nat>, latest: nat): nat {
    var safe := SafeFor(latest, depth);
    if keys != {} then Sets.Min(keys)
    else if start.Some? && start.value <= latest then start.value
    else safe + 1
  }

  /** `scanned` is the block range a watcher of this depth scans when the head is `latest`. */
  predicate ScanOf(depth: nat, scanned: seq<Header>, latest: nat) {
    && |scanned| == latest - SafeFor(latest, depth) + 1
    && Scanned(scanned, SafeFor(latest, depth))
    && latest <= Numbers.U64_MAX
  }

  predicate Numbered(headers: seq<Header>, first: nat) {
    forall i :: 0 <= i < |headers| ==> headers[i].number == first + i
  }

  /** The queued news are the scanned blocks from `from` on. */
  lemma {:induction false} NewsFeed(headers: seq<Header>, first: nat, from: nat)
    requires Numbered(headers, first)
    requires from <= first + |headers|
    ensures NewsOnly(News(headers, from))
    ensures Feeds(News(headers, from), if from <= first then first else from, first + |headers|)
  {
    if headers != [] {
      NewsFeed(headers[1..], first + 1, from);
      var rest := News(headers[1..], from);
      if from <= first {
        assert News(headers, from) == [New(first, headers[0].hash)] + rest;
        assert News(headers, from)[1..] == rest;
      } else {
        assert News(headers, from) == rest;
      }
    }
  }

  lemma {:induction false} NewsListed(headers: seq<Header>, first: nat, from: nat, i: nat)
    requires Numbered(headers, first)
    requires i < |News(headers, from)|
    ensures var update := News(headers, from)[i];
            && update.New? && first <= update.number < first + |headers|
            && headers[update.number - first].hash == update.hash
  {
    if headers[0].number < from {
      NewsListed(headers[1..], first + 1, from, i);
    } else if i > 0 {
      NewsListed(headers[1..], first + 1, from, i - 1);
    }
  }

  lemma {:induction false} NoNews(headers: seq<Header>, first: nat, from: nat)
    requires Numbered(headers, first)
    requires from >= first + |headers|
    ensures News(headers, from) == []
  {
    if headers != [] {
      NoNews(headers[1..], first + 1, from);
    }
  }

  /** The view of a started watcher. */
  lemma StartView(depth: nat, start: Option<nat>, keys: set<nat>, scanned: seq<Header>, latest: nat)
    requires ScanOf(depth, scanned, latest)
    ensures var s := Start(depth, start, keys, scanned);
            var safe := SafeFor(latest, depth);
            var news := News(scanned[1..], FirstUnprocessed(Snapshots.Bounds(keys), start));
            && WindowOk(s.view) && s.view.pending == latest + 1 && s.view.safe.number == safe
            && s.view.queue == Replay(Snapshots.Bounds(keys), start, safe) + news
            && (forall i :: 0 <= i < |news| ==>
                  news[i].New? && HashAt(s.view.safe, s.view.recent, news[i].number) == Some(news[i].hash))
  {
    var s := Start(depth, start, keys, scanned);
    var from := FirstUnprocessed(Snapshots.Bounds(keys), start);
    var news := News(scanned[1..], from);
    InitWindow(depth, Snapshots.Bounds(keys), start, scanned, latest);
    forall i | 0 <= i < |news|
      ensures news[i].New? && HashAt(s.view.safe, s.view.recent, news[i].number) == Some(news[i].hash)
    {
      NewsListed(scanned[1..], scanned[0].number + 1, from, i);
    }
  }

  /** Where the queued news begin. */
  lemma StartNews(depth: nat, scanned: seq<Header>, latest: nat, from: nat)
    requires ScanOf(depth, scanned, latest)
    ensures var safe := SafeFor(latest, depth);
            var news := News(scanned[1..], from);
            && NewsOnly(news)
            && (from <= latest + 1 ==> Feeds(news, if from <= safe then safe + 1 else from, latest + 1))
            && (from > latest ==> news == [])
            && (news == [] ==> from > latest || |scanned| == 1)
  {
    if from <= latest + 1 {
      NewsFeed(scanned[1..], scanned[0].number + 1, from);
    }
    if from > latest {
      NoNews(scanned[1..], scanned[0].number + 1, from);
    }
  }

  lemma ResumeQueue(start: Option<nat>, oldest: nat, newest: nat, safe: nat, latest: nat, news: seq<BlockUpdate>)
    requires oldest <= newest && safe <= latest <= Numbers.U64_MAX
    requires NewsOnly(news) && Feeds(news, if oldest < safe then safe + 1 else oldest + 1, latest + 1)
    ensures var queue := Replay(Some(BlockStatus(newest, oldest)), start, safe) + news;
            && QueueShape(queue, safe)
            && Feeds(queue, newest + 1, latest + 1)
            && (oldest < newest ==> queue[0] == Uncle(oldest + 1) && (!NewsOnly(queue[1..]) ==> oldest < safe))
            && (oldest == newest && oldest < safe ==> queue[0] == Warp(oldest + 1, safe))
            && (oldest == newest && oldest >= safe ==> queue == news)
            && (forall i :: 0 <= i < |queue| && queue[i].New? ==> queue[i] in news)
  {
    var warp := if oldest < safe then [Warp(oldest + 1, safe)] else [];
    var uncle := if oldest < newest then [Uncle(oldest + 1)] else [];
    var queue := Replay(Some(BlockStatus(newest, oldest)), start, safe) + news;
    assert queue == uncle + (warp + news);
    assert warp == [] ==> warp + news == news;
    assert warp != [] ==> (warp + news)[1..] == news;
    assert uncle == [] ==> queue == warp + news;
    assert uncle != [] ==> queue[1..] == warp + news;
  }

  lemma ResumeGood(depth: nat, start: Option<nat>, keys: set<nat>, scanned: seq<Header>, latest: nat)
    requires ScanOf(depth, scanned, latest) && StartOk(depth, start, keys, latest) && keys != {}
    ensures Good(Start(depth, start, keys, scanned), FloorOf(depth, start, keys, latest))
  {
    var oldest := Sets.Min(keys);
    StartView(depth, start, keys, scanned, latest);
    StartNews(depth, scanned, latest, oldest + 1);
    ReplayedGood(Start(depth, start, keys, scanned), start, oldest, Sets.Max(keys), News(scanned[1..], oldest + 1));
  }

  lemma ReplayedGood(s: Sys, start: Option<nat>, oldest: nat, newest: nat, news: seq<BlockUpdate>)
    requires WindowOk(s.view) && s.step.Idle? && s.status == BlockPending(newest + 1)
    requires s.view.pending - 1 <= Numbers.U64_MAX
    requires oldest in s.keys && newest in s.keys && forall b :: b in s.keys ==> oldest <= b <= newest
    requires s.view.queue == Replay(Some(BlockStatus(newest, oldest)), start, s.view.safe.number) + news
    requires NewsOnly(news)
    requires Feeds(news, if oldest < s.view.safe.number then s.view.safe.number + 1 else oldest + 1, s.view.pending)
    requires forall i :: 0 <= i < |news| ==> HashAt(s.view.safe, s.view.recent, news[i].number) == Some(news[i].hash)
    ensures Good(s, oldest)
  {
    ResumeQueue(start, oldest, newest, s.view.safe.number, s.view.pending - 1, news);
    QueuedSystemGood(s, oldest, newest, news);
  }

  lemma QueuedSystemGood(s: Sys, oldest: nat, newest: nat, news: seq<BlockUpdate>)
    requires WindowOk(s.view) && s.step.Idle? && s.status == BlockPending(newest + 1)
    requires oldest in s.keys && newest in s.keys && forall b :: b in s.keys ==> oldest <= b <= newest
    requires QueueShape(s.view.queue, s.view.safe.number) && Feeds(s.view.queue, newest + 1, s.view.pending)
    requires NewsOnly(news)
    requires forall i :: 0 <= i < |s.view.queue| && s.view.queue[i].New? ==> s.view.queue[i] in news
    requires forall i :: 0 <= i < |news| ==> HashAt(s.view.safe, s.view.recent, news[i].number) == Some(news[i].hash)
    requires oldest < newest ==>
               && s.view.queue != [] && s.view.queue[0] == Uncle(oldest + 1)
               && (!NewsOnly(s.view.queue[1..]) ==> oldest < s.view.safe.number)
    requires oldest == newest && oldest < s.view.safe.number ==>
               s.view.queue != [] && s.view.queue[0] == Warp(oldest + 1, s.view.safe.number)
    requires oldest == newest && oldest >= s.view.safe.number ==> s.view.queue == news
    ensures Good(s, oldest)
  {
    forall i | 0 <= i < |s.view.queue| && s.view.queue[i].New?
      ensures HashAt(s.view.safe, s.view.recent, s.view.queue[i].number) == Some(s.view.queue[i].hash)
    {
      var k :| 0 <= k < |news| && news[k] == s.view.queue[i];
    }
  }

  /** A fresh service that warps first. */
  lemma FreshWarps(s: Sys, from: nat, news: seq<BlockUpdate>)
    requires WindowOk(s.view) && s.step.Idle? && s.status.Initialized? && s.keys == {}
    requires from <= s.view.safe.number <= Numbers.U64_MAX
    requires s.view.queue == [Warp(from, s.view.safe.number)] + news
    requires NewsOnly(news) && Feeds(news, s.view.safe.number + 1, s.view.pending)
    requires NewsTracked(s.view.(queue := news))
    ensures Good(s, from)
  {
    assert s.view.queue[1..] == news;
    forall i | 0 <= i < |s.view.queue| && s.view.queue[i].New?
      ensures HashAt(s.view.safe, s.view.recent, s.view.queue[i].number) == Some(s.view.queue[i].hash)
    {
      assert s.view.queue[i] == news[i - 1];
    }
  }

  /** A fresh service that reports its window from some block on, or waits for the next one. */
  lemma FreshListens(s: Sys, first: nat)
    requires WindowOk(s.view) && s.step.Idle? && s.status.Initialized? && s.keys == {}
    requires NewsOnly(s.view.queue) && NewsTracked(s.view)
    requires Feeds(s.view.queue, first, s.view.pending)
    requires s.view.queue == [] ==> s.view.recent == []
    ensures Good(s, first)
  {
  }

  lemma FreshGood(depth: nat, start: Option<nat>, scanned: seq<Header>, latest: nat)
    requires ScanOf(depth, scanned, latest) && StartOk(depth, start, {}, latest)
    ensures Good(Start(depth, start, {}, scanned), FloorOf(depth, start, {}, latest))
  {
    var from := FirstUnprocessed(None, start);
    StartView(depth, start, {}, scanned, latest);
    StartNews(depth, scanned, latest, from);
    var s := Start(depth, start, {}, scanned);
    var news := News(scanned[1..], from);
    if start.Some? && start.value <= s.view.safe.number {
      FreshWarps(s, start.value, news);
    } else {
      assert s.view.queue == news;
      FreshListens(s, FloorOf(depth, start, {}, latest));
    }
  }

  lemma StartGood(depth: nat, start: Option<nat>, keys: set<nat>, scanned: seq<Header>, latest: nat)
    requires ScanOf(depth, scanned, latest) && StartOk(depth, start, keys, latest)
    ensures Good(Start(depth, start, keys, scanned), FloorOf(depth, start, keys, latest))
  {
    if keys == {} {
      FreshGood(depth, start, scanned, latest);
    } else {
      ResumeGood(depth, start, keys, scanned, latest);
    }
  }

  // ---------------------------------------------------------------- acceptance

  /** A poll in which the node only answers for the pending block. */
  function BlockPoll(reply: Reply): Poll { Poll([], Missing, reply) }

  lemma FreshWaits(depth: nat, start: Option<nat>, scanned: seq<Header>, latest: nat)
    requires ScanOf(depth, scanned, latest)
    requires start.Some? && start.value > latest && depth > 0 && latest > 0
    ensures var s := Start(depth, start, {}, scanned);
            WindowOk(s.view) && s.view.queue == [] && s.view.recent != []
  {
    InitWindow(depth, None, start, scanned, latest);
    NoNews(scanned[1..], scanned[0].number + 1, start.value);
  }

  /** A fresh service whose start block lies above the head queues nothing; when the head is
      then replaced, it reports an uncle before it has reported any block. */
  lemma FreshRefused(c: Ev.Config, depth: nat, start: Option<nat>, scanned: seq<Header>, latest: nat)
    requires ScanOf(depth, scanned, latest)
    requires start.Some? && start.value > latest && depth > 0 && latest > 0
    ensures var s := Start(depth, start, {}, scanned);
            var polls := [BlockPoll(Found(0, Tip(s.view).hash + 1))];
            HonestRun(c, s, polls) && RunSys(c, s, polls) == Halted(UpdateRefused)
  {
    var s := Start(depth, start, {}, scanned);
    FreshWaits(depth, start, scanned, latest);
    HeadTick(c, s, BlockPoll(Found(0, Tip(s.view).hash + 1)));
  }

  /** A service resumed from a snapshot above the head reports the next block although the
      state machine expects a later one. */
  lemma ResumeRefused(c: Ev.Config, depth: nat, start: Option<nat>, keys: set<nat>, scanned: seq<Header>, latest: nat)
    requires ScanOf(depth, scanned, latest)
    requires keys != {} && Sets.Min(keys) > latest
    ensures !AlwaysAccepted(c, Start(depth, start, keys, scanned))
  {
    var s := Start(depth, start, keys, scanned);
    var oldest := Sets.Min(keys);
    StartView(depth, start, keys, scanned, latest);
    StartNews(depth, scanned, latest, oldest + 1);
    var poll := BlockPoll(Found(0, Tip(s.view).hash));
    if oldest < Sets.Max(keys) {
      assert s.view.queue == [Uncle(oldest + 1)];
      var next := Sys(s.view.(queue := []), Ev.Idle, BlockPending(oldest + 1),
                      Snapshots.Kept(KeysAfter(keys, BlockChange(Uncle(oldest + 1))), s.view.safe.number));
      ReplayedUncle(c, s, oldest, poll);
      HeadRefused(c, next, poll);
      RunTwo(c, s, poll);
    } else {
      assert s.view.queue == [];
      HeadRefused(c, s, poll);
      assert RunSys(c, s, [poll]) == Halted(UpdateRefused) && HonestRun(c, s, [poll]);
    }
  }

  /** The queued uncle of a resumed service is accepted. */
  lemma ReplayedUncle(c: Ev.Config, s: Sys, oldest: nat, poll: Poll)
    requires s.step.Idle? && s.view.queue == [Uncle(oldest + 1)]
    requires oldest in s.keys && s.status.BlockPending? && oldest + 1 < s.status.pending
    ensures Tick(c, s, poll) ==
            Running(Sys(s.view.(queue := []), Ev.Idle, BlockPending(oldest + 1),
                        Snapshots.Kept(KeysAfter(s.keys, BlockChange(Uncle(oldest + 1))), s.view.safe.number)))
  {
  }

  /** The next block of the chain is refused by a state machine that expects another one. */
  lemma HeadRefused(c: Ev.Config, s: Sys, poll: Poll)
    requires s.step.Idle? && s.view.queue == [] && s.status.BlockPending?
    requires poll.block.Found? && poll.block.parent == Tip(s.view).hash && s.status.pending != s.view.pending
    ensures Tick(c, s, poll) == Halted(UpdateRefused)
  {
  }

  lemma RunTwo(c: Ev.Config, s: Sys, poll: Poll)
    requires s.step.Idle? && Tick(c, s, poll).Running? && Tick(c, s, poll).sys.step.Idle?
    ensures HonestRun(c, s, [poll, poll])
            && (Tick(c, Tick(c, s, poll).sys, poll).Halted? ==>
                  RunSys(c, s, [poll, poll]) == Tick(c, Tick(c, s, poll).sys, poll))
  {
    assert [poll, poll][1..] == [poll];
    assert [poll][1..] == [];
    var next := Tick(c, s, poll).sys;
    assert HonestRun(c, next, [poll]);
  }

  /** For every pattern of reorgs, missing blocks, failures and cancelled polls the update
      stream is accepted, exactly for the starts of `StartOk`. */
  lemma AcceptedIffStartOk(c: Ev.Config, depth: nat, start: Option<nat>, keys: set<nat>, scanned: seq<Header>,
                           latest: nat)
    requires ServiceOk(c) && ScanOf(depth, scanned, latest)
    ensures AlwaysAccepted(c, Start(depth, start, keys, scanned)) <==> StartOk(depth, start, keys, latest)
  {
    var s := Start(depth, start, keys, scanned);
    if StartOk(depth, start, keys, latest) {
      StartGood(depth, start, keys, scanned, latest);
      forall polls | HonestRun(c, s, polls)
        ensures RunSys(c, s, polls) != Halted(UpdateRefused) && RunSys(c, s, polls) != Halted(WatchersOutOfStep)
      {
        RunKeeps(c, s, FloorOf(depth, start, keys, latest), polls);
      }
    } else if keys == {} {
      FreshRefused(c, depth, start, scanned, latest);
    } else {
      ResumeRefused(c, depth, start, keys, scanned, latest);
    }
  }

  // ---------------------------------------------------------------- snapshots

  /** When the floor is at or below the safe block the watcher starts from (a resume from a
      snapshot at or below it, or a warp), no uncle ever lacks its parent's snapshot; and
      once the replay is over the store holds every block from the safe block to the last
      committed one, although it is pruned after every update. */
  lemma SnapshotsSuffice(c: Ev.Config, depth: nat, start: Option<nat>, keys: set<nat>, scanned: seq<Header>,
                         latest: nat, polls: seq<Poll>)
    requires ServiceOk(c) && ScanOf(depth, scanned, latest) && StartOk(depth, start, keys, latest)
    requires FloorOf(depth, start, keys, latest) <= SafeFor(latest, depth)
    requires HonestRun(c, Start(depth, start, keys, scanned), polls)
    ensures match RunSys(c, Start(depth, start, keys, scanned), polls)
            case Halted(reason) => reason == ReorgTooDeep
            case Running(next) =>
              !Replaying(next) && next.status != Initialized ==>
                forall b: nat :: next.view.safe.number <= b < Uncommitted(next.status) ==> b in next.keys
  {
    StartGood(depth, start, keys, scanned, latest);
    RunKeeps(c, Start(depth, start, keys, scanned), FloorOf(depth, start, keys, latest), polls);
  }

  /** On any run, an uncle finds its parent's snapshot exactly when it lies above the floor. */
  lemma UncleFailsIffAtFloor(c: Ev.Config, s: Sys, floor: nat, poll: Poll, number: nat)
    requires ServiceOk(c) && Good(s, floor) && HonestPoll(c, s, poll)
    requires Uncles(Emitted(c, s, poll), number)
    ensures Tick(c, s, poll) == Halted(SnapshotMissing) <==> number <= floor
  {
    TickKeeps(c, s, floor, poll);
  }

  // ---------------------------------------------------------------- the chain view

  /** Between two ticks the chain view only ever extends by one block or loses blocks from its
      top: whatever both views cover is unchanged, and the safe block never moves back. */
  lemma TickMovesView(c: Ev.Config, s: Sys, floor: nat, poll: Poll)
    requires Good(s, floor)
    requires Tick(c, s, poll).Running?
    ensures ViewMoves(s.view, Tick(c, s, poll).sys.view)
  {
    WatchMovesView(c, s, poll);
  }

  lemma ViewStays(v: View)
    requires WindowOk(v)
    ensures ViewMoves(v, v)
  {
    NextKeepsWindow(v.(queue := []), Missing);
  }

  lemma WatchMovesView(c: Ev.Config, s: Sys, poll: Poll)
    requires Coherent(s)
    ensures ViewMoves(s.view, WatchSpec(c, s.view, s.step, poll).0)
  {
    ViewStays(s.view);
    var logs := Ev.NextLogsSpec(c, s.step, poll.queries).1;
    if logs.Drained? {
      NextKeepsWindow(s.view, poll.block);
    } else if logs == Ev.LogsFailed(true) {
      NotFoundWatch(c, s, poll);
      if RevalidateSpec(s.view, poll.revalidation).1.Invalidated? {
        ShrinkKeepsWindow(s.view, LastEmitted(s.view).value);
      }
    }
  }

  // ---------------------------------------------------------------- what is processed first

  /** A fresh service begins exactly at its start block, by a warp or with the block itself, or at
      the block after the anchor when it has none. */
  lemma FreshBeginsAtStart(depth: nat, start: Option<nat>, scanned: seq<Header>, latest: nat)
    requires ScanOf(depth, scanned, latest)
    ensures var queue := Start(depth, start, {}, scanned).view.queue;
            var safe := SafeFor(latest, depth);
            match start
            case None => safe < latest ==> queue != [] && queue[0].New? && queue[0].number == safe + 1
            case Some(first) =>
              && (first <= safe ==> queue != [] && queue[0] == Warp(first, safe))
              && (safe < first <= latest ==> queue != [] && queue[0].New? && queue[0].number == first)
              && (first > latest ==> queue == [])
  {
    var from := FirstUnprocessed(None, start);
    StartView(depth, start, {}, scanned, latest);
    StartNews(depth, scanned, latest, from);
  }

  /** A block whose logs the node reports missing, and which it no longer serves, is uncled by the
      very same poll; one that it still serves is tried again. */
  lemma LostBlockIsUncled(c: Ev.Config, s: Sys, poll: Poll)
    requires Coherent(s) && s.step.Block? && s.step.number > s.view.safe.number
    requires Ev.NextLogsSpec(c, s.step, poll.queries).1 == Ev.LogsFailed(true) && poll.revalidation != Failed
    ensures var served := poll.revalidation.Found? && poll.revalidation.hash == s.step.hash;
            if served then Emitted(c, s, poll) == Retry
            else Uncles(Emitted(c, s, poll), s.step.number)
  {
    NotFoundWatch(c, s, poll);
    LastEmittedIs(s);
    EmittedIsLast(s);
  }

  /** The block being fetched, when it is still tracked, is the last emitted one. */
  lemma EmittedIsLast(s: Sys)
    requires Coherent(s) && s.step.Block? && s.step.number > s.view.safe.number
    ensures LastEmitted(s.view).Some?
  {
    if s.view.queue == [] {
      assert s.view.pending == s.step.number + 1;
    } else {
      assert s.view.queue[0].New? && s.view.queue[0].number == s.step.number + 1;
      FeedsBelow(s.view.queue, s.step.number + 1, s.view.pending);
      LastBelowIs(s.view, s.step.number + 1);
    }
  }
}
