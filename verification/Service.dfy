/**
 The whole service: watchers, state machine and transaction queue under one driver, with
 effects completing at any point. The results about the parts are carried over to it, and
 what the transaction queue assumes of the watcher is shown to hold.
 */
module Service {
  import opened Wrappers
  import opened Blocks
  import Ev = Events
  import opened States
  import History
  import Snapshots
  import opened Pipeline
  import opened Acceptance
  import opened TxTable
  import Tx = TxQueue
  import opened TxMarks
  import opened TxRuns
  import opened Drivers

  function Before<S, C>(commands: seq<C>, actions: seq<Tx.Action>, rest: Turned<S, C>): Turned<S, C> {
    match rest
    case Stops(_) => rest
    case Continues(world, more, done) => Continues(world, commands + more, actions + done)
  }

  function DriveAll<S, R, C>(setup: Setup<S, R, C>, pruning: bool, w: World<S>, turns: seq<Turn<R>>): Turned<S, C>
    decreases |turns|
  {
    if turns == [] then Continues(w, [], [])
    else match Drive(setup, pruning, w, turns[0])
      case Stops(reason) => Stops(reason)
      case Continues(next, commands, actions) => Before(commands, actions, DriveAll(setup, pruning, next, turns[1..]))
  }

  // ---------------------------------------------------------------- acceptance

  /** What the update protocol sees of the service. */
  function Project<S>(w: World<S>): Sys {
    Sys(w.view, w.step, w.machine.status, w.machine.table.Keys)
  }

  lemma AdvanceKeys<S, R, C>(t: Transition<S, R, C>, m: Machine<S>, update: Update, safe: nat)
    requires HandleSpec(t, m, update).Ok?
    ensures var next := Advance(t, m, update, safe).value.0;
            && Accept(m.status, update) == Some(next.status)
            && next.table.Keys == Snapshots.Kept(KeysAfter(m.table.Keys, update), safe)
  {
    var handled := HandleSpec(t, m, update).value.0;
    assert handled.table.Keys == KeysAfter(m.table.Keys, update);
  }

  /** The driver runs the update protocol, whatever the service commands and however effects
      interleave. */
  lemma DriveRefinesTick<S, R, C>(setup: Setup<S, R, C>, pruning: bool, w: World<S>, turn: Turn<R>)
    ensures var turned := Drive(setup, pruning, w, turn);
            match turn
            case Completed(_, _) => turned.Continues? && Project(turned.world) == Project(w)
            case Watch(poll, _, _) =>
              match Tick(setup.index, Project(w), poll)
              case Running(next) => turned.Continues? && Project(turned.world) == next
              case Halted(WatchersOutOfStep) => turned.Continues?
              case Halted(ReorgTooDeep) => turned == Stops(TooDeepReorg)
              case Halted(UpdateRefused) => turned == Stops(Stop.Failed(BadUpdate))
              case Halted(SnapshotMissing) => turned.Stops? && turned.reason.Failed? && turned.reason.error.Storage?
  {
    if turn.Watch? {
      var (view, step, watched) := WatchSpec(setup.index, w.view, w.step, turn.poll);
      if watched.Got? && HandleSpec(setup.transition, w.machine, watched.update).Ok? {
        AdvanceKeys(setup.transition, w.machine, watched.update, StatusOf(view).safe);
      }
    }
  }

  ghost predicate HonestTurn<S, R, C>(setup: Setup<S, R, C>, w: World<S>, turn: Turn<R>) {
    turn.Watch? ==> HonestPoll(setup.index, Project(w), turn.poll)
  }

  ghost predicate HonestTurns<S, R, C>(setup: Setup<S, R, C>, w: World<S>, turns: seq<Turn<R>>)
    decreases |turns|
  {
    turns == [] ||
    (HonestTurn(setup, w, turns[0])
     && (Drive(setup, true, w, turns[0]).Continues? ==>
           HonestTurns(setup, Drive(setup, true, w, turns[0]).world, turns[1..])))
  }

  lemma DriveKeepsGood<S, R, C>(setup: Setup<S, R, C>, w: World<S>, floor: nat, turn: Turn<R>)
    requires ServiceOk(setup.index) && Good(Project(w), floor) && HonestTurn(setup, w, turn)
    ensures match Drive(setup, true, w, turn)
            case Continues(next, _, _) => Good(Project(next), floor) && next.view.safe.number >= w.view.safe.number
            case Stops(reason) => reason == TooDeepReorg || floor > w.view.safe.number
  {
    DriveRefinesTick(setup, true, w, turn);
    if turn.Watch? {
      TickKeeps(setup.index, Project(w), floor, turn.poll);
    }
  }

  /** With the snapshots reaching down to the safe block, nothing but a reorg below the safe
      block ever stops the service: whatever the chain, the node's failures, the service's
      commands and the completions of its effects. */
  lemma {:induction false} OnlyDeepReorgsStop<S, R, C>(setup: Setup<S, R, C>, w: World<S>, floor: nat,
                                                       turns: seq<Turn<R>>)
    requires ServiceOk(setup.index) && Good(Project(w), floor) && floor <= w.view.safe.number
    requires HonestTurns(setup, w, turns)
    ensures match DriveAll(setup, true, w, turns)
            case Continues(next, _, _) => Good(Project(next), floor)
            case Stops(reason) => reason == TooDeepReorg
    decreases |turns|
  {
    if turns != [] {
      DriveKeepsGood(setup, w, floor, turns[0]);
      var turned := Drive(setup, true, w, turns[0]);
      if turned.Continues? {
        OnlyDeepReorgsStop(setup, turned.world, floor, turns[1..]);
      }
    }
  }

  /** A service as `Driver::new` builds it over a snapshot table and a scanned block range. */
  function Started<S, R, C>(setup: Setup<S, R, C>, depth: nat, start: Option<nat>, table: map<nat, S>,
                            scanned: seq<Header>, queue: Tx.Queue): World<S>
    requires scanned != []
  {
    World(InitView(depth, Snapshots.Bounds(table.Keys), start, scanned), Ev.Idle, StartFrom(setup.transition, table),
          queue)
  }

  lemma StartedRuns<S, R, C>(setup: Setup<S, R, C>, depth: nat, start: Option<nat>, table: map<nat, S>,
                             scanned: seq<Header>, latest: nat, queue: Tx.Queue, turns: seq<Turn<R>>)
    requires ServiceOk(setup.index) && ScanOf(depth, scanned, latest) && StartOk(depth, start, table.Keys, latest)
    requires FloorOf(depth, start, table.Keys, latest) <= SafeFor(latest, depth)
    requires HonestTurns(setup, Started(setup, depth, start, table, scanned, queue), turns)
    ensures var turned := DriveAll(setup, true, Started(setup, depth, start, table, scanned, queue), turns);
            turned.Stops? ==> turned.reason == TooDeepReorg
  {
    var w := Started(setup, depth, start, table, scanned, queue);
    StartGood(depth, start, table.Keys, scanned, latest);
    StartView(depth, start, table.Keys, scanned, latest);
    OnlyDeepReorgsStop(setup, w, FloorOf(depth, start, table.Keys, latest), turns);
  }

  // ---------------------------------------------------------------- state

  /** What a turn does to the state machine. */
  function TurnOps<S, R, C>(setup: Setup<S, R, C>, w: World<S>, turn: Turn<R>): seq<Op<R>> {
    match turn
    case Completed(value, _) => [Resumed(value)]
    case Watch(poll, _, _) =>
      var (view, _, watched) := WatchSpec(setup.index, w.view, w.step, poll);
      if watched.Got? then [Handle(watched.update), States.Prune(StatusOf(view).safe)] else []
  }

  function AllOps<S, R, C>(setup: Setup<S, R, C>, w: World<S>, turns: seq<Turn<R>>): seq<Op<R>>
    decreases |turns|
  {
    if turns == [] then []
    else
      TurnOps(setup, w, turns[0])
      + (match Drive(setup, true, w, turns[0])
         case Stops(_) => []
         case Continues(next, _, _) => AllOps(setup, next, turns[1..]))
  }

  lemma {:induction false} OpsConcat<S, R, C>(t: Transition<S, R, C>, m: Machine<S>, a: seq<Op<R>>, b: seq<Op<R>>)
    requires History.Run(t, m, a).Ok?
    ensures History.Run(t, m, a + b) == History.Run(t, History.Run(t, m, a).value, b)
    decreases |a|
  {
    if a == [] {
      assert a + b == b;
    } else {
      assert (a + b)[1..] == a[1..] + b;
      OpsConcat(t, States.Perform(t, m, a[0]).value.0, a[1..], b);
    }
  }

  lemma TurnRunsOps<S, R, C>(setup: Setup<S, R, C>, w: World<S>, turn: Turn<R>)
    requires Drive(setup, true, w, turn).Continues?
    ensures History.Run(setup.transition, w.machine, TurnOps(setup, w, turn))
            == Ok(Drive(setup, true, w, turn).world.machine)
  {
    var ops := TurnOps(setup, w, turn);
    var next := Drive(setup, true, w, turn).world.machine;
    if |ops| == 2 {
      assert ops[1..] == [ops[1]];
      var handled := HandleSpec(setup.transition, w.machine, ops[0].update).value.0;
      assert History.Run(setup.transition, handled, ops[1..]) == Ok(next);
    }
  }

  lemma {:induction false} RunsOps<S, R, C>(setup: Setup<S, R, C>, w: World<S>, turns: seq<Turn<R>>)
    requires DriveAll(setup, true, w, turns).Continues?
    ensures History.Run(setup.transition, w.machine, AllOps(setup, w, turns))
            == Ok(DriveAll(setup, true, w, turns).world.machine)
    decreases |turns|
  {
    if turns != [] {
      var next := Drive(setup, true, w, turns[0]).world;
      TurnRunsOps(setup, w, turns[0]);
      RunsOps(setup, next, turns[1..]);
      OpsConcat(setup.transition, w.machine, TurnOps(setup, w, turns[0]), AllOps(setup, next, turns[1..]));
    }
  }

  /** In the running service, the state is the fold of the delivered messages that no roll back
      erased, and each snapshot the fold of its own prefix. */
  lemma ServiceStateIsFold<S, R, C>(setup: Setup<S, R, C>, w: World<S>, h: seq<History.Entry<R>>, turns: seq<Turn<R>>)
    requires History.Inv(setup.transition, w.machine, h)
    requires DriveAll(setup, true, w, turns).Continues?
    ensures History.IsFoldOf(setup.transition, DriveAll(setup, true, w, turns).world.machine,
                             History.Surviving(h, AllOps(setup, w, turns)))
  {
    var ops := AllOps(setup, w, turns);
    RunsOps(setup, w, turns);
    History.RunKeeps(setup.transition, w.machine, h, ops);
    History.InvMeans(setup.transition, DriveAll(setup, true, w, turns).world.machine, History.Surviving(h, ops));
  }

  lemma {:induction false} CommandsConcat<S, R, C>(t: Transition<S, R, C>, m: Machine<S>, a: seq<Op<R>>, b: seq<Op<R>>)
    requires History.Run(t, m, a).Ok?
    ensures History.RunCommands(t, m, a + b)
            == History.RunCommands(t, m, a) + History.RunCommands(t, History.Run(t, m, a).value, b)
    decreases |a|
  {
    if a == [] {
      assert a + b == b;
    } else {
      assert (a + b)[1..] == a[1..] + b;
      var (next, commands) := States.Perform(t, m, a[0]).value;
      CommandsConcat(t, next, a[1..], b);
    }
  }

  lemma TurnRunsCommands<S, R, C>(setup: Setup<S, R, C>, w: World<S>, turn: Turn<R>)
    requires Drive(setup, true, w, turn).Continues?
    ensures History.RunCommands(setup.transition, w.machine, TurnOps(setup, w, turn))
            == Drive(setup, true, w, turn).commands
  {
    var ops := TurnOps(setup, w, turn);
    var commands := Drive(setup, true, w, turn).commands;
    assert commands + [] == commands;
    if |ops| == 2 {
      assert ops[1..] == [ops[1]] && ops[1..][1..] == [];
      var handled := HandleSpec(setup.transition, w.machine, ops[0].update).value.0;
      assert History.RunCommands(setup.transition, handled, ops[1..]) == [] + [];
    } else if |ops| == 1 {
      assert ops[1..] == [];
    }
  }

  lemma {:induction false} RunsCommands<S, R, C>(setup: Setup<S, R, C>, w: World<S>, turns: seq<Turn<R>>)
    requires DriveAll(setup, true, w, turns).Continues?
    ensures History.RunCommands(setup.transition, w.machine, AllOps(setup, w, turns))
            == DriveAll(setup, true, w, turns).commands
    decreases |turns|
  {
    if turns != [] {
      var next := Drive(setup, true, w, turns[0]).world;
      TurnRunsOps(setup, w, turns[0]);
      TurnRunsCommands(setup, w, turns[0]);
      RunsCommands(setup, next, turns[1..]);
      CommandsConcat(setup.transition, w.machine, TurnOps(setup, w, turns[0]), AllOps(setup, next, turns[1..]));
    }
  }

  /** The commands the running service acts on are, in order, those of its delivered messages: none
      is lost, invented or repeated. */
  lemma ServiceIssues<S, R, C>(setup: Setup<S, R, C>, w: World<S>, h: seq<History.Entry<R>>, turns: seq<Turn<R>>)
    requires History.Inv(setup.transition, w.machine, h)
    requires DriveAll(setup, true, w, turns).Continues?
    ensures DriveAll(setup, true, w, turns).commands
            == History.IssuedBy(setup.transition, h, AllOps(setup, w, turns))
  {
    RunsOps(setup, w, turns);
    RunsCommands(setup, w, turns);
    History.RunIssues(setup.transition, w.machine, h, AllOps(setup, w, turns));
  }

  // ---------------------------------------------------------------- the chain under the view

  /** The account nonce after each block. */
  type Account = Hash -> nat

  /** `hashes` is a chain, by block number, whose top the view tracks. */
  predicate Backed(view: View, hashes: seq<Hash>) {
    && |hashes| == StatusOf(view).latest + 1
    && forall n: nat {:trigger HashAt(view.safe, view.recent, n)} ::
         view.safe.number <= n < |hashes| ==> HashAt(view.safe, view.recent, n) == Some(hashes[n])
  }

  predicate Rising(account: Account, hashes: seq<Hash>) {
    forall i, j :: 0 <= i <= j < |hashes| ==> account(hashes[i]) <= account(hashes[j])
  }

  function ChainOf(account: Account, hashes: seq<Hash>): Nonces {
    seq(|hashes|, i requires 0 <= i < |hashes| => account(hashes[i]))
  }

  function HashOr(hashes: seq<Hash>, n: nat, tip: Hash): Hash {
    if n < |hashes| then hashes[n] else tip
  }

  /** The chain under the next view. */
  function NextHashes(hashes: seq<Hash>, view: View): seq<Hash> {
    seq(StatusOf(view).latest + 1, i requires 0 <= i => HashOr(hashes, i, Tip(view).hash))
  }

  /** Account nonces never decrease from a block to its child. */
  predicate AccountOk(account: Account, poll: Poll) {
    poll.block.Found? ==> account(poll.block.parent) <= account(poll.block.hash)
  }

  lemma TipIsTop(view: View, hashes: seq<Hash>)
    requires WindowOk(view) && Backed(view, hashes)
    ensures hashes != [] && Tip(view).hash == hashes[|hashes| - 1]
  {
    assert HashAt(view.safe, view.recent, |hashes| - 1) == Some(hashes[|hashes| - 1]);
  }

  /** A poll that yields no update leaves the view alone; one that grows it appends a child of
      its tip. */
  lemma WatchGrows(c: Ev.Config, s: Sys, poll: Poll)
    requires Coherent(s)
    ensures var (view, _, watched) := WatchSpec(c, s.view, s.step, poll);
            && (watched.Retry? ==> view == s.view)
            && (StatusOf(view).latest > StatusOf(s.view).latest ==>
                  poll.block.Found? && poll.block.parent == Tip(s.view).hash && poll.block.hash == Tip(view).hash)
  {
    var logs := Ev.NextLogsSpec(c, s.step, poll.queries).1;
    if logs.Drained? {
      NextGrows(s.view, poll.block);
    } else if logs == Ev.LogsFailed(true) {
      RevalidateShrinks(s.view, poll.revalidation);
    }
  }

  lemma NextGrows(v: View, reply: Reply)
    requires WindowOk(v)
    ensures var (next, outcome) := NextSpec(v, reply);
            && (outcome == Waiting || outcome == RpcError ==> next == v)
            && (StatusOf(next).latest > StatusOf(v).latest ==>
                  reply.Found? && reply.parent == Tip(v).hash && reply.hash == Tip(next).hash)
  {
    if v.queue == [] && reply.Found? && Tip(v).hash == reply.parent {
      var grown := v.recent + [Header(v.pending, reply.hash, reply.parent)];
      assert grown[|grown| - 1].hash == reply.hash;
    }
  }

  lemma RevalidateShrinks(v: View, reply: Reply)
    requires WindowOk(v)
    ensures var (next, result) := RevalidateSpec(v, reply);
            && (!result.Invalidated? ==> next == v)
            && (result.Invalidated? ==> next.queue != [] && StatusOf(next).latest <= StatusOf(v).latest)
  {
  }

  /** A view that moved, together with the node's answer, is backed by the next chain. */
  lemma MovedBacked(v: View, view: View, hashes: seq<Hash>)
    requires WindowOk(v) && ViewMoves(v, view) && WindowOk(view) && Backed(v, hashes)
    ensures Backed(view, NextHashes(hashes, view))
  {
    var next := NextHashes(hashes, view);
    forall n: nat | view.safe.number <= n < |next| ensures HashAt(view.safe, view.recent, n) == Some(next[n]) {
      if n < |hashes| {
        assert HashAt(v.safe, v.recent, n) == Some(hashes[n]);
      }
    }
  }

  lemma NextRises(account: Account, hashes: seq<Hash>, view: View)
    requires hashes != [] && Rising(account, hashes) && StatusOf(view).latest <= |hashes|
    requires StatusOf(view).latest == |hashes| ==> account(hashes[|hashes| - 1]) <= account(Tip(view).hash)
    ensures Rising(account, NextHashes(hashes, view))
    ensures Follows(ChainOf(account, hashes), ChainOf(account, NextHashes(hashes, view)))
  {
    var next := NextHashes(hashes, view);
    assert forall i, j :: 0 <= i <= j < |next| && j < |hashes| ==> account(next[i]) <= account(next[j]);
  }

  /** The next view is backed by a chain that agrees with the old one as far as both go, and on
      which account nonces still never decrease. */
  lemma NextBacked(c: Ev.Config, account: Account, s: Sys, floor: nat, poll: Poll, hashes: seq<Hash>)
    requires Good(s, floor) && Tick(c, s, poll).Running? && WindowOk(Tick(c, s, poll).sys.view)
    requires Backed(s.view, hashes) && Rising(account, hashes) && AccountOk(account, poll)
    ensures var view := WatchSpec(c, s.view, s.step, poll).0;
            var next := NextHashes(hashes, view);
            && Backed(view, next) && Rising(account, next)
            && Follows(ChainOf(account, hashes), ChainOf(account, next))
            && StatusOf(s.view).safe <= StatusOf(view).safe <= StatusOf(view).latest
  {
    WatchMovesView(c, s, poll);
    WatchGrows(c, s, poll);
    TipIsTop(s.view, hashes);
    var view := WatchSpec(c, s.view, s.step, poll).0;
    MovedBacked(s.view, view, hashes);
    NextRises(account, hashes, view);
  }

  // ---------------------------------------------------------------- the queue

  function Batch(transactions: Queued, node: Tx.Node): seq<Input> {
    if transactions == [] then [] else [NewTransactions(transactions, node)]
  }

  /** What a turn hands to the transaction queue. */
  function TurnInputs<S, R, C>(setup: Setup<S, R, C>, account: Account, w: World<S>, hashes: seq<Hash>,
                               turn: Turn<R>): seq<Input> {
    match turn
    case Watch(poll, reconciling, queueing) => (
      var (view, _, watched) := WatchSpec(setup.index, w.view, w.step, poll);
      if !watched.Got? then []
      else match Advance(setup.transition, w.machine, watched.update, StatusOf(view).safe)
        case Err(_) => []
        case Ok(next) =>
          [NewView(StatusOf(view), ChainOf(account, NextHashes(hashes, view)), reconciling)]
          + Batch(Encoded(setup.encode, next.1), queueing))
    case Completed(value, queueing) =>
      Batch(Encoded(setup.encode, States.Perform(setup.transition, w.machine, Resumed(value)).value.1), queueing)
  }

  function TurnHashes<S, R, C>(setup: Setup<S, R, C>, w: World<S>, hashes: seq<Hash>, turn: Turn<R>): seq<Hash> {
    if turn.Watch? then NextHashes(hashes, WatchSpec(setup.index, w.view, w.step, turn.poll).0) else hashes
  }

  function AllInputs<S, R, C>(setup: Setup<S, R, C>, account: Account, w: World<S>, hashes: seq<Hash>,
                              turns: seq<Turn<R>>): seq<Input>
    decreases |turns|
  {
    if turns == [] then []
    else
      TurnInputs(setup, account, w, hashes, turns[0])
      + (match Drive(setup, true, w, turns[0])
         case Stops(_) => []
         case Continues(next, _, _) => AllInputs(setup, account, next, TurnHashes(setup, w, hashes, turns[0]),
                                                 turns[1..]))
  }

  /** A run of any operation, for which joining runs needs nothing about the queue. */
  function Fold(step: (Tx.Queue, Input) -> Tx.Outcome, q: Tx.Queue, inputs: seq<Input>): Tx.Outcome {
    if inputs == [] then Tx.Outcome(q, [], true)
    else
      var before := Fold(step, q, inputs[..|inputs| - 1]);
      Tx.After(before.actions, step(before.queue, inputs[|inputs| - 1]))
  }

  lemma {:induction false} FoldConcat(step: (Tx.Queue, Input) -> Tx.Outcome, q: Tx.Queue, a: seq<Input>, b: seq<Input>)
    ensures var first := Fold(step, q, a);
            var second := Fold(step, first.queue, b);
            var both := Fold(step, q, a + b);
            both.queue == second.queue && both.actions == first.actions + second.actions
    decreases |b|
  {
    var first := Fold(step, q, a);
    if b == [] {
      assert a + b == a;
      assert first.actions + [] == first.actions;
    } else {
      var k := |b| - 1;
      assert (a + b)[..|a + b| - 1] == a + b[..k];
      FoldConcat(step, q, a, b[..k]);
      var second := Fold(step, first.queue, b[..k]);
      var last := step(second.queue, b[k]);
      assert first.actions + (second.actions + last.actions) == (first.actions + second.actions) + last.actions;
    }
  }

  lemma {:induction false} RunIsFold(c: Tx.Config, pruning: bool, q: Tx.Queue, inputs: seq<Input>)
    ensures Run(c, pruning, q, inputs) == Fold((at, input) => TxRuns.Perform(c, pruning, at, input), q, inputs)
  {
    if inputs != [] {
      RunIsFold(c, pruning, q, inputs[..|inputs| - 1]);
    }
  }

  lemma RunConcat(c: Tx.Config, pruning: bool, q: Tx.Queue, a: seq<Input>, b: seq<Input>)
    ensures var first := Run(c, pruning, q, a);
            var second := Run(c, pruning, first.queue, b);
            var both := Run(c, pruning, q, a + b);
            both.queue == second.queue && both.actions == first.actions + second.actions
  {
    var step := (at: Tx.Queue, input: Input) => TxRuns.Perform(c, pruning, at, input);
    RunIsFold(c, pruning, q, a);
    RunIsFold(c, pruning, Run(c, pruning, q, a).queue, b);
    RunIsFold(c, pruning, q, a + b);
    FoldConcat(step, q, a, b);
  }

  lemma RunOne(c: Tx.Config, pruning: bool, q: Tx.Queue, input: Input)
    ensures Run(c, pruning, q, [input]).queue == TxRuns.Perform(c, pruning, q, input).queue
    ensures Run(c, pruning, q, [input]).actions == TxRuns.Perform(c, pruning, q, input).actions
  {
    assert [input][..0] == [];
    assert [] + TxRuns.Perform(c, pruning, q, input).actions == TxRuns.Perform(c, pruning, q, input).actions;
  }

  /** The queue part of a turn is a run over the turn's inputs; nothing else depends on it. */
  ghost predicate QueueFollows<S, C>(c: Tx.Config, pruning: bool, q: Tx.Queue, inputs: seq<Input>,
                                     full: Turned<S, C>, turned: Turned<S, C>) {
    match full
    case Stops(reason) => turned == full
    case Continues(world, commands, _) =>
      var done := Run(c, pruning, q, inputs);
      turned == Continues(world.(queue := done.queue), commands, done.actions)
  }

  lemma BatchIsRun(c: Tx.Config, pruning: bool, q: Tx.Queue, transactions: Queued, node: Tx.Node)
    ensures Run(c, pruning, q, Batch(transactions, node)).queue == Dispatch(c, q, transactions, node).queue
    ensures Run(c, pruning, q, Batch(transactions, node)).actions == Dispatch(c, q, transactions, node).actions
  {
    if transactions != [] {
      RunOne(c, pruning, q, NewTransactions(transactions, node));
    }
  }

  lemma TurnIsRun<S, R, C>(setup: Setup<S, R, C>, account: Account, w: World<S>, hashes: seq<Hash>,
                           pruning: bool, q: Tx.Queue, turn: Turn<R>)
    ensures QueueFollows(setup.queue, pruning, q, TurnInputs(setup, account, w, hashes, turn),
                         Drive(setup, true, w, turn), Drive(setup, pruning, w.(queue := q), turn))
  {
    match turn {
      case Completed(value, queueing) =>
        var commands := States.Perform(setup.transition, w.machine, Resumed(value)).value.1;
        BatchIsRun(setup.queue, pruning, q, Encoded(setup.encode, commands), queueing);
      case Watch(poll, reconciling, queueing) =>
        var (view, step, watched) := WatchSpec(setup.index, w.view, w.step, poll);
        if watched.Got? {
          var advanced := Advance(setup.transition, w.machine, watched.update, StatusOf(view).safe);
          if advanced.Ok? {
            var first := NewView(StatusOf(view), ChainOf(account, NextHashes(hashes, view)), reconciling);
            var batch := Encoded(setup.encode, advanced.value.1);
            RunOne(setup.queue, pruning, q, first);
            var reconciled := Tx.UpdateStatus(setup.queue, pruning, q, StatusOf(view), reconciling);
            BatchIsRun(setup.queue, pruning, reconciled.queue, batch, queueing);
            RunConcat(setup.queue, pruning, q, [first], Batch(batch, queueing));
          }
        }
    }
  }

  lemma {:induction false} DrivesTheQueue<S, R, C>(setup: Setup<S, R, C>, account: Account, w: World<S>,
                                                   hashes: seq<Hash>, pruning: bool, q: Tx.Queue, turns: seq<Turn<R>>)
    ensures QueueFollows(setup.queue, pruning, q, AllInputs(setup, account, w, hashes, turns),
                         DriveAll(setup, true, w, turns), DriveAll(setup, pruning, w.(queue := q), turns))
    decreases |turns|
  {
    if turns != [] {
      var here := TurnInputs(setup, account, w, hashes, turns[0]);
      TurnIsRun(setup, account, w, hashes, pruning, q, turns[0]);
      var turned := Drive(setup, true, w, turns[0]);
      if turned.Continues? {
        var next := TurnHashes(setup, w, hashes, turns[0]);
        var q1 := Run(setup.queue, pruning, q, here).queue;
        DrivesTheQueue(setup, account, turned.world, next, pruning, q1, turns[1..]);
        RunConcat(setup.queue, pruning, q, here, AllInputs(setup, account, turned.world, next, turns[1..]));
      }
    }
  }

  // ---------------------------------------------------------------- honesty

  /** The node answers nonce queries for the head of the watcher's current view. */
  predicate AnswersAt(account: Account, node: Tx.Node, view: View) {
    node.account.Some? ==> node.account.value == account(Tip(view).hash)
  }

  ghost predicate QueueTurn<S, R, C>(setup: Setup<S, R, C>, account: Account, w: World<S>, turn: Turn<R>) {
    match turn
    case Completed(_, queueing) => AnswersAt(account, queueing, w.view)
    case Watch(poll, reconciling, queueing) =>
      var view := WatchSpec(setup.index, w.view, w.step, poll).0;
      AccountOk(account, poll) && AnswersAt(account, reconciling, view) && AnswersAt(account, queueing, view)
  }

  ghost predicate QueueTurns<S, R, C>(setup: Setup<S, R, C>, account: Account, w: World<S>, turns: seq<Turn<R>>)
    decreases |turns|
  {
    turns == [] ||
    (QueueTurn(setup, account, w, turns[0])
     && (Drive(setup, true, w, turns[0]).Continues? ==>
           QueueTurns(setup, account, Drive(setup, true, w, turns[0]).world, turns[1..])))
  }

  /** Stored marks at or below the safe block of the first view are true of its chain: the
      queue does not check them again. */
  ghost predicate StoredMarksHold(rows: Table, inputs: seq<Input>) {
    forall k :: 0 <= k < |inputs| && inputs[k].NewView? && Seen(inputs[..k]).None? ==>
      forall r :: r in rows && r.executed.Some? && r.executed.value <= inputs[k].status.safe ==>
        MarkSound(r, inputs[k].chain)
  }

  /** The inputs so far were honest, and the last view among them is the current one. */
  ghost predicate Synced(rows: Table, account: Account, view: View, hashes: seq<Hash>, inputs: seq<Input>) {
    && Honest(rows, inputs)
    && Backed(view, hashes) && Rising(account, hashes)
    && match Seen(inputs)
       case None => true
       case Some(seen) =>
         seen.status == StatusOf(view) && seen.chain == ChainOf(account, hashes)
  }

  lemma BatchSynced(rows: Table, account: Account, view: View, hashes: seq<Hash>, inputs: seq<Input>,
                    transactions: Queued, node: Tx.Node)
    requires WindowOk(view) && Synced(rows, account, view, hashes, inputs) && AnswersAt(account, node, view)
    ensures Synced(rows, account, view, hashes, inputs + Batch(transactions, node))
  {
    TipIsTop(view, hashes);
    var more := inputs + Batch(transactions, node);
    if transactions == [] {
      assert more == inputs;
    } else {
      assert more[..|more| - 1] == inputs;
    }
  }

  lemma ViewSynced(rows: Table, account: Account, view: View, hashes: seq<Hash>, inputs: seq<Input>,
                   view': View, hashes': seq<Hash>, node: Tx.Node)
    requires Synced(rows, account, view, hashes, inputs)
    requires WindowOk(view') && Backed(view', hashes') && Rising(account, hashes')
    requires Follows(ChainOf(account, hashes), ChainOf(account, hashes'))
    requires StatusOf(view).safe <= StatusOf(view').safe && AnswersAt(account, node, view')
    requires var input := NewView(StatusOf(view'), ChainOf(account, hashes'), node);
             StoredMarksHold(rows, inputs + [input])
    ensures Synced(rows, account, view', hashes', inputs + [NewView(StatusOf(view'), ChainOf(account, hashes'), node)])
  {
    TipIsTop(view', hashes');
    var more := inputs + [NewView(StatusOf(view'), ChainOf(account, hashes'), node)];
    assert more[..|more| - 1] == inputs;
    assert more[|inputs|].NewView?;
  }

  lemma MarksHoldPrefix(rows: Table, inputs: seq<Input>, more: seq<Input>)
    requires StoredMarksHold(rows, inputs + more)
    ensures StoredMarksHold(rows, inputs)
  {
    forall k | 0 <= k < |inputs| && inputs[k].NewView? && Seen(inputs[..k]).None?
      ensures forall r :: r in rows && r.executed.Some? && r.executed.value <= inputs[k].status.safe ==>
                MarkSound(r, inputs[k].chain)
    {
      assert (inputs + more)[..k] == inputs[..k] && (inputs + more)[k] == inputs[k];
    }
  }

  lemma TurnSynced<S, R, C>(setup: Setup<S, R, C>, account: Account, rows: Table, w: World<S>, floor: nat,
                            hashes: seq<Hash>, inputs: seq<Input>, turn: Turn<R>)
    requires ServiceOk(setup.index) && Good(Project(w), floor)
    requires HonestTurn(setup, w, turn) && QueueTurn(setup, account, w, turn)
    requires Drive(setup, true, w, turn).Continues?
    requires Synced(rows, account, w.view, hashes, inputs)
    requires StoredMarksHold(rows, inputs + TurnInputs(setup, account, w, hashes, turn))
    ensures Synced(rows, account, Drive(setup, true, w, turn).world.view, TurnHashes(setup, w, hashes, turn),
                   inputs + TurnInputs(setup, account, w, hashes, turn))
  {
    match turn {
      case Completed(value, queueing) =>
        var commands := States.Perform(setup.transition, w.machine, Resumed(value)).value.1;
        BatchSynced(rows, account, w.view, hashes, inputs, Encoded(setup.encode, commands), queueing);
      case Watch(poll, reconciling, queueing) =>
        WatchSynced(setup, account, rows, w, floor, hashes, inputs, turn);
    }
  }

  lemma WatchSynced<S, R, C>(setup: Setup<S, R, C>, account: Account, rows: Table, w: World<S>, floor: nat,
                             hashes: seq<Hash>, inputs: seq<Input>, turn: Turn<R>)
    requires ServiceOk(setup.index) && Good(Project(w), floor) && turn.Watch?
    requires HonestTurn(setup, w, turn) && QueueTurn(setup, account, w, turn)
    requires Drive(setup, true, w, turn).Continues?
    requires Synced(rows, account, w.view, hashes, inputs)
    requires StoredMarksHold(rows, inputs + TurnInputs(setup, account, w, hashes, turn))
    ensures Synced(rows, account, Drive(setup, true, w, turn).world.view, TurnHashes(setup, w, hashes, turn),
                   inputs + TurnInputs(setup, account, w, hashes, turn))
  {
    var poll := turn.poll;
    var (view, step, watched) := WatchSpec(setup.index, w.view, w.step, poll);
    var next := NextHashes(hashes, view);
    DriveRefinesTick(setup, true, w, turn);
    TickKeeps(setup.index, Project(w), floor, poll);
    NextBacked(setup.index, account, Project(w), floor, poll, hashes);
    WatchGrows(setup.index, Project(w), poll);
    if watched.Got? {
      var commands := Advance(setup.transition, w.machine, watched.update, StatusOf(view).safe).value.1;
      GotSynced(rows, account, w.view, hashes, inputs, view, next, turn.reconciling, Encoded(setup.encode, commands),
                turn.queueing);
    } else {
      assert next == hashes;
      assert inputs + [] == inputs;
    }
  }

  lemma GotSynced(rows: Table, account: Account, view: View, hashes: seq<Hash>, inputs: seq<Input>,
                  view': View, hashes': seq<Hash>, reconciling: Tx.Node, transactions: Queued, queueing: Tx.Node)
    requires Synced(rows, account, view, hashes, inputs)
    requires WindowOk(view') && Backed(view', hashes') && Rising(account, hashes')
    requires Follows(ChainOf(account, hashes), ChainOf(account, hashes'))
    requires StatusOf(view).safe <= StatusOf(view').safe
    requires AnswersAt(account, reconciling, view') && AnswersAt(account, queueing, view')
    requires var input := NewView(StatusOf(view'), ChainOf(account, hashes'), reconciling);
             StoredMarksHold(rows, inputs + ([input] + Batch(transactions, queueing)))
    ensures var input := NewView(StatusOf(view'), ChainOf(account, hashes'), reconciling);
            Synced(rows, account, view', hashes', inputs + ([input] + Batch(transactions, queueing)))
  {
    var input := NewView(StatusOf(view'), ChainOf(account, hashes'), reconciling);
    var batch := Batch(transactions, queueing);
    assert inputs + ([input] + batch) == (inputs + [input]) + batch;
    MarksHoldPrefix(rows, inputs + [input], batch);
    ViewSynced(rows, account, view, hashes, inputs, view', hashes', reconciling);
    BatchSynced(rows, account, view', hashes', inputs + [input], transactions, queueing);
  }

  function LastHashes<S, R, C>(setup: Setup<S, R, C>, w: World<S>, hashes: seq<Hash>, turns: seq<Turn<R>>): seq<Hash>
    decreases |turns|
  {
    if turns == [] then hashes
    else match Drive(setup, true, w, turns[0])
      case Stops(_) => hashes
      case Continues(next, _, _) => LastHashes(setup, next, TurnHashes(setup, w, hashes, turns[0]), turns[1..])
  }

  /** Everything the transaction queue assumes of the views it is given holds of the watcher's. */
  lemma {:induction false} WatcherIsHonest<S, R, C>(setup: Setup<S, R, C>, account: Account, rows: Table, w: World<S>,
                                                    floor: nat, hashes: seq<Hash>, inputs: seq<Input>,
                                                    turns: seq<Turn<R>>)
    requires ServiceOk(setup.index) && Good(Project(w), floor)
    requires HonestTurns(setup, w, turns) && QueueTurns(setup, account, w, turns)
    requires DriveAll(setup, true, w, turns).Continues?
    requires Synced(rows, account, w.view, hashes, inputs)
    requires StoredMarksHold(rows, inputs + AllInputs(setup, account, w, hashes, turns))
    ensures Synced(rows, account, DriveAll(setup, true, w, turns).world.view, LastHashes(setup, w, hashes, turns),
                   inputs + AllInputs(setup, account, w, hashes, turns))
    decreases |turns|
  {
    if turns == [] {
      assert inputs + [] == inputs;
    } else {
      var turned := Drive(setup, true, w, turns[0]);
      var here := TurnInputs(setup, account, w, hashes, turns[0]);
      var next := TurnHashes(setup, w, hashes, turns[0]);
      var rest := AllInputs(setup, account, turned.world, next, turns[1..]);
      assert inputs + (here + rest) == (inputs + here) + rest;
      MarksHoldPrefix(rows, inputs + here, rest);
      TurnSynced(setup, account, rows, w, floor, hashes, inputs, turns[0]);
      DriveKeepsGood(setup, w, floor, turns[0]);
      WatcherIsHonest(setup, account, rows, turned.world, floor, next, inputs + here, turns[1..]);
    }
  }

  /** In the running service, deleting rows from the transaction table changes nothing: the
      service that never does reaches the same state, with the same commands and the same
      transactions sent under the same nonces. */
  lemma ServicePruningUnobservable<S, R, C>(setup: Setup<S, R, C>, account: Account, rows: Table, w: World<S>,
                                            floor: nat, hashes: seq<Hash>, turns: seq<Turn<R>>)
    requires ServiceOk(setup.index) && Good(Project(w), floor)
    requires HonestTurns(setup, w, turns) && QueueTurns(setup, account, w, turns)
    requires w.queue == Created(rows) && Stored(rows)
    requires Backed(w.view, hashes) && Rising(account, hashes)
    requires StoredMarksHold(rows, AllInputs(setup, account, w, hashes, turns))
    ensures var actual := DriveAll(setup, true, w, turns);
            var reference := DriveAll(setup, false, w, turns);
            match actual
            case Stops(reason) => reference == actual
            case Continues(world, commands, actions) =>
              && reference.Continues? && reference.commands == commands && reference.actions == actions
              && reference.world.(queue := world.queue) == world
  {
    var inputs := AllInputs(setup, account, w, hashes, turns);
    DrivesTheQueue(setup, account, w, hashes, true, w.queue, turns);
    DrivesTheQueue(setup, account, w, hashes, false, w.queue, turns);
    assert w.(queue := w.queue) == w;
    if DriveAll(setup, true, w, turns).Continues? {
      assert [] + inputs == inputs;
      WatcherIsHonest(setup, account, rows, w, floor, hashes, [], turns);
      PruningUnobservable(setup.queue, rows, inputs);
    }
  }

  /** Marks that are sound on the last view taken over are sound on the watcher's own blocks. */
  lemma MarksOnWindow(setup: Tx.Config, rows: Table, account: Account, view: View, hashes: seq<Hash>,
                      inputs: seq<Input>)
    requires Stored(rows) && Synced(rows, account, view, hashes, inputs) && Seen(inputs).Some?
    ensures forall r :: r in Run(setup, true, Created(rows), inputs).queue.rows
                        && r.executed.Some? && r.executed.value >= view.safe.number ==>
              var hash := HashAt(view.safe, view.recent, r.executed.value);
              hash.Some? && r.nonce.Some? && r.nonce.value < account(hash.value)
  {
    MarksAreSound(setup, rows, inputs);
    forall r | r in Run(setup, true, Created(rows), inputs).queue.rows
               && r.executed.Some? && r.executed.value >= view.safe.number
      ensures var hash := HashAt(view.safe, view.recent, r.executed.value);
              hash.Some? && r.nonce.Some? && r.nonce.value < account(hash.value)
    {
      assert HashAt(view.safe, view.recent, r.executed.value) == Some(hashes[r.executed.value]);
    }
  }

  /** In the running service, once a view has been taken over, every marked transaction that is
      still tracked was executed at or before the block it is marked with, on the watcher's
      own chain. */
  lemma ServiceMarksAreSound<S, R, C>(setup: Setup<S, R, C>, account: Account, rows: Table, w: World<S>, floor: nat,
                                      hashes: seq<Hash>, turns: seq<Turn<R>>)
    requires ServiceOk(setup.index) && Good(Project(w), floor)
    requires HonestTurns(setup, w, turns) && QueueTurns(setup, account, w, turns)
    requires w.queue == Created(rows) && Stored(rows)
    requires Backed(w.view, hashes) && Rising(account, hashes)
    requires StoredMarksHold(rows, AllInputs(setup, account, w, hashes, turns))
    requires DriveAll(setup, true, w, turns).Continues?
    requires Seen(AllInputs(setup, account, w, hashes, turns)).Some?
    ensures var world := DriveAll(setup, true, w, turns).world;
            forall r :: r in world.queue.rows && r.executed.Some? && r.executed.value >= world.view.safe.number ==>
              var hash := HashAt(world.view.safe, world.view.recent, r.executed.value);
              hash.Some? && r.nonce.Some? && r.nonce.value < account(hash.value)
  {
    var inputs := AllInputs(setup, account, w, hashes, turns);
    DrivesTheQueue(setup, account, w, hashes, true, w.queue, turns);
    assert w.(queue := w.queue) == w;
    assert [] + inputs == inputs;
    WatcherIsHonest(setup, account, rows, w, floor, hashes, [], turns);
    MarksOnWindow(setup.queue, rows, account, DriveAll(setup, true, w, turns).world.view,
                  LastHashes(setup, w, hashes, turns), inputs);
  }
}
