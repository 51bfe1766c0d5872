/**
 The driver (crates/core/src/driver.rs): one watcher update or completed effect at a time. An
 update first reconciles the transaction queue with the watcher's view, then advances the
 state machine, then prunes its snapshots, and at last queues the transactions commanded.
 */
module Drivers {
  import opened Wrappers
  import opened Blocks
  import Ev = Events
  import opened States
  import Snapshots
  import opened Pipeline
  import opened TxTable
  import Tx = TxQueue

  type Queued = seq<(TxTable.Tx, Option<nat>)>

  /** A service: its indexer and queue configuration, its transition function, and how it
      encodes a command; a command that is not an action is an effect. */
  datatype Setup<!S, !R, !C> = Setup(
    index: Ev.Config,
    queue: Tx.Config,
    transition: Transition<S, R, C>,
    encode: C -> Option<(TxTable.Tx, Option<nat>)>)

  /** One selected input, with every answer of the node while it is processed. */
  datatype Turn<R> =
    | Watch(poll: Poll, reconciling: Tx.Node, queueing: Tx.Node)
    | Completed(value: R, queueing: Tx.Node)

  datatype World<S> = World(view: View, step: Ev.Step, machine: Machine<S>, queue: Tx.Queue)

  datatype Stop = TooDeepReorg | Failed(error: Error)

  datatype Turned<S, C> =
    | Continues(world: World<S>, commands: seq<C>, actions: seq<Tx.Action>)
    | Stops(reason: Stop)

  // ---------------------------------------------------------------- specification

  function Encoded<C>(encode: C -> Option<(TxTable.Tx, Option<nat>)>, commands: seq<C>): Queued {
    if commands == [] then []
    else (if encode(commands[0]).Some? then [encode(commands[0]).value] else []) + Encoded(encode, commands[1..])
  }

  /** Commands are encoded one by one and in order: an action gives its one transaction, an effect
      none, and a sequence of commands what its parts give, one after the other. */
  lemma {:induction false} EncodedInOrder<C>(encode: C -> Option<(TxTable.Tx, Option<nat>)>, before: seq<C>, command: C,
                                             after: seq<C>)
    ensures var one := encode(command);
            Encoded(encode, before + [command] + after)
            == Encoded(encode, before) + (if one.Some? then [one.value] else []) + Encoded(encode, after)
    decreases |before|
  {
    var all := before + [command] + after;
    if before == [] {
      assert all[0] == command && all[1..] == after;
    } else {
      assert all[0] == before[0] && all[1..] == before[1..] + [command] + after;
      EncodedInOrder(encode, before[1..], command, after);
    }
  }

  function Dispatch(c: Tx.Config, q: Tx.Queue, transactions: Queued, node: Tx.Node): Tx.Outcome {
    if transactions == [] then Tx.Outcome(q, [], true) else Tx.Enqueue(c, q, transactions, node)
  }

  /** The state machine's part of an update. */
  function Advance<S, R, C>(t: Transition<S, R, C>, m: Machine<S>, update: Update, safe: nat)
    : Result<(Machine<S>, seq<C>), Error>
  {
    var next := HandleSpec(t, m, update);
    if next.Err? then next else Ok((next.value.0.(table := Snapshots.Pruned(next.value.0.table, safe)), next.value.1))
  }

  function OnUpdate<S, R, C>(setup: Setup<S, R, C>, pruning: bool, w: World<S>, view: View, step: Ev.Step,
                             update: Update, reconciling: Tx.Node, queueing: Tx.Node): Turned<S, C>
  {
    var status := StatusOf(view);
    var reconciled := Tx.UpdateStatus(setup.queue, pruning, w.queue, status, reconciling);
    match Advance(setup.transition, w.machine, update, status.safe)
    case Err(error) => Stops(Stop.Failed(error))
    case Ok(next) =>
      var queued := Dispatch(setup.queue, reconciled.queue, Encoded(setup.encode, next.1), queueing);
      Continues(World(view, step, next.0, queued.queue), next.1, reconciled.actions + queued.actions)
  }

  /** A failure to get an update is retried, except a reorg below the safe block. */
  function Drive<S, R, C>(setup: Setup<S, R, C>, pruning: bool, w: World<S>, turn: Turn<R>): Turned<S, C> {
    match turn
    case Watch(poll, reconciling, queueing) => (
      var (view, step, watched) := WatchSpec(setup.index, w.view, w.step, poll);
      match watched
      case Got(update) => OnUpdate(setup, pruning, w, view, step, update, reconciling, queueing)
      case TooDeep => Stops(TooDeepReorg)
      case _ => Continues(w.(view := view, step := step), [], []))
    case Completed(value, queueing) =>
      var next := States.Perform(setup.transition, w.machine, Resumed(value)).value;
      var queued := Dispatch(setup.queue, w.queue, Encoded(setup.encode, next.1), queueing);
      Continues(w.(machine := next.0, queue := queued.queue), next.1, queued.actions)
  }

  // ---------------------------------------------------------------- the class

  class Driver<S(!new), R, C(!new)> {
    const watcher: Watcher
    const machine: StateMachine<S, R, C>
    const transactions: Tx.TransactionQueue
    const encode: C -> Option<(TxTable.Tx, Option<nat>)>

    constructor (watcher: Watcher, machine: StateMachine<S, R, C>, transactions: Tx.TransactionQueue,
                 encode: C -> Option<(TxTable.Tx, Option<nat>)>)
      ensures this.watcher == watcher && this.machine == machine && this.transactions == transactions
      ensures this.encode == encode
    {
      this.watcher, this.machine, this.transactions, this.encode := watcher, machine, transactions, encode;
    }

    ghost function Service(): Setup<S, R, C> {
      Setup(watcher.events.config, transactions.config, machine.transition, encode)
    }

    ghost predicate Valid()
      reads this, machine, transactions, transactions.storage
    {
      machine.inner.Some? && transactions.storage.Valid()
    }

    function Abs(): World<S>
      requires machine.inner.Some?
      reads this, watcher, watcher.blocks, watcher.events, machine, machine.snapshots
      reads transactions, transactions.storage
    {
      World(watcher.blocks.Abs(), watcher.events.step, machine.Abs(), transactions.Abs())
    }

    /** Processes the next watcher update or completed effect. An error stops the driver. */
    method Update(turn: Turn<R>) returns (result: Result<(seq<C>, seq<Tx.Action>), Stop>)
      requires Valid()
      modifies watcher.blocks, watcher.events, machine, machine.snapshots, transactions, transactions.storage
      ensures match Drive(Service(), true, old(Abs()), turn)
              case Continues(world, commands, actions) => Valid() && Abs() == world && result == Ok((commands, actions))
              case Stops(reason) => result == Err(reason)
    {
      var commands: seq<C>;
      var actions: seq<Tx.Action> := [];
      match turn {
        case Watch(poll, reconciling, queueing) =>
          var watched := watcher.Next(poll);
          if watched == TooDeep { return Err(TooDeepReorg); }
          if !watched.Got? { return Ok(([], [])); }
          var status := watcher.blocks.Status();
          var ok;
          actions, ok := transactions.UpdateBlockStatus(status, reconciling);
          var handled := machine.HandleUpdate(watched.update);
          if handled.Err? { return Err(Stop.Failed(handled.error)); }
          machine.PruneBelow(status.safe);
          commands := handled.value;
        case Completed(value, queueing) =>
          var resumed := machine.HandleResume(value);
          commands := resumed.value;
      }
      var batch := Encode(commands);
      assert actions + [] == actions;
      if batch != [] {
        var queued, ok := transactions.QueueTransactions(batch, turn.queueing);
        assert [] + queued == queued;
        actions := actions + queued;
      }
      result := Ok((commands, actions));
    }

    method Encode(commands: seq<C>) returns (batch: Queued)
      ensures batch == Encoded(encode, commands)
    {
      batch := [];
      assert commands[0..] == commands;
      for i := 0 to |commands|
        invariant batch + Encoded(encode, commands[i..]) == Encoded(encode, commands)
      {
        assert commands[i..][1..] == commands[i + 1..];
        var encoded := encode(commands[i]);
        var one := if encoded.Some? then [encoded.value] else [];
        assert batch + (one + Encoded(encode, commands[i + 1..])) == (batch + one) + Encoded(encode, commands[i + 1..]);
        batch := batch + one;
      }
    }
  }
}
