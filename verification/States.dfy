/**
 The reorg-aware state machine (crates/core/src/state/mod.rs): which indexer updates it
 accepts, what it delivers to the transition function, when it commits a snapshot and what
 it rolls back.
 */
module States {
  import opened Wrappers
  import opened Blocks
  import opened Events
  import opened Snapshots
  import opened Sets

  datatype Message<R> = NewBlock(number: nat) | Event(log: Log) | Resume(value: R)

  datatype Update = BlockChange(block: BlockUpdate) | LogsOf(from: nat, to: nat, logs: seq<Log>)

  datatype Status =
    | Initialized
    | BlockPending(pending: nat)
    | BlockEvents(latest: nat)
    | WarpEvents(from: nat, to: nat)

  datatype Error = BadUpdate | Storage(error: StoreError) | Poisoned

  /** A service's transition function and initial state. */
  datatype Transition<!S, !R, !C> = Transition(init: S, apply: (S, Message<R>) -> (S, seq<C>))

  // ---------------------------------------------------------------- acceptance

  /** The logs an update carries are strictly sorted and inside its block range. */
  predicate GoodLogs(from: nat, to: nat, logs: seq<Log>) {
    && StrictlySorted(logs)
    && forall i :: 0 <= i < |logs| ==> from <= logs[i].block <= to
  }

  /** The status after an update, or `None` when the update is refused as bad. Whether the
      store can serve a roll back is decided separately. */
  function Accept(status: Status, update: Update): Option<Status> {
    match update
    case BlockChange(Warp(from, to)) =>
      if (status == Initialized || status == BlockPending(from)) && from <= to
      then Some(WarpEvents(from, to)) else None
    case BlockChange(Uncle(number)) =>
      if (status.BlockPending? && number < status.pending) || (status.BlockEvents? && number <= status.latest)
      then Some(BlockPending(number)) else None
    case BlockChange(New(number, _)) =>
      if status == Initialized || status == BlockPending(number) then Some(BlockEvents(number)) else None
    case LogsOf(from, to, logs) =>
      if ((status == BlockEvents(from) && to == from)
          || (status.WarpEvents? && status.from == from && from <= to <= status.to))
         && GoodLogs(from, to, logs)
      then Some(if status.WarpEvents? && to < status.to then WarpEvents(to + 1, status.to) else BlockPending(to + 1))
      else None
  }

  /** The snapshot a roll back of `uncle` needs is missing. */
  function RollbackError(keys: set<nat>, uncle: nat): Option<StoreError> {
    if uncle == 0 then Some(BlockNumberOverflow)
    else if uncle - 1 !in keys then Some(MissingSnapshot(uncle - 1))
    else None
  }

  // ---------------------------------------------------------------- one operation

  datatype Machine<S> = Machine(state: S, status: Status, table: map<nat, S>)

  datatype Op<R> = Handle(update: Update) | Resumed(value: R) | Prune(safe: nat) | Restart

  /** Delivers messages in order, collecting the commands. */
  function Deliver<S, R, C>(t: Transition<S, R, C>, state: S, messages: seq<Message<R>>): (S, seq<C>) {
    if messages == [] then (state, [])
    else
      var (next, commands) := t.apply(state, messages[0]);
      var (last, rest) := Deliver(t, next, messages[1..]);
      (last, commands + rest)
  }

  function Flatten<C>(outputs: seq<seq<C>>): seq<C> {
    if outputs == [] then [] else outputs[0] + Flatten(outputs[1..])
  }

  /** Each message takes the state before it to the one after it, with its own commands. */
  ghost predicate Delivers<S, R, C>(t: Transition<S, R, C>, states: seq<S>, messages: seq<Message<R>>,
                                    outputs: seq<seq<C>>) {
    && |states| == |messages| + 1 && |outputs| == |messages|
    && forall i :: 0 <= i < |messages| ==> (states[i + 1], outputs[i]) == t.apply(states[i], messages[i])
  }

  /** Delivery applies the transition function to every message in turn, and collects the commands
      of each in order. */
  lemma {:induction false} DeliverTrace<S, R, C>(t: Transition<S, R, C>, state: S, messages: seq<Message<R>>)
    returns (states: seq<S>, outputs: seq<seq<C>>)
    ensures Delivers(t, states, messages, outputs) && states[0] == state
    ensures Deliver(t, state, messages) == (states[|messages|], Flatten(outputs))
    decreases |messages|
  {
    if messages == [] {
      states, outputs := [state], [];
    } else {
      var (next, commands) := t.apply(state, messages[0]);
      var restStates, restOutputs := DeliverTrace(t, next, messages[1..]);
      states, outputs := [state] + restStates, [commands] + restOutputs;
      assert outputs[1..] == restOutputs;
      forall i | 0 <= i < |messages| ensures (states[i + 1], outputs[i]) == t.apply(states[i], messages[i]) {
        if i > 0 {
          assert messages[1..][i - 1] == messages[i];
        }
      }
    }
  }

  /** The logs of an update: the states between them, and the commands of each in order. */
  ghost predicate DeliversLogs<S(!new), R, C(!new)>(t: Transition<S, R, C>, from: S, logs: seq<Log>, to: S,
                                                    commands: seq<C>) {
    exists states, outputs ::
      && Delivers(t, states, EventMessages<R>(logs), outputs)
      && states[0] == from && states[|logs|] == to && commands == Flatten(outputs)
  }

  function EventMessages<R>(logs: seq<Log>): seq<Message<R>> {
    seq(|logs|, i requires 0 <= i < |logs| => Event(logs[i]))
  }

  function HandleSpec<S, R, C>(t: Transition<S, R, C>, m: Machine<S>, update: Update)
    : Result<(Machine<S>, seq<C>), Error>
  {
    var status := Accept(m.status, update);
    if status.None? then Err(BadUpdate)
    else match update
      case BlockChange(Warp(_, _)) => Ok((m.(status := status.value), []))
      case BlockChange(Uncle(number)) =>
        var error := RollbackError(m.table.Keys, number);
        if error.Some? then Err(Storage(error.value))
        else Ok((Machine(m.table[number - 1], status.value, Below(m.table, number)), []))
      case BlockChange(New(number, _)) =>
        var (state, commands) := t.apply(m.state, NewBlock(number));
        Ok((m.(state := state, status := status.value), commands))
      case LogsOf(_, to, logs) =>
        var (state, commands) := Deliver(t, m.state, EventMessages(logs));
        Ok((Machine(state, status.value, m.table[to := state]), commands))
  }

  function StartFrom<S, R, C>(t: Transition<S, R, C>, table: map<nat, S>): Machine<S> {
    if table.Keys == {} then Machine(t.init, Initialized, table)
    else Machine(table[Max(table.Keys)], BlockPending(Max(table.Keys) + 1), table)
  }

  function Perform<S, R, C>(t: Transition<S, R, C>, m: Machine<S>, op: Op<R>): Result<(Machine<S>, seq<C>), Error> {
    match op
    case Handle(update) => HandleSpec(t, m, update)
    case Resumed(value) =>
      var (state, commands) := t.apply(m.state, Resume(value));
      Ok((m.(state := state), commands))
    case Prune(safe) => Ok((m.(table := Pruned(m.table, safe)), []))
    case Restart => Ok((StartFrom(t, m.table), []))
  }

  // ---------------------------------------------------------------- the class

  class StateMachine<S(!new), R, C(!new)> {
    const transition: Transition<S, R, C>
    const snapshots: SnapshotStore<S>
    var inner: Option<(S, Status)>

    /** Starts from the latest snapshot, or from the initial state when there is none. */
    constructor (transition: Transition<S, R, C>, snapshots: SnapshotStore<S>)
      ensures this.transition == transition && this.snapshots == snapshots
      ensures inner.Some? && Abs() == StartFrom(transition, snapshots.table)
    {
      this.transition, this.snapshots := transition, snapshots;
      inner := None;
      new;
      var tip := snapshots.Current();
      match tip {
        case Some(latest) => inner := Some((latest.1, BlockPending(latest.0 + 1)));
        case None => inner := Some((transition.init, Initialized));
      }
    }

    function Abs(): Machine<S>
      requires inner.Some?
      reads this, snapshots
    {
      Machine(inner.value.0, inner.value.1, snapshots.table)
    }

    /** Handles an indexer update. An error poisons the machine: the state was taken out and
        is not put back. */
    method HandleUpdate(update: Update) returns (result: Result<seq<C>, Error>)
      modifies this, snapshots
      ensures old(inner).None? ==> result == Err(Poisoned)
      ensures old(inner).Some? ==>
                match HandleSpec(transition, old(Abs()), update)
                case Ok(next) => result == Ok(next.1) && inner.Some? && Abs() == next.0
                case Err(error) => result == Err(error) && inner.None? && snapshots.table == old(snapshots.table)
      ensures result.Ok? ==>
                match update
                case LogsOf(_, _, logs) =>
                  DeliversLogs(transition, old(inner.value.0), logs, inner.value.0, result.value)
                case BlockChange(New(number, _)) =>
                  (inner.value.0, result.value) == transition.apply(old(inner.value.0), NewBlock(number))
                case _ => result.value == []
    {
      if inner.None? { return Err(Poisoned); }
      var (state, status) := inner.value;
      inner := None;
      var commands: seq<C> := [];
      match update {
        case BlockChange(Warp(from, to)) =>
          if status != Initialized && status != BlockPending(from) { return Err(BadUpdate); }
          if from > to { return Err(BadUpdate); }
          status := WarpEvents(from, to);
        case BlockChange(Uncle(number)) =>
          if !(status.BlockPending? && number < status.pending)
             && !(status.BlockEvents? && number <= status.latest) { return Err(BadUpdate); }
          var restored := snapshots.Reorg(number);
          if restored.Err? { return Err(Storage(restored.error)); }
          state, status := restored.value.1, BlockPending(number);
        case BlockChange(New(number, _)) =>
          if status != Initialized && status != BlockPending(number) { return Err(BadUpdate); }
          var (next, emitted) := transition.apply(state, NewBlock(number));
          state, commands, status := next, emitted, BlockEvents(number);
        case LogsOf(from, to, logs) =>
          if status != BlockEvents(from) || to != from {
            if !status.WarpEvents? || status.from != from || !(from <= to <= status.to) { return Err(BadUpdate); }
          }
          if !GoodLogs(from, to, logs) { return Err(BadUpdate); }
          state, commands := DeliverEvents(state, logs);
          status := if status.WarpEvents? && to < status.to then WarpEvents(to + 1, status.to)
                    else BlockPending(to + 1);
          snapshots.Commit(to, state);
      }
      inner := Some((state, status));
      result := Ok(commands);
    }

    method DeliverEvents(state: S, logs: seq<Log>) returns (next: S, commands: seq<C>)
      ensures (next, commands) == Deliver(transition, state, EventMessages(logs))
      ensures DeliversLogs(transition, state, logs, next, commands)
    {
      ghost var states, outputs := DeliverTrace(transition, state, EventMessages<R>(logs));
      next, commands := state, [];
      ghost var messages := EventMessages<R>(logs);
      ghost var whole := Deliver(transition, state, messages);
      assert messages[0..] == messages;
      assert [] + whole.1 == whole.1;
      for i := 0 to |logs|
        invariant |messages| == |logs|
        invariant whole == (Deliver(transition, next, messages[i..]).0,
                            commands + Deliver(transition, next, messages[i..]).1)
      {
        var (newState, newCommands) := transition.apply(next, Event(logs[i]));
        assert messages[i..][1..] == messages[i + 1..];
        ghost var rest := Deliver(transition, newState, messages[i + 1..]).1;
        assert commands + (newCommands + rest) == (commands + newCommands) + rest;
        next, commands := newState, commands + newCommands;
      }
      assert messages[|logs|..] == [];
      assert commands + [] == commands;
    }

    /** Delivers a completed effect; nothing is committed. */
    method HandleResume(value: R) returns (result: Result<seq<C>, Error>)
      modifies this
      ensures old(inner).None? ==> result == Err(Poisoned) && inner == old(inner)
      ensures old(inner).Some? ==>
                var next := Perform(transition, old(Abs()), Resumed(value)).value;
                result == Ok(next.1) && inner.Some? && Abs() == next.0
    {
      if inner.None? { return Err(Poisoned); }
      var (state, commands) := transition.apply(inner.value.0, Resume(value));
      inner := Some((state, inner.value.1));
      result := Ok(commands);
    }

    method PruneBelow(safe: nat)
      modifies snapshots
      ensures snapshots.table == Pruned(old(snapshots.table), safe)
    {
      snapshots.Prune(safe);
    }
  }
}
