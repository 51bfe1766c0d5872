/**
 Whatever updates are offered, the accepted ones deliver messages in chain order: no position is
 delivered twice or out of order, and no block is skipped, in the history that survives.
 */
module MessageOrder {
  import opened Wrappers
  import opened Blocks
  import opened Events
  import opened Sets
  import opened States
  import opened History

  /** A block opens at kind 0, its events follow at kind 1, and its commit is kind 2. */
  datatype Position = Position(block: nat, kind: nat, index: nat)

  predicate Less(a: Position, b: Position) {
    a.block < b.block || (a.block == b.block && (a.kind < b.kind || (a.kind == b.kind && a.index < b.index)))
  }

  /** Completed effects have no position in the chain. */
  function PositionOf<R>(e: Entry<R>): Option<Position> {
    match e
    case Delivered(NewBlock(number)) => Some(Position(number, 0, 0))
    case Delivered(Event(log)) => Some(Position(log.block, 1, log.index))
    case Delivered(Resume(_)) => None
    case Mark(number) => Some(Position(number, 2, 0))
  }

  /** Positions increase strictly and stay below `bound`. */
  predicate Ordered<R>(h: seq<Entry<R>>, bound: Position) {
    h == [] ||
    var last := PositionOf(h[|h| - 1]);
    if last.None? then Ordered(h[..|h| - 1], bound)
    else Less(last.value, bound) && Ordered(h[..|h| - 1], last.value)
  }

  /** The last entry that has a position. */
  function Latest<R>(h: seq<Entry<R>>): Option<Entry<R>> {
    if h == [] then None
    else if PositionOf(h[|h| - 1]).Some? then Some(h[|h| - 1]) else Latest(h[..|h| - 1])
  }

  /** A block opens right after the commit of the block below it, or first of all. */
  predicate NoSkip<R>(h: seq<Entry<R>>) {
    h == [] ||
    var (before, last) := (h[..|h| - 1], h[|h| - 1]);
    && NoSkip(before)
    && (last.Delivered? && last.message.NewBlock? ==>
          Latest(before).None?
          || (last.message.number > 0 && Latest(before) == Some(Mark(last.message.number - 1))))
  }

  /** Where the next position must lie. */
  function BoundOf(status: Status): Position {
    match status
    case Initialized => Position(0, 0, 0)
    case BlockPending(pending) => Position(pending, 0, 0)
    case BlockEvents(latest) => Position(latest, 1, 0)
    case WarpEvents(from, _) => Position(from, 0, 0)
  }

  predicate Sequenced<R>(h: seq<Entry<R>>, status: Status) {
    && Ordered(h, BoundOf(status)) && NoSkip(h)
    && (status.BlockPending? ==> status.pending > 0 && Latest(h) == Some(Mark(status.pending - 1)))
    && (status.BlockEvents? ==> Latest(h) == Some(Delivered(NewBlock(status.latest))))
    && (status.Initialized? ==> Latest(h).None?)
  }

  // ---------------------------------------------------------------- extending and erasing

  lemma {:induction false} OrderedMore<R>(h: seq<Entry<R>>, bound: Position, more: Position)
    requires Ordered(h, bound) && (bound == more || Less(bound, more))
    ensures Ordered(h, more)
  {
    if h != [] && PositionOf(h[|h| - 1]).None? {
      OrderedMore(h[..|h| - 1], bound, more);
    }
  }

  lemma OrderedPrefix<R>(h: seq<Entry<R>>, e: Entry<R>, bound: Position, more: Position)
    requires Ordered(h, bound)
    requires var p := PositionOf(e); p.Some? ==> (p.value == bound || Less(bound, p.value)) && Less(p.value, more)
    requires PositionOf(e).None? ==> bound == more
    ensures Ordered(h + [e], more)
  {
    assert (h + [e])[..|h|] == h;
    if PositionOf(e).Some? {
      OrderedMore(h, bound, PositionOf(e).value);
    }
  }

  /** Sorted logs from some block on extend the order. */
  lemma {:induction false} EventsOrdered<R>(h: seq<Entry<R>>, logs: seq<Log>, bound: Position, to: nat)
    requires Ordered(h, bound) && StrictlySorted(logs) && Less(bound, Position(to, 2, 0))
    requires forall i :: 0 <= i < |logs| ==>
               (Position(logs[i].block, 1, logs[i].index) == bound
                || Less(bound, Position(logs[i].block, 1, logs[i].index)))
               && logs[i].block <= to
    ensures Ordered(h + Entries(EventMessages<R>(logs)), Position(to, 2, 0))
    ensures NoSkip(h) ==> NoSkip(h + Entries(EventMessages<R>(logs)))
    decreases |logs|
  {
    var messages: seq<Message<R>> := EventMessages(logs);
    if logs == [] {
      assert h + Entries(messages) == h;
      OrderedMore(h, bound, Position(to, 2, 0));
    } else {
      var k := |logs| - 1;
      var shorter: seq<Message<R>> := EventMessages(logs[..k]);
      var e: Entry<R> := Delivered(Event(logs[k]));
      var p := Position(logs[k].block, 1, logs[k].index);
      assert h + Entries(messages) == (h + Entries(shorter)) + [e];
      assert (h + Entries(messages))[..|h + Entries(messages)| - 1] == h + Entries(shorter);
      EventsBelow(h, logs[..k], bound, p);
    }
  }

  lemma {:induction false} EventsBelow<R>(h: seq<Entry<R>>, logs: seq<Log>, bound: Position, p: Position)
    requires Ordered(h, bound) && StrictlySorted(logs) && (bound == p || Less(bound, p))
    requires forall i :: 0 <= i < |logs| ==>
               var q := Position(logs[i].block, 1, logs[i].index);
               (q == bound || Less(bound, q)) && Less(q, p)
    ensures Ordered(h + Entries(EventMessages<R>(logs)), p)
    ensures NoSkip(h) ==> NoSkip(h + Entries(EventMessages<R>(logs)))
    decreases |logs|
  {
    var messages: seq<Message<R>> := EventMessages(logs);
    if logs == [] {
      assert h + Entries(messages) == h;
      OrderedMore(h, bound, p);
    } else {
      var k := |logs| - 1;
      var shorter: seq<Message<R>> := EventMessages(logs[..k]);
      var q := Position(logs[k].block, 1, logs[k].index);
      assert (h + Entries(messages))[..|h + Entries(messages)| - 1] == h + Entries(shorter);
      forall i | 0 <= i < k ensures Less(Position(logs[i].block, 1, logs[i].index), q) {
        assert Before(logs[i], logs[k]);
      }
      EventsBelow(h, logs[..k], bound, q);
    }
  }

  lemma {:induction false} ErasedOrdered<R>(h: seq<Entry<R>>, bound: Position, number: nat)
    requires Ordered(h, bound) && NoSkip(h)
    ensures Ordered(Erase(h, number), Position(number, 0, 0)) && NoSkip(Erase(h, number))
    ensures Erase(h, number) != [] ==> Latest(Erase(h, number)) == Some(Erase(h, number)[|Erase(h, number)| - 1])
  {
    if h != [] {
      var last := h[|h| - 1];
      if !(last.Mark? && last.number < number) {
        ErasedOrdered(h[..|h| - 1], if PositionOf(last).Some? then PositionOf(last).value else bound, number);
      }
    }
  }

  lemma {:induction false} UncommittedOrdered<R>(h: seq<Entry<R>>, bound: Position)
    requires Ordered(h, bound) && NoSkip(h)
    ensures var kept := EraseUncommitted(h);
            && NoSkip(kept)
            && (kept == [] || (kept[|kept| - 1].Mark? && Latest(kept) == Some(kept[|kept| - 1])
                && Ordered(kept, Position(kept[|kept| - 1].number + 1, 0, 0))))
  {
    if h != [] {
      var last := h[|h| - 1];
      if !last.Mark? {
        UncommittedOrdered(h[..|h| - 1], if PositionOf(last).Some? then PositionOf(last).value else bound);
      }
    }
  }

  // ---------------------------------------------------------------- operations

  /** What an accepted log update says about its positions. */
  lemma AcceptedLogs(status: Status, update: Update)
    requires update.LogsOf? && Accept(status, update).Some?
    ensures StrictlySorted(update.logs) && Less(BoundOf(status), Position(update.to, 2, 0))
    ensures forall i :: 0 <= i < |update.logs| ==>
              var p := Position(update.logs[i].block, 1, update.logs[i].index);
              (p == BoundOf(status) || Less(BoundOf(status), p)) && update.logs[i].block <= update.to
    ensures var next := Accept(status, update).value;
            BoundOf(next) == Position(update.to + 1, 0, 0) && !next.Initialized?
            && (next.BlockPending? ==> next.pending == update.to + 1)
  {
  }

  lemma MarkSequenced<R>(events: seq<Entry<R>>, to: nat, next: Status)
    requires Ordered(events, Position(to, 2, 0)) && NoSkip(events)
    requires BoundOf(next) == Position(to + 1, 0, 0) && !next.Initialized?
    requires next.BlockPending? ==> next.pending == to + 1
    ensures Sequenced(events + [Mark(to)], next)
  {
    var h := events + [Mark(to)];
    assert h[..|h| - 1] == events;
    assert Latest(h) == Some(Mark(to));
  }

  lemma LogsSequenced<S, R, C>(t: Transition<S, R, C>, m: Machine<S>, h: seq<Entry<R>>, update: Update)
    requires update.LogsOf? && HandleSpec(t, m, update).Ok? && Sequenced(h, m.status)
    ensures Sequenced(Record(h, Handle(update)), HandleSpec(t, m, update).value.0.status)
  {
    AcceptedLogs(m.status, update);
    EventsOrdered(h, update.logs, BoundOf(m.status), update.to);
    MarkSequenced(h + Entries(EventMessages<R>(update.logs)), update.to, Accept(m.status, update).value);
  }

  lemma NewSequenced<R>(h: seq<Entry<R>>, status: Status, number: nat)
    requires Sequenced(h, status) && (status.Initialized? || status == BlockPending(number))
    ensures Sequenced(h + [Delivered(NewBlock(number))], BlockEvents(number))
  {
    OrderedMore(h, BoundOf(status), Position(number, 0, 0));
    var h' := h + [Delivered(NewBlock(number))];
    assert h'[..|h'| - 1] == h;
  }

  lemma ErasedSequenced<R>(h: seq<Entry<R>>, bound: Position, number: nat)
    requires Ordered(h, bound) && NoSkip(h) && number > 0 && EndsWithMark(UpTo(h, number - 1), number - 1)
    ensures Sequenced(Erase(h, number), BlockPending(number))
  {
    ErasedOrdered(h, bound, number);
  }

  lemma WarpSequenced<R>(h: seq<Entry<R>>, status: Status, from: nat, to: nat)
    requires Sequenced(h, status) && (status.Initialized? || status == BlockPending(from))
    ensures Sequenced(h, WarpEvents(from, to))
  {
    OrderedMore(h, BoundOf(status), Position(from, 0, 0));
  }

  lemma UpdateSequenced<S, R, C>(t: Transition<S, R, C>, m: Machine<S>, h: seq<Entry<R>>, update: Update)
    requires HandleSpec(t, m, update).Ok? && Sequenced(h, m.status)
    requires update.BlockChange? && update.block.Uncle? ==>
               var number := update.block.number;
               number > 0 && EndsWithMark(UpTo(h, number - 1), number - 1)
    ensures Sequenced(Record(h, Handle(update)), HandleSpec(t, m, update).value.0.status)
  {
    match update {
      case LogsOf(_, _, _) => LogsSequenced(t, m, h, update);
      case BlockChange(Warp(from, to)) => WarpSequenced(h, m.status, from, to);
      case BlockChange(New(number, _)) => NewSequenced(h, m.status, number);
      case BlockChange(Uncle(number)) => ErasedSequenced(h, BoundOf(m.status), number);
    }
  }

  /** A block that is taken back has the snapshot of its parent, and so the parent's commit. */
  lemma ParentIsCommitted<S, R, C>(t: Transition<S, R, C>, m: Machine<S>, h: seq<Entry<R>>, number: nat)
    requires Inv(t, m, h) && HandleSpec(t, m, BlockChange(Uncle(number))).Ok?
    ensures number > 0 && EndsWithMark(UpTo(h, number - 1), number - 1)
  {
    RolledBack(t, m, number);
    SnapshotIsFold(t, m, h, number - 1);
  }

  lemma ResumeSequenced<R>(h: seq<Entry<R>>, status: Status, value: R)
    requires Sequenced(h, status)
    ensures Sequenced(h + [Delivered(Resume(value))], status)
  {
    var h' := h + [Delivered(Resume(value))];
    assert h'[..|h'| - 1] == h;
  }

  lemma RestartSequenced<S, R, C>(t: Transition<S, R, C>, m: Machine<S>, h: seq<Entry<R>>)
    requires Inv(t, m, h) && Sequenced(h, m.status)
    ensures Sequenced(EraseUncommitted(h), StartFrom(t, m.table).status)
  {
    UncommittedOrdered(h, BoundOf(m.status));
  }

  lemma StepSequenced<S, R, C>(t: Transition<S, R, C>, m: Machine<S>, h: seq<Entry<R>>, op: Op<R>)
    requires Inv(t, m, h) && Perform(t, m, op).Ok? && Sequenced(h, m.status)
    ensures Sequenced(Record(h, op), Perform(t, m, op).value.0.status)
  {
    match op {
      case Handle(update) =>
        if update.BlockChange? && update.block.Uncle? {
          ParentIsCommitted(t, m, h, update.block.number);
        }
        UpdateSequenced(t, m, h, update);
      case Resumed(value) => ResumeSequenced(h, m.status, value);
      case Prune(_) =>
      case Restart => RestartSequenced(t, m, h);
    }
  }

  lemma {:induction false} RunSequenced<S, R, C>(t: Transition<S, R, C>, m: Machine<S>, h: seq<Entry<R>>,
                                                 ops: seq<Op<R>>)
    requires Inv(t, m, h) && Run(t, m, ops).Ok? && Sequenced(h, m.status)
    ensures Sequenced(Surviving(h, ops), Run(t, m, ops).value.status)
    decreases |ops|
  {
    if ops != [] {
      StepSequenced(t, m, h, ops[0]);
      StepKeeps(t, m, h, ops[0]);
      RunSequenced(t, Perform(t, m, ops[0]).value.0, Record(h, ops[0]), ops[1..]);
    }
  }

  /** Strictly increasing positions, spelled out. */
  lemma {:induction false} OrderedMeans<R>(h: seq<Entry<R>>, bound: Position, i: nat, j: nat)
    requires Ordered(h, bound) && i < j < |h|
    requires PositionOf(h[i]).Some? && PositionOf(h[j]).Some?
    ensures Less(PositionOf(h[i]).value, PositionOf(h[j]).value) && Less(PositionOf(h[j]).value, bound)
  {
    var (before, last) := (h[..|h| - 1], PositionOf(h[|h| - 1]));
    if j < |h| - 1 {
      OrderedMeans(before, if last.Some? then last.value else bound, i, j);
    } else {
      OrderedBelow(before, last.value, i);
    }
  }

  lemma {:induction false} OrderedBelow<R>(h: seq<Entry<R>>, bound: Position, i: nat)
    requires Ordered(h, bound) && i < |h| && PositionOf(h[i]).Some?
    ensures Less(PositionOf(h[i]).value, bound)
  {
    if i < |h| - 1 {
      var last := PositionOf(h[|h| - 1]);
      OrderedBelow(h[..|h| - 1], if last.Some? then last.value else bound, i);
    }
  }

  /** From an empty store, whatever updates are offered and however roll backs, resumes and restarts
      fall in between: what survives of the delivered messages is in strict chain order, and every
      block opens right after the commit of the one below it. */
  lemma MessagesComeInOrder<S, R, C>(t: Transition<S, R, C>, ops: seq<Op<R>>)
    requires Run(t, StartFrom(t, map[]), ops).Ok?
    ensures Sequenced(Surviving([], ops), Run(t, StartFrom(t, map[]), ops).value.status)
  {
    assert Inv(t, StartFrom(t, map[]), []);
    RunSequenced(t, StartFrom(t, map[]), [], ops);
  }

  /** The block of the last surviving entry that has a position. */
  function LastBlock<R>(h: seq<Entry<R>>): Option<nat> {
    if h == [] then None
    else
      var last := PositionOf(h[|h| - 1]);
      if last.Some? then Some(last.value.block) else LastBlock(h[..|h| - 1])
  }

  lemma {:induction false} LastBlockIs<R>(h: seq<Entry<R>>)
    ensures LastBlock(h) == if Latest(h).None? then None
                            else if PositionOf(Latest(h).value).None? then None
                            else Some(PositionOf(Latest(h).value).value.block)
  {
    if h != [] {
      LastBlockIs(h[..|h| - 1]);
    }
  }

  /** Outside a warp, a block is taken back exactly when it is at or below the last one reached,
      and a block is opened exactly when it comes first of all or right after a commit. */
  lemma BlocksRefusedIff<S, R, C>(t: Transition<S, R, C>, ops: seq<Op<R>>, number: nat, hash: Hash)
    requires Run(t, StartFrom(t, map[]), ops).Ok? && !Run(t, StartFrom(t, map[]), ops).value.status.WarpEvents?
    ensures var (m, h) := (Run(t, StartFrom(t, map[]), ops).value, Surviving<R>([], ops));
            && (HandleSpec(t, m, BlockChange(Uncle(number))) == Err(BadUpdate) <==>
                LastBlock(h).None? || LastBlock(h).value < number)
            && (HandleSpec(t, m, BlockChange(New(number, hash))).Ok? <==>
                Latest(h).None? || (number > 0 && Latest(h) == Some(Mark(number - 1))))
  {
    MessagesComeInOrder(t, ops);
    LastBlockIs(Surviving<R>([], ops));
  }
}
