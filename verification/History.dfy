/**
 The meaning of the live state and of every snapshot, independent of the store: the delivered
 messages are kept in one history with a mark at every commit, a roll back or a restart
 erases a suffix of it, and the state is the fold of what is left.
 */
module History {
  import opened Wrappers
  import opened Blocks
  import opened Snapshots
  import opened Sets
  import opened States

  datatype Entry<R> = Delivered(message: Message<R>) | Mark(number: nat)

  /** Erases everything after the last mark below `bound`. */
  function Erase<R>(h: seq<Entry<R>>, bound: nat): seq<Entry<R>> {
    if h == [] then []
    else
      var last := h[|h| - 1];
      if last.Mark? && last.number < bound then h else Erase(h[..|h| - 1], bound)
  }

  /** Erases everything after the last mark. */
  function EraseUncommitted<R>(h: seq<Entry<R>>): seq<Entry<R>> {
    if h == [] || h[|h| - 1].Mark? then h else EraseUncommitted(h[..|h| - 1])
  }

  function Messages<R>(h: seq<Entry<R>>): seq<Message<R>> {
    if h == [] then []
    else Messages(h[..|h| - 1]) + (match h[|h| - 1] case Delivered(m) => [m] case Mark(_) => [])
  }

  function Entries<R>(messages: seq<Message<R>>): seq<Entry<R>> {
    seq(|messages|, i requires 0 <= i < |messages| => Delivered(messages[i]))
  }

  /** How an accepted operation changes the history. */
  function Record<R>(h: seq<Entry<R>>, op: Op<R>): seq<Entry<R>> {
    match op
    case Handle(BlockChange(Warp(_, _))) => h
    case Handle(BlockChange(Uncle(number))) => Erase(h, number)
    case Handle(BlockChange(New(number, _))) => h + [Delivered(NewBlock(number))]
    case Handle(LogsOf(_, to, logs)) => h + Entries(EventMessages(logs)) + [Mark(to)]
    case Resumed(value) => h + [Delivered(Resume(value))]
    case Prune(_) => h
    case Restart => EraseUncommitted(h)
  }

  /** The fold of the transition function over the delivered messages. */
  function Fold<S, R, C>(t: Transition<S, R, C>, h: seq<Entry<R>>): S {
    Deliver(t, t.init, Messages(h)).0
  }

  /** The part of the history up to the commit of block `b`. */
  function UpTo<R>(h: seq<Entry<R>>, b: nat): seq<Entry<R>> {
    Erase(h, b + 1)
  }

  predicate EndsWithMark<R>(h: seq<Entry<R>>, b: nat) {
    h != [] && h[|h| - 1] == Mark(b)
  }

  ghost predicate Represents<S, R, C>(t: Transition<S, R, C>, h: seq<Entry<R>>, b: nat, snapshot: S) {
    EndsWithMark(UpTo(h, b), b) && Fold(t, UpTo(h, b)) == snapshot
  }

  /** Every snapshot key lies below the block the machine expects next. */
  predicate KeysBelow(status: Status, keys: set<nat>) {
    match status
    case Initialized => keys == {}
    case BlockPending(pending) => forall b :: b in keys ==> b < pending
    case BlockEvents(latest) => forall b :: b in keys ==> b < latest
    case WarpEvents(from, _) => forall b :: b in keys ==> b < from
  }

  /** The last mark of the history is the latest snapshot. */
  predicate LatestMarked<R>(h: seq<Entry<R>>, keys: set<nat>) {
    var committed := EraseUncommitted(h);
    if keys == {} then committed == [] else EndsWithMark(committed, Max(keys))
  }

  ghost predicate Inv<S, R, C>(t: Transition<S, R, C>, m: Machine<S>, h: seq<Entry<R>>) {
    && m.state == Fold(t, h)
    && KeysBelow(m.status, m.table.Keys)
    && LatestMarked(h, m.table.Keys)
    && forall b :: b in m.table ==> Represents(t, h, b, m.table[b])
  }

  // ---------------------------------------------------------------- erasure

  lemma {:induction false} ErasedIsPrefix<R>(h: seq<Entry<R>>, bound: nat)
    ensures Erase(h, bound) <= h
  {
    if h != [] {
      ErasedIsPrefix(h[..|h| - 1], bound);
    }
  }

  /** Erasing further down is the same as erasing at once. */
  lemma {:induction false} EraseTwice<R>(h: seq<Entry<R>>, bound: nat, lower: nat)
    requires lower <= bound
    ensures Erase(Erase(h, bound), lower) == Erase(h, lower)
  {
    if h != [] {
      var last := h[|h| - 1];
      if !(last.Mark? && last.number < bound) {
        EraseTwice(h[..|h| - 1], bound, lower);
      }
    }
  }

  lemma {:induction false} EraseSkips<R>(h: seq<Entry<R>>, more: seq<Entry<R>>, bound: nat)
    requires forall i :: 0 <= i < |more| && more[i].Mark? ==> more[i].number >= bound
    ensures Erase(h + more, bound) == Erase(h, bound)
  {
    if more == [] {
      assert h + more == h;
    } else {
      assert (h + more)[..|h + more| - 1] == h + more[..|more| - 1];
      EraseSkips(h, more[..|more| - 1], bound);
    }
  }

  lemma {:induction false} UncommittedSkips<R>(h: seq<Entry<R>>, more: seq<Entry<R>>)
    requires forall i :: 0 <= i < |more| ==> !more[i].Mark?
    ensures EraseUncommitted(h + more) == EraseUncommitted(h)
  {
    if more == [] {
      assert h + more == h;
    } else {
      assert (h + more)[..|h + more| - 1] == h + more[..|more| - 1];
      UncommittedSkips(h, more[..|more| - 1]);
    }
  }

  /** The history up to its last mark is what `UpTo` that mark's block keeps. */
  lemma {:induction false} UncommittedIsUpTo<R>(h: seq<Entry<R>>, b: nat)
    requires EndsWithMark(EraseUncommitted(h), b)
    ensures EraseUncommitted(h) == UpTo(h, b)
  {
    if !h[|h| - 1].Mark? {
      UncommittedIsUpTo(h[..|h| - 1], b);
    }
  }

  // ---------------------------------------------------------------- folding

  lemma {:induction false} DeliverConcat<S, R, C>(t: Transition<S, R, C>, state: S, a: seq<Message<R>>,
                                                  b: seq<Message<R>>)
    ensures Deliver(t, state, a + b).0 == Deliver(t, Deliver(t, state, a).0, b).0
  {
    if a == [] {
      assert a + b == b;
    } else {
      assert (a + b)[1..] == a[1..] + b;
      DeliverConcat(t, t.apply(state, a[0]).0, a[1..], b);
    }
  }

  lemma {:induction false} MessagesConcat<R>(h: seq<Entry<R>>, messages: seq<Message<R>>)
    ensures Messages(h + Entries(messages)) == Messages(h) + messages
  {
    if messages == [] {
      assert h + Entries(messages) == h;
    } else {
      var shorter := messages[..|messages| - 1];
      MessagesConcat(h, shorter);
      assert (h + Entries(messages))[..|h + Entries(messages)| - 1] == h + Entries(shorter);
      assert Messages(h) + messages == Messages(h) + shorter + [messages[|messages| - 1]];
    }
  }

  /** Delivering more messages continues the fold. */
  lemma FoldExtends<S, R, C>(t: Transition<S, R, C>, h: seq<Entry<R>>, messages: seq<Message<R>>)
    ensures Fold(t, h + Entries(messages)) == Deliver(t, Fold(t, h), messages).0
  {
    MessagesConcat(h, messages);
    DeliverConcat(t, t.init, Messages(h), messages);
  }

  lemma FoldIgnoresMark<S, R, C>(t: Transition<S, R, C>, h: seq<Entry<R>>, b: nat)
    ensures Fold(t, h + [Mark(b)]) == Fold(t, h)
  {
    assert (h + [Mark(b)])[..|h + [Mark(b)]| - 1] == h;
    assert Messages(h) + [] == Messages(h);
  }

  // ---------------------------------------------------------------- the theorem

  /** Entries without an older mark leave a snapshot's prefix alone. */
  lemma AppendRepresents<S, R, C>(t: Transition<S, R, C>, h: seq<Entry<R>>, more: seq<Entry<R>>, b: nat, snapshot: S)
    requires Represents(t, h, b, snapshot)
    requires forall i :: 0 <= i < |more| && more[i].Mark? ==> more[i].number > b
    ensures Represents(t, h + more, b, snapshot)
  {
    EraseSkips(h, more, b + 1);
  }

  /** Erasing above a snapshot leaves its prefix alone. */
  lemma EraseRepresents<S, R, C>(t: Transition<S, R, C>, h: seq<Entry<R>>, bound: nat, b: nat, snapshot: S)
    requires Represents(t, h, b, snapshot) && b < bound
    ensures Represents(t, Erase(h, bound), b, snapshot)
  {
    EraseTwice(h, bound, b + 1);
  }

  lemma MaxIs(keys: set<nat>, m: nat)
    requires m in keys && forall b :: b in keys ==> b <= m
    ensures Max(keys) == m
  {
  }

  /** Appending messages continues the state and keeps every snapshot's prefix. */
  lemma AppendKeeps<S, R, C>(t: Transition<S, R, C>, m: Machine<S>, h: seq<Entry<R>>, messages: seq<Message<R>>)
    requires Inv(t, m, h)
    ensures var h' := h + Entries(messages);
            && Fold(t, h') == Deliver(t, m.state, messages).0
            && LatestMarked(h', m.table.Keys)
            && forall b :: b in m.table ==> Represents(t, h', b, m.table[b])
  {
    FoldExtends(t, h, messages);
    UncommittedSkips(h, Entries(messages));
    forall b | b in m.table ensures Represents(t, h + Entries(messages), b, m.table[b]) {
      AppendRepresents(t, h, Entries(messages), b, m.table[b]);
    }
  }

  lemma CommitKeeps<S, R, C>(t: Transition<S, R, C>, m: Machine<S>, h: seq<Entry<R>>, update: Update)
    requires Inv(t, m, h) && update.LogsOf?
    requires HandleSpec(t, m, update).Ok?
    ensures Inv(t, HandleSpec(t, m, update).value.0, Record(h, Handle(update)))
  {
    var messages: seq<Message<R>> := EventMessages(update.logs);
    var next := HandleSpec(t, m, update).value.0;
    AppendKeeps(t, m, h, messages);
    var h1 := h + Entries(messages);
    FoldIgnoresMark(t, h1, update.to);
    CommitMarks(h1, update.to);
    MaxIs(next.table.Keys, update.to);
    CommitTable(t, m, h1, update.to, next.state);
    assert next.table == m.table[update.to := next.state];
  }

  lemma CommitTable<S, R, C>(t: Transition<S, R, C>, m: Machine<S>, h: seq<Entry<R>>, number: nat, state: S)
    requires forall b :: b in m.table ==> b <= number && Represents(t, h, b, m.table[b])
    requires Fold(t, h + [Mark(number)]) == state
    ensures var table := m.table[number := state];
            forall b :: b in table ==> Represents(t, h + [Mark(number)], b, table[b])
  {
    var table := m.table[number := state];
    forall b | b in table ensures Represents(t, h + [Mark(number)], b, table[b]) {
      if b == number {
        CommitMarks(h, number);
      } else {
        AppendRepresents(t, h, [Mark(number)], b, m.table[b]);
      }
    }
  }

  lemma CommitMarks<R>(h: seq<Entry<R>>, b: nat)
    ensures EraseUncommitted(h + [Mark(b)]) == h + [Mark(b)] == UpTo(h + [Mark(b)], b)
  {
  }

  lemma RollbackTable<S, R, C>(t: Transition<S, R, C>, m: Machine<S>, h: seq<Entry<R>>, number: nat)
    requires forall b :: b in m.table ==> Represents(t, h, b, m.table[b])
    ensures var below := Below(m.table, number);
            forall b :: b in below ==> Represents(t, Erase(h, number), b, below[b])
  {
    forall b | b in Below(m.table, number) ensures Represents(t, Erase(h, number), b, m.table[b]) {
      EraseRepresents(t, h, number, b, m.table[b]);
    }
  }

  lemma RolledBack<S, R, C>(t: Transition<S, R, C>, m: Machine<S>, number: nat)
    requires HandleSpec(t, m, BlockChange(Uncle(number))).Ok?
    ensures number > 0 && number - 1 in m.table
    ensures HandleSpec(t, m, BlockChange(Uncle(number))).value.0 ==
            Machine(m.table[number - 1], BlockPending(number), Below(m.table, number))
  {
  }

  /** Erasing a block leaves the history committed at its parent, where that has a snapshot. */
  lemma ErasedToParent<S, R, C>(t: Transition<S, R, C>, h: seq<Entry<R>>, number: nat, snapshot: S)
    requires number > 0 && Represents(t, h, number - 1, snapshot)
    ensures EndsWithMark(EraseUncommitted(Erase(h, number)), number - 1)
    ensures Fold(t, Erase(h, number)) == snapshot
  {
    assert UpTo(h, number - 1) == Erase(h, number);
    assert EraseUncommitted(Erase(h, number)) == Erase(h, number);
  }

  lemma RollbackLatest<S, R>(h: seq<Entry<R>>, table: map<nat, S>, number: nat)
    requires number > 0 && number - 1 in table && EndsWithMark(EraseUncommitted(h), number - 1)
    ensures LatestMarked(h, Below(table, number).Keys)
  {
    MaxIs(Below(table, number).Keys, number - 1);
  }

  lemma RollbackKeeps<S, R, C>(t: Transition<S, R, C>, m: Machine<S>, h: seq<Entry<R>>, number: nat)
    requires Inv(t, m, h) && number > 0 && number - 1 in m.table
    ensures Inv(t, Machine(m.table[number - 1], BlockPending(number), Below(m.table, number)), Erase(h, number))
  {
    ErasedToParent(t, h, number, m.table[number - 1]);
    RollbackLatest(Erase(h, number), m.table, number);
    RollbackTable(t, m, h, number);
  }

  lemma RestartKeeps<S, R, C>(t: Transition<S, R, C>, m: Machine<S>, h: seq<Entry<R>>)
    requires Inv(t, m, h)
    ensures Inv(t, StartFrom(t, m.table), EraseUncommitted(h))
  {
    var h' := EraseUncommitted(h);
    assert EraseUncommitted(h') == h' by { EraseUncommittedTwice(h); }
    if m.table.Keys != {} {
      var latest := Max(m.table.Keys);
      UncommittedIsUpTo(h, latest);
      assert Represents(t, h, latest, m.table[latest]);
      forall b | b in m.table ensures Represents(t, h', b, m.table[b]) {
        EraseRepresents(t, h, latest + 1, b, m.table[b]);
      }
    }
  }

  lemma {:induction false} EraseUncommittedTwice<R>(h: seq<Entry<R>>)
    ensures EraseUncommitted(EraseUncommitted(h)) == EraseUncommitted(h)
  {
    if h != [] && !h[|h| - 1].Mark? {
      EraseUncommittedTwice(h[..|h| - 1]);
    }
  }

  lemma PruneKeeps<S, R, C>(t: Transition<S, R, C>, m: Machine<S>, h: seq<Entry<R>>, safe: nat)
    requires Inv(t, m, h)
    ensures Inv(t, m.(table := Pruned(m.table, safe)), h)
  {
    var table := Pruned(m.table, safe);
    assert table.Keys <= m.table.Keys;
    if m.table.Keys != {} {
      assert Max(m.table.Keys) in table.Keys;
      assert Max(table.Keys) == Max(m.table.Keys);
    }
    forall b | b in table ensures Represents(t, h, b, table[b]) {
      assert Represents(t, h, b, m.table[b]);
    }
  }

  lemma NewBlockKeeps<S, R, C>(t: Transition<S, R, C>, m: Machine<S>, h: seq<Entry<R>>, update: Update)
    requires Inv(t, m, h) && update.BlockChange? && update.block.New? && HandleSpec(t, m, update).Ok?
    ensures Inv(t, HandleSpec(t, m, update).value.0, Record(h, Handle(update)))
  {
    var message: Message<R> := NewBlock(update.block.number);
    AppendKeeps(t, m, h, [message]);
    assert Entries([message]) == [Delivered(message)];
    assert Deliver(t, m.state, [message]).0 == t.apply(m.state, message).0;
  }

  lemma ResumeKeeps<S, R, C>(t: Transition<S, R, C>, m: Machine<S>, h: seq<Entry<R>>, value: R)
    requires Inv(t, m, h)
    ensures Inv(t, Perform(t, m, Resumed(value)).value.0, Record(h, Resumed(value)))
  {
    AppendKeeps(t, m, h, [Resume(value)]);
    assert Entries([Resume(value)]) == [Delivered(Resume(value))];
    assert Deliver(t, m.state, [Resume(value)]).0 == t.apply(m.state, Resume(value)).0;
  }

  lemma UpdateKeeps<S, R, C>(t: Transition<S, R, C>, m: Machine<S>, h: seq<Entry<R>>, update: Update)
    requires Inv(t, m, h) && HandleSpec(t, m, update).Ok?
    ensures Inv(t, HandleSpec(t, m, update).value.0, Record(h, Handle(update)))
  {
    match update {
      case BlockChange(Warp(_, _)) =>
      case BlockChange(Uncle(number)) =>
        RolledBack(t, m, number);
        RollbackKeeps(t, m, h, number);
      case BlockChange(New(_, _)) => NewBlockKeeps(t, m, h, update);
      case LogsOf(_, _, _) => CommitKeeps(t, m, h, update);
    }
  }

  /** Every accepted operation keeps the live state the fold of the surviving history and
      each snapshot the fold of its own prefix. */
  lemma StepKeeps<S, R, C>(t: Transition<S, R, C>, m: Machine<S>, h: seq<Entry<R>>, op: Op<R>)
    requires Inv(t, m, h) && Perform(t, m, op).Ok?
    ensures Inv(t, Perform(t, m, op).value.0, Record(h, op))
  {
    match op {
      case Handle(update) => UpdateKeeps(t, m, h, update);
      case Resumed(value) => ResumeKeeps(t, m, h, value);
      case Prune(safe) => PruneKeeps(t, m, h, safe);
      case Restart => RestartKeeps(t, m, h);
    }
  }

  // ---------------------------------------------------------------- runs

  function Run<S, R, C>(t: Transition<S, R, C>, m: Machine<S>, ops: seq<Op<R>>): Result<Machine<S>, Error>
    decreases |ops|
  {
    if ops == [] then Ok(m)
    else
      var next := Perform(t, m, ops[0]);
      if next.Err? then Err(next.error) else Run(t, next.value.0, ops[1..])
  }

  /** The history a run leaves: computed from the operations alone. */
  function Surviving<R>(h: seq<Entry<R>>, ops: seq<Op<R>>): seq<Entry<R>>
    decreases |ops|
  {
    if ops == [] then h else Surviving(Record(h, ops[0]), ops[1..])
  }

  lemma {:induction false} RunKeeps<S, R, C>(t: Transition<S, R, C>, m: Machine<S>, h: seq<Entry<R>>, ops: seq<Op<R>>)
    requires Inv(t, m, h) && Run(t, m, ops).Ok?
    ensures Inv(t, Run(t, m, ops).value, Surviving(h, ops))
    decreases |ops|
  {
    if ops != [] {
      StepKeeps(t, m, h, ops[0]);
      RunKeeps(t, Perform(t, m, ops[0]).value.0, Record(h, ops[0]), ops[1..]);
    }
  }

  /** What the invariant says: the live state is the fold of the history, and each snapshot
      the fold of the prefix that ends with its own commit. */
  ghost predicate IsFoldOf<S, R, C>(t: Transition<S, R, C>, m: Machine<S>, h: seq<Entry<R>>) {
    && m.state == Fold(t, h)
    && forall b :: b in m.table ==>
         UpTo(h, b) <= h && EndsWithMark(UpTo(h, b), b) && m.table[b] == Fold(t, UpTo(h, b))
  }

  lemma InvMeans<S, R, C>(t: Transition<S, R, C>, m: Machine<S>, h: seq<Entry<R>>)
    requires Inv(t, m, h)
    ensures IsFoldOf(t, m, h)
  {
    forall b | b in m.table ensures UpTo(h, b) <= h {
      ErasedIsPrefix(h, b + 1);
    }
  }

  /** From an empty store, after any accepted operations (updates, roll backs, interleaved
      effect resumes, prunes and restarts): the live state is the fold of the transition
      function over the delivered messages that were not erased, and each retained snapshot
      is the fold of the messages delivered before its own commit. */
  lemma StateIsFoldOfHistory<S, R, C>(t: Transition<S, R, C>, ops: seq<Op<R>>)
    requires Run(t, StartFrom(t, map[]), ops).Ok?
    ensures IsFoldOf(t, Run(t, StartFrom(t, map[]), ops).value, Surviving([], ops))
  {
    assert Inv(t, StartFrom(t, map[]), []);
    RunKeeps(t, StartFrom(t, map[]), [], ops);
    InvMeans(t, Run(t, StartFrom(t, map[]), ops).value, Surviving([], ops));
  }

  lemma UncleTakesSnapshot<S, R, C>(t: Transition<S, R, C>, m: Machine<S>, number: nat)
    requires HandleSpec(t, m, BlockChange(Uncle(number))).Ok?
    ensures number > 0 && number - 1 in m.table
    ensures HandleSpec(t, m, BlockChange(Uncle(number))).value.0.state == m.table[number - 1]
  {
  }

  lemma SnapshotIsFold<S, R, C>(t: Transition<S, R, C>, m: Machine<S>, h: seq<Entry<R>>, b: nat)
    requires Inv(t, m, h) && b in m.table
    ensures Fold(t, UpTo(h, b)) == m.table[b] && EndsWithMark(UpTo(h, b), b) && UpTo(h, b) <= h
  {
    assert Represents(t, h, b, m.table[b]);
    ErasedIsPrefix(h, b + 1);
  }

  /** A roll back restores exactly the state committed at the uncled block's parent, whatever
      was delivered in between. */
  lemma RollbackRestores<S, R, C>(t: Transition<S, R, C>, m: Machine<S>, h: seq<Entry<R>>, number: nat)
    requires Inv(t, m, h) && HandleSpec(t, m, BlockChange(Uncle(number))).Ok?
    ensures number > 0
    ensures var next := HandleSpec(t, m, BlockChange(Uncle(number))).value.0;
            && next.state == Fold(t, UpTo(h, number - 1))
            && EndsWithMark(UpTo(h, number - 1), number - 1)
            && UpTo(h, number - 1) <= h
  {
    UncleTakesSnapshot(t, m, number);
    SnapshotIsFold(t, m, h, number - 1);
  }

  // ---------------------------------------------------------------- commands

  /** The messages an operation delivers. */
  function DeliveredBy<R>(op: Op<R>): seq<Message<R>> {
    match op
    case Handle(BlockChange(New(number, _))) => [NewBlock(number)]
    case Handle(LogsOf(_, _, logs)) => EventMessages(logs)
    case Resumed(value) => [Resume(value)]
    case _ => []
  }

  /** What the transition function returns for each message, in the state that is the fold of the
      history surviving when it is delivered. */
  function Issued<S, R, C>(t: Transition<S, R, C>, h: seq<Entry<R>>, messages: seq<Message<R>>): seq<C>
    decreases |messages|
  {
    if messages == [] then []
    else t.apply(Fold(t, h), messages[0]).1 + Issued(t, h + [Delivered(messages[0])], messages[1..])
  }

  function IssuedBy<S, R, C>(t: Transition<S, R, C>, h: seq<Entry<R>>, ops: seq<Op<R>>): seq<C>
    decreases |ops|
  {
    if ops == [] then []
    else Issued(t, h, DeliveredBy(ops[0])) + IssuedBy(t, Record(h, ops[0]), ops[1..])
  }

  /** The commands a run returns. */
  function RunCommands<S, R, C>(t: Transition<S, R, C>, m: Machine<S>, ops: seq<Op<R>>): seq<C>
    decreases |ops|
  {
    if ops == [] then []
    else
      var next := Perform(t, m, ops[0]);
      if next.Err? then [] else next.value.1 + RunCommands(t, next.value.0, ops[1..])
  }

  lemma FoldOne<S, R, C>(t: Transition<S, R, C>, h: seq<Entry<R>>, message: Message<R>)
    ensures Fold(t, h + [Delivered(message)]) == t.apply(Fold(t, h), message).0
  {
    FoldExtends(t, h, [message]);
    assert Entries([message]) == [Delivered(message)];
    assert [message][1..] == [];
    assert Deliver(t, t.apply(Fold(t, h), message).0, []).0 == t.apply(Fold(t, h), message).0;
  }

  lemma {:induction false} DeliverIssues<S, R, C>(t: Transition<S, R, C>, h: seq<Entry<R>>, messages: seq<Message<R>>)
    ensures Deliver(t, Fold(t, h), messages).1 == Issued(t, h, messages)
    decreases |messages|
  {
    if messages != [] {
      FoldOne(t, h, messages[0]);
      DeliverIssues(t, h + [Delivered(messages[0])], messages[1..]);
    }
  }

  lemma OneIssues<S, R, C>(t: Transition<S, R, C>, h: seq<Entry<R>>, message: Message<R>)
    ensures Issued(t, h, [message]) == t.apply(Fold(t, h), message).1
  {
    assert [message][1..] == [];
    assert Issued(t, h + [Delivered(message)], []) == [];
    assert t.apply(Fold(t, h), message).1 + [] == t.apply(Fold(t, h), message).1;
  }

  lemma StepIssues<S, R, C>(t: Transition<S, R, C>, m: Machine<S>, h: seq<Entry<R>>, op: Op<R>)
    requires Inv(t, m, h) && Perform(t, m, op).Ok?
    ensures Perform(t, m, op).value.1 == Issued(t, h, DeliveredBy(op))
  {
    match op {
      case Handle(BlockChange(New(number, _))) => OneIssues(t, h, NewBlock(number));
      case Handle(LogsOf(_, _, logs)) => DeliverIssues(t, h, EventMessages(logs));
      case Resumed(value) => OneIssues(t, h, Resume(value));
      case _ =>
    }
  }

  /** The commands of every accepted run are, in order, exactly those the transition function returns
      for each delivered message, in the state folded from what had survived until then. */
  lemma {:induction false} RunIssues<S, R, C>(t: Transition<S, R, C>, m: Machine<S>, h: seq<Entry<R>>, ops: seq<Op<R>>)
    requires Inv(t, m, h) && Run(t, m, ops).Ok?
    ensures RunCommands(t, m, ops) == IssuedBy(t, h, ops)
    decreases |ops|
  {
    if ops != [] {
      StepIssues(t, m, h, ops[0]);
      StepKeeps(t, m, h, ops[0]);
      RunIssues(t, Perform(t, m, ops[0]).value.0, Record(h, ops[0]), ops[1..]);
    }
  }
}
