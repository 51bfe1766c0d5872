/**
 The event watcher (crates/core/src/index/events.rs): which blocks to query next, how a
 warp is paged and narrowed, and how raw logs become one sorted batch.

 Hashes, addresses, topics and payloads are opaque numbers. The comparison of a block's
 bloom filter with the served logs is a boolean of the node's answer.
 */
module Events {
  import opened Wrappers
  import opened Numbers
  import opened Blocks

  type Address = nat
  type Topic = nat

  datatype RawLog = RawLog(block: nat, index: nat, address: Address, topic0: Option<Topic>, data: nat)

  datatype Log = Log(block: nat, index: nat, address: Address, data: nat)

  datatype QueryReply = Logs(logs: seq<RawLog>, bloomMatches: bool) | NotFound | QueryFailed

  type NonZeroU64 = n: nat | 1 <= n <= U64_MAX witness 1

  datatype Config = Config(
    pageSize: NonZeroU64,
    singleQueryRetries: nat,
    clientFiltering: bool,
    maxLogs: Option<nat>,
    fallible: set<Topic>,
    addresses: set<Address>,
    topics: seq<Topic>,
    decode: RawLog -> Option<nat>)

  datatype Fetch = SingleQuery | MultipleQueries | ClientFiltered

  /** What fetching a set of blocks comes to. `Cancelled`: the poll was dropped before the
      node had answered every query. */
  datatype Fetched = Batch(logs: seq<Log>) | ResourceNotFound | FetchFailed | Cancelled

  datatype Step =
    | Idle
    | Warping(from: nat, to: nat, page: NonZeroU64)
    | Block(number: nat, hash: Hash, retries: nat)

  // ---------------------------------------------------------------- steps

  function OnUpdate(c: Config, update: BlockUpdate): Step {
    match update
    case Warp(from, to) => Warping(from, to, c.pageSize)
    case Uncle(_) => Idle
    case New(number, hash) => Block(number, hash, 0)
  }

  /** The last block of the page starting at `from`; block ranges are inclusive. */
  function PageEnd(from: nat, to: nat, page: NonZeroU64): nat {
    Min(to, SaturatingAdd(from, page - 1))
  }

  function Strategy(c: Config, step: Step): Fetch
    requires !step.Idle?
  {
    match step
    case Warping(_, _, page) => if page > 1 then SingleQuery else MultipleQueries
    case Block(_, _, retries) =>
      if retries < c.singleQueryRetries then (if c.clientFiltering then ClientFiltered else SingleQuery)
      else MultipleQueries
  }

  predicate StepOk(step: Step) {
    step.Warping? ==> step.from <= step.to <= U64_MAX
  }

  /** The block range the current fetch covers. */
  function Queried(step: Step): (nat, nat)
    requires !step.Idle?
  {
    match step
    case Warping(from, to, page) => (from, PageEnd(from, to, page))
    case Block(number, _, _) => (number, number)
  }

  /** The step after a fetch that succeeded (`ok`) or failed. */
  function AfterFetch(c: Config, step: Step, ok: bool): Step {
    match step
    case Idle => Idle
    case Warping(from, to, page) =>
      var end := PageEnd(from, to, page);
      if !ok then Warping(from, to, (page + 1) / 2)
      else if end == to then Idle
      else Warping(end + 1, to, c.pageSize)
    case Block(number, hash, retries) =>
      if ok then Idle else Block(number, hash, retries + 1)
  }

  // ---------------------------------------------------------------- fetching

  function TooMany(c: Config, logs: seq<RawLog>): bool {
    c.maxLogs.Some? && |logs| >= c.maxLogs.value
  }

  /** The logs of one query per topic, in topic order; a failed query for a fallible topic
      counts as empty. */
  function Concatenated(c: Config, topics: seq<Topic>, replies: seq<QueryReply>): Result<seq<RawLog>, Fetched> {
    if topics == [] then Ok([])
    else if replies == [] then Err(Cancelled)
    else
      var failed := !replies[0].Logs? || TooMany(c, replies[0].logs);
      if failed && topics[0] !in c.fallible then
        Err(if replies[0].NotFound? then ResourceNotFound else FetchFailed)
      else
        var rest := Concatenated(c, topics[1..], replies[1..]);
        if rest.Err? then rest else Ok((if failed then [] else replies[0].logs) + rest.value)
  }

  /** The logs of the watched addresses whose event signature is one of `topics`. */
  function Select(logs: seq<RawLog>, addresses: set<Address>, topics: seq<Topic>): seq<RawLog> {
    if logs == [] then []
    else
      var keep := logs[0].address in addresses && logs[0].topic0.Some? && logs[0].topic0.value in topics;
      (if keep then [logs[0]] else []) + Select(logs[1..], addresses, topics)
  }

  /** The raw logs a fetch collects, or why it collects none. */
  function Gather(c: Config, fetch: Fetch, replies: seq<QueryReply>): Result<seq<RawLog>, Fetched> {
    match fetch
    case MultipleQueries => Concatenated(c, c.topics, replies)
    case _ =>
      if replies == [] then Err(Cancelled)
      else match replies[0]
        case NotFound => Err(ResourceNotFound)
        case QueryFailed => Err(FetchFailed)
        case Logs(logs, bloomMatches) =>
          if fetch == SingleQuery then
            if TooMany(c, logs) then Err(FetchFailed) else Ok(logs)
          else
            if !bloomMatches then Err(FetchFailed) else Ok(Select(logs, c.addresses, c.topics))
  }

  function FetchSpec(c: Config, fetch: Fetch, replies: seq<QueryReply>): Fetched {
    var gathered := Gather(c, fetch, replies);
    if gathered.Err? then gathered.error else DecodeAndSort(c, gathered.value)
  }

  function DecodeAndSort(c: Config, logs: seq<RawLog>): Fetched {
    if exists i :: 0 <= i < |logs| && c.decode(logs[i]).None? then FetchFailed
    else Batch(Sort(Decoded(c, logs)))
  }

  function Decoded(c: Config, logs: seq<RawLog>): seq<Log>
    requires forall i :: 0 <= i < |logs| ==> c.decode(logs[i]).Some?
  {
    seq(|logs|, i requires 0 <= i < |logs| =>
      Log(logs[i].block, logs[i].index, logs[i].address, c.decode(logs[i]).value))
  }

  predicate Before(a: Log, b: Log) {
    a.block < b.block || (a.block == b.block && a.index < b.index)
  }

  /** Sorts by `(block, index)`. */
  function Sort(logs: seq<Log>): seq<Log> {
    if logs == [] then [] else Insert(logs[0], Sort(logs[1..]))
  }

  function Insert(log: Log, sorted: seq<Log>): seq<Log> {
    if sorted == [] || !Before(sorted[0], log) then [log] + sorted
    else [sorted[0]] + Insert(log, sorted[1..])
  }

  predicate StrictlySorted(logs: seq<Log>) {
    forall i, j :: 0 <= i < j < |logs| ==> Before(logs[i], logs[j])
  }

  predicate DistinctPositions(logs: seq<RawLog>) {
    forall i, j :: 0 <= i < j < |logs| ==> (logs[i].block, logs[i].index) != (logs[j].block, logs[j].index)
  }

  // ---------------------------------------------------------------- sorting

  lemma {:induction false} SortPermutes(logs: seq<Log>)
    ensures multiset(Sort(logs)) == multiset(logs)
  {
    if logs != [] {
      SortPermutes(logs[1..]);
      InsertPermutes(logs[0], Sort(logs[1..]));
      assert logs == [logs[0]] + logs[1..];
    }
  }

  lemma {:induction false} InsertPermutes(log: Log, sorted: seq<Log>)
    ensures multiset(Insert(log, sorted)) == multiset{log} + multiset(sorted)
  {
    if sorted != [] && Before(sorted[0], log) {
      InsertPermutes(log, sorted[1..]);
      assert sorted == [sorted[0]] + sorted[1..];
    }
  }

  lemma {:induction false} InsertSorts(log: Log, sorted: seq<Log>)
    requires StrictlySorted(sorted)
    requires forall x :: x in sorted ==> Before(x, log) || Before(log, x)
    ensures StrictlySorted(Insert(log, sorted))
  {
    InsertPermutes(log, sorted);
    if sorted == [] || !Before(sorted[0], log) {
      assert forall x :: x in sorted ==> Before(log, x) by {
        forall x | x in sorted ensures Before(log, x) {
          assert sorted != [] && sorted[0] in sorted;
        }
      }
    } else {
      InsertSorts(log, sorted[1..]);
      InsertPermutes(log, sorted[1..]);
      var rest := Insert(log, sorted[1..]);
      forall x | x in rest ensures Before(sorted[0], x) {
        assert x in multiset(rest);
        assert x == log || x in sorted[1..];
      }
    }
  }

  predicate DistinctKeys(logs: seq<Log>) {
    forall i, j :: 0 <= i < j < |logs| ==> Before(logs[i], logs[j]) || Before(logs[j], logs[i])
  }

  lemma {:induction false} SortSorts(logs: seq<Log>)
    requires DistinctKeys(logs)
    ensures StrictlySorted(Sort(logs))
  {
    if logs != [] {
      SortSorts(logs[1..]);
      SortPermutes(logs[1..]);
      forall x | x in Sort(logs[1..]) ensures Before(x, logs[0]) || Before(logs[0], x) {
        assert x in multiset(logs[1..]);
        var j :| 0 <= j < |logs[1..]| && logs[1..][j] == x;
        assert logs[j + 1] == x;
      }
      InsertSorts(logs[0], Sort(logs[1..]));
    }
  }

  lemma LeastIsFirst(a: seq<Log>, b: seq<Log>)
    requires StrictlySorted(a) && StrictlySorted(b)
    requires a != [] && b != [] && a[0] in b && b[0] in a
    ensures a[0] == b[0]
  {
    var i :| 0 <= i < |b| && b[i] == a[0];
    var j :| 0 <= j < |a| && a[j] == b[0];
  }

  /** Taking one element out of a sequence. */
  lemma Without<T>(s: seq<T>, k: nat)
    requires k < |s|
    ensures var rest := s[..k] + s[k + 1..];
            multiset(rest) == multiset(s) - multiset{s[k]} && multiset(s) == multiset(rest) + multiset{s[k]}
  {
    assert s == s[..k] + [s[k]] + s[k + 1..];
  }

  lemma SameTails<T>(a: seq<T>, b: seq<T>)
    requires multiset(a) == multiset(b) && a != [] && b != [] && a[0] == b[0]
    ensures multiset(a[1..]) == multiset(b[1..])
  {
    assert a == [a[0]] + a[1..] && b == [b[0]] + b[1..];
    assert multiset(a[1..]) == multiset(a) - multiset{a[0]};
    assert multiset(b[1..]) == multiset(b) - multiset{b[0]};
  }

  /** A strictly sorted list is determined by its elements. */
  lemma {:induction false} SortedIsUnique(a: seq<Log>, b: seq<Log>)
    requires StrictlySorted(a) && StrictlySorted(b)
    requires multiset(a) == multiset(b)
    ensures a == b
  {
    assert |multiset(a)| == |multiset(b)|;
    if a != [] {
      assert a[0] in multiset(b) && b[0] in multiset(a);
      LeastIsFirst(a, b);
      SameTails(a, b);
      SortedIsUnique(a[1..], b[1..]);
    }
  }

  // ---------------------------------------------------------------- warp paging

  datatype Warped = Warped(pages: seq<(nat, nat)>, step: Step)

  /** The pages fetched by a warp while its fetches succeed or fail as `oks` says. */
  function WarpRun(c: Config, step: Step, oks: seq<bool>): Warped
    decreases |oks|
  {
    if oks == [] || !step.Warping? then Warped([], step)
    else
      var rest := WarpRun(c, AfterFetch(c, step, oks[0]), oks[1..]);
      if oks[0] then rest.(pages := [Queried(step)] + rest.pages) else rest
  }

  /** Consecutive non-empty inclusive ranges that start at `from` and end before `end`. */
  predicate Partitions(pages: seq<(nat, nat)>, from: nat, end: nat) {
    if pages == [] then from == end
    else pages[0].0 == from && from <= pages[0].1 && Partitions(pages[1..], pages[0].1 + 1, end)
  }

  /** A page stays inside the warp and within 64 bits, and each step makes progress: either
      fewer blocks are left, or the page shrinks, or a single-block page is retried. */
  lemma PagesAreSound(c: Config, step: Step, ok: bool)
    requires StepOk(step) && step.Warping?
    ensures var next := AfterFetch(c, step, ok);
            var (from, end) := Queried(step);
            && StepOk(next)
            && step.from == from <= end <= step.to
            && (ok && next.Warping? ==> next.from == end + 1 <= next.to == step.to <= U64_MAX)
            && (ok && next.Idle? ==> end == step.to)
            && !next.Block?
            && (!ok ==> next.Warping? && next.from == step.from && next.to == step.to)
            && (!ok && step.page > 1 ==> next.page < step.page)
            && (!ok && step.page == 1 ==> next == step)
            && (end == step.to || end - from + 1 == step.page)
            && (ok && next.Warping? ==> next.page == c.pageSize)
            && (!ok ==> step.page <= 2 * next.page <= step.page + 1)
  {
  }

  /** How often the fetch of a block has failed decides how it is tried next. */
  function Retried(c: Config, step: Step, failures: nat): Step
    decreases failures
  {
    if failures == 0 then step else Retried(c, AfterFetch(c, step, false), failures - 1)
  }

  /** A block is asked for with single queries as often as configured, and with one query per event
      from then on; it stays the same block until it is fetched. */
  lemma {:induction false} FallsBackAfterRetries(c: Config, number: nat, hash: Hash, before: nat, failures: nat)
    ensures var step := Retried(c, Block(number, hash, before), failures);
            && step == Block(number, hash, before + failures)
            && (Strategy(c, step) == MultipleQueries <==> before + failures >= c.singleQueryRetries)
            && (Strategy(c, step) == ClientFiltered <==> before + failures < c.singleQueryRetries && c.clientFiltering)
    decreases failures
  {
    if failures > 0 {
      FallsBackAfterRetries(c, number, hash, before + 1, failures - 1);
    }
  }

  /** Whatever fails, the successful pages cut the warped range into consecutive pieces with
      no gap and no overlap, and the warp ends exactly when they cover all of it. */
  lemma {:induction false} WarpPartitions(c: Config, step: Step, oks: seq<bool>)
    requires StepOk(step) && step.Warping?
    ensures var run := WarpRun(c, step, oks);
            && !run.step.Block?
            && Partitions(run.pages, step.from, if run.step.Idle? then step.to + 1 else run.step.from)
            && (run.step.Warping? ==> step.from <= run.step.from <= run.step.to == step.to)
    decreases |oks|
  {
    if oks != [] {
      PagesAreSound(c, step, oks[0]);
      var next := AfterFetch(c, step, oks[0]);
      if next.Warping? {
        WarpPartitions(c, next, oks[1..]);
      }
    }
  }

  function Successes(oks: seq<bool>): nat {
    if oks == [] then 0 else (if oks[0] then 1 else 0) + Successes(oks[1..])
  }

  /** A warp over `n` blocks is over after at most `n` successful fetches. */
  lemma {:induction false} WarpEnds(c: Config, step: Step, oks: seq<bool>)
    requires StepOk(step) && step.Warping?
    requires Successes(oks) > step.to - step.from
    ensures WarpRun(c, step, oks).step == Idle
    decreases |oks|
  {
    PagesAreSound(c, step, oks[0]);
    var next := AfterFetch(c, step, oks[0]);
    if next.Warping? {
      WarpEnds(c, next, oks[1..]);
    }
  }

  // ---------------------------------------------------------------- the class

  datatype LogsResult =
    | Drained
    | Ready(from: nat, to: nat, logs: seq<Log>)
    | LogsFailed(notFound: bool)
    | NotFinished

  /** One call of `next`: what it returns, and the step it leaves behind. */
  function NextLogsSpec(c: Config, step: Step, replies: seq<QueryReply>): (Step, LogsResult) {
    if step.Idle? then (step, Drained)
    else
      var (from, to) := Queried(step);
      match FetchSpec(c, Strategy(c, step), replies)
      case Batch(logs) => (AfterFetch(c, step, true), Ready(from, to, logs))
      case Cancelled => (step, NotFinished)
      case ResourceNotFound => (AfterFetch(c, step, false), LogsFailed(true))
      case FetchFailed => (AfterFetch(c, step, false), LogsFailed(false))
  }

  class EventWatcher {
    const config: Config
    var step: Step

    constructor (config: Config)
      ensures this.config == config && step == Idle
    {
      this.config := config;
      step := Idle;
    }

    /** Hands a block update over; refused unless the previous one is fully drained. */
    method OnBlockUpdate(update: BlockUpdate) returns (accepted: bool)
      modifies this
      ensures accepted == old(step).Idle?
      ensures step == if accepted then OnUpdate(config, update) else old(step)
    {
      if !step.Idle? { return false; }
      match update {
        case Warp(from, to) => step := Warping(from, to, config.pageSize);
        case Uncle(_) => step := Idle;
        case New(number, hash) => step := Block(number, hash, 0);
      }
      accepted := true;
    }

    /** Stops fetching the logs of an uncled block; refused for any other block. */
    method OnBlockInvalidated(hash: Hash) returns (accepted: bool)
      modifies this
      ensures accepted <==> old(step).Block? && old(step).hash == hash
      ensures step == if accepted then Idle else old(step)
    {
      if step.Block? && step.hash == hash {
        step := Idle;
        return true;
      }
      accepted := false;
    }

    method Next(replies: seq<QueryReply>) returns (result: LogsResult)
      modifies this
      ensures (step, result) == NextLogsSpec(config, old(step), replies)
    {
      match step {
        case Idle => result := Drained;
        case Warping(from, to, page) => result := WarpPage(from, to, page, replies);
        case Block(number, hash, retries) => result := BlockLogs(number, hash, retries, replies);
      }
    }

    method WarpPage(from: nat, to: nat, page: NonZeroU64, replies: seq<QueryReply>) returns (result: LogsResult)
      requires step == Warping(from, to, page)
      modifies this
      ensures (step, result) == NextLogsSpec(config, old(step), replies)
    {
      // Block query ranges are inclusive.
      var queryTo := Min(to, SaturatingAdd(from, page - 1));
      var fetched := FetchSpec(config, if page > 1 then SingleQuery else MultipleQueries, replies);
      if fetched.Cancelled? { return NotFinished; }
      if fetched.Batch? {
        step := if queryTo == to then Idle else Warping(queryTo + 1, to, config.pageSize);
        return Ready(from, queryTo, fetched.logs);
      }
      step := Warping(from, to, (page + 1) / 2);
      result := LogsFailed(fetched.ResourceNotFound?);
    }

    method BlockLogs(number: nat, hash: Hash, retries: nat, replies: seq<QueryReply>) returns (result: LogsResult)
      requires step == Block(number, hash, retries)
      modifies this
      ensures (step, result) == NextLogsSpec(config, old(step), replies)
    {
      var fetch := MultipleQueries;
      if retries < config.singleQueryRetries {
        fetch := if config.clientFiltering then ClientFiltered else SingleQuery;
      }
      var fetched := FetchSpec(config, fetch, replies);
      if fetched.Cancelled? { return NotFinished; }
      if fetched.Batch? {
        step := Idle;
        return Ready(number, number, fetched.logs);
      }
      step := Block(number, hash, retries + 1);
      result := LogsFailed(fetched.ResourceNotFound?);
    }
  }
}
