/**
 What the three ways of fetching logs return against an honest node: always a strictly
 sorted batch inside the queried range, and always the same batch.
 */
module LogFetch {
  import opened Wrappers
  import opened Events

  predicate NoDuplicates(topics: seq<Topic>) {
    forall i, j :: 0 <= i < j < |topics| ==> topics[i] != topics[j]
  }

  /** All logs of the queried blocks: in range, and each position used once. */
  predicate HonestLogs(all: seq<RawLog>, from: nat, to: nat) {
    DistinctPositions(all) && forall i :: 0 <= i < |all| ==> from <= all[i].block <= to
  }

  /** The logs a query may return: `asked(k)` of the blocks' logs. */
  function Asked(c: Config, fetch: Fetch, all: seq<RawLog>, k: nat): seq<RawLog>
    requires fetch == MultipleQueries ==> k < |c.topics|
  {
    match fetch
    case SingleQuery => Select(all, c.addresses, c.topics)
    case MultipleQueries => Select(all, c.addresses, [c.topics[k]])
    case ClientFiltered => all
  }

  /** Every answered query returns only logs it was asked for, none of them twice. */
  predicate HonestReplies(c: Config, fetch: Fetch, all: seq<RawLog>, replies: seq<QueryReply>) {
    forall k :: 0 <= k < |replies| && (fetch == MultipleQueries ==> k < |c.topics|) && replies[k].Logs? ==>
      multiset(replies[k].logs) <= multiset(Asked(c, fetch, all, k))
  }

  /** Every query is answered in full, in any order, and below the log limit. */
  predicate CompleteReplies(c: Config, fetch: Fetch, all: seq<RawLog>, replies: seq<QueryReply>) {
    && |replies| == (if fetch == MultipleQueries then |c.topics| else 1)
    && forall k :: 0 <= k < |replies| ==>
        && replies[k].Logs? && replies[k].bloomMatches
        && (fetch != ClientFiltered ==> !TooMany(c, replies[k].logs))
        && multiset(replies[k].logs) == multiset(Asked(c, fetch, all, k))
  }

  // ---------------------------------------------------------------- multisets of logs

  /** The logs of distinct topics are disjoint parts of the logs of all of them. */
  lemma {:induction false} SelectSplits(all: seq<RawLog>, addresses: set<Address>, topics: seq<Topic>)
    requires topics != [] && topics[0] !in topics[1..]
    ensures multiset(Select(all, addresses, topics))
            == multiset(Select(all, addresses, [topics[0]])) + multiset(Select(all, addresses, topics[1..]))
  {
    if all != [] {
      SelectSplits(all[1..], addresses, topics);
      assert forall t :: t in topics <==> t == topics[0] || t in topics[1..];
    }
  }

  lemma {:induction false} SelectNone(all: seq<RawLog>, addresses: set<Address>)
    ensures Select(all, addresses, []) == []
  {
    if all != [] {
      SelectNone(all[1..], addresses);
    }
  }

  lemma {:induction false} SelectSubset(all: seq<RawLog>, addresses: set<Address>, topics: seq<Topic>)
    ensures multiset(Select(all, addresses, topics)) <= multiset(all)
  {
    if all != [] {
      SelectSubset(all[1..], addresses, topics);
      assert all == [all[0]] + all[1..];
    }
  }

  /** `Select` keeps all copies of a log or none of them. */
  lemma {:induction false} SelectCounts(all: seq<RawLog>, addresses: set<Address>, topics: seq<Topic>, x: RawLog)
    ensures multiset(Select(all, addresses, topics))[x] ==
            if x.address in addresses && x.topic0.Some? && x.topic0.value in topics then multiset(all)[x] else 0
  {
    if all != [] {
      SelectCounts(all[1..], addresses, topics, x);
      assert all == [all[0]] + all[1..];
    }
  }

  lemma SelectMonotone(a: seq<RawLog>, b: seq<RawLog>, addresses: set<Address>, topics: seq<Topic>)
    ensures multiset(a) <= multiset(b) ==>
              multiset(Select(a, addresses, topics)) <= multiset(Select(b, addresses, topics))
    ensures multiset(a) == multiset(b) ==>
              multiset(Select(a, addresses, topics)) == multiset(Select(b, addresses, topics))
  {
    forall x: RawLog
      ensures multiset(a)[x] <= multiset(b)[x] ==>
                multiset(Select(a, addresses, topics))[x] <= multiset(Select(b, addresses, topics))[x]
      ensures multiset(a)[x] == multiset(b)[x] ==>
                multiset(Select(a, addresses, topics))[x] == multiset(Select(b, addresses, topics))[x]
    {
      SelectCounts(a, addresses, topics, x);
      SelectCounts(b, addresses, topics, x);
    }
  }

  /** One query per topic returns part of what the single query is asked for. */
  lemma {:induction false} ConcatenatedSubset(c: Config, topics: seq<Topic>, replies: seq<QueryReply>, all: seq<RawLog>)
    requires NoDuplicates(topics)
    requires forall k :: 0 <= k < |replies| && k < |topics| && replies[k].Logs? ==>
               multiset(replies[k].logs) <= multiset(Select(all, c.addresses, [topics[k]]))
    ensures var r := Concatenated(c, topics, replies);
            if r.Ok? then multiset(r.value) <= multiset(Select(all, c.addresses, topics)) else !r.error.Batch?
  {
    if topics != [] && replies != [] {
      ConcatenatedSubset(c, topics[1..], replies[1..], all);
      SelectSplits(all, c.addresses, topics);
    }
  }

  lemma {:induction false} ConcatenatedComplete(c: Config, topics: seq<Topic>, replies: seq<QueryReply>,
                                                all: seq<RawLog>)
    requires NoDuplicates(topics) && |replies| == |topics|
    requires forall k :: 0 <= k < |replies| ==>
               replies[k].Logs? && !TooMany(c, replies[k].logs)
               && multiset(replies[k].logs) == multiset(Select(all, c.addresses, [topics[k]]))
    ensures var r := Concatenated(c, topics, replies);
            r.Ok? && multiset(r.value) == multiset(Select(all, c.addresses, topics))
  {
    if topics == [] {
      SelectNone(all, c.addresses);
      assert topics == [];
    } else {
      ConcatenatedComplete(c, topics[1..], replies[1..], all);
      SelectSplits(all, c.addresses, topics);
    }
  }

  // ---------------------------------------------------------------- distinctness

  lemma TwiceCounts(s: seq<RawLog>, i: nat, j: nat)
    requires i < j < |s| && s[i] == s[j]
    ensures multiset(s)[s[i]] >= 2
  {
    assert s == s[..j] + [s[j]] + s[j + 1..];
    assert s[..j][i] == s[i];
  }

  lemma {:induction false} OnceCounts(all: seq<RawLog>, x: RawLog)
    requires DistinctPositions(all)
    ensures multiset(all)[x] <= 1
  {
    if all != [] {
      OnceCounts(all[1..], x);
      assert all == [all[0]] + all[1..];
      assert all[0] !in all[1..];
      assert all[0] !in multiset(all[1..]);
    }
  }

  /** A selection from logs with distinct positions has distinct positions. */
  lemma PartIsDistinct(part: seq<RawLog>, all: seq<RawLog>)
    requires DistinctPositions(all) && multiset(part) <= multiset(all)
    ensures DistinctPositions(part)
    ensures forall x :: x in part ==> x in all
  {
    forall x | x in part ensures x in all {
      assert x in multiset(part);
    }
    forall i, j | 0 <= i < j < |part| ensures (part[i].block, part[i].index) != (part[j].block, part[j].index) {
      assert part[i] in all && part[j] in all;
      if part[i] == part[j] {
        TwiceCounts(part, i, j);
        OnceCounts(all, part[i]);
      }
    }
  }

  lemma PartIsHonest(part: seq<RawLog>, all: seq<RawLog>, from: nat, to: nat)
    requires HonestLogs(all, from, to) && multiset(part) <= multiset(all)
    ensures HonestLogs(part, from, to)
  {
    PartIsDistinct(part, all);
    forall i | 0 <= i < |part| ensures from <= part[i].block <= to {
      assert part[i] in all;
    }
  }

  // ---------------------------------------------------------------- decoding and sorting

  lemma DecodedWithout(c: Config, logs: seq<RawLog>, k: nat)
    requires forall i :: 0 <= i < |logs| ==> c.decode(logs[i]).Some?
    requires k < |logs|
    ensures var rest := logs[..k] + logs[k + 1..];
            && multiset(rest) == multiset(logs) - multiset{logs[k]}
            && (forall i :: 0 <= i < |rest| ==> c.decode(rest[i]).Some?)
            && multiset(Decoded(c, logs)) == multiset(Decoded(c, rest)) + multiset{Delivered(c, logs[k])}
  {
    var d := Decoded(c, logs);
    Without(logs, k);
    Without(d, k);
    assert Decoded(c, logs[..k] + logs[k + 1..]) == d[..k] + d[k + 1..];
  }

  lemma {:induction false} DecodedPermutes(c: Config, a: seq<RawLog>, b: seq<RawLog>)
    requires forall i :: 0 <= i < |a| ==> c.decode(a[i]).Some?
    requires forall i :: 0 <= i < |b| ==> c.decode(b[i]).Some?
    requires multiset(a) == multiset(b)
    ensures multiset(Decoded(c, a)) == multiset(Decoded(c, b))
  {
    assert |multiset(a)| == |multiset(b)|;
    if a != [] {
      assert a[0] in multiset(b);
      var k :| 0 <= k < |b| && b[k] == a[0];
      DecodedWithout(c, a, 0);
      DecodedWithout(c, b, k);
      DecodedPermutes(c, a[..0] + a[1..], b[..k] + b[k + 1..]);
    }
  }

  /** The batch depends only on which logs were returned, not on their order. */
  lemma OrderIsIrrelevant(c: Config, a: seq<RawLog>, b: seq<RawLog>)
    requires DistinctPositions(a) && DistinctPositions(b)
    requires multiset(a) == multiset(b)
    ensures DecodeAndSort(c, a) == DecodeAndSort(c, b)
  {
    forall x ensures x in a <==> x in b {
      assert x in multiset(a) <==> x in multiset(b);
    }
    if DecodeAndSort(c, a).Batch? {
      forall i | 0 <= i < |b| ensures c.decode(b[i]).Some? {
        assert b[i] in a;
      }
      DecodedPermutes(c, a, b);
      SortPermutes(Decoded(c, a));
      SortPermutes(Decoded(c, b));
      SortSorts(Decoded(c, a));
      SortSorts(Decoded(c, b));
      SortedIsUnique(Sort(Decoded(c, a)), Sort(Decoded(c, b)));
    } else {
      var i :| 0 <= i < |a| && c.decode(a[i]).None?;
      assert a[i] in b;
    }
  }

  lemma BatchIsSorted(c: Config, logs: seq<RawLog>, from: nat, to: nat)
    requires HonestLogs(logs, from, to)
    requires DecodeAndSort(c, logs).Batch?
    ensures var batch := DecodeAndSort(c, logs).logs;
            StrictlySorted(batch) && forall i :: 0 <= i < |batch| ==> from <= batch[i].block <= to
  {
    var decoded := Decoded(c, logs);
    SortSorts(decoded);
    SortPermutes(decoded);
    var batch := Sort(decoded);
    forall i | 0 <= i < |batch| ensures from <= batch[i].block <= to {
      assert batch[i] in multiset(decoded);
    }
  }

  lemma GathersPart(c: Config, fetch: Fetch, all: seq<RawLog>, replies: seq<QueryReply>)
    requires NoDuplicates(c.topics) && HonestReplies(c, fetch, all, replies)
    ensures var part := Gather(c, fetch, replies);
            if part.Ok? then multiset(part.value) <= multiset(all) else !part.error.Batch?
  {
    SelectSubset(all, c.addresses, c.topics);
    if fetch == MultipleQueries {
      ConcatenatedSubset(c, c.topics, replies, all);
    } else if replies != [] && replies[0].Logs? {
      assert multiset(replies[0].logs) <= multiset(Asked(c, fetch, all, 0));
      SelectSubset(replies[0].logs, c.addresses, c.topics);
    }
  }

  /** Whatever the strategy and whichever queries fail, a batch from an honest node meets
      the state machine's checks: strictly sorted and inside the queried range. */
  lemma HonestBatch(c: Config, fetch: Fetch, all: seq<RawLog>, from: nat, to: nat, replies: seq<QueryReply>)
    requires NoDuplicates(c.topics)
    requires HonestLogs(all, from, to) && HonestReplies(c, fetch, all, replies)
    requires FetchSpec(c, fetch, replies).Batch?
    ensures var batch := FetchSpec(c, fetch, replies).logs;
            StrictlySorted(batch) && forall i :: 0 <= i < |batch| ==> from <= batch[i].block <= to
  {
    GathersPart(c, fetch, all, replies);
    var part := Gather(c, fetch, replies).value;
    PartIsHonest(part, all, from, to);
    BatchIsSorted(c, part, from, to);
  }

  lemma GathersAll(c: Config, fetch: Fetch, all: seq<RawLog>, replies: seq<QueryReply>)
    requires NoDuplicates(c.topics) && CompleteReplies(c, fetch, all, replies)
    ensures var part := Gather(c, fetch, replies);
            part.Ok? && multiset(part.value) == multiset(Select(all, c.addresses, c.topics))
  {
    if fetch == MultipleQueries {
      ConcatenatedComplete(c, c.topics, replies, all);
    } else {
      assert multiset(replies[0].logs) == multiset(Asked(c, fetch, all, 0));
      SelectMonotone(replies[0].logs, all, c.addresses, c.topics);
    }
  }

  /** A complete answer gives the same result under every strategy: the watched logs of the
      blocks, decoded and sorted. */
  lemma StrategiesAgree(c: Config, fetch: Fetch, all: seq<RawLog>, replies: seq<QueryReply>)
    requires NoDuplicates(c.topics) && DistinctPositions(all)
    requires CompleteReplies(c, fetch, all, replies)
    ensures FetchSpec(c, fetch, replies) == DecodeAndSort(c, Select(all, c.addresses, c.topics))
  {
    var wanted := Select(all, c.addresses, c.topics);
    GathersAll(c, fetch, all, replies);
    SelectSubset(all, c.addresses, c.topics);
    PartIsDistinct(wanted, all);
    PartIsDistinct(Gather(c, fetch, replies).value, all);
    OrderIsIrrelevant(c, Gather(c, fetch, replies).value, wanted);
  }

  // ---------------------------------------------------------------- completeness

  /** A query that was answered, and below the log limit. */
  predicate Usable(c: Config, reply: QueryReply) {
    reply.Logs? && (c.maxLogs.Some? ==> |reply.logs| < c.maxLogs.value)
  }

  lemma {:induction false} ConcatenatedHolds(c: Config, topics: seq<Topic>, replies: seq<QueryReply>)
    requires Concatenated(c, topics, replies).Ok?
    ensures |topics| <= |replies|
    ensures forall k :: 0 <= k < |topics| ==> Usable(c, replies[k]) || topics[k] in c.fallible
    ensures forall k :: 0 <= k < |topics| && Usable(c, replies[k]) ==>
              forall x :: x in replies[k].logs ==> x in Concatenated(c, topics, replies).value
  {
    if topics != [] {
      ConcatenatedHolds(c, topics[1..], replies[1..]);
      var rest := Concatenated(c, topics[1..], replies[1..]).value;
      forall k | 0 <= k < |topics| && Usable(c, replies[k])
        ensures forall x :: x in replies[k].logs ==> x in Concatenated(c, topics, replies).value
      {
        if k > 0 {
          assert replies[1..][k - 1] == replies[k];
        }
      }
      assert forall k :: 0 < k < |topics| ==> replies[1..][k - 1] == replies[k] && topics[1..][k - 1] == topics[k];
    }
  }

  /** The log as it comes out of the fetch. */
  function Delivered(c: Config, x: RawLog): Log
    requires c.decode(x).Some?
  {
    Log(x.block, x.index, x.address, c.decode(x).value)
  }

  lemma DecodedIsInBatch(c: Config, logs: seq<RawLog>, x: RawLog)
    requires DecodeAndSort(c, logs).Batch? && x in logs
    ensures c.decode(x).Some? && Delivered(c, x) in DecodeAndSort(c, logs).logs
  {
    var i :| 0 <= i < |logs| && logs[i] == x;
    SortPermutes(Decoded(c, logs));
    assert Decoded(c, logs)[i] == Delivered(c, x);
    assert Delivered(c, x) in multiset(Decoded(c, logs));
  }

  /** A fetch that succeeds is complete, whatever the node does: every query whose topic is not
      fallible was answered below the limit, a client-filtered block's logs matched its bloom
      filter, and every log of a usable answer that is watched for is in the batch. */
  lemma BatchIsComplete(c: Config, fetch: Fetch, replies: seq<QueryReply>)
    requires FetchSpec(c, fetch, replies).Batch?
    ensures match fetch
            case SingleQuery => replies != [] && Usable(c, replies[0])
            case ClientFiltered => replies != [] && replies[0].Logs? && replies[0].bloomMatches
            case MultipleQueries =>
              && |c.topics| <= |replies|
              && forall k :: 0 <= k < |c.topics| ==> Usable(c, replies[k]) || c.topics[k] in c.fallible
    ensures forall k, x {:trigger x in replies[k].logs} ::
              0 <= k < |replies| && (if fetch == MultipleQueries then k < |c.topics| else k == 0)
              && replies[k].Logs? && (fetch != ClientFiltered ==> Usable(c, replies[k]))
              && x in replies[k].logs && (fetch == ClientFiltered
                                          ==> x in Select(replies[k].logs, c.addresses, c.topics))
              ==> c.decode(x).Some? && Delivered(c, x) in FetchSpec(c, fetch, replies).logs
  {
    var gathered := GatheredOk(c, fetch, replies);
    if fetch == MultipleQueries {
      ConcatenatedHolds(c, c.topics, replies);
    }
    forall k, x | 0 <= k < |replies| && (if fetch == MultipleQueries then k < |c.topics| else k == 0)
                  && replies[k].Logs? && (fetch != ClientFiltered ==> Usable(c, replies[k]))
                  && x in replies[k].logs
                  && (fetch == ClientFiltered ==> x in Select(replies[k].logs, c.addresses, c.topics))
      ensures c.decode(x).Some? && Delivered(c, x) in FetchSpec(c, fetch, replies).logs
    {
      DecodedIsInBatch(c, gathered, x);
    }
  }

  /** A batch comes from gathered logs. */
  lemma GatheredOk(c: Config, fetch: Fetch, replies: seq<QueryReply>) returns (logs: seq<RawLog>)
    requires FetchSpec(c, fetch, replies).Batch?
    ensures Gather(c, fetch, replies) == Ok(logs) && FetchSpec(c, fetch, replies) == DecodeAndSort(c, logs)
  {
    if fetch == MultipleQueries {
      ErrorsAreNoBatch(c, c.topics, replies);
    }
    logs := Gather(c, fetch, replies).value;
  }

  lemma {:induction false} ErrorsAreNoBatch(c: Config, topics: seq<Topic>, replies: seq<QueryReply>)
    ensures Concatenated(c, topics, replies).Err? ==> !Concatenated(c, topics, replies).error.Batch?
  {
    if topics != [] && replies != [] {
      ErrorsAreNoBatch(c, topics[1..], replies[1..]);
    }
  }

  /** The topics whose own query was usable. */
  function Kept(c: Config, topics: seq<Topic>, replies: seq<QueryReply>): (kept: seq<Topic>)
    ensures forall t :: t in kept ==> t in topics
  {
    if topics == [] || replies == [] then []
    else (if Usable(c, replies[0]) then [topics[0]] else []) + Kept(c, topics[1..], replies[1..])
  }

  /** The topics a successful fetch covers. */
  function CoveredTopics(c: Config, fetch: Fetch, replies: seq<QueryReply>): seq<Topic> {
    if fetch == MultipleQueries then Kept(c, c.topics, replies) else c.topics
  }

  /** A node whose untruncated answers are complete, and whose logs are when they match the bloom
      filter. Any query may still fail. */
  predicate Truthful(c: Config, fetch: Fetch, all: seq<RawLog>, replies: seq<QueryReply>) {
    forall k :: 0 <= k < |replies| && (if fetch == MultipleQueries then k < |c.topics| else k == 0)
                && replies[k].Logs?
                && (if fetch == ClientFiltered then replies[k].bloomMatches else Usable(c, replies[k])) ==>
      multiset(replies[k].logs) == multiset(Asked(c, fetch, all, k))
  }

  lemma {:induction false} ConcatenatedExact(c: Config, topics: seq<Topic>, replies: seq<QueryReply>, all: seq<RawLog>)
    requires NoDuplicates(topics) && Concatenated(c, topics, replies).Ok?
    requires forall k :: 0 <= k < |replies| && k < |topics| && Usable(c, replies[k]) ==>
               multiset(replies[k].logs) == multiset(Select(all, c.addresses, [topics[k]]))
    ensures multiset(Concatenated(c, topics, replies).value)
            == multiset(Select(all, c.addresses, Kept(c, topics, replies)))
    ensures forall t :: t in topics && t !in Kept(c, topics, replies) ==> t in c.fallible
  {
    if topics == [] {
      SelectNone(all, c.addresses);
    } else {
      assert forall k :: 0 <= k < |replies[1..]| ==> replies[1..][k] == replies[k + 1];
      ConcatenatedExact(c, topics[1..], replies[1..], all);
      var kept := Kept(c, topics, replies);
      if Usable(c, replies[0]) {
        assert kept[1..] == Kept(c, topics[1..], replies[1..]);
        SelectSplits(all, c.addresses, kept);
      } else {
        assert kept == Kept(c, topics[1..], replies[1..]);
      }
    }
  }

  lemma GathersExactly(c: Config, fetch: Fetch, all: seq<RawLog>, replies: seq<QueryReply>)
    requires NoDuplicates(c.topics) && Truthful(c, fetch, all, replies) && Gather(c, fetch, replies).Ok?
    ensures multiset(Gather(c, fetch, replies).value)
            == multiset(Select(all, c.addresses, CoveredTopics(c, fetch, replies)))
    ensures forall t :: t in c.topics && t !in CoveredTopics(c, fetch, replies) ==> t in c.fallible
  {
    if fetch == MultipleQueries {
      ConcatenatedExact(c, c.topics, replies, all);
    } else {
      assert multiset(replies[0].logs) == multiset(Asked(c, fetch, all, 0));
      SelectMonotone(replies[0].logs, all, c.addresses, c.topics);
    }
  }

  /** For every failure pattern, a batch from a truthful node is exactly the watched logs of its
      blocks, decoded and sorted. Only the logs of a fallible topic whose own query failed can be
      missing from it. */
  lemma BatchIsExact(c: Config, fetch: Fetch, all: seq<RawLog>, replies: seq<QueryReply>)
    requires NoDuplicates(c.topics) && DistinctPositions(all) && Truthful(c, fetch, all, replies)
    requires FetchSpec(c, fetch, replies).Batch?
    ensures FetchSpec(c, fetch, replies)
            == DecodeAndSort(c, Select(all, c.addresses, CoveredTopics(c, fetch, replies)))
    ensures forall t :: t in c.topics && t !in CoveredTopics(c, fetch, replies) ==> t in c.fallible
    ensures (forall t :: t in c.topics ==> t !in c.fallible) ==>
              FetchSpec(c, fetch, replies) == DecodeAndSort(c, Select(all, c.addresses, c.topics))
  {
    var logs := GatheredOk(c, fetch, replies);
    var covered := CoveredTopics(c, fetch, replies);
    GathersExactly(c, fetch, all, replies);
    SelectSubset(all, c.addresses, covered);
    PartIsDistinct(Select(all, c.addresses, covered), all);
    PartIsDistinct(logs, all);
    OrderIsIrrelevant(c, logs, Select(all, c.addresses, covered));
    if forall t :: t in c.topics ==> t !in c.fallible {
      SameSelection(all, c.addresses, covered, c.topics);
    }
  }

  lemma {:induction false} SameSelection(all: seq<RawLog>, addresses: set<Address>, a: seq<Topic>, b: seq<Topic>)
    requires forall t :: t in a <==> t in b
    ensures Select(all, addresses, a) == Select(all, addresses, b)
  {
    if all != [] {
      SameSelection(all[1..], addresses, a, b);
    }
  }

  /** What the event watcher hands out is exact for the blocks it has queried. */
  lemma ReadyIsExact(c: Config, step: Step, all: seq<RawLog>, replies: seq<QueryReply>)
    requires !step.Idle? && NoDuplicates(c.topics) && DistinctPositions(all)
    requires Truthful(c, Strategy(c, step), all, replies) && NextLogsSpec(c, step, replies).1.Ready?
    ensures var ready := NextLogsSpec(c, step, replies).1;
            var covered := CoveredTopics(c, Strategy(c, step), replies);
            && (ready.from, ready.to) == Queried(step)
            && Batch(ready.logs) == DecodeAndSort(c, Select(all, c.addresses, covered))
            && forall t :: t in c.topics && t !in covered ==> t in c.fallible
  {
    BatchIsExact(c, Strategy(c, step), all, replies);
  }

  /** The first query that decides the fetch could not find the block. */
  ghost predicate NotFoundAt(c: Config, topics: seq<Topic>, replies: seq<QueryReply>, k: nat) {
    && k < |topics| && k < |replies| && replies[k].NotFound? && topics[k] !in c.fallible
    && forall j :: 0 <= j < k ==> Usable(c, replies[j]) || topics[j] in c.fallible
  }

  lemma {:induction false} ConcatenatedNotFoundIff(c: Config, topics: seq<Topic>, replies: seq<QueryReply>)
    ensures Concatenated(c, topics, replies) == Err(ResourceNotFound) <==>
            exists k: nat :: NotFoundAt(c, topics, replies, k)
  {
    if topics != [] && replies != [] {
      ConcatenatedNotFoundIff(c, topics[1..], replies[1..]);
      if Usable(c, replies[0]) || topics[0] in c.fallible {
        if k: nat :| NotFoundAt(c, topics[1..], replies[1..], k) {
          assert forall j :: 0 < j <= k ==> replies[j] == replies[1..][j - 1] && topics[j] == topics[1..][j - 1];
          assert NotFoundAt(c, topics, replies, k + 1);
        }
        if k: nat :| NotFoundAt(c, topics, replies, k) && k > 0 {
          assert forall j :: 0 <= j < k ==> replies[j + 1] == replies[1..][j] && topics[j + 1] == topics[1..][j];
          assert NotFoundAt(c, topics[1..], replies[1..], k - 1);
        }
      } else if replies[0].NotFound? {
        assert NotFoundAt(c, topics, replies, 0);
      }
    }
  }

  /** The event watcher asks for its block to be checked again exactly when the query that made the
      fetch fail did not find it; a query for a fallible topic never does. */
  lemma LostIffNotFound(c: Config, step: Step, replies: seq<QueryReply>)
    requires !step.Idle?
    ensures NextLogsSpec(c, step, replies).1 == LogsFailed(true) <==>
            if Strategy(c, step) == MultipleQueries then exists k: nat :: NotFoundAt(c, c.topics, replies, k)
            else replies != [] && replies[0].NotFound?
  {
    if Strategy(c, step) == MultipleQueries {
      ConcatenatedNotFoundIff(c, c.topics, replies);
    }
  }
}
