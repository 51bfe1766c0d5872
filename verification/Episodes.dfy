/**
 Episodes: the time a request is in the sentinel's map. For every interleaving of proposals,
 requests, engine results, duplicates, stale resumes and block advances, an episode's commands
 follow one script, in which the only reveal opens the only commitment.
 */
module Episodes {
  import opened Wrappers
  import opened Numbers
  import opened Sentinel

  /** The phase after the messages, and the commands of the latest episode. */
  function Walk(c: Config, id: Id, messages: seq<Message>): (Option<Phase>, seq<Command>) {
    if messages == [] then (None, [])
    else
      var k := |messages| - 1;
      var (p, episode) := Walk(c, id, messages[..k]);
      var (next, commands) := StepOne(c, id, p, messages[k]);
      (next, if p.None? then commands else episode + commands)
  }

  // ---------------------------------------------------------------- the script

  /** The first commands of an episode: the engine check; then, when we vote, the token approval
      and the commitment to some vote. */
  predicate Checked(id: Id, e: seq<Command>) {
    |e| == 1 && e[0].EngineCheck? && e[0].id == id
  }

  predicate CommittedTo(c: Config, id: Id, e: seq<Command>, approve: bool, reason: string) {
    && |e| == 3 && Checked(id, e[..1]) && e[1].ApproveToken?
    && e[2].Commit? && e[2].id == id && e[2].hash == c.commitHash(c.self, id, approve, c.salt(id), reason)
  }

  /** The reveal opens the commitment before it. */
  predicate Opened(c: Config, id: Id, e: seq<Command>) {
    && |e| == 4 && e[3].Reveal? && e[3].id == id && e[3].salt == c.salt(id)
    && CommittedTo(c, id, e[..3], e[3].approve, e[3].reason)
  }

  predicate FinalizedOnce(c: Config, id: Id, e: seq<Command>) {
    |e| == 5 && Opened(c, id, e[..4]) && e[4] == Finalize(id)
  }

  ghost predicate Bonded(c: Config, id: Id, e: seq<Command>) {
    || (exists approve, reason :: CommittedTo(c, id, e, approve, reason))
    || Opened(c, id, e) || FinalizedOnce(c, id, e)
  }

  ghost predicate Unclaimed(c: Config, id: Id, e: seq<Command>) {
    Checked(id, e) || Bonded(c, id, e)
  }

  ghost predicate ClaimedOnce(c: Config, id: Id, e: seq<Command>) {
    e != [] && e[|e| - 1] == Claim(id) && Unclaimed(c, id, e[..|e| - 1])
  }

  /** Every episode's commands: check, [approve and commit, [reveal, [finalize]]], [claim]. */
  ghost predicate Script(c: Config, id: Id, e: seq<Command>) {
    Unclaimed(c, id, e) || ClaimedOnce(c, id, e)
  }

  /** The commands so far, by phase. */
  ghost predicate EpisodeOk(c: Config, id: Id, p: Option<Phase>, e: seq<Command>) {
    match p
    case None => e == [] || Script(c, id, e)
    case Some(WaitingForEngineCheck(_, _)) => Checked(id, e)
    case Some(WaitingForRequest(_, _, _)) => Checked(id, e)
    case Some(CollectingCommitments(approve, reason, _, _, _, _, _)) => CommittedTo(c, id, e, approve, reason)
    case Some(CollectingVotes(approve, _, _, _, _, _, _, _)) => Opened(c, id, e) && e[3].approve == approve
    case Some(WaitingForOutcome(_, _)) => FinalizedOnce(c, id, e)
    case Some(WaitingForDisputeResolution(_, _)) => Bonded(c, id, e)
  }

  lemma Continue(c: Config, id: Id, e: seq<Command>, more: seq<Command>)
    ensures (e + more)[..|e|] == e
    ensures more == [] ==> e + more == e
    ensures |more| == 1 ==> (e + more)[..|e + more| - 1] == e && (e + more)[|e|] == more[0]
  {
  }

  lemma BlockKeepsScript(c: Config, id: Id, p: Phase, e: seq<Command>, block: nat)
    requires EpisodeOk(c, id, Some(p), e)
    ensures EpisodeOk(c, id, OnBlock(c, id, p, block).0, e + OnBlock(c, id, p, block).1)
  {
    Continue(c, id, e, OnBlock(c, id, p, block).1);
  }

  lemma VoteKeepsScript(c: Config, id: Id, e: seq<Command>, approve: bool, reason: string, terms: Terms)
    requires Checked(id, e)
    ensures EpisodeOk(c, id, CommitVote(c, id, approve, reason, terms).0,
                      e + CommitVote(c, id, approve, reason, terms).1)
  {
    Continue(c, id, e, CommitVote(c, id, approve, reason, terms).1);
    assert (e + CommitVote(c, id, approve, reason, terms).1)[..1] == e[..1];
  }

  lemma EventKeepsScript(c: Config, id: Id, p: Phase, e: seq<Command>, m: Message)
    requires EpisodeOk(c, id, Some(p), e)
    ensures EpisodeOk(c, id, OnEvent(c, id, Some(p), m).0, e + OnEvent(c, id, Some(p), m).1)
  {
    Continue(c, id, e, OnEvent(c, id, Some(p), m).1);
    match m {
      case EngineResult(_, outcome) =>
        if p.WaitingForEngineCheck? && p.request.Some? && outcome != Unknown {
          VoteKeepsScript(c, id, e, outcome.Approved?, if outcome.Denied? then outcome.rule else "", p.request.value);
        }
      case NewRequest(_, terms) =>
        if p.WaitingForRequest? {
          VoteKeepsScript(c, id, e, p.approve, p.reason, terms);
        }
      case _ =>
    }
  }

  lemma {:induction false} WalkKeepsScript(c: Config, id: Id, messages: seq<Message>)
    ensures EpisodeOk(c, id, Walk(c, id, messages).0, Walk(c, id, messages).1)
  {
    if messages != [] {
      var k := |messages| - 1;
      WalkKeepsScript(c, id, messages[..k]);
      var (p, e) := Walk(c, id, messages[..k]);
      var m := messages[k];
      if p.Some? {
        if m.NewBlock? {
          BlockKeepsScript(c, id, p.value, e, m.block);
        } else if m.id == id {
          EventKeepsScript(c, id, p.value, e, m);
        } else {
          Continue(c, id, e, []);
        }
      }
    }
  }

  /** Every episode follows the script. */
  lemma EpisodesFollowScript(c: Config, id: Id, messages: seq<Message>)
    ensures var e := Walk(c, id, messages).1;
            e == [] || Script(c, id, e)
  {
    WalkKeepsScript(c, id, messages);
    var p := Walk(c, id, messages).0;
    if p.Some? && p.value.CollectingCommitments? {
      assert CommittedTo(c, id, Walk(c, id, messages).1, p.value.approve, p.value.reason);
    }
  }

  /** In every episode a reveal opens the one commitment issued before it: it carries the vote,
      the salt and the reason whose hash was committed. */
  lemma RevealOpensCommit(c: Config, id: Id, messages: seq<Message>, j: nat)
    requires j < |Walk(c, id, messages).1| && Walk(c, id, messages).1[j].Reveal?
    ensures var e := Walk(c, id, messages).1;
            && j == 3 && e[2].Commit? && e[j].id == e[2].id == id
            && e[2].hash == c.commitHash(c.self, id, e[j].approve, e[j].salt, e[j].reason)
  {
    EpisodesFollowScript(c, id, messages);
    ScriptOpens(c, id, Walk(c, id, messages).1, j);
  }

  lemma ScriptOpens(c: Config, id: Id, e: seq<Command>, j: nat)
    requires Script(c, id, e) && j < |e| && e[j].Reveal?
    ensures j == 3 && Opened(c, id, e[..4])
  {
    if ClaimedOnce(c, id, e) {
      ScriptReveals(c, id, e[..|e| - 1], j);
      assert e[..|e| - 1][..4] == e[..4];
    } else {
      ScriptReveals(c, id, e, j);
    }
  }

  lemma ScriptReveals(c: Config, id: Id, e: seq<Command>, j: nat)
    requires Unclaimed(c, id, e) && j < |e| && e[j].Reveal?
    ensures j == 3 && Opened(c, id, e[..4])
  {
    if |e| == 4 { assert e[..4] == e; }
  }

  /** Commit, reveal, finalize and claim each occur at most once in an episode. */
  lemma AtMostOnce(c: Config, id: Id, messages: seq<Message>, i: nat, j: nat)
    requires i < j < |Walk(c, id, messages).1|
    ensures var e := Walk(c, id, messages).1;
            && !(e[i].Commit? && e[j].Commit?) && !(e[i].Reveal? && e[j].Reveal?)
            && !(e[i].Finalize? && e[j].Finalize?) && !(e[i].Claim? && e[j].Claim?)
  {
    EpisodesFollowScript(c, id, messages);
    var e := Walk(c, id, messages).1;
    if ClaimedOnce(c, id, e) {
      if j < |e| - 1 {
        UnclaimedOnce(c, id, e[..|e| - 1], i, j);
      } else {
        UnclaimedKinds(c, id, e[..|e| - 1], i);
      }
    } else {
      UnclaimedOnce(c, id, e, i, j);
    }
  }

  lemma UnclaimedKinds(c: Config, id: Id, e: seq<Command>, i: nat)
    requires Unclaimed(c, id, e) && i < |e|
    ensures match i case 0 => e[i].EngineCheck? case 1 => e[i].ApproveToken? case 2 => e[i].Commit?
                    case 3 => e[i].Reveal? case _ => e[i].Finalize? && i == 4
  {
  }

  lemma UnclaimedOnce(c: Config, id: Id, e: seq<Command>, i: nat, j: nat)
    requires Unclaimed(c, id, e) && i < j < |e|
    ensures !(e[i].Commit? && e[j].Commit?) && !(e[i].Reveal? && e[j].Reveal?)
    ensures !(e[i].Finalize? && e[j].Finalize?) && !(e[i].Claim? && e[j].Claim?)
  {
    UnclaimedKinds(c, id, e, i);
    UnclaimedKinds(c, id, e, j);
  }

  // ---------------------------------------------------------------- the vote

  function ReasonOf(outcome: CheckOutcome): string {
    if outcome.Denied? then outcome.rule else ""
  }

  /** The engine answered `outcome` for this request. */
  ghost predicate Answered(id: Id, messages: seq<Message>, outcome: CheckOutcome) {
    outcome != Unknown && EngineResult(id, outcome) in messages
  }

  /** A decided phase, and a commitment made, stem from an answer of the engine. */
  ghost predicate Judged(c: Config, id: Id, messages: seq<Message>, p: Option<Phase>, e: seq<Command>) {
    && (p.Some? && p.value.WaitingForRequest? ==>
          exists outcome :: Answered(id, messages, outcome)
            && p.value.approve == outcome.Approved? && p.value.reason == ReasonOf(outcome))
    && (|e| >= 3 && e[2].Commit? ==>
          exists outcome :: Answered(id, messages, outcome)
            && e[2].hash == c.commitHash(c.self, id, outcome.Approved?, c.salt(id), ReasonOf(outcome)))
  }

  lemma JudgedVote(c: Config, id: Id, messages: seq<Message>, e: seq<Command>, outcome: CheckOutcome, terms: Terms)
    requires Checked(id, e) && Answered(id, messages, outcome)
    ensures var (p, more) := CommitVote(c, id, outcome.Approved?, ReasonOf(outcome), terms);
            Judged(c, id, messages, p, e + more)
  {
    var more := CommitVote(c, id, outcome.Approved?, ReasonOf(outcome), terms).1;
    assert (e + more)[2] == more[1];
  }

  lemma JudgedLater(c: Config, id: Id, messages: seq<Message>, m: Message, p: Option<Phase>, e: seq<Command>)
    requires Judged(c, id, messages, p, e)
    ensures Judged(c, id, messages + [m], p, e)
  {
    forall outcome | Answered(id, messages, outcome) ensures Answered(id, messages + [m], outcome) {
    }
  }

  lemma JudgedStep(c: Config, id: Id, messages: seq<Message>, p: Phase, e: seq<Command>, m: Message)
    requires Judged(c, id, messages, Some(p), e) && EpisodeOk(c, id, Some(p), e) && m in messages
    ensures var (next, more) := StepOne(c, id, Some(p), m);
            Judged(c, id, messages, next, e + more)
  {
    var (next, more) := StepOne(c, id, Some(p), m);
    if m.EngineResult? && m.id == id && p.WaitingForEngineCheck? && m.outcome != Unknown {
      assert Answered(id, messages, m.outcome);
      if p.request.Some? {
        JudgedVote(c, id, messages, e, m.outcome, p.request.value);
      } else {
        assert e + more == e;
      }
    } else if m.NewRequest? && m.id == id && p.WaitingForRequest? {
      var outcome :| Answered(id, messages, outcome) && p.approve == outcome.Approved? && p.reason == ReasonOf(outcome);
      JudgedVote(c, id, messages, e, outcome, m.terms);
    } else if |e| >= 3 {
      assert (e + more)[2] == e[2];
    } else {
      assert Checked(id, e);
      if more != [] { assert |more| == 1 && |e + more| == 2; }
    }
  }

  lemma {:induction false} WalkIsJudged(c: Config, id: Id, messages: seq<Message>)
    ensures Judged(c, id, messages, Walk(c, id, messages).0, Walk(c, id, messages).1)
  {
    if messages != [] {
      var k := |messages| - 1;
      var (before, m) := (messages[..k], messages[k]);
      var (p, e) := Walk(c, id, before);
      WalkIsJudged(c, id, before);
      WalkKeepsScript(c, id, before);
      assert messages == before + [m];
      JudgedLater(c, id, before, m, p, e);
      if p.Some? {
        JudgedStep(c, id, messages, p.value, e, m);
      }
    }
  }

  /** What is committed to is the engine's verdict on this request, with its reason. */
  lemma CommitIsVerdict(c: Config, id: Id, messages: seq<Message>, j: nat)
    requires j < |Walk(c, id, messages).1| && Walk(c, id, messages).1[j].Commit?
    ensures exists outcome :: Answered(id, messages, outcome)
              && Walk(c, id, messages).1[j].hash
                 == c.commitHash(c.self, id, outcome.Approved?, c.salt(id), ReasonOf(outcome))
  {
    var e := Walk(c, id, messages).1;
    WalkIsJudged(c, id, messages);
    EpisodesFollowScript(c, id, messages);
    if ClaimedOnce(c, id, e) {
      UnclaimedKinds(c, id, e[..|e| - 1], j);
    } else {
      UnclaimedKinds(c, id, e, j);
    }
    assert j == 2;
  }

  // ---------------------------------------------------------------- progress

  function Rank(p: Phase): nat {
    match p
    case WaitingForEngineCheck(_, _) => 0
    case WaitingForRequest(_, _, _) => 1
    case CollectingCommitments(_, _, _, _, _, _, _) => 2
    case CollectingVotes(_, _, _, _, _, _, _, _) => 3
    case WaitingForOutcome(_, _) => 4
    case WaitingForDisputeResolution(_, _) => 5
  }

  /** The request stays in the map throughout. */
  predicate Tracked(c: Config, id: Id, p: Phase, messages: seq<Message>)
    decreases |messages|
  {
    messages == [] ||
    var next := StepOne(c, id, Some(p), messages[0]).0;
    next.Some? && Tracked(c, id, next.value, messages[1..])
  }

  /** Within an episode the phase never goes back, and a decided vote is never changed. */
  lemma {:induction false} PhasesGoForward(c: Config, id: Id, p: Phase, messages: seq<Message>)
    requires Tracked(c, id, p, messages)
    ensures var last := RunOne(c, id, Some(p), messages).0;
            && last.Some? && Rank(last.value) >= Rank(p)
            && (!p.WaitingForEngineCheck? ==> !last.value.WaitingForEngineCheck? && last.value.approve == p.approve)
    decreases |messages|
  {
    if messages != [] {
      PhasesGoForward(c, id, StepOne(c, id, Some(p), messages[0]).0.value, messages[1..]);
    }
  }

  /** A proposal is tracked, and its engine check awaited, for the whole voting window. */
  lemma {:induction false} ProposalIsAwaited(c: Config, id: Id, block: nat, messages: seq<Message>)
    requires forall i :: 0 <= i < |messages| ==>
               if messages[i].NewBlock? then messages[i].block <= SaturatingAdd(block, c.votingWindow)
               else messages[i].id != id
    ensures var p := OnEvent(c, id, None, Proposed(id, c.oracle, block)).0;
            p.Some? && RunOne(c, id, p, messages) == (p, [])
    decreases |messages|
  {
    if messages != [] {
      assert forall i :: 0 <= i < |messages[1..]| ==> messages[1..][i] == messages[i + 1];
      var p := OnEvent(c, id, None, Proposed(id, c.oracle, block)).0;
      var m := messages[0];
      assert m.NewBlock? ==> BeforeDeadline(p.value, m.block);
      assert StepOne(c, id, p, m) == (p, []);
      ProposalIsAwaited(c, id, block, messages[1..]);
      var none: seq<Command> := [];
      assert none + none == none;
      assert RunOne(c, id, p, messages) == (p, none + none);
    }
  }

  /** The engine's answer and the request may come in either order: once both have come, the vote
      begins, on the same terms and with the same commitment. */
  lemma VoteBeginsOnceBothCame(c: Config, id: Id, deadline: nat, outcome: CheckOutcome, terms: Terms)
    requires outcome != Unknown
    ensures var p := Some(WaitingForEngineCheck(deadline, None));
            var vote := CommitVote(c, id, outcome.Approved?, ReasonOf(outcome), terms);
            && RunOne(c, id, p, [EngineResult(id, outcome), NewRequest(id, terms)]) == vote
            && RunOne(c, id, p, [NewRequest(id, terms), EngineResult(id, outcome)]) == vote
            && vote.0.Some? && vote.0.value.approve == outcome.Approved? && vote.0.value.reason == ReasonOf(outcome)
  {
    var p := Some(WaitingForEngineCheck(deadline, None));
    var (result, request) := (EngineResult(id, outcome), NewRequest(id, terms));
    TwoSteps(c, id, p, result, request);
    TwoSteps(c, id, p, request, result);
    var vote := CommitVote(c, id, outcome.Approved?, ReasonOf(outcome), terms);
    assert [] + vote.1 == vote.1;
  }

  lemma TwoSteps(c: Config, id: Id, p: Option<Phase>, first: Message, second: Message)
    ensures var (q, a) := StepOne(c, id, p, first);
            var (r, b) := StepOne(c, id, q, second);
            RunOne(c, id, p, [first, second]) == (r, a + b)
  {
    var (q, a) := StepOne(c, id, p, first);
    var (r, b) := StepOne(c, id, q, second);
    assert [first, second][1..] == [second] && [second][1..] == [];
    assert RunOne(c, id, r, []) == (r, []);
    assert b + [] == b;
    assert RunOne(c, id, q, [second]) == (r, b);
  }

  /** The latest block any deadline of the request names. */
  function LastDeadline(p: Phase): nat {
    match p
    case WaitingForEngineCheck(deadline, request) =>
      if request.Some? then Max(request.value.commitDeadline, request.value.revealDeadline) else deadline
    case WaitingForRequest(_, _, deadline) => deadline
    case CollectingCommitments(_, _, _, commitDeadline, revealDeadline, _, _) => Max(commitDeadline, revealDeadline)
    case CollectingVotes(_, _, revealDeadline, _, _, _, _, _) => revealDeadline
    case _ => 0
  }

  /** Waiting for the chain to settle the request, with no deadline left. */
  predicate Settling(p: Option<Phase>) {
    p.None? || p.value.WaitingForOutcome? || p.value.WaitingForDisputeResolution?
  }

  predicate RevealingBefore(p: Option<Phase>, block: nat) {
    Settling(p) || (p.value.CollectingVotes? && p.value.revealDeadline < block)
  }

  predicate NotProposed(id: Id, messages: seq<Message>) {
    forall i :: 0 <= i < |messages| && messages[i].Proposed? ==> messages[i].id != id
  }

  lemma {:induction false} StaysRevealing(c: Config, id: Id, p: Option<Phase>, messages: seq<Message>, block: nat)
    requires RevealingBefore(p, block) && NotProposed(id, messages)
    ensures RevealingBefore(RunOne(c, id, p, messages).0, block)
    decreases |messages|
  {
    if messages != [] {
      assert !(messages[0].Proposed? && messages[0].id == id);
      var next := StepOne(c, id, p, messages[0]).0;
      assert RevealingBefore(next, block);
      forall i | 0 <= i < |messages[1..]| && messages[1..][i].Proposed? ensures messages[1..][i].id != id {
        assert messages[1..][i] == messages[i + 1];
      }
      StaysRevealing(c, id, next, messages[1..], block);
    }
  }

  /** Two block advances past every deadline of a request, with anything but a new proposal in
      between, leave it waiting for the chain or gone. */
  lemma TwoBlocksSettle(c: Config, id: Id, p: Phase, first: nat, between: seq<Message>, second: nat)
    requires LastDeadline(p) < first <= second && NotProposed(id, between)
    ensures var afterFirst := StepOne(c, id, Some(p), NewBlock(first)).0;
            var afterBetween := RunOne(c, id, afterFirst, between).0;
            Settling(StepOne(c, id, afterBetween, NewBlock(second)).0)
  {
    var afterFirst := StepOne(c, id, Some(p), NewBlock(first)).0;
    StaysRevealing(c, id, afterFirst, between, first);
  }
}
