/**
 The sentinel against the oracle contract (contracts/src/libraries/SentinelOracleRequests.sol
 and SentinelOracleCommitments.sol): one request's life on chain as an automaton whose events
 reach the sentinel block by block, while engine results resume at any point.
 */
module OracleRuns {
  import opened Wrappers
  import opened Numbers
  import Sets
  import opened Sentinel

  datatype Stage = Absent | Pending | Frozen | Resolved | TimedOut

  /** A request on chain. `approvals` and `denials` are the sentinels that revealed. */
  datatype Contract = Contract(
    block: nat, stage: Stage, terms: Terms,
    committers: set<Address>, approvals: set<Address>, denials: set<Address>)

  function Revealers(k: Contract): set<Address> { k.approvals + k.denials }

  predicate EveryoneRevealed(k: Contract) {
    k.committers != {} && |Revealers(k)| == |k.committers|
  }

  /** When the contract lets anyone finalize the request. */
  predicate CanFinalize(k: Contract) {
    k.stage == Pending
    && (k.block > k.terms.revealDeadline || EveryoneRevealed(k)
        || (k.committers == {} && k.block > k.terms.commitDeadline))
  }

  /** The contract can emit `m` now. Messages about other requests, and those that the contract
      does not emit, are always possible. */
  predicate CanEmit(k: Contract, id: Id, m: Message) {
    if m.NewBlock? then m.block == k.block + 1
    else if m.id != id then true
    else match m
      case NewRequest(_, terms) =>
        k.stage == Absent && k.block < terms.commitDeadline < terms.revealDeadline
      case Committed(_, sentinel) =>
        k.stage == Pending && k.block <= k.terms.commitDeadline && sentinel !in k.committers
      case Revealed(_, sentinel, _) =>
        && k.stage == Pending && k.terms.commitDeadline < k.block <= k.terms.revealDeadline
        && sentinel in k.committers && sentinel !in Revealers(k)
      case RequestTimedOut(_) => CanFinalize(k) && k.approvals == {} && k.denials == {}
      case OracleResult(_) => CanFinalize(k) && (k.approvals == {}) != (k.denials == {})
      case DisputeTriggered(_) => CanFinalize(k) && k.approvals != {} && k.denials != {}
      case DisputeResolved(_) => k.stage == Frozen
      case ArbitrationEnded(_) => k.stage == Frozen
      case _ => true
  }

  function Emit(k: Contract, id: Id, m: Message): Contract {
    if m.NewBlock? then k.(block := m.block)
    else if m.id != id then k
    else match m
      case NewRequest(_, terms) => k.(stage := Pending, terms := terms)
      case Committed(_, sentinel) => k.(committers := k.committers + {sentinel})
      case Revealed(_, sentinel, approved) =>
        if approved then k.(approvals := k.approvals + {sentinel}) else k.(denials := k.denials + {sentinel})
      case RequestTimedOut(_) => k.(stage := TimedOut)
      case OracleResult(_) => k.(stage := Resolved)
      case DisputeTriggered(_) => k.(stage := Frozen)
      case DisputeResolved(_) => k.(stage := Resolved)
      case ArbitrationEnded(_) => k.(stage := TimedOut)
      case _ => k
  }

  /** The contract and the sentinel side by side. `issued`: the sentinel has issued a commitment for
      the request. `lost`: it dropped the request without a claim after its commitment had landed.
      `missed`: how many commitments landed while the engine check of the open request was still
      outstanding. */
  datatype Play = Play(contract: Contract, phase: Option<Phase>, issued: bool, lost: bool, missed: nat)

  function Before(block: nat, terms: Terms): Play {
    Play(Contract(block, Absent, terms, {}, {}, {}), None, false, false, 0)
  }

  /** Our own commitment has landed on the contract. */
  predicate Landed(c: Config, play: Play) { c.self in play.contract.committers }

  predicate Unsettled(k: Contract) { k.stage == Pending || k.stage == Frozen }

  /** The sentinel tracks the request in a phase in which it knows of our bond. */
  predicate Holds(play: Play) { play.phase.Some? && BondOf(play.phase.value).Some? }

  predicate Collecting(play: Play) { play.phase.Some? && play.phase.value.CollectingCommitments? }

  predicate Revealing(play: Play) { play.phase.Some? && play.phase.value.CollectingVotes? }

  /** The request is open, and the engine has not answered yet. */
  predicate Checking(play: Play) {
    play.phase.Some? && play.phase.value.WaitingForEngineCheck? && play.phase.value.request.Some?
  }

  predicate Commits(commands: seq<Command>) {
    exists i :: 0 <= i < |commands| && commands[i].Commit?
  }

  function Next(c: Config, id: Id, play: Play, m: Message): Play {
    var (phase, commands) := StepOne(c, id, play.phase, m);
    Play(Emit(play.contract, id, m), phase,
         play.issued || Commits(commands),
         play.lost || (Landed(c, play) && Unsettled(play.contract)
                       && play.phase.Some? && phase.None? && commands != [Claim(id)]),
         play.missed + (if Checking(play) && m.Committed? && m.id == id then 1 else 0))
  }

  function Commands(c: Config, id: Id, play: Play, m: Message): seq<Command> {
    StepOne(c, id, play.phase, m).1
  }

  /** The contract can emit `m` now, and for us only a commitment that we issued lands. */
  predicate CanHappen(c: Config, play: Play, id: Id, m: Message) {
    CanEmit(play.contract, id, m) && (m == Committed(id, c.self) ==> play.issued)
  }

  /** A run the contract can produce, block by block, with engine results at any point. */
  predicate FaithfulRun(c: Config, id: Id, play: Play, messages: seq<Message>)
    decreases |messages|
  {
    messages == [] ||
    (CanHappen(c, play, id, messages[0]) && FaithfulRun(c, id, Next(c, id, play, messages[0]), messages[1..]))
  }

  function PlayAll(c: Config, id: Id, play: Play, messages: seq<Message>): Play
    decreases |messages|
  {
    if messages == [] then play else PlayAll(c, id, Next(c, id, play, messages[0]), messages[1..])
  }

  // ---------------------------------------------------------------- the invariant

  predicate ContractOk(k: Contract) {
    && Revealers(k) <= k.committers && k.approvals !! k.denials
    && (k.stage == Absent ==> k.committers == {})
    && (Revealers(k) != {} ==> k.block > k.terms.commitDeadline)
    && (k.stage != Absent ==> k.terms.commitDeadline < k.terms.revealDeadline)
    && (k.stage == Frozen ==> k.approvals != {} && k.denials != {})
  }

  /** The sentinel's phase tells the stage of the contract, its counter is short by just the missed
      commitments, and it holds what has landed of ours. */
  predicate InStep(c: Config, play: Play) {
    var k := play.contract;
    && (k.stage == Absent ==> play.missed == 0 && !play.issued)
    && (Landed(c, play) || play.lost ==> play.issued)
    && (play.issued && k.stage == Pending && k.block <= k.terms.commitDeadline ==> Collecting(play))
    && (Landed(c, play) && Unsettled(k) && !play.lost ==> Holds(play))
    && match play.phase
       case None => true
       case Some(WaitingForEngineCheck(_, None)) => true
       case Some(WaitingForRequest(_, _, _)) => true
       case Some(WaitingForEngineCheck(_, Some(terms))) =>
         && k.stage == Pending && terms == k.terms
         && |k.committers| == play.missed && k.block <= terms.commitDeadline
       case Some(CollectingCommitments(_, _, slash, commitDeadline, revealDeadline, committed, selfCommitted)) =>
         && play.issued && !play.lost && selfCommitted == Landed(c, play) && k.stage == Pending
         && slash == k.terms.slashAmount
         && commitDeadline == k.terms.commitDeadline && revealDeadline == k.terms.revealDeadline
         && k.block <= commitDeadline
         && |k.committers| == committed + play.missed
         && (selfCommitted ==> committed > 0)
       case Some(CollectingVotes(_, slash, revealDeadline, committed, revealed, approvals, denials, selfRevealed)) =>
         && Landed(c, play) && !play.lost && k.stage == Pending
         && slash == k.terms.slashAmount && revealDeadline == k.terms.revealDeadline
         && k.terms.commitDeadline < k.block <= revealDeadline
         && |k.committers| == committed + play.missed
         && approvals == |k.approvals| && denials == |k.denials| && revealed == approvals + denials
         && revealed < committed
         && selfRevealed == (c.self in Revealers(k))
       case Some(WaitingForOutcome(_, _)) =>
         Landed(c, play) && !play.lost && k.stage == Pending && k.terms.commitDeadline < k.block
       case Some(WaitingForDisputeResolution(_, _)) => Landed(c, play) && !play.lost && k.stage == Frozen
  }

  predicate Inv(c: Config, play: Play) {
    ContractOk(play.contract) && InStep(c, play)
  }

  // ---------------------------------------------------------------- what a step promises

  /** Past the reveal deadline, others revealed and we did not. */
  predicate MissedReveal(c: Config, k: Contract) {
    k.block > k.terms.revealDeadline && Revealers(k) != {} && c.self !in Revealers(k)
  }

  predicate Claimable(k: Contract) { k.stage == Resolved || k.stage == TimedOut }

  /** What every step keeps, whatever was missed. */
  predicate Always(c: Config, id: Id, play: Play, m: Message) {
    var next := Next(c, id, play, m);
    var commands := Commands(c, id, play, m);
    // A landed commitment that was not given up is claimed as soon as the contract settles it.
    && (Landed(c, play) && !play.lost && Unsettled(play.contract) && Claimable(next.contract) ==>
          commands == [Claim(id)])
    // A claim is made only for a settled request, and only an arbitration that ends without a
    // ruling makes one without a landed commitment.
    && (Claim(id) in commands ==>
          Claimable(next.contract) && ((Landed(c, play) && !play.lost) || m.ArbitrationEnded?))
    // The vote is revealed in the first block of the reveal window, after our commitment landed.
    && (forall i :: 0 <= i < |commands| && commands[i].Reveal? ==>
          && c.self in next.contract.committers
          && next.contract.block == next.contract.terms.commitDeadline + 1 <= next.contract.terms.revealDeadline
          && commands[i].expires == Some(next.contract.terms.revealDeadline))
    // A commitment is made while the commit window is open, and expires with it.
    && (forall i :: 0 <= i < |commands| && commands[i].Commit? ==>
          && next.contract.stage == Pending && next.contract.block <= next.contract.terms.commitDeadline
          && commands[i].expires == Some(next.contract.terms.commitDeadline))
    // The bond approved for it is the contract's.
    && (forall i :: 0 <= i < |commands| && commands[i].ApproveToken? ==>
          commands[i].bond == next.contract.terms.bondTarget)
  }

  predicate TooEarly(c: Config, id: Id, play: Play, m: Message) {
    Finalize(id) in Commands(c, id, play, m) && !CanFinalize(Next(c, id, play, m).contract)
  }

  /** How a request is finalized or given up. */
  predicate FinalizesRightly(c: Config, id: Id, play: Play, m: Message) {
    var next := Next(c, id, play, m);
    var commands := Commands(c, id, play, m);
    // A landed commitment is given up only as a missed reveal; else the request leaves with a claim.
    && (next.lost && !play.lost ==> MissedReveal(c, next.contract))
    // A request is finalized only when the contract allows it.
    && !TooEarly(c, id, play, m)
    // Before the reveal deadline, that is only once every committer has revealed.
    && (Finalize(id) in commands && next.contract.block <= next.contract.terms.revealDeadline ==>
          Revealers(next.contract) == next.contract.committers)
  }

  /** A step is always sound, and finalizes rightly when no commitment was missed. */
  predicate Promises(c: Config, id: Id, play: Play, m: Message) {
    Always(c, id, play, m) && (play.missed == 0 ==> FinalizesRightly(c, id, play, m))
  }

  lemma ContractStays(k: Contract, id: Id, m: Message)
    requires ContractOk(k) && CanEmit(k, id, m)
    ensures ContractOk(Emit(k, id, m))
  {
  }

  lemma BlockKeeps(c: Config, id: Id, play: Play, m: Message)
    requires Inv(c, play) && CanHappen(c, play, id, m) && m.NewBlock?
    ensures InStep(c, Next(c, id, play, m))
  {
    var k := play.contract;
    assert |k.approvals + k.denials| == |k.approvals| + |k.denials|;
  }

  lemma BlockPromises(c: Config, id: Id, play: Play, m: Message)
    requires Inv(c, play) && CanHappen(c, play, id, m) && m.NewBlock?
    ensures Promises(c, id, play, m)
  {
    var k := play.contract;
    assert |k.approvals + k.denials| == |k.approvals| + |k.denials|;
  }

  /** One more reveal: the tallies add up, and when there are as many reveals as commitments
      everyone has revealed. */
  lemma RevealsAfter(k: Contract, id: Id, m: Message)
    requires ContractOk(k) && CanEmit(k, id, m) && m.Revealed? && m.id == id
    ensures var next := Emit(k, id, m);
            && |next.approvals| == |k.approvals| + (if m.approved then 1 else 0)
            && |next.denials| == |k.denials| + (if m.approved then 0 else 1)
            && |Revealers(next)| == |next.approvals| + |next.denials| <= |k.committers|
            && (|Revealers(next)| == |k.committers| ==> Revealers(next) == k.committers)
            && Revealers(next) == Revealers(k) + {m.sentinel}
  {
    var next := Emit(k, id, m);
    assert Revealers(next) == Revealers(k) + {m.sentinel};
    assert next.approvals !! next.denials;
    Sets.SubsetSize(Revealers(next), k.committers);
  }

  /** The phase after a reveal is counted. */
  lemma RevealedPhase(c: Config, id: Id, p: Phase, m: Message)
    requires p.CollectingVotes? && m.Revealed? && m.id == id
    ensures var selfRevealed := p.selfRevealed || m.sentinel == c.self;
            StepOne(c, id, Some(p), m) ==
            if p.revealedCount + 1 < p.committedCount then
              (Some(CollectingVotes(p.approve, p.slashAmount, p.revealDeadline, p.committedCount, p.revealedCount + 1,
                                    p.approveCount + (if m.approved then 1 else 0),
                                    p.denyCount + (if m.approved then 0 else 1), selfRevealed)), [])
            else if selfRevealed then (Some(WaitingForOutcome(p.approve, p.slashAmount)), [Finalize(id)])
            else (None, [])
  {
  }

  lemma RevealedInVotes(c: Config, id: Id, play: Play, m: Message)
    requires Inv(c, play) && CanHappen(c, play, id, m) && m.Revealed? && m.id == id
    requires Revealing(play)
    ensures InStep(c, Next(c, id, play, m))
  {
    RevealedPhase(c, id, play.phase.value, m);
    RevealsAfter(play.contract, id, m);
  }

  lemma QuietPromises(c: Config, id: Id, play: Play, m: Message)
    requires Commands(c, id, play, m) == [] && Next(c, id, play, m).phase.Some?
    requires !Claimable(Next(c, id, play, m).contract)
    ensures Promises(c, id, play, m)
  {
  }

  lemma FinalizePromises(c: Config, id: Id, play: Play, m: Message)
    requires Commands(c, id, play, m) == [Finalize(id)] && Next(c, id, play, m).phase.Some?
    requires var k := Next(c, id, play, m).contract;
             k.stage == Pending && (play.missed == 0 ==> EveryoneRevealed(k) && Revealers(k) == k.committers)
    ensures Promises(c, id, play, m)
  {
  }

  /** When as many have revealed as committed, everyone has, and so have we. */
  lemma LastReveal(c: Config, id: Id, play: Play, m: Message)
    requires Inv(c, play) && CanHappen(c, play, id, m) && m.Revealed? && m.id == id
    requires Revealing(play)
    requires play.phase.value.revealedCount + 1 >= play.phase.value.committedCount && play.missed == 0
    ensures var k := Emit(play.contract, id, m);
            k.stage == Pending && EveryoneRevealed(k) && Revealers(k) == k.committers
    ensures play.phase.value.selfRevealed || m.sentinel == c.self
  {
    RevealsAfter(play.contract, id, m);
  }

  /** With a short counter others may bring the request to an end before us: it is dropped. */
  lemma DropPromises(c: Config, id: Id, play: Play, m: Message)
    requires Commands(c, id, play, m) == [] && !Claimable(Next(c, id, play, m).contract) && play.missed > 0
    ensures Promises(c, id, play, m)
  {
  }

  lemma RevealedPromises(c: Config, id: Id, play: Play, m: Message)
    requires Inv(c, play) && CanHappen(c, play, id, m) && m.Revealed? && m.id == id
    requires Revealing(play)
    ensures Promises(c, id, play, m)
  {
    var p := play.phase.value;
    RevealedPhase(c, id, p, m);
    if p.revealedCount + 1 < p.committedCount {
      QuietPromises(c, id, play, m);
    } else {
      if play.missed == 0 {
        LastReveal(c, id, play, m);
      }
      if p.selfRevealed || m.sentinel == c.self {
        FinalizePromises(c, id, play, m);
      } else {
        DropPromises(c, id, play, m);
      }
    }
  }

  lemma RevealedKeeps(c: Config, id: Id, play: Play, m: Message)
    requires Inv(c, play) && CanHappen(c, play, id, m) && m.Revealed? && m.id == id
    ensures Inv(c, Next(c, id, play, m)) && Promises(c, id, play, m)
  {
    ContractStays(play.contract, id, m);
    if Revealing(play) {
      RevealedInVotes(c, id, play, m);
      RevealedPromises(c, id, play, m);
    }
  }

  predicate Voting(m: Message) {
    m.Proposed? || m.EngineResult? || m.NewRequest? || m.Committed? || m.Claimed?
  }

  lemma VoteCommits(c: Config, id: Id, approve: bool, reason: string, terms: Terms)
    ensures Commits(CommitVote(c, id, approve, reason, terms).1)
  {
    assert CommitVote(c, id, approve, reason, terms).1[1].Commit?;
  }

  lemma VoteKeeps(c: Config, id: Id, play: Play, m: Message, approve: bool, reason: string)
    requires Inv(c, play) && CanHappen(c, play, id, m) && Voting(m) && !m.Committed? && m.id == id
    requires var k := Next(c, id, play, m).contract;
             && StepOne(c, id, play.phase, m) == CommitVote(c, id, approve, reason, k.terms)
             && k.stage == Pending && k.block <= k.terms.commitDeadline && !play.issued
             && |k.committers| == play.missed
    ensures InStep(c, Next(c, id, play, m))
  {
    VoteCommits(c, id, approve, reason, Next(c, id, play, m).contract.terms);
  }

  lemma ResultKeeps(c: Config, id: Id, play: Play, m: Message)
    requires Inv(c, play) && CanHappen(c, play, id, m) && (m.EngineResult? || m.NewRequest?) && m.id == id
    ensures InStep(c, Next(c, id, play, m))
  {
    var p := play.phase;
    if m.EngineResult? && Checking(play) && m.outcome != Unknown {
      VoteKeeps(c, id, play, m, m.outcome.Approved?, if m.outcome.Denied? then m.outcome.rule else "");
    } else if m.NewRequest? && p.Some? && p.value.WaitingForRequest? {
      VoteKeeps(c, id, play, m, p.value.approve, p.value.reason);
    } else {
      assert Commands(c, id, play, m) == [];
    }
  }

  lemma CommittedKeeps(c: Config, id: Id, play: Play, m: Message)
    requires Inv(c, play) && CanHappen(c, play, id, m) && m.Committed? && m.id == id
    ensures InStep(c, Next(c, id, play, m))
  {
    assert Commands(c, id, play, m) == [];
  }

  lemma VotingKeeps(c: Config, id: Id, play: Play, m: Message)
    requires Inv(c, play) && CanHappen(c, play, id, m) && Voting(m) && m.id == id
    ensures InStep(c, Next(c, id, play, m))
  {
    if m.EngineResult? || m.NewRequest? {
      ResultKeeps(c, id, play, m);
    } else if m.Committed? {
      CommittedKeeps(c, id, play, m);
    }
  }

  /** A vote begins while its window is open, on the contract's own terms. */
  lemma CommitPromises(c: Config, id: Id, play: Play, m: Message, approve: bool, reason: string)
    requires var k := Next(c, id, play, m).contract;
             && StepOne(c, id, play.phase, m) == CommitVote(c, id, approve, reason, k.terms)
             && k.stage == Pending && k.block <= k.terms.commitDeadline
    ensures Promises(c, id, play, m)
  {
  }

  /** Commands other than votes, reveals, finalizations and claims promise nothing. */
  lemma CheckPromises(c: Config, id: Id, play: Play, m: Message)
    requires forall i :: 0 <= i < |Commands(c, id, play, m)| ==> Commands(c, id, play, m)[i].EngineCheck?
    requires Landed(c, play) && !play.lost && Unsettled(play.contract) ==>
               Next(c, id, play, m).phase.Some? && !Claimable(Next(c, id, play, m).contract)
    ensures Promises(c, id, play, m)
  {
  }

  lemma ResultPromises(c: Config, id: Id, play: Play, m: Message)
    requires Inv(c, play) && CanHappen(c, play, id, m) && (m.EngineResult? || m.NewRequest?) && m.id == id
    ensures Promises(c, id, play, m)
  {
    var p := play.phase;
    if m.EngineResult? && Checking(play) && m.outcome != Unknown {
      CommitPromises(c, id, play, m, m.outcome.Approved?, if m.outcome.Denied? then m.outcome.rule else "");
    } else if m.NewRequest? && p.Some? && p.value.WaitingForRequest? {
      CommitPromises(c, id, play, m, p.value.approve, p.value.reason);
    } else {
      CheckPromises(c, id, play, m);
    }
  }

  lemma VotingPromises(c: Config, id: Id, play: Play, m: Message)
    requires Inv(c, play) && CanHappen(c, play, id, m) && Voting(m) && m.id == id
    ensures Promises(c, id, play, m)
  {
    if m.EngineResult? || m.NewRequest? {
      ResultPromises(c, id, play, m);
    } else {
      CheckPromises(c, id, play, m);
    }
  }

  lemma SettlingKeeps(c: Config, id: Id, play: Play, m: Message)
    requires Inv(c, play) && CanHappen(c, play, id, m) && !Voting(m) && !m.NewBlock? && !m.Revealed? && m.id == id
    ensures InStep(c, Next(c, id, play, m)) && Promises(c, id, play, m)
  {
  }

  lemma OthersKeep(c: Config, id: Id, play: Play, m: Message)
    requires Inv(c, play) && !m.NewBlock? && m.id != id
    ensures Inv(c, Next(c, id, play, m)) && Promises(c, id, play, m)
  {
  }

  lemma StepKeeps(c: Config, id: Id, play: Play, m: Message)
    requires Inv(c, play) && CanHappen(c, play, id, m)
    ensures Inv(c, Next(c, id, play, m)) && Promises(c, id, play, m)
  {
    ContractStays(play.contract, id, m);
    if m.NewBlock? {
      BlockKeeps(c, id, play, m);
      BlockPromises(c, id, play, m);
    } else if m.id != id {
      OthersKeep(c, id, play, m);
    } else if m.Revealed? {
      RevealedKeeps(c, id, play, m);
    } else if Voting(m) {
      VotingKeeps(c, id, play, m);
      VotingPromises(c, id, play, m);
    } else {
      SettlingKeeps(c, id, play, m);
    }
  }

  // ---------------------------------------------------------------- runs

  lemma {:induction false} RunKeeps(c: Config, id: Id, play: Play, messages: seq<Message>)
    requires Inv(c, play) && FaithfulRun(c, id, play, messages)
    ensures Inv(c, PlayAll(c, id, play, messages))
    decreases |messages|
  {
    if messages != [] {
      StepKeeps(c, id, play, messages[0]);
      RunKeeps(c, id, Next(c, id, play, messages[0]), messages[1..]);
    }
  }

  /** In every contract-faithful, block-by-block run every step keeps its promises. */
  lemma RunsKeepPromises(c: Config, id: Id, block: nat, terms: Terms, messages: seq<Message>, m: Message)
    requires FaithfulRun(c, id, Before(block, terms), messages)
    requires CanHappen(c, PlayAll(c, id, Before(block, terms), messages), id, m)
    ensures Promises(c, id, PlayAll(c, id, Before(block, terms), messages), m)
  {
    RunKeeps(c, id, Before(block, terms), messages);
    StepKeeps(c, id, PlayAll(c, id, Before(block, terms), messages), m);
  }

  /** What has landed of ours on the contract is what the sentinel holds, until the contract settles
      it or it is given up; and the request is in dispute exactly when the sentinel waits for
      arbitration. */
  lemma PhaseTellsStage(c: Config, id: Id, block: nat, terms: Terms, messages: seq<Message>)
    requires FaithfulRun(c, id, Before(block, terms), messages)
    ensures var play := PlayAll(c, id, Before(block, terms), messages);
            && (Holds(play) ==> Landed(c, play) && Unsettled(play.contract) && !play.lost)
            && (Landed(c, play) && Unsettled(play.contract) && !play.lost ==>
                  && Holds(play)
                  && (play.phase.value.WaitingForDisputeResolution? <==> play.contract.stage == Frozen))
  {
    RunKeeps(c, id, Before(block, terms), messages);
  }

  /** Our own commitment, whenever it lands, finds the sentinel collecting commitments for the
      request: no block, event or engine result takes the request away before its deadline. */
  lemma OwnCommitmentIsAwaited(c: Config, id: Id, block: nat, terms: Terms, messages: seq<Message>)
    requires FaithfulRun(c, id, Before(block, terms), messages)
    requires CanHappen(c, PlayAll(c, id, Before(block, terms), messages), id, Committed(id, c.self))
    ensures var play := PlayAll(c, id, Before(block, terms), messages);
            && Collecting(play) && Holds(Next(c, id, play, Committed(id, c.self)))
  {
    RunKeeps(c, id, Before(block, terms), messages);
  }

  // ---------------------------------------------------------------- exactly when finalizing is right

  /** The request has been opened and is past its engine check: nothing more can be missed. */
  predicate Checked(play: Play) {
    play.contract.stage != Absent && !Checking(play)
  }

  lemma {:induction false} MissedIsFinal(c: Config, id: Id, play: Play, messages: seq<Message>)
    requires Checked(play) && FaithfulRun(c, id, play, messages)
    ensures PlayAll(c, id, play, messages).missed == play.missed
    decreases |messages|
  {
    if messages != [] {
      MissedIsFinal(c, id, Next(c, id, play, messages[0]), messages[1..]);
    }
  }

  lemma PlayFirst(c: Config, id: Id, play: Play, messages: seq<Message>)
    requires |messages| >= 1
    ensures PlayAll(c, id, play, messages) == PlayAll(c, id, Next(c, id, play, messages[0]), messages[1..])
    ensures FaithfulRun(c, id, play, messages) <==>
              && CanHappen(c, play, id, messages[0])
              && FaithfulRun(c, id, Next(c, id, play, messages[0]), messages[1..])
  {
  }

  /** A reveal that makes as many as were counted, but not as many as committed. */
  lemma ShortReveal(c: Config, id: Id, play: Play, m: Message)
    requires Inv(c, play) && Revealing(play) && play.missed > 0
    requires CanHappen(c, play, id, m) && m.Revealed? && m.id == id
    requires play.phase.value.revealedCount + 1 == play.phase.value.committedCount
    requires play.phase.value.selfRevealed || m.sentinel == c.self
    ensures TooEarly(c, id, play, m)
  {
    RevealedPhase(c, id, play.phase.value, m);
    RevealsAfter(play.contract, id, m);
  }

  /** A reveal after which more are awaited. */
  lemma MoreReveals(c: Config, id: Id, play: Play, m: Message)
    requires Inv(c, play) && Revealing(play) && CanHappen(c, play, id, m) && m.Revealed? && m.id == id
    requires play.phase.value.revealedCount + 1 < play.phase.value.committedCount
    ensures var (p, next) := (play.phase.value, Next(c, id, play, m));
            && Inv(c, next) && Revealing(next) && next.missed == play.missed
            && next.phase.value.approve == p.approve && next.phase.value.committedCount == p.committedCount
            && next.phase.value.revealedCount == p.revealedCount + 1
            && next.phase.value.selfRevealed == (p.selfRevealed || m.sentinel == c.self)
  {
    RevealedPhase(c, id, play.phase.value, m);
    StepKeeps(c, id, play, m);
  }

  /** Our own reveals open our own commitment: they carry the vote we committed to. */
  predicate OwnVote(c: Config, approve: bool, m: Message) {
    m.Revealed? && m.sentinel == c.self ==> m.approved == approve
  }

  predicate OwnVotes(c: Config, approve: bool, messages: seq<Message>) {
    forall i :: 0 <= i < |messages| ==> OwnVote(c, approve, messages[i])
  }

  /** Someone who committed and has not revealed, and is not among the others. */
  lemma NotRevealed(k: Contract, others: set<Address>) returns (sentinel: Address)
    requires |Revealers(k) + others| < |k.committers|
    ensures sentinel in k.committers && sentinel !in Revealers(k) && sentinel !in others
  {
    if forall x :: x in k.committers ==> x in Revealers(k) + others {
      Sets.SubsetSize(k.committers, Revealers(k) + others);
      assert false;
    }
    sentinel :| sentinel in k.committers && sentinel !in Revealers(k) + others;
  }

  /** The last reveal the sentinel waits for comes from us, if ours is still outstanding. */
  lemma LastCountedReveal(c: Config, id: Id, play: Play) returns (m: Message)
    requires Inv(c, play) && Revealing(play) && play.missed > 0
    requires play.phase.value.revealedCount + 1 == play.phase.value.committedCount
    ensures OwnVote(c, play.phase.value.approve, m)
    ensures CanHappen(c, play, id, m) && TooEarly(c, id, play, m)
  {
    var (k, p) := (play.contract, play.phase.value);
    var sentinel := c.self;
    if p.selfRevealed {
      sentinel := Outstanding(c, play);
    }
    m := Revealed(id, sentinel, p.approve);
    ShortReveal(c, id, play, m);
  }

  lemma Outstanding(c: Config, play: Play) returns (sentinel: Address)
    requires Inv(c, play) && Revealing(play)
    ensures sentinel in play.contract.committers && sentinel !in Revealers(play.contract)
  {
    var k := play.contract;
    assert |k.approvals + k.denials| == |k.approvals| + |k.denials|;
    assert Revealers(k) + {} == Revealers(k);
    sentinel := NotRevealed(k, {});
  }

  /** With a short counter, some of the committers can reveal and make the sentinel finalize a
      request that the contract does not let anyone finalize. */
  lemma {:induction false} EarlyFinalizeAhead(c: Config, id: Id, play: Play)
    returns (messages: seq<Message>, m: Message)
    requires Inv(c, play) && Revealing(play) && play.missed > 0
    ensures OwnVotes(c, play.phase.value.approve, messages) && OwnVote(c, play.phase.value.approve, m)
    ensures FaithfulRun(c, id, play, messages)
    ensures CanHappen(c, PlayAll(c, id, play, messages), id, m)
    ensures TooEarly(c, id, PlayAll(c, id, play, messages), m)
    decreases play.phase.value.committedCount - play.phase.value.revealedCount
  {
    if play.phase.value.revealedCount + 1 == play.phase.value.committedCount {
      messages := [];
      m := LastCountedReveal(c, id, play);
    } else {
      var sentinel := Outstanding(c, play);
      var first := Revealed(id, sentinel, play.phase.value.approve);
      MoreReveals(c, id, play, first);
      var rest;
      rest, m := EarlyFinalizeAhead(c, id, Next(c, id, play, first));
      messages := [first] + rest;
      PlayFirst(c, id, play, messages);
    }
  }

  /** From a run that collects votes, every continuation finalizes rightly. */
  ghost predicate RightFromHere(c: Config, id: Id, play: Play) {
    forall messages, m ::
      FaithfulRun(c, id, play, messages) && CanHappen(c, PlayAll(c, id, play, messages), id, m) ==>
        FinalizesRightly(c, id, PlayAll(c, id, play, messages), m)
  }

  ghost predicate EarlyFromHere(c: Config, id: Id, play: Play)
    requires Revealing(play)
  {
    exists messages, m ::
      && OwnVotes(c, play.phase.value.approve, messages) && OwnVote(c, play.phase.value.approve, m)
      && FaithfulRun(c, id, play, messages) && CanHappen(c, PlayAll(c, id, play, messages), id, m)
      && TooEarly(c, id, PlayAll(c, id, play, messages), m)
  }

  /** For every contract-faithful run that collects votes: no continuation finalizes too early, or
      gives up a landed commitment before the reveal deadline, if and only if the counter holds
      every committer, which is to say that no commitment was missed. */
  lemma FinalizesRightlyIff(c: Config, id: Id, block: nat, terms: Terms, messages: seq<Message>)
    requires FaithfulRun(c, id, Before(block, terms), messages)
    requires Revealing(PlayAll(c, id, Before(block, terms), messages))
    ensures var play := PlayAll(c, id, Before(block, terms), messages);
            && (play.missed == 0 <==> play.phase.value.committedCount == |play.contract.committers|)
            && (RightFromHere(c, id, play) <==> play.missed == 0)
            && (EarlyFromHere(c, id, play) <==> play.missed > 0)
  {
    var play := PlayAll(c, id, Before(block, terms), messages);
    RunKeeps(c, id, Before(block, terms), messages);
    if play.missed == 0 {
      forall more, m | FaithfulRun(c, id, play, more) && CanHappen(c, PlayAll(c, id, play, more), id, m)
        ensures FinalizesRightly(c, id, PlayAll(c, id, play, more), m)
      {
        RunKeeps(c, id, play, more);
        MissedIsFinal(c, id, play, more);
        StepKeeps(c, id, PlayAll(c, id, play, more), m);
      }
    } else {
      var more, m := EarlyFinalizeAhead(c, id, play);
      assert !FinalizesRightly(c, id, PlayAll(c, id, play, more), m);
    }
  }

  // ---------------------------------------------------------------- exactly when a bond is given up

  /** A request with a landed commitment leaves the map without a claim, and not as a missed reveal:
      its bond is stranded. */
  predicate GivesUp(c: Config, id: Id, play: Play, m: Message) {
    var next := Next(c, id, play, m);
    next.lost && !play.lost && !MissedReveal(c, next.contract)
  }

  /** Once the request has left the map, nothing claims its bond until it is proposed anew. */
  lemma {:induction false} StaysStranded(c: Config, id: Id, play: Play, messages: seq<Message>, m: Message)
    requires play.phase.None? && !(m.Proposed? && m.id == id)
    requires forall i :: 0 <= i < |messages| && messages[i].Proposed? ==> messages[i].id != id
    ensures PlayAll(c, id, play, messages).phase.None?
    ensures Commands(c, id, PlayAll(c, id, play, messages), m) == []
    decreases |messages|
  {
    if messages != [] {
      assert forall i :: 0 <= i < |messages[1..]| ==> messages[1..][i] == messages[i + 1];
      StaysStranded(c, id, Next(c, id, play, messages[0]), messages[1..], m);
    }
  }

  /** As many as were counted have revealed, and we are not among them. */
  predicate OthersComplete(c: Config, id: Id, play: Play, m: Message) {
    && Revealing(play) && m.Revealed? && m.id == id
    && play.phase.value.revealedCount + 1 >= play.phase.value.committedCount
    && !play.phase.value.selfRevealed && m.sentinel != c.self
  }

  /** A step gives up a landed commitment if and only if the counted number of others have revealed
      before us, which takes a short counter. */
  lemma GivesUpIffOthersComplete(c: Config, id: Id, play: Play, m: Message)
    requires Inv(c, play) && CanHappen(c, play, id, m)
    ensures GivesUp(c, id, play, m) <==> OthersComplete(c, id, play, m)
    ensures GivesUp(c, id, play, m) ==> play.missed > 0
  {
    StepKeeps(c, id, play, m);
    if Revealing(play) && m.Revealed? && m.id == id {
      RevealedPhase(c, id, play.phase.value, m);
    }
  }

  /** Nothing is given up any more: the request is past its commitments, and if it still collects
      votes then ours is among them. */
  predicate OursCounted(play: Play) {
    Checked(play) && !Collecting(play) && (Revealing(play) ==> play.phase.value.selfRevealed)
  }

  lemma {:induction false} CountedStays(c: Config, id: Id, play: Play, messages: seq<Message>)
    requires OursCounted(play) && FaithfulRun(c, id, play, messages)
    ensures OursCounted(PlayAll(c, id, play, messages))
    decreases |messages|
  {
    if messages != [] {
      CountedStays(c, id, Next(c, id, play, messages[0]), messages[1..]);
    }
  }

  /** With a short counter and our own reveal outstanding, others can make the sentinel give up. */
  lemma {:induction false} GiveUpAhead(c: Config, id: Id, play: Play)
    returns (messages: seq<Message>, m: Message)
    requires Inv(c, play) && Revealing(play) && play.missed > 0 && !play.phase.value.selfRevealed
    ensures FaithfulRun(c, id, play, messages)
    ensures CanHappen(c, PlayAll(c, id, play, messages), id, m)
    ensures GivesUp(c, id, PlayAll(c, id, play, messages), m)
    decreases play.phase.value.committedCount - play.phase.value.revealedCount
  {
    var (k, p) := (play.contract, play.phase.value);
    assert |k.approvals + k.denials| == |k.approvals| + |k.denials|;
    var sentinel := NotRevealed(k, {c.self});
    var first := Revealed(id, sentinel, p.approve);
    if p.revealedCount + 1 == p.committedCount {
      messages, m := [], first;
      GivesUpIffOthersComplete(c, id, play, m);
    } else {
      MoreReveals(c, id, play, first);
      var rest;
      rest, m := GiveUpAhead(c, id, Next(c, id, play, first));
      messages := [first] + rest;
      PlayFirst(c, id, play, messages);
    }
  }

  ghost predicate GivesUpFromHere(c: Config, id: Id, play: Play) {
    exists messages, m ::
      && FaithfulRun(c, id, play, messages) && CanHappen(c, PlayAll(c, id, play, messages), id, m)
      && GivesUp(c, id, PlayAll(c, id, play, messages), m)
  }

  /** For every contract-faithful run that collects votes: some continuation gives up the landed
      commitment before the reveal deadline if and only if a commitment was missed and our own
      reveal has not landed yet. */
  lemma GivesUpIff(c: Config, id: Id, block: nat, terms: Terms, messages: seq<Message>)
    requires FaithfulRun(c, id, Before(block, terms), messages)
    requires Revealing(PlayAll(c, id, Before(block, terms), messages))
    ensures var play := PlayAll(c, id, Before(block, terms), messages);
            GivesUpFromHere(c, id, play) <==> play.missed > 0 && !play.phase.value.selfRevealed
  {
    var play := PlayAll(c, id, Before(block, terms), messages);
    RunKeeps(c, id, Before(block, terms), messages);
    if play.missed > 0 && !play.phase.value.selfRevealed {
      var more, m := GiveUpAhead(c, id, play);
    } else {
      forall more, m | FaithfulRun(c, id, play, more) && CanHappen(c, PlayAll(c, id, play, more), id, m)
        ensures !GivesUp(c, id, PlayAll(c, id, play, more), m)
      {
        RunKeeps(c, id, play, more);
        GivesUpIffOthersComplete(c, id, PlayAll(c, id, play, more), m);
        MissedIsFinal(c, id, play, more);
        if play.phase.value.selfRevealed {
          CountedStays(c, id, play, more);
        }
      }
    }
  }

  // ---------------------------------------------------------------- a missed commitment

  /** Someone else's commitment lands while our engine check is still outstanding. */
  function MissingOne(c: Config, id: Id, other: Address): seq<Message> {
    [Proposed(id, c.oracle, 9), NewRequest(id, Terms(1, 1, 10, 12)), Committed(id, other),
     EngineResult(id, Approved), Committed(id, c.self), NewBlock(10), NewBlock(11)]
  }

  lemma OpeningMoves(c: Config, id: Id, other: Address, terms: Terms, p2: Play)
    requires p2 == Play(Contract(9, Pending, Terms(1, 1, 10, 12), {}, {}, {}),
                        Some(WaitingForEngineCheck(SaturatingAdd(9, c.votingWindow), Some(Terms(1, 1, 10, 12)))),
                        false, false, 0)
    ensures var messages := MissingOne(c, id, other);
            && PlayAll(c, id, Before(9, terms), messages) == PlayAll(c, id, p2, messages[2..])
            && (FaithfulRun(c, id, Before(9, terms), messages) <==> FaithfulRun(c, id, p2, messages[2..]))
  {
    var messages := MissingOne(c, id, other);
    var p1 := Next(c, id, Before(9, terms), messages[0]);
    PlayFirst(c, id, Before(9, terms), messages);
    PlayFirst(c, id, p1, messages[1..]);
    assert messages[1..][1..] == messages[2..];
    assert Next(c, id, p1, messages[1]) == p2;
  }

  lemma CommittingMoves(c: Config, id: Id, other: Address, p2: Play, p5: Play)
    requires other != c.self
    requires p2 == Play(Contract(9, Pending, Terms(1, 1, 10, 12), {}, {}, {}),
                        Some(WaitingForEngineCheck(SaturatingAdd(9, c.votingWindow), Some(Terms(1, 1, 10, 12)))),
                        false, false, 0)
    requires p5 == Play(Contract(9, Pending, Terms(1, 1, 10, 12), {other, c.self}, {}, {}),
                        Some(CollectingCommitments(true, "", 1, 10, 12, 1, true)), true, false, 1)
    ensures var messages := MissingOne(c, id, other)[2..];
            && PlayAll(c, id, p2, messages) == PlayAll(c, id, p5, messages[3..])
            && (FaithfulRun(c, id, p2, messages) <==> FaithfulRun(c, id, p5, messages[3..]))
  {
    var messages := MissingOne(c, id, other)[2..];
    var p3 := Next(c, id, p2, Committed(id, other));
    var p4 := Next(c, id, p3, EngineResult(id, Approved));
    PlayFirst(c, id, p2, messages);
    PlayFirst(c, id, p3, messages[1..]);
    PlayFirst(c, id, p4, messages[2..]);
    assert messages[1..][1..] == messages[2..] && messages[2..][1..] == messages[3..];
    VoteCommits(c, id, true, "", Terms(1, 1, 10, 12));
    assert Next(c, id, p4, Committed(id, c.self)) == p5;
  }

  lemma LastMove(c: Config, id: Id, other: Address, p7: Play)
    requires other != c.self
    requires p7 == Play(Contract(11, Pending, Terms(1, 1, 10, 12), {other, c.self}, {}, {}),
                        Some(CollectingVotes(true, 1, 12, 1, 0, 0, 0, false)), true, false, 1)
    ensures var m := Revealed(id, c.self, true);
            && CanEmit(p7.contract, id, m) && Commands(c, id, p7, m) == [Finalize(id)]
            && !CanFinalize(Next(c, id, p7, m).contract)
  {
    var k := Next(c, id, p7, Revealed(id, c.self, true)).contract;
    assert Revealers(k) == {c.self} && |k.committers| == 2;
  }

  /** Then the counter is one short, and our own reveal finalizes the request before the contract
      allows it: commitments are missed by runs of the contract. */
  lemma MissedCommitmentFinalizesEarly(c: Config, id: Id, other: Address, terms: Terms)
    requires other != c.self
    ensures var messages := MissingOne(c, id, other);
            var play := PlayAll(c, id, Before(9, terms), messages);
            var m := Revealed(id, c.self, true);
            && FaithfulRun(c, id, Before(9, terms), messages) && CanHappen(c, play, id, m)
            && Commands(c, id, play, m) == [Finalize(id)]
            && !CanFinalize(Next(c, id, play, m).contract)
  {
    var messages := MissingOne(c, id, other);
    var t := Terms(1, 1, 10, 12);
    var p2 := Play(Contract(9, Pending, t, {}, {}, {}),
                   Some(WaitingForEngineCheck(SaturatingAdd(9, c.votingWindow), Some(t))), false, false, 0);
    OpeningMoves(c, id, other, terms, p2);
    var p5 := Play(Contract(9, Pending, t, {other, c.self}, {}, {}),
                   Some(CollectingCommitments(true, "", 1, 10, 12, 1, true)), true, false, 1);
    CommittingMoves(c, id, other, p2, p5);
    var p7 := Play(Contract(11, Pending, t, {other, c.self}, {}, {}),
                   Some(CollectingVotes(true, 1, 12, 1, 0, 0, 0, false)), true, false, 1);
    assert messages[2..][3..] == [NewBlock(10), NewBlock(11)];
    PlayFirst(c, id, p5, [NewBlock(10), NewBlock(11)]);
    PlayFirst(c, id, Next(c, id, p5, NewBlock(10)), [NewBlock(11)]);
    assert PlayAll(c, id, p5, messages[2..][3..]) == p7;
    LastMove(c, id, other, p7);
  }
}
