/**
 The sentinel's request state machine (crates/sentinel/src/service.rs and
 crates/sentinel/src/state.rs): requests in one map, six phases each, driven by oracle and
 consensus events, block advances and resumed engine checks.

 Request ids are the proposal hashes computed from the events; the commitment hash and the
 reveal salt are deterministic functions of their arguments.
 */
module Sentinel {
  import opened Wrappers
  import opened Numbers

  type Id = nat
  type Address = nat
  type Word = nat

  datatype Terms = Terms(bondTarget: nat, slashAmount: nat, commitDeadline: nat, revealDeadline: nat)

  datatype Phase =
    | WaitingForEngineCheck(deadline: nat, request: Option<Terms>)
    | WaitingForRequest(approve: bool, reason: string, deadline: nat)
    | CollectingCommitments(approve: bool, reason: string, slashAmount: nat, commitDeadline: nat,
                            revealDeadline: nat, committedCount: nat, selfCommitted: bool)
    | CollectingVotes(approve: bool, slashAmount: nat, revealDeadline: nat, committedCount: nat,
                      revealedCount: nat, approveCount: nat, denyCount: nat, selfRevealed: bool)
    | WaitingForOutcome(approve: bool, slashAmount: nat)
    | WaitingForDisputeResolution(approve: bool, slashAmount: nat)

  datatype Command =
    | EngineCheck(id: Id, block: nat)
    | ApproveToken(bond: nat, expires: Option<nat>)
    | Commit(id: Id, hash: Word, expires: Option<nat>)
    | Reveal(id: Id, approve: bool, salt: Word, reason: string, expires: Option<nat>)
    | Finalize(id: Id)
    | Claim(id: Id)

  datatype CheckOutcome = Approved | Denied(rule: string) | Unknown

  datatype Message =
    | NewBlock(block: nat)
    | Proposed(id: Id, oracle: Address, block: nat)
    | NewRequest(id: Id, terms: Terms)
    | Committed(id: Id, sentinel: Address)
    | Revealed(id: Id, sentinel: Address, approved: bool)
    | RequestTimedOut(id: Id)
    | OracleResult(id: Id)
    | DisputeTriggered(id: Id)
    | DisputeResolved(id: Id)
    | ArbitrationEnded(id: Id)
    | Claimed(id: Id, sentinel: Address)
    | EngineResult(id: Id, outcome: CheckOutcome)

  /** The sentinel's own account, the oracle it serves, and the two hash functions. */
  datatype Config = Config(
    self: Address,
    oracle: Address,
    votingWindow: nat,
    salt: Id -> Word,
    commitHash: (Address, Id, bool, Word, string) -> Word)

  type Requests = map<Id, Phase>

  function Lookup(state: Requests, id: Id): Option<Phase> {
    if id in state then Some(state[id]) else None
  }

  function Update(state: Requests, id: Id, phase: Option<Phase>): Requests {
    if phase.Some? then state[id := phase.value] else state - {id}
  }

  /** The bond of a request found in an unexpected phase: `None` when none can have landed. */
  function BondOf(p: Phase): Option<(bool, nat)> {
    match p
    case WaitingForEngineCheck(_, _) => None
    case WaitingForRequest(_, _, _) => None
    case CollectingCommitments(approve, _, slash, _, _, _, selfCommitted) =>
      if selfCommitted then Some((approve, slash)) else None
    case CollectingVotes(approve, slash, _, _, _, _, _, _) => Some((approve, slash))
    case WaitingForOutcome(approve, slash) => Some((approve, slash))
    case WaitingForDisputeResolution(approve, slash) => Some((approve, slash))
  }

  // ---------------------------------------------------------------- one request

  function CommitVote(c: Config, id: Id, approve: bool, reason: string, terms: Terms): (Option<Phase>, seq<Command>) {
    (Some(CollectingCommitments(approve, reason, terms.slashAmount, terms.commitDeadline, terms.revealDeadline, 0,
                                false)),
     [ApproveToken(terms.bondTarget, Some(terms.commitDeadline)),
      Commit(id, c.commitHash(c.self, id, approve, c.salt(id), reason), Some(terms.commitDeadline))])
  }

  /** Leaves the reveal phase: finalizes when we revealed or nobody did, and drops the request
      otherwise. */
  function Finalized(id: Id, p: Phase): (Option<Phase>, seq<Command>)
    requires p.CollectingVotes?
  {
    if !p.selfRevealed && p.revealedCount != 0 then (None, [])
    else (Some(WaitingForOutcome(p.approve, p.slashAmount)), [Finalize(id)])
  }

  function OnBlock(c: Config, id: Id, p: Phase, block: nat): (Option<Phase>, seq<Command>) {
    match p
    case WaitingForEngineCheck(deadline, request) =>
      (if block <= (if request.Some? then request.value.commitDeadline else deadline) then Some(p) else None, [])
    case WaitingForRequest(_, _, deadline) => (if block <= deadline then Some(p) else None, [])
    case CollectingCommitments(approve, reason, slash, commitDeadline, revealDeadline, committedCount, selfCommitted) =>
      if block <= commitDeadline then (Some(p), [])
      else if !selfCommitted then (None, [])
      else (Some(CollectingVotes(approve, slash, revealDeadline, committedCount, 0, 0, 0, false)),
            [Reveal(id, approve, c.salt(id), reason, Some(revealDeadline))])
    case CollectingVotes(_, _, revealDeadline, _, _, _, _, _) =>
      if block <= revealDeadline then (Some(p), []) else Finalized(id, p)
    case _ => (Some(p), [])
  }

  /** The reaction to a message about this very request. */
  function OnEvent(c: Config, id: Id, p: Option<Phase>, m: Message): (Option<Phase>, seq<Command>) {
    match m
    case Proposed(_, oracle, block) =>
      if oracle != c.oracle || p.Some? then (p, [])
      else (Some(WaitingForEngineCheck(SaturatingAdd(block, c.votingWindow), None)), [EngineCheck(id, block)])
    case EngineResult(_, outcome) =>
      if p.None? || !p.value.WaitingForEngineCheck? then (p, [])
      else (
        match outcome
        case Unknown => (None, [])
        case _ =>
          var approve := outcome.Approved?;
          var reason := if outcome.Denied? then outcome.rule else "";
          if p.value.request.Some? then CommitVote(c, id, approve, reason, p.value.request.value)
          else (Some(WaitingForRequest(approve, reason, p.value.deadline)), []))
    case NewRequest(_, terms) =>
      if p.Some? && p.value.WaitingForRequest? then CommitVote(c, id, p.value.approve, p.value.reason, terms)
      else if p.Some? && p.value.WaitingForEngineCheck? && p.value.request.None? then
        (Some(WaitingForEngineCheck(p.value.deadline, Some(terms))), [])
      else (p, [])
    case Committed(_, sentinel) =>
      if p.None? || !p.value.CollectingCommitments? then (p, [])
      else
        (Some(p.value.(committedCount := p.value.committedCount + 1,
                       selfCommitted := p.value.selfCommitted || sentinel == c.self)), [])
    case Revealed(_, sentinel, approved) =>
      if p.None? || !p.value.CollectingVotes? then (p, [])
      else
        var q := p.value.(revealedCount := p.value.revealedCount + 1,
                          approveCount := p.value.approveCount + (if approved then 1 else 0),
                          denyCount := p.value.denyCount + (if approved then 0 else 1),
                          selfRevealed := p.value.selfRevealed || sentinel == c.self);
        if q.revealedCount < q.committedCount then (Some(q), []) else Finalized(id, q)
    case RequestTimedOut(_) => if p.None? then (p, []) else (None, if BondOf(p.value).Some? then [Claim(id)] else [])
    case OracleResult(_) => if p.None? then (p, []) else (None, if BondOf(p.value).Some? then [Claim(id)] else [])
    case DisputeTriggered(_) =>
      if p.None? then (p, [])
      else
        var bond := BondOf(p.value);
        (if bond.Some? then Some(WaitingForDisputeResolution(bond.value.0, bond.value.1)) else None, [])
    case DisputeResolved(_) =>
      if p.Some? && p.value.WaitingForDisputeResolution? then (None, [Claim(id)]) else (p, [])
    case ArbitrationEnded(_) => if p.Some? then (None, [Claim(id)]) else (p, [])
    case Claimed(_, _) => (p, [])
    case NewBlock(_) => (p, [])
  }

  /** One request's part of a transition. */
  function StepOne(c: Config, id: Id, p: Option<Phase>, m: Message): (Option<Phase>, seq<Command>) {
    if m.NewBlock? then (if p.None? then (None, []) else OnBlock(c, id, p.value, m.block))
    else if m.id == id then OnEvent(c, id, p, m)
    else (p, [])
  }

  // ---------------------------------------------------------------- the whole map

  /** The commands about one request, among those of a block advance. */
  function About(id: Id, commands: seq<Command>): seq<Command> {
    if commands == [] then []
    else
      (if !commands[0].ApproveToken? && commands[0].id == id then [commands[0]] else [])
      + About(id, commands[1..])
  }

  /** The commands of a transition that belong to one request. */
  function Concerning(id: Id, m: Message, commands: seq<Command>): seq<Command> {
    if m.NewBlock? then About(id, commands)
    else if m.id == id then commands
    else []
  }

  /** Every request takes its own step, and no other command is issued. */
  ghost predicate StepsAll(c: Config, before: Requests, m: Message, after: Requests, commands: seq<Command>) {
    && (forall id {:trigger Lookup(after, id)} ::
          (Lookup(after, id), Concerning(id, m, commands)) == StepOne(c, id, Lookup(before, id), m))
    && (m.NewBlock? ==> forall i :: 0 <= i < |commands| ==> commands[i].Reveal? || commands[i].Finalize?)
  }

  lemma {:induction false} AboutConcat(id: Id, a: seq<Command>, b: seq<Command>)
    ensures About(id, a + b) == About(id, a) + About(id, b)
  {
    if a == [] {
      assert a + b == b;
    } else {
      assert (a + b)[1..] == a[1..] + b;
      AboutConcat(id, a[1..], b);
    }
  }

  /** A block's commands about one request carry its id. */
  lemma BlockCommands(c: Config, id: Id, p: Phase, block: nat)
    ensures var commands := OnBlock(c, id, p, block).1;
            && |commands| <= 1
            && (forall i :: 0 <= i < |commands| ==>
                  (commands[i].Reveal? || commands[i].Finalize?) && commands[i].id == id)
            && forall other :: About(other, commands) == if other == id then commands else []
  {
  }

  /** A block advance that has still to visit `todo`. */
  ghost predicate Visited(c: Config, before: Requests, block: nat, todo: set<Id>, now: Requests,
                          commands: seq<Command>) {
    && todo <= before.Keys
    && (forall id {:trigger Lookup(now, id)} :: Lookup(now, id) ==
          if id in todo then Lookup(before, id) else StepOne(c, id, Lookup(before, id), NewBlock(block)).0)
    && (forall id {:trigger About(id, commands)} :: About(id, commands) ==
          if id in todo then [] else StepOne(c, id, Lookup(before, id), NewBlock(block)).1)
    && (forall i :: 0 <= i < |commands| ==> commands[i].Reveal? || commands[i].Finalize?)
  }

  lemma VisitOne(c: Config, before: Requests, block: nat, todo: set<Id>, now: Requests, commands: seq<Command>, id: Id)
    requires Visited(c, before, block, todo, now, commands) && id in todo
    ensures id in now && now[id] == before[id]
    ensures var (next, more) := OnBlock(c, id, now[id], block);
            Visited(c, before, block, todo - {id}, Update(now, id, next), commands + more)
  {
    assert Lookup(now, id) == Lookup(before, id);
    var (next, more) := OnBlock(c, id, now[id], block);
    BlockCommands(c, id, now[id], block);
    forall other
      ensures About(other, commands + more) ==
              if other in todo - {id} then [] else StepOne(c, other, Lookup(before, other), NewBlock(block)).1
    {
      AboutConcat(other, commands, more);
      assert About(other, commands) + [] == About(other, commands);
      assert About(other, more) == if other == id then more else [];
    }
    forall other
      ensures Lookup(Update(now, id, next), other) ==
              if other in todo - {id} then Lookup(before, other)
              else StepOne(c, other, Lookup(before, other), NewBlock(block)).0
    {
      assert Lookup(Update(now, id, next), other) == if other == id then next else Lookup(now, other);
    }
  }

  /** The last block that leaves the request alone; none when no block ever touches it. */
  function Deadline(p: Phase): Option<nat> {
    match p
    case WaitingForEngineCheck(deadline, request) =>
      Some(if request.Some? then request.value.commitDeadline else deadline)
    case WaitingForRequest(_, _, deadline) => Some(deadline)
    case CollectingCommitments(_, _, _, commitDeadline, _, _, _) => Some(commitDeadline)
    case CollectingVotes(_, _, revealDeadline, _, _, _, _, _) => Some(revealDeadline)
    case _ => None
  }

  predicate BeforeDeadline(p: Phase, block: nat) {
    Deadline(p).None? || block <= Deadline(p).value
  }

  /** A block leaves a request alone if and only if its phase's deadline has not passed. */
  lemma UntouchedIffBeforeDeadline(c: Config, id: Id, p: Phase, block: nat)
    ensures OnBlock(c, id, p, block) == (Some(p), []) <==> BeforeDeadline(p, block)
  {
  }

  class SentinelTransition {
    const config: Config
    var requests: Requests

    constructor (config: Config)
      ensures this.config == config && requests == map[]
    {
      this.config, requests := config, map[];
    }

    method HandleProposed(m: Message) returns (commands: seq<Command>)
      requires m.Proposed?
      modifies this
      ensures (Lookup(requests, m.id), commands) == OnEvent(config, m.id, Lookup(old(requests), m.id), m)
      ensures requests == Update(old(requests), m.id, Lookup(requests, m.id))
    {
      if m.oracle != config.oracle { return []; }
      // A duplicate proposal must not reset an advanced request.
      if m.id in requests { return []; }
      requests := requests[m.id := WaitingForEngineCheck(SaturatingAdd(m.block, config.votingWindow), None)];
      commands := [EngineCheck(m.id, m.block)];
    }

    method HandleEngineResult(m: Message) returns (commands: seq<Command>)
      requires m.EngineResult?
      modifies this
      ensures (Lookup(requests, m.id), commands) == OnEvent(config, m.id, Lookup(old(requests), m.id), m)
      ensures requests == Update(old(requests), m.id, Lookup(requests, m.id))
    {
      if m.id !in requests || !requests[m.id].WaitingForEngineCheck? { return []; }
      var entry := requests[m.id];
      requests := requests - {m.id};
      var approve, reason := true, "";
      match m.outcome {
        case Approved =>
        case Denied(rule) => approve, reason := false, rule;
        case Unknown => return [];
      }
      if entry.request.Some? {
        commands := BeginVote(m.id, approve, reason, entry.request.value);
      } else {
        requests := requests[m.id := WaitingForRequest(approve, reason, entry.deadline)];
        commands := [];
      }
    }

    /** Starts voting on an open request behind a blind commitment. */
    method BeginVote(id: Id, approve: bool, reason: string, terms: Terms) returns (commands: seq<Command>)
      modifies this
      ensures (Lookup(requests, id), commands) == CommitVote(config, id, approve, reason, terms)
      ensures requests == Update(old(requests), id, Lookup(requests, id))
    {
      var salt := config.salt(id);
      var hash := config.commitHash(config.self, id, approve, salt, reason);
      requests := requests[id := CollectingCommitments(approve, reason, terms.slashAmount, terms.commitDeadline,
                                                       terms.revealDeadline, 0, false)];
      commands := [ApproveToken(terms.bondTarget, Some(terms.commitDeadline)),
                   Commit(id, hash, Some(terms.commitDeadline))];
    }

    method HandleNewRequest(m: Message) returns (commands: seq<Command>)
      requires m.NewRequest?
      modifies this
      ensures (Lookup(requests, m.id), commands) == OnEvent(config, m.id, Lookup(old(requests), m.id), m)
      ensures requests == Update(old(requests), m.id, Lookup(requests, m.id))
    {
      commands := [];
      if m.id in requests {
        match requests[m.id] {
          case WaitingForRequest(approve, reason, _) =>
            commands := BeginVote(m.id, approve, reason, m.terms);
          case WaitingForEngineCheck(deadline, None) =>
            requests := requests[m.id := WaitingForEngineCheck(deadline, Some(m.terms))];
          case _ =>
        }
      }
    }

    method HandleCommitted(m: Message) returns (commands: seq<Command>)
      requires m.Committed?
      modifies this
      ensures (Lookup(requests, m.id), commands) == OnEvent(config, m.id, Lookup(old(requests), m.id), m)
      ensures requests == Update(old(requests), m.id, Lookup(requests, m.id))
    {
      commands := [];
      if m.id in requests && requests[m.id].CollectingCommitments? {
        var entry := requests[m.id];
        entry := entry.(committedCount := entry.committedCount + 1, selfCommitted := entry.selfCommitted);
        if !entry.selfCommitted && m.sentinel == config.self {
          entry := entry.(selfCommitted := true);
        }
        requests := requests[m.id := entry];
      }
    }

    /** Counts a reveal, and finalizes early once as many have revealed as committed. */
    method HandleRevealed(m: Message) returns (commands: seq<Command>)
      requires m.Revealed?
      modifies this
      ensures (Lookup(requests, m.id), commands) == OnEvent(config, m.id, Lookup(old(requests), m.id), m)
      ensures requests == Update(old(requests), m.id, Lookup(requests, m.id))
    {
      if m.id !in requests || !requests[m.id].CollectingVotes? { return []; }
      var entry := requests[m.id];
      entry := entry.(revealedCount := entry.revealedCount + 1);
      if m.approved {
        entry := entry.(approveCount := entry.approveCount + 1);
      } else {
        entry := entry.(denyCount := entry.denyCount + 1);
      }
      if m.sentinel == config.self {
        entry := entry.(selfRevealed := true);
      }
      requests := requests[m.id := entry];
      if entry.revealedCount < entry.committedCount { return []; }
      var (next, finalization) := Finalized(m.id, entry);
      if next.Some? {
        requests := requests[m.id := next.value];
      } else {
        requests := requests - {m.id};
      }
      commands := finalization;
    }

    /** The oracle's own outcome events. */
    method HandleOutcome(m: Message) returns (commands: seq<Command>)
      requires m.RequestTimedOut? || m.OracleResult? || m.DisputeTriggered? || m.DisputeResolved? || m.ArbitrationEnded?
      modifies this
      ensures (Lookup(requests, m.id), commands) == OnEvent(config, m.id, Lookup(old(requests), m.id), m)
      ensures requests == Update(old(requests), m.id, Lookup(requests, m.id))
    {
      if m.id !in requests { return []; }
      var entry := requests[m.id];
      if m.DisputeResolved? && !entry.WaitingForDisputeResolution? { return []; }
      requests := requests - {m.id};
      if m.DisputeResolved? || m.ArbitrationEnded? { return [Claim(m.id)]; }
      var bond := BondOf(entry);
      if bond.None? { return []; }
      if m.DisputeTriggered? {
        requests := requests[m.id := WaitingForDisputeResolution(bond.value.0, bond.value.1)];
        return [];
      }
      commands := [Claim(m.id)];
    }

    /** Visits the map in any order. */
    method HandleBlockAdvance(block: nat) returns (commands: seq<Command>)
      modifies this
      ensures StepsAll(config, old(requests), NewBlock(block), requests, commands)
      ensures forall id :: id in old(requests) && BeforeDeadline(old(requests)[id], block) ==>
                id in requests && requests[id] == old(requests)[id] && About(id, commands) == []
    {
      commands := [];
      var todo := requests.Keys;
      while todo != {}
        invariant Visited(config, old(requests), block, todo, requests, commands)
        decreases |todo|
      {
        var id :| id in todo;
        assert Lookup(requests, id) == Lookup(old(requests), id);
        var (next, more) := OnBlock(config, id, requests[id], block);
        VisitOne(config, old(requests), block, todo, requests, commands, id);
        requests := Update(requests, id, next);
        commands := commands + more;
        todo := todo - {id};
      }
      forall id | id in old(requests) && BeforeDeadline(old(requests)[id], block)
        ensures id in requests && requests[id] == old(requests)[id] && About(id, commands) == []
      {
        UntouchedIffBeforeDeadline(config, id, old(requests)[id], block);
        assert Lookup(requests, id) == Some(old(requests)[id]);
      }
    }

    /** One message to the whole map. */
    method ApplyTransition(m: Message) returns (commands: seq<Command>)
      modifies this
      ensures StepsAll(config, old(requests), m, requests, commands)
    {
      match m {
        case NewBlock(block) => commands := HandleBlockAdvance(block);
        case Proposed(_, _, _) => commands := HandleProposed(m);
        case EngineResult(_, _) => commands := HandleEngineResult(m);
        case NewRequest(_, _) => commands := HandleNewRequest(m);
        case Committed(_, _) => commands := HandleCommitted(m);
        case Revealed(_, _, _) => commands := HandleRevealed(m);
        case Claimed(_, _) => commands := [];
        case _ => commands := HandleOutcome(m);
      }
    }
  }

  // ---------------------------------------------------------------- non-interference

  /** A run of the whole map: the states it goes through and the commands of each step. */
  ghost predicate RunsAll(c: Config, states: seq<Requests>, messages: seq<Message>, outputs: seq<seq<Command>>) {
    && |states| == |messages| + 1 && |outputs| == |messages|
    && forall i :: 0 <= i < |messages| ==> StepsAll(c, states[i], messages[i], states[i + 1], outputs[i])
  }

  /** One request run alone. */
  function RunOne(c: Config, id: Id, p: Option<Phase>, messages: seq<Message>): (Option<Phase>, seq<Command>)
    decreases |messages|
  {
    if messages == [] then (p, [])
    else
      var (next, commands) := StepOne(c, id, p, messages[0]);
      var (last, more) := RunOne(c, id, next, messages[1..]);
      (last, commands + more)
  }

  function ConcerningAll(id: Id, messages: seq<Message>, outputs: seq<seq<Command>>): seq<Command>
    requires |messages| == |outputs|
    decreases |messages|
  {
    if messages == [] then []
    else Concerning(id, messages[0], outputs[0]) + ConcerningAll(id, messages[1..], outputs[1..])
  }

  /** Requests do not interfere: what a run of the whole map does to one request, and the
      commands it issues for it, is what running that request alone does. */
  lemma {:induction false} NoInterference(c: Config, id: Id, states: seq<Requests>, messages: seq<Message>,
                                          outputs: seq<seq<Command>>)
    requires RunsAll(c, states, messages, outputs)
    ensures RunOne(c, id, Lookup(states[0], id), messages)
            == (Lookup(states[|messages|], id), ConcerningAll(id, messages, outputs))
    decreases |messages|
  {
    if messages != [] {
      assert StepsAll(c, states[0], messages[0], states[1], outputs[0]);
      assert (Lookup(states[1], id), Concerning(id, messages[0], outputs[0]))
             == StepOne(c, id, Lookup(states[0], id), messages[0]);
      forall i | 0 <= i < |messages[1..]|
        ensures StepsAll(c, states[1..][i], messages[1..][i], states[1..][i + 1], outputs[1..][i])
      {
        assert StepsAll(c, states[i + 1], messages[i + 1], states[i + 2], outputs[i + 1]);
      }
      NoInterference(c, id, states[1..], messages[1..], outputs[1..]);
    }
  }
}
