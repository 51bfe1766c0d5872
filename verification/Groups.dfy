/**
 Key-generation groups (crates/validator/src/consensus/group.rs): the participants of an epoch
 without the excluded ones, their signing threshold, and the proof each holds of its own
 participation. The hash of the group parameters and the context words are left abstract.
 */
module Groups {
  import opened Wrappers
  import opened Sets
  import opened Merkle

  type Address = nat

  const U16_MAX: nat := 65535

  /** Active from one epoch (inclusive) until another (exclusive), if it ever leaves. */
  datatype Participant = Participant(address: Address, activeFrom: nat, activeBefore: Option<nat>)

  datatype Epoch = Genesis | Number(number: nat, excluded: set<Address>)

  datatype ParticipantSet = ParticipantSet(addresses: set<Address>, excluded: set<Address>)

  datatype Group = Group(root: Digest, participants: set<Address>, excluded: set<Address>, count: nat, threshold: nat)

  // ---------------------------------------------------------------- derivation

  predicate Active(p: Participant, epoch: Epoch) {
    match epoch
    case Genesis => p.activeFrom == 0
    case Number(number, _) => p.activeFrom <= number && (p.activeBefore.None? || number < p.activeBefore.value)
  }

  /** The default participants of an epoch. */
  function ActiveSet(participants: seq<Participant>, epoch: Epoch): set<Address> {
    set p | p in participants && Active(p, epoch) :: p.address
  }

  function ExcludedIn(epoch: Epoch): set<Address> {
    if epoch.Genesis? then {} else epoch.excluded
  }

  function GroupThreshold(count: nat): nat { count / 2 + 1 }

  /** More than two thirds of the default participants, and at least two. */
  function MinParticipants(total: nat): nat {
    var min := total * 2 / 3 + 1;
    if min < 2 then 2 else min
  }

  /** The participant set of an epoch, when there are enough participants and not too many. */
  function ParticipantsOf(participants: seq<Participant>, epoch: Epoch): Option<ParticipantSet> {
    var all := ActiveSet(participants, epoch);
    var left := all - ExcludedIn(epoch);
    if |all| > U16_MAX || |left| < MinParticipants(|all|) then None
    else Some(ParticipantSet(left, ExcludedIn(epoch)))
  }

  method DeriveParticipants(participants: seq<Participant>, epoch: Epoch) returns (derived: Option<ParticipantSet>)
    ensures derived == ParticipantsOf(participants, epoch)
  {
    var all := ActiveSet(participants, epoch);
    if |all| > U16_MAX { return None; }
    var excluded := ExcludedIn(epoch);
    var addresses := RemoveAll(all, excluded);
    if |addresses| < MinParticipants(|all|) { return None; }
    derived := Some(ParticipantSet(addresses, excluded));
  }

  method RemoveAll(all: set<Address>, excluded: set<Address>) returns (addresses: set<Address>)
    ensures addresses == all - excluded
  {
    addresses := all;
    var todo := excluded;
    while todo != {}
      invariant todo <= excluded && addresses == all - (excluded - todo)
      decreases |todo|
    {
      var address :| address in todo;
      addresses := addresses - {address};
      todo := todo - {address};
    }
  }

  /** The addresses in ascending order, as a `BTreeSet` iterates over them. */
  function Ascending(s: set<Address>): seq<Address> {
    if s == {} then [] else [Min(s)] + Ascending(s - {Min(s)})
  }

  /** Each address is hashed as its left-padded word. */
  function LeavesOf(s: set<Address>): Level {
    var addresses := Ascending(s);
    seq(|addresses|, i requires 0 <= i < |addresses| => Word(addresses[i]))
  }

  function GroupOf(p: ParticipantSet): Group {
    Group(RootOf(Levels(LeavesOf(p.addresses))), p.addresses, p.excluded, |p.addresses|, GroupThreshold(|p.addresses|))
  }

  function Preceding(s: set<Address>, address: Address): set<Address> {
    set a | a in s && a < address
  }

  /** The group and the proof of participation of one of its members. */
  method ParticipateAs(p: ParticipantSet, address: Address) returns (joined: Option<(Group, seq<Digest>)>)
    ensures joined.Some? <==> address in p.addresses
    ensures joined.Some? ==>
              var (group, proof) := joined.value;
              group == GroupOf(p) && Climb(Word(address), proof) == group.root
  {
    if address !in p.addresses { return None; }
    var index := |Preceding(p.addresses, address)|;
    var tree := new MerkleTree.Build(LeavesOf(p.addresses));
    var proof := tree.Proof(index);
    RankOf(p.addresses, address);
    LeafVerifies(LeavesOf(p.addresses), index);
    joined := Some((GroupOf(p), proof));
  }

  lemma {:induction false} AscendingMembers(s: set<Address>)
    ensures |Ascending(s)| == |s|
    ensures forall a :: a in Ascending(s) <==> a in s
  {
    if s != {} {
      AscendingMembers(s - {Min(s)});
    }
  }

  /** The number of smaller members is a member's position. */
  lemma {:induction false} RankOf(s: set<Address>, address: Address)
    requires address in s
    ensures var index := |Preceding(s, address)|;
            index < |Ascending(s)| && Ascending(s)[index] == address
  {
    var least := Min(s);
    if address == least {
      assert Preceding(s, address) == {};
    } else {
      var rest := s - {least};
      assert Preceding(s, address) == Preceding(rest, address) + {least};
      RankOf(rest, address);
    }
  }

  // ---------------------------------------------------------------- thresholds

  /** The minimum is the least number, from two on, of more than two thirds of the default
      participants; the threshold is the least majority. */
  lemma LeastSizes(total: nat, k: nat)
    ensures k >= MinParticipants(total) <==> k >= 2 && 3 * k > 2 * total
    ensures k >= GroupThreshold(total) <==> 2 * k > total
  {
  }

  /** A participant set is derived if and only if more than two thirds of the default participants,
      at least two, are not excluded, and they fit 16 bits. */
  lemma DerivedIff(participants: seq<Participant>, epoch: Epoch)
    ensures var all := ActiveSet(participants, epoch);
            var left := all - ExcludedIn(epoch);
            && (ParticipantsOf(participants, epoch).Some? <==>
                  |all| <= U16_MAX && |left| >= 2 && 3 * |left| > 2 * |all|)
            && (ParticipantsOf(participants, epoch).Some? ==>
                  ParticipantsOf(participants, epoch).value == ParticipantSet(left, ExcludedIn(epoch)))
  {
    var all := ActiveSet(participants, epoch);
    LeastSizes(|all|, |all - ExcludedIn(epoch)|);
  }

  /** A derived group is well-sized: its threshold is reachable, fits the 16 bits it is kept in,
      and exceeds every third of the epoch's default participants. */
  lemma ViableGroup(participants: seq<Participant>, epoch: Epoch, malicious: nat)
    requires ParticipantsOf(participants, epoch).Some?
    requires 3 * malicious <= |ActiveSet(participants, epoch)|
    ensures var group := GroupOf(ParticipantsOf(participants, epoch).value);
            && 2 <= group.count && 2 <= group.threshold <= group.count <= U16_MAX
            && malicious < group.threshold
            && MinParticipants(|ActiveSet(participants, epoch)|) <= U16_MAX
  {
    var all := ActiveSet(participants, epoch);
    SubsetSize(all - ExcludedIn(epoch), all);
  }

  /** Two quorums of one group share a member; and when no more than a third of the default
      participants are malicious, every quorum holds an honest one. */
  lemma QuorumsIntersect(participants: seq<Participant>, epoch: Epoch, a: set<Address>, b: set<Address>,
                         malicious: set<Address>)
    requires ParticipantsOf(participants, epoch).Some?
    requires var group := GroupOf(ParticipantsOf(participants, epoch).value);
             && a <= group.participants && b <= group.participants
             && |a| >= group.threshold && |b| >= group.threshold
    requires 3 * |malicious| <= |ActiveSet(participants, epoch)|
    ensures a * b != {}
    ensures a - malicious != {}
  {
    var group := GroupOf(ParticipantsOf(participants, epoch).value);
    ViableGroup(participants, epoch, |malicious|);
    SubsetSize(a + b, group.participants);
    assert |a + b| + |a * b| == |a| + |b|;
    if forall x :: x in a ==> x in malicious {
      SubsetSize(a, malicious);
      assert false;
    }
    var honest :| honest in a && honest !in malicious;
    assert honest in a - malicious;
  }

  // ---------------------------------------------------------------- retries

  function AlsoExclude(group: Group, more: set<Address>): set<Address> {
    group.excluded + more
  }

  function Members(addresses: seq<Address>): set<Address> {
    set a | a in addresses
  }

  /** Excludes every participant that is not among the included ones. */
  method ExcludeAllOthers(group: Group, included: seq<Address>) returns (excluded: set<Address>)
    ensures excluded == OthersExcluded(group, Members(included))
  {
    var others := group.participants;
    for i := 0 to |included|
      invariant others == group.participants - Members(included[..i])
    {
      others := others - {included[i]};
      assert included[..i + 1] == included[..i] + [included[i]];
    }
    assert included[..|included|] == included;
    excluded := AlsoExclude(group, others);
  }

  function OthersExcluded(group: Group, included: set<Address>): set<Address> {
    AlsoExclude(group, group.participants - included)
  }

  /** The same epoch derived again, without the excluded. */
  function Rederived(participants: seq<Participant>, number: nat, excluded: set<Address>): Option<Group> {
    var derived := ParticipantsOf(participants, Number(number, excluded));
    if derived.None? then None else Some(GroupOf(derived.value))
  }

  /** The default participants of a later epoch, whoever is excluded. */
  function Defaults(participants: seq<Participant>, number: nat): set<Address> {
    ActiveSet(participants, Number(number, {}))
  }

  lemma DefaultsIgnoreExcluded(participants: seq<Participant>, number: nat, excluded: set<Address>)
    ensures ActiveSet(participants, Number(number, excluded)) == Defaults(participants, number)
  {
  }

  lemma RederivedIs(participants: seq<Participant>, number: nat, excluded: set<Address>)
    ensures var all := Defaults(participants, number);
            Rederived(participants, number, excluded) ==
            if |all| > U16_MAX || |all - excluded| < MinParticipants(|all|) then None
            else Some(GroupOf(ParticipantSet(all - excluded, excluded)))
  {
    DefaultsIgnoreExcluded(participants, number, excluded);
  }

  /** Deriving the epoch again with all but some participants excluded gives, when it is viable,
      exactly those of the group that are among them; and it is viable exactly when enough of
      them are left. */
  lemma RederivingRestricts(participants: seq<Participant>, number: nat, excluded: set<Address>, included: set<Address>)
    requires Rederived(participants, number, excluded).Some?
    ensures var group := Rederived(participants, number, excluded).value;
            var again := Rederived(participants, number, OthersExcluded(group, included));
            && (again.Some? <==> |group.participants * included| >= MinParticipants(|Defaults(participants, number)|))
            && (again.Some? ==> again.value.participants == group.participants * included)
  {
    var group := Rederived(participants, number, excluded).value;
    var next := OthersExcluded(group, included);
    RederivedIs(participants, number, excluded);
    RederivedIs(participants, number, next);
    assert Defaults(participants, number) - next == group.participants * included;
  }

  /** Deriving the epoch again without accused participants is viable exactly when enough others
      are left, and then gives exactly those. */
  lemma AccusedAreOut(participants: seq<Participant>, number: nat, excluded: set<Address>, accused: set<Address>)
    requires Rederived(participants, number, excluded).Some?
    ensures var group := Rederived(participants, number, excluded).value;
            var again := Rederived(participants, number, AlsoExclude(group, accused));
            && (again.Some? <==> |group.participants - accused| >= MinParticipants(|Defaults(participants, number)|))
            && (again.Some? ==> again.value.participants == group.participants - accused)
  {
    var group := Rederived(participants, number, excluded).value;
    var next := AlsoExclude(group, accused);
    RederivedIs(participants, number, excluded);
    RederivedIs(participants, number, next);
    assert Defaults(participants, number) - next == group.participants - accused;
  }

  /** What an attempt at key generation ended with: the participants that took part in it, or the
      ones that were accused. */
  datatype Attempt = TookPart(included: set<Address>) | Accused(accused: set<Address>)

  function ExcludedAfter(group: Group, attempt: Attempt): set<Address> {
    match attempt
    case TookPart(included) => OthersExcluded(group, included)
    case Accused(accused) => AlsoExclude(group, accused)
  }

  function LeftAfter(group: Group, attempt: Attempt): set<Address> {
    match attempt
    case TookPart(included) => group.participants * included
    case Accused(accused) => group.participants - accused
  }

  lemma RetryRestricts(participants: seq<Participant>, number: nat, excluded: set<Address>, attempt: Attempt)
    requires Rederived(participants, number, excluded).Some?
    ensures var group := Rederived(participants, number, excluded).value;
            var again := Rederived(participants, number, ExcludedAfter(group, attempt));
            again.Some? ==> again.value.participants == LeftAfter(group, attempt)
  {
    match attempt
    case TookPart(included) => RederivingRestricts(participants, number, excluded, included);
    case Accused(accused) => AccusedAreOut(participants, number, excluded, accused);
  }

  /** Key generation is retried after each attempt, and stops when the group is no longer viable. */
  function Retry(participants: seq<Participant>, number: nat, excluded: set<Address>,
                 attempts: seq<Attempt>): Option<Group>
    decreases |attempts|
  {
    var group := Rederived(participants, number, excluded);
    if group.None? || attempts == [] then group
    else Retry(participants, number, ExcludedAfter(group.value, attempts[0]), attempts[1..])
  }

  /** Each attempt loses some participant of its group. */
  predicate EachStalls(participants: seq<Participant>, number: nat, excluded: set<Address>, attempts: seq<Attempt>)
    decreases |attempts|
  {
    attempts == [] ||
    var group := Rederived(participants, number, excluded);
    group.Some? ==>
      LeftAfter(group.value, attempts[0]) != group.value.participants
      && EachStalls(participants, number, ExcludedAfter(group.value, attempts[0]), attempts[1..])
  }

  /** After `k` attempts that each lost a participant, the group has lost at least `k`. */
  lemma {:induction false} RetriesShrink(participants: seq<Participant>, number: nat, excluded: set<Address>,
                                         attempts: seq<Attempt>)
    requires EachStalls(participants, number, excluded, attempts)
    requires Retry(participants, number, excluded, attempts).Some?
    ensures Rederived(participants, number, excluded).Some?
    ensures var first := Rederived(participants, number, excluded).value.participants;
            var last := Retry(participants, number, excluded, attempts).value.participants;
            last <= first && |last| + |attempts| <= |first|
    decreases |attempts|
  {
    if attempts != [] {
      var first := Rederived(participants, number, excluded).value;
      RetryRestricts(participants, number, excluded, attempts[0]);
      RetriesShrink(participants, number, ExcludedAfter(first, attempts[0]), attempts[1..]);
      SubsetSize(LeftAfter(first, attempts[0]), first.participants);
    }
  }

  lemma {:induction false} RetriesStayViable(participants: seq<Participant>, number: nat, excluded: set<Address>,
                                             attempts: seq<Attempt>)
    requires Retry(participants, number, excluded, attempts).Some?
    ensures |Retry(participants, number, excluded, attempts).value.participants|
            >= MinParticipants(|Defaults(participants, number)|)
    decreases |attempts|
  {
    RederivedIs(participants, number, excluded);
    if attempts != [] {
      var first := Rederived(participants, number, excluded).value;
      RetriesStayViable(participants, number, ExcludedAfter(first, attempts[0]), attempts[1..]);
    }
  }

  /** Retries end: with `N` default participants, only fewer than `N / 3` stalled attempts leave a
      viable group. */
  lemma RetriesEnd(participants: seq<Participant>, number: nat, excluded: set<Address>, attempts: seq<Attempt>)
    requires EachStalls(participants, number, excluded, attempts)
    requires Retry(participants, number, excluded, attempts).Some?
    ensures 3 * |attempts| < |Defaults(participants, number)|
  {
    RetriesShrink(participants, number, excluded, attempts);
    RetriesStayViable(participants, number, excluded, attempts);
    RederivedIs(participants, number, excluded);
    SubsetSize(Rederived(participants, number, excluded).value.participants, Defaults(participants, number));
  }
}
