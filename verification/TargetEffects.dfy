/**
 The effects of a Safe transaction on target addresses, decoded recursively through batches
 (crates/sentinel-engine/src/contracts/target_effects.rs), against the base checker
 (crates/sentinel-engine/src/checkers/base.rs): for every transaction the checker accepts, the
 recursion goes no deeper than one level of sub-transactions.

 The ABI decoding of token calls and the selector checks are parameters.
 */
module TargetEffects {
  import opened Wrappers
  import opened MultiSend

  datatype Kind =
    | ValueTransfer(amount: nat)
    | Erc20Approval(amount: nat)
    | OperatorApproval(approved: bool)
    | Erc721Transfer(tokenId: nat)
    | Erc1155Transfer(id: nat, amount: nat)
    | Erc1155BatchTransfer(ids: seq<nat>, amounts: seq<nat>)

  datatype Effect = Effect(recipient: Address, kind: Kind)

  /** Calldata decoding: the packed bytes of a `multiSend` call, the token effect of a call, and
      which calldata the checker allows for each kind of restricted call. */
  datatype Abi = Abi(
    unwrap: Unwrap,
    token: Bytes -> Option<Effect>,
    selfCall: Bytes -> bool,
    migration: Bytes -> bool,
    signMessage: Bytes -> bool,
    createCall: Bytes -> bool)

  // ---------------------------------------------------------------- effects

  /** A plain call: its native value transfer and its token effect, independently. */
  function CallEffects(abi: Abi, tx: Transaction): seq<Effect> {
    (if tx.value != 0 then [Effect(tx.to, ValueTransfer(tx.value))] else [])
    + (if tx.data != [] && abi.token(tx.data).Some? then [abi.token(tx.data).value] else [])
  }

  /** The effects of a transaction, recursing through batches. The calldata gets shorter with
      every level. */
  function DecodeTargetEffects(abi: Abi, tx: Transaction): seq<Effect>
    decreases |tx.data|, 1, 0
  {
    var call := DecodeCall(abi.unwrap, tx);
    if call.None? then CallEffects(abi, tx)
    else
      SubsShorter(abi.unwrap, tx);
      EffectsOfAll(abi, call.value.0, |tx.data|)
  }

  function EffectsOfAll(abi: Abi, transactions: seq<Transaction>, size: nat): seq<Effect>
    requires forall i :: 0 <= i < |transactions| ==> |transactions[i].data| < size
    decreases size, 0, |transactions|
  {
    if transactions == [] then []
    else DecodeTargetEffects(abi, transactions[0]) + EffectsOfAll(abi, transactions[1..], size)
  }

  /** One level of sub-transactions, each decoded as a plain call. */
  function FlatEffects(abi: Abi, transactions: seq<Transaction>): seq<Effect> {
    if transactions == [] then [] else CallEffects(abi, transactions[0]) + FlatEffects(abi, transactions[1..])
  }

  method PushCallEffects(abi: Abi, tx: Transaction) returns (effects: seq<Effect>)
    ensures effects == CallEffects(abi, tx)
  {
    effects := [];
    if tx.value != 0 {
      effects := effects + [Effect(tx.to, ValueTransfer(tx.value))];
    }
    if tx.data == [] { return; }
    var token := abi.token(tx.data);
    if token.Some? {
      effects := effects + [token.value];
    }
  }

  /** The recursive decoder, collecting effects in order. */
  method CollectEffects(abi: Abi, tx: Transaction) returns (effects: seq<Effect>)
    ensures effects == DecodeTargetEffects(abi, tx)
    decreases |tx.data|
  {
    var call := DecodeCall(abi.unwrap, tx);
    if call.None? {
      effects := PushCallEffects(abi, tx);
      return;
    }
    var (subs, size) := (call.value.0, |tx.data|);
    SubsShorter(abi.unwrap, tx);
    effects := [];
    assert subs[0..] == subs;
    for i := 0 to |subs|
      invariant effects + EffectsOfAll(abi, subs[i..], size) == EffectsOfAll(abi, subs, size)
    {
      var more := CollectEffects(abi, subs[i]);
      assert subs[i..][1..] == subs[i + 1..];
      var rest := EffectsOfAll(abi, subs[i + 1..], size);
      assert effects + (more + rest) == (effects + more) + rest;
      effects := effects + more;
    }
  }

  // ---------------------------------------------------------------- the base checker

  datatype Rule = SettingsChange | DelegatecallIntegrity

  const MIGRATION_CONTRACTS: seq<Address> :=
    [0x6439e7ABD8Bb915A5263094784C5CF561c4172AC, 0x526643F69b81B008F46d95CD5ced5eC0edFFDaC6]

  const SIGN_MESSAGE_LIBS: seq<Address> :=
    [0xA65387F16B013cf2Af4605Ad8aA5ec25a2cbA3a2, 0x98FFBBF51bb33A056B08ddf711f289936AafF717,
     0xd53cd0aB83D845Ac265BE939c57F53AD838012c9, 0x4FfeF8222648872B3dE295Ba1e49110E61f5b5aa]

  const CREATE_CALL_CONTRACTS: seq<Address> :=
    [0x7cbB62EaA69F79e6873cD1ecB2392971036cFAa4, 0xB19D6FFc2182150F8Eb585b79D4ABcd7C5640A9d,
     0x9b35Af71d77eaf8d7e40252370304687390A1A52, 0x2Ef5ECfbea521449E4De05EDB1ce63B75eDA90B4]

  /** Calls to other contracts are free; self-calls are restricted. */
  predicate CheckCalls(abi: Abi, tx: Transaction) {
    tx.operation == Call && (tx.safe != tx.to || tx.data == [] || abi.selfCall(tx.data))
  }

  predicate CheckDelegateCalls(abi: Abi, tx: Transaction) {
    tx.operation == DelegateCall
    && if tx.to in MIGRATION_CONTRACTS then abi.migration(tx.data)
       else if tx.to in SIGN_MESSAGE_LIBS then abi.signMessage(tx.data)
       else tx.to in CREATE_CALL_CONTRACTS && abi.createCall(tx.data)
  }

  predicate CheckMultiSend(abi: Abi, tx: Transaction) {
    var call := DecodeCall(abi.unwrap, tx);
    call.Some?
    && forall i :: 0 <= i < |call.value.0| ==>
         CheckCalls(abi, call.value.0[i]) || (call.value.1 && CheckDelegateCalls(abi, call.value.0[i]))
  }

  /** The rule a transaction violates, if any. */
  function CheckTransaction(abi: Abi, tx: Transaction): Option<Rule> {
    if tx.operation == Call then (if CheckCalls(abi, tx) then None else Some(SettingsChange))
    else if CheckDelegateCalls(abi, tx) || CheckMultiSend(abi, tx) then None
    else Some(DelegatecallIntegrity)
  }

  /** A single transaction that leaves the Safe's own settings alone: a call to another contract, a
      plain transfer to itself or an allowed self-call, or an allowed call into a known library. */
  predicate Confined(abi: Abi, tx: Transaction) {
    match tx.operation
    case Call => tx.to == tx.safe ==> tx.data == [] || abi.selfCall(tx.data)
    case DelegateCall =>
      || (tx.to in MIGRATION_CONTRACTS && abi.migration(tx.data))
      || (tx.to in SIGN_MESSAGE_LIBS && abi.signMessage(tx.data))
      || (tx.to in CREATE_CALL_CONTRACTS && abi.createCall(tx.data))
  }

  /** No library is on two of the lists. */
  lemma ConfinedIff(abi: Abi, tx: Transaction)
    ensures Confined(abi, tx) <==> CheckCalls(abi, tx) || CheckDelegateCalls(abi, tx)
  {
  }

  /** Exactly those transactions are accepted all of whose sub-transactions are confined, and no
      batch that is for calls only makes a delegate-call. The rule tells calls from the rest. */
  lemma AcceptedIffConfined(abi: Abi, tx: Transaction)
    ensures CheckTransaction(abi, tx).None? <==>
            var subs := SubTransactions(abi.unwrap, tx);
            forall i :: 0 <= i < |subs| ==>
              && Confined(abi, subs[i])
              && (subs[i].operation == DelegateCall && DecodeCall(abi.unwrap, tx).Some?
                  ==> DecodeCall(abi.unwrap, tx).value.1)
    ensures CheckTransaction(abi, tx) == Some(SettingsChange) ==> tx.operation == Call
    ensures CheckTransaction(abi, tx) == Some(DelegatecallIntegrity) ==> tx.operation == DelegateCall
  {
    var subs := SubTransactions(abi.unwrap, tx);
    forall i | 0 <= i < |subs|
      ensures Confined(abi, subs[i]) <==> CheckCalls(abi, subs[i]) || CheckDelegateCalls(abi, subs[i])
    {
      ConfinedIff(abi, subs[i]);
    }
    if DecodeCall(abi.unwrap, tx).None? {
      assert subs == [tx] && subs[0] == tx;
    }
  }

  // ---------------------------------------------------------------- one level is enough

  /** The contracts that may be delegate-called are no MultiSend deployments. */
  lemma AllowedIsNoBatch(abi: Abi, tx: Transaction)
    requires CheckCalls(abi, tx) || CheckDelegateCalls(abi, tx)
    ensures DecodeCall(abi.unwrap, tx).None?
    ensures DecodeTargetEffects(abi, tx) == CallEffects(abi, tx)
  {
  }

  lemma {:induction false} AllPlain(abi: Abi, transactions: seq<Transaction>, size: nat)
    requires forall i :: 0 <= i < |transactions| ==> |transactions[i].data| < size
    requires forall i :: 0 <= i < |transactions| ==>
               CheckCalls(abi, transactions[i]) || CheckDelegateCalls(abi, transactions[i])
    ensures EffectsOfAll(abi, transactions, size) == FlatEffects(abi, transactions)
    decreases |transactions|
  {
    if transactions != [] {
      AllowedIsNoBatch(abi, transactions[0]);
      AllPlain(abi, transactions[1..], size);
    }
  }

  /** Whenever the base checker accepts a transaction, decoding its effects recursively is
      decoding each of its sub-transactions once: an accepted batch holds no further batch. */
  lemma AcceptedIsFlat(abi: Abi, tx: Transaction)
    requires CheckTransaction(abi, tx).None?
    ensures DecodeTargetEffects(abi, tx) == FlatEffects(abi, SubTransactions(abi.unwrap, tx))
    ensures forall i :: 0 <= i < |SubTransactions(abi.unwrap, tx)| ==>
              DecodeCall(abi.unwrap, SubTransactions(abi.unwrap, tx)[i]).None?
  {
    var call := DecodeCall(abi.unwrap, tx);
    if call.Some? {
      if CheckDelegateCalls(abi, tx) {
        AllowedIsNoBatch(abi, tx);
        assert false;
      }
      SubsShorter(abi.unwrap, tx);
      AllPlain(abi, call.value.0, |tx.data|);
      forall i | 0 <= i < |call.value.0| ensures DecodeCall(abi.unwrap, call.value.0[i]).None? {
        AllowedIsNoBatch(abi, call.value.0[i]);
      }
    } else {
      assert FlatEffects(abi, [tx]) == CallEffects(abi, tx) + [];
    }
  }

  /** The transaction itself has the effect: its native transfer or what its calldata does. */
  predicate HasEffect(abi: Abi, tx: Transaction, e: Effect) {
    || (tx.value != 0 && e == Effect(tx.to, ValueTransfer(tx.value)))
    || (tx.data != [] && abi.token(tx.data) == Some(e))
  }

  lemma {:induction false} FlatMembers(abi: Abi, transactions: seq<Transaction>, e: Effect)
    ensures e in FlatEffects(abi, transactions) <==>
              exists i :: 0 <= i < |transactions| && HasEffect(abi, transactions[i], e)
  {
    if transactions != [] {
      var rest := transactions[1..];
      FlatMembers(abi, rest, e);
      assert e in CallEffects(abi, transactions[0]) <==> HasEffect(abi, transactions[0], e);
      if i :| 0 <= i < |rest| && HasEffect(abi, rest[i], e) {
        assert HasEffect(abi, transactions[i + 1], e);
      }
      if i :| 0 <= i < |transactions| && HasEffect(abi, transactions[i], e) && i > 0 {
        assert HasEffect(abi, rest[i - 1], e);
      }
    }
  }

  /** The effects of an accepted transaction are exactly the native transfers and token effects of
      its sub-transactions: neither kind suppresses the other, and none comes from anywhere else. */
  lemma AcceptedEffects(abi: Abi, tx: Transaction, e: Effect)
    requires CheckTransaction(abi, tx).None?
    ensures e in DecodeTargetEffects(abi, tx) <==>
              exists i :: 0 <= i < |SubTransactions(abi.unwrap, tx)|
                && HasEffect(abi, SubTransactions(abi.unwrap, tx)[i], e)
  {
    AcceptedIsFlat(abi, tx);
    FlatMembers(abi, SubTransactions(abi.unwrap, tx), e);
  }
}
