/**
 The MultiSend wire format (crates/sentinel-engine/src/contracts/multi_send.rs): the packed
 sub-transactions of a batch, and the decoding of a whole MultiSend call. The ABI decoding of
 `multiSend(bytes)` is a parameter; all that is assumed of it is that the packed bytes it
 returns are shorter than the calldata that carries them.
 */
module MultiSend {
  import opened Wrappers

  type Byte = x: int | 0 <= x < 256
  type Bytes = seq<Byte>
  type Address = nat

  const USIZE_MAX: nat := 0xFFFF_FFFF_FFFF_FFFF

  datatype Operation = Call | DelegateCall

  datatype Version = Legacy | V150Plus

  /** The fields of a Safe transaction that calls are made of; a decoded sub-transaction has no
      others. */
  datatype Transaction = Transaction(safe: Address, to: Address, value: nat, data: Bytes, operation: Operation)

  // ---------------------------------------------------------------- big-endian words

  function Pow256(n: nat): nat { if n == 0 then 1 else 256 * Pow256(n - 1) }

  function FromBytes(b: Bytes): nat {
    if b == [] then 0 else 256 * FromBytes(b[..|b| - 1]) + b[|b| - 1]
  }

  function ToBytes(v: nat, width: nat): (b: Bytes)
    ensures |b| == width
  {
    if width == 0 then [] else ToBytes(v / 256, width - 1) + [v % 256]
  }

  lemma {:induction false} BytesOfWord(v: nat, width: nat)
    requires v < Pow256(width)
    ensures FromBytes(ToBytes(v, width)) == v
  {
    if width > 0 {
      BytesOfWord(v / 256, width - 1);
      assert ToBytes(v, width)[..width - 1] == ToBytes(v / 256, width - 1);
    }
  }

  lemma {:induction false} WordOfBytes(b: Bytes)
    ensures FromBytes(b) < Pow256(|b|)
    ensures ToBytes(FromBytes(b), |b|) == b
  {
    if b != [] {
      WordOfBytes(b[..|b| - 1]);
      assert b == b[..|b| - 1] + [b[|b| - 1]];
    }
  }

  // ---------------------------------------------------------------- entries

  /** One packed sub-transaction. */
  datatype Entry = Entry(operation: Operation, to: nat, value: nat, data: Bytes)

  predicate WellFormed(e: Entry) {
    e.to < Pow256(20) && e.value < Pow256(32) && |e.data| <= USIZE_MAX
  }

  function OperationByte(operation: Operation): Byte {
    if operation.Call? then 0 else 1
  }

  /** Operation, recipient, value, data length, data. */
  function Pack(e: Entry): Bytes {
    [OperationByte(e.operation)] + ToBytes(e.to, 20) + ToBytes(e.value, 32) + ToBytes(|e.data|, 32) + e.data
  }

  function PackAll(entries: seq<Entry>): Bytes {
    if entries == [] then [] else Pack(entries[0]) + PackAll(entries[1..])
  }

  const HEAD: nat := 85

  /** The first entry, when the bytes begin with one. */
  function Front(data: Bytes): Option<Entry> {
    if |data| < HEAD || data[0] > 1 then None
    else
      var len := FromBytes(data[53..85]);
      if len > USIZE_MAX || |data| - HEAD < len then None
      else
        Some(Entry(if data[0] == 0 then Call else DelegateCall, FromBytes(data[1..21]), FromBytes(data[21..53]),
                   data[HEAD..HEAD + len]))
  }

  function Entries(data: Bytes): Option<seq<Entry>>
    decreases |data|
  {
    if data == [] then Some([])
    else
      var front := Front(data);
      if front.None? then None
      else
        var rest := Entries(data[HEAD + |front.value.data|..]);
        if rest.None? then None else Some([front.value] + rest.value)
  }

  function ToTransaction(safe: Address, version: Version, e: Entry): Transaction {
    Transaction(safe, if version.V150Plus? && e.to == 0 then safe else e.to, e.value, e.data, e.operation)
  }

  function ToTransactions(safe: Address, version: Version, entries: seq<Entry>): seq<Transaction> {
    seq(|entries|, i requires 0 <= i < |entries| => ToTransaction(safe, version, entries[i]))
  }

  function DecodeSpec(safe: Address, data: Bytes, version: Version): Option<seq<Transaction>> {
    var entries := Entries(data);
    if entries.None? then None else Some(ToTransactions(safe, version, entries.value))
  }

  // ---------------------------------------------------------------- decoding in place

  class Cursor {
    var rest: Bytes

    constructor (data: Bytes)
      ensures rest == data
    {
      rest := data;
    }

    /** Takes the next `len` bytes. When there are fewer, they are all lost. */
    method Read(len: nat) returns (result: Option<Bytes>)
      modifies this
      ensures len <= |old(rest)| ==> result == Some(old(rest)[..len]) && rest == old(rest)[len..]
      ensures len > |old(rest)| ==> result == None && rest == []
    {
      var taken := rest;
      rest := [];
      if len > |taken| { return None; }
      rest := taken[len..];
      result := Some(taken[..len]);
    }

    method Next() returns (byte: Option<Byte>)
      modifies this
      ensures old(rest) == [] ==> byte == None && rest == []
      ensures old(rest) != [] ==> byte == Some(old(rest)[0]) && rest == old(rest)[1..]
    {
      var one := Read(1);
      byte := if one.None? then None else Some(one.value[0]);
    }

    /** Reads the rest of an entry after its operation byte. */
    method ReadEntry(operation: Byte) returns (entry: Option<Entry>)
      modifies this
      ensures entry == Front([operation] + old(rest))
      ensures entry.Some? ==>
                HEAD + |entry.value.data| <= 1 + |old(rest)|
                && rest == ([operation] + old(rest))[HEAD + |entry.value.data|..]
    {
      ghost var data := [operation] + rest;
      if operation > 1 { return None; }
      var to := Read(20);
      if to.None? { return None; }
      var value := Read(32);
      if value.None? { return None; }
      var size := Read(32);
      if size.None? { return None; }
      assert to.value == data[1..21] && value.value == data[21..53] && size.value == data[53..85] && rest == data[85..];
      var len := FromBytes(size.value);
      if len > USIZE_MAX { return None; }
      var bytes := Read(len);
      if bytes.None? { return None; }
      assert bytes.value == data[HEAD..HEAD + len] && rest == data[HEAD + len..];
      entry := Some(Entry(if operation == 0 then Call else DelegateCall, FromBytes(to.value), FromBytes(value.value),
                          bytes.value));
    }
  }

  method DecodeMultiSend(safe: Address, data: Bytes, version: Version) returns (result: Option<seq<Transaction>>)
    ensures result == DecodeSpec(safe, data, version)
  {
    var cursor := new Cursor(data);
    var transactions: seq<Transaction> := [];
    ghost var done: seq<Entry> := [];
    var operation := cursor.Next();
    ghost var left := data;
    assert Entries(data).Some? ==> [] + Entries(data).value == Entries(data).value;
    while operation.Some?
      invariant fresh(cursor)
      invariant if left == [] then operation == None && cursor.rest == []
                else operation == Some(left[0]) && cursor.rest == left[1..]
      invariant transactions == ToTransactions(safe, version, done)
      invariant Entries(data) == if Entries(left).None? then None else Some(done + Entries(left).value)
      decreases |left|
    {
      assert left == [left[0]] + left[1..];
      var entry := cursor.ReadEntry(operation.value);
      if entry.None? { return None; }
      transactions := transactions + [ToTransaction(safe, version, entry.value)];
      EntriesContinue(left, done, entry.value);
      done := done + [entry.value];
      left := left[HEAD + |entry.value.data|..];
      operation := cursor.Next();
    }
    assert done + [] == done;
    result := Some(transactions);
  }

  lemma EntriesContinue(left: Bytes, done: seq<Entry>, entry: Entry)
    requires left != [] && Front(left) == Some(entry)
    ensures var rest := Entries(left[HEAD + |entry.data|..]);
            (if Entries(left).None? then None else Some(done + Entries(left).value))
            == (if rest.None? then None else Some(done + [entry] + rest.value))
  {
    var rest := Entries(left[HEAD + |entry.data|..]);
    if rest.Some? {
      assert done + ([entry] + rest.value) == done + [entry] + rest.value;
    }
  }

  // ---------------------------------------------------------------- inverse

  lemma {:induction false} Pow256Grows(n: nat, m: nat)
    requires n <= m
    ensures Pow256(n) <= Pow256(m)
  {
    if n < m { Pow256Grows(n, m - 1); }
  }

  lemma LengthFits(len: nat)
    requires len <= USIZE_MAX
    ensures len < Pow256(32)
  {
    assert Pow256(4) == 0x1_0000_0000;
    assert Pow256(8) == USIZE_MAX + 1;
    Pow256Grows(8, 32);
  }

  /** Where the fields of a packed entry are. */
  lemma Layout(operation: Byte, to: Bytes, value: Bytes, size: Bytes, body: Bytes, rest: Bytes)
    requires |to| == 20 && |value| == 32 && |size| == 32
    ensures var data := [operation] + to + value + size + body + rest;
            && |data| == HEAD + |body| + |rest| && data[0] == operation
            && data[1..21] == to && data[21..53] == value && data[53..85] == size
            && data[HEAD..HEAD + |body|] == body && data[HEAD + |body|..] == rest
  {
  }

  lemma WordsFit(e: Entry)
    requires WellFormed(e)
    ensures FromBytes(ToBytes(e.to, 20)) == e.to && FromBytes(ToBytes(e.value, 32)) == e.value
    ensures FromBytes(ToBytes(|e.data|, 32)) == |e.data|
  {
    BytesOfWord(e.to, 20);
    BytesOfWord(e.value, 32);
    LengthFits(|e.data|);
    BytesOfWord(|e.data|, 32);
  }

  /** The fields of an entry at their places are what `Front` reads. */
  lemma FrontReads(data: Bytes, e: Entry)
    requires |e.data| <= USIZE_MAX && |data| >= HEAD + |e.data|
    requires data[0] == OperationByte(e.operation)
    requires FromBytes(data[1..21]) == e.to && FromBytes(data[21..53]) == e.value
    requires FromBytes(data[53..85]) == |e.data| && data[HEAD..HEAD + |e.data|] == e.data
    ensures Front(data) == Some(e)
  {
  }

  lemma FrontOfPacked(e: Entry, rest: Bytes)
    requires WellFormed(e)
    ensures Front(Pack(e) + rest) == Some(e)
    ensures (Pack(e) + rest)[HEAD + |e.data|..] == rest
  {
    Layout(OperationByte(e.operation), ToBytes(e.to, 20), ToBytes(e.value, 32), ToBytes(|e.data|, 32), e.data, rest);
    WordsFit(e);
    FrontReads(Pack(e) + rest, e);
  }

  lemma PackOfFront(data: Bytes)
    requires Front(data).Some?
    ensures var e := Front(data).value;
            WellFormed(e) && data == Pack(e) + data[HEAD + |e.data|..]
  {
    var e := Front(data).value;
    WordOfBytes(data[1..21]);
    WordOfBytes(data[21..53]);
    WordOfBytes(data[53..85]);
    assert data[..1] == [OperationByte(e.operation)];
    assert data == data[..1] + data[1..21] + data[21..53] + data[53..85] + e.data + data[HEAD + |e.data|..];
  }

  ghost predicate AllWellFormed(entries: seq<Entry>) {
    forall i :: 0 <= i < |entries| ==> WellFormed(entries[i])
  }

  /** Decoding undoes packing. */
  lemma {:induction false} DecodesPacked(entries: seq<Entry>)
    requires AllWellFormed(entries)
    ensures Entries(PackAll(entries)) == Some(entries)
  {
    if entries != [] {
      DecodesPacked(entries[1..]);
      FrontOfPacked(entries[0], PackAll(entries[1..]));
      assert entries == [entries[0]] + entries[1..];
    }
  }

  /** Packing undoes decoding. */
  lemma {:induction false} PacksDecoded(data: Bytes)
    requires Entries(data).Some?
    ensures AllWellFormed(Entries(data).value) && PackAll(Entries(data).value) == data
    decreases |data|
  {
    if data != [] {
      PackOfFront(data);
      var front := Front(data).value;
      var rest := data[HEAD + |front.data|..];
      PacksDecoded(rest);
      assert Entries(data).value[1..] == Entries(rest).value;
    }
  }

  /** A sub-transaction as it is packed. */
  function FromTransaction(t: Transaction): Entry {
    Entry(t.operation, t.to, t.value, t.data)
  }

  function Repack(transactions: seq<Transaction>): Bytes {
    PackAll(seq(|transactions|, i requires 0 <= i < |transactions| => FromTransaction(transactions[i])))
  }

  /** For the legacy contracts decoding and packing are exact inverses: decoding succeeds on
      precisely the concatenations of well-formed entries, packing what was decoded returns the
      input, and decoding what was packed returns the sub-transactions. */
  lemma LegacyInverse(safe: Address, data: Bytes)
    ensures DecodeSpec(safe, data, Legacy).Some?
            <==> exists entries :: AllWellFormed(entries) && PackAll(entries) == data
    ensures DecodeSpec(safe, data, Legacy).Some? ==> Repack(DecodeSpec(safe, data, Legacy).value) == data
    ensures forall entries :: AllWellFormed(entries) && PackAll(entries) == data ==>
              DecodeSpec(safe, data, Legacy) == Some(ToTransactions(safe, Legacy, entries))
  {
    forall entries | AllWellFormed(entries) && PackAll(entries) == data
      ensures DecodeSpec(safe, data, Legacy) == Some(ToTransactions(safe, Legacy, entries))
    {
      DecodesPacked(entries);
    }
    if Entries(data).Some? {
      PacksDecoded(data);
      var transactions := DecodeSpec(safe, data, Legacy).value;
      assert seq(|transactions|, i requires 0 <= i < |transactions| => FromTransaction(transactions[i]))
          == Entries(data).value;
    }
  }

  /** Two byte strings never decode to the same legacy batch. */
  lemma LegacyInjective(safe: Address, a: Bytes, b: Bytes)
    requires DecodeSpec(safe, a, Legacy).Some?
    requires DecodeSpec(safe, a, Legacy) == DecodeSpec(safe, b, Legacy)
    ensures a == b
  {
    LegacyInverse(safe, a);
    LegacyInverse(safe, b);
  }

  /** From version 1.5.0 on the same byte strings decode, to the same batch but for calls to the
      zero address, which are self-calls. */
  lemma NewerIsLegacyWithSelfCalls(safe: Address, data: Bytes)
    ensures var legacy := DecodeSpec(safe, data, Legacy);
            var newer := DecodeSpec(safe, data, V150Plus);
            && (newer.Some? <==> legacy.Some?)
            && (newer.Some? ==>
                  |newer.value| == |legacy.value|
                  && forall i :: 0 <= i < |newer.value| ==>
                       newer.value[i] ==
                       if legacy.value[i].to == 0 then legacy.value[i].(to := safe) else legacy.value[i])
  {
  }

  // ---------------------------------------------------------------- whole calls

  /** The deployments: address, version, and whether batched delegate calls are allowed. */
  function KnownDeployment(address: Address): Option<(Version, bool)> {
    if address == 0x218543288004CD07832472D464648173c77D7eB7 then Some((V150Plus, true))
    else if address == 0xA83c336B20401Af773B6219BA5027174338D1836 then Some((V150Plus, false))
    else if address == 0x38869bf66a61cF6bDB996A6aE40D5853Fd43B526 then Some((Legacy, true))
    else if address == 0x9641d764fc13c8B624c04430C7356C1C7C8102e2 then Some((Legacy, false))
    else if address == 0xA238CBeb142c10Ef7Ad8442C6D1f9E89e07e7761 then Some((Legacy, true))
    else if address == 0x40A2aCCbd92BCA938b02010E17A5b8929b49130D then Some((Legacy, false))
    else if address == 0x998739BFdAAdde7C933B942a68053933098f9EDa then Some((Legacy, true))
    else if address == 0xA1dabEF33b3B82c7814B6D82A79e50F4AC44102B then Some((Legacy, false))
    else None
  }

  /** The ABI decoding of `multiSend(bytes)`. */
  type Unwrap = f: Bytes -> Option<Bytes> | forall data :: f(data).Some? ==> |f(data).value| < |data|
    witness (data: Bytes) => None

  function DecodeCall(unwrap: Unwrap, tx: Transaction): Option<(seq<Transaction>, bool)> {
    if tx.operation != DelegateCall then None
    else
      var deployment := KnownDeployment(tx.to);
      var packed := unwrap(tx.data);
      if deployment.None? || packed.None? then None
      else
        var subs := DecodeSpec(tx.safe, packed.value, deployment.value.0);
        if subs.None? then None else Some((subs.value, deployment.value.1))
  }

  /** The transaction itself, or its sub-transactions when it is a batch. */
  function SubTransactions(unwrap: Unwrap, tx: Transaction): seq<Transaction> {
    var call := DecodeCall(unwrap, tx);
    if call.None? then [tx] else call.value.0
  }

  /** Entries are at least a head longer than their data. */
  lemma {:induction false} EntriesShorter(data: Bytes)
    requires Entries(data).Some?
    ensures forall i :: 0 <= i < |Entries(data).value| ==> |Entries(data).value[i].data| + HEAD <= |data|
    decreases |data|
  {
    if data != [] {
      var front := Front(data).value;
      EntriesShorter(data[HEAD + |front.data|..]);
    }
  }

  /** Every sub-transaction carries less calldata than the batch. */
  lemma SubsShorter(unwrap: Unwrap, tx: Transaction)
    requires DecodeCall(unwrap, tx).Some?
    ensures forall i :: 0 <= i < |DecodeCall(unwrap, tx).value.0| ==>
              |DecodeCall(unwrap, tx).value.0[i].data| < |tx.data|
  {
    EntriesShorter(unwrap(tx.data).value);
  }
}
