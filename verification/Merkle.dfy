/**
 Sorted-pair Merkle trees (crates/validator/src/merkle.rs) over free digests: a digest is a
 word or the hash of two digests, so no property of the hash function is assumed. The order on
 digests only serves to make hashing commutative.
 */
module Merkle {
  datatype Digest = Word(value: nat) | Keccak(left: Digest, right: Digest)

  const ZERO: Digest := Word(0)

  // ---------------------------------------------------------------- pairs

  predicate LessEq(a: Digest, b: Digest) {
    match (a, b)
    case (Word(x), Word(y)) => x <= y
    case (Word(_), Keccak(_, _)) => true
    case (Keccak(_, _), Word(_)) => false
    case (Keccak(l, r), Keccak(l', r')) => if l == l' then LessEq(r, r') else LessEq(l, l')
  }

  /** Hashes two digests, the smaller first. */
  function HashPair(a: Digest, b: Digest): Digest {
    if LessEq(a, b) then Keccak(a, b) else Keccak(b, a)
  }

  lemma {:induction false} Total(a: Digest, b: Digest)
    ensures LessEq(a, b) || LessEq(b, a)
    ensures LessEq(a, b) && LessEq(b, a) ==> a == b
  {
    if a.Keccak? && b.Keccak? {
      Total(a.left, b.left);
      Total(a.right, b.right);
    }
  }

  lemma PairCommutes(a: Digest, b: Digest)
    ensures HashPair(a, b) == HashPair(b, a)
  {
    Total(a, b);
  }

  /** A pair is hashed in ascending order. */
  lemma PairAscends(a: Digest, b: Digest)
    ensures var pair := HashPair(a, b);
            && pair.Keccak? && LessEq(pair.left, pair.right)
            && ((pair.left == a && pair.right == b) || (pair.left == b && pair.right == a))
  {
    Total(a, b);
  }

  /** Free hashing: a pair's hash tells the pair, up to order. */
  lemma PairInjective(a: Digest, b: Digest, x: Digest, y: Digest)
    requires HashPair(a, b) == HashPair(x, y)
    ensures a == x || a == y
  {
  }

  lemma PairIsNotZero(a: Digest, b: Digest)
    ensures HashPair(a, b) != ZERO
  {
  }

  // ---------------------------------------------------------------- levels

  type Level = seq<Digest>

  function At(level: Level, i: nat): Digest {
    if i < |level| then level[i] else ZERO
  }

  function NextLevel(level: Level): Level {
    seq((|level| + 1) / 2, i requires 0 <= i => HashPair(At(level, 2 * i), At(level, 2 * i + 1)))
  }

  function Levels(leaves: Level): (levels: seq<Level>)
    ensures levels != [] && levels[0] == leaves
    decreases |leaves|
  {
    if |leaves| <= 1 then [leaves] else [leaves] + Levels(NextLevel(leaves))
  }

  function RootOf(levels: seq<Level>): Digest
    requires levels != []
  {
    At(levels[|levels| - 1], 0)
  }

  /** `index ^ 1`. */
  function Sibling(index: nat): nat {
    if index % 2 == 0 then index + 1 else index - 1
  }

  function ProofOf(levels: seq<Level>, index: nat): seq<Digest>
    decreases |levels|
  {
    if |levels| <= 1 then [] else [At(levels[0], Sibling(index))] + ProofOf(levels[1..], index / 2)
  }

  /** The root a proof leads to. */
  function Climb(leaf: Digest, proof: seq<Digest>): Digest
    decreases |proof|
  {
    if proof == [] then leaf else Climb(HashPair(leaf, proof[0]), proof[1..])
  }

  // ---------------------------------------------------------------- the class

  method PairUp(level: Level) returns (next: Level)
    ensures next == NextLevel(level)
  {
    next := [];
    for i := 0 to (|level| + 1) / 2
      invariant next == NextLevel(level)[..i]
    {
      var a := if 2 * i < |level| then level[2 * i] else ZERO;
      var b := if 2 * i + 1 < |level| then level[2 * i + 1] else ZERO;
      next := next + [HashPair(a, b)];
    }
  }

  class MerkleTree {
    var levels: seq<Level>

    constructor Build(leaves: Level)
      ensures levels == Levels(leaves)
    {
      var tree := [leaves];
      while |tree[|tree| - 1]| > 1
        invariant tree != [] && tree[..|tree| - 1] + Levels(tree[|tree| - 1]) == Levels(leaves)
        decreases |tree[|tree| - 1]|
      {
        var level := tree[|tree| - 1];
        var next := PairUp(level);
        assert tree[..|tree| - 1] + ([level] + Levels(next)) == (tree[..|tree| - 1] + [level]) + Levels(next);
        assert tree[..|tree| - 1] + [level] == tree;
        tree := tree + [next];
      }
      levels := tree;
      assert tree[..|tree| - 1] + [tree[|tree| - 1]] == tree;
    }

    method Height() returns (height: nat)
      ensures height == |levels|
    {
      height := |levels|;
    }

    method Root() returns (root: Digest)
      requires levels != []
      ensures root == RootOf(levels)
    {
      var top := levels[|levels| - 1];
      root := if top == [] then ZERO else top[0];
    }

    /** The sibling hashes from the leaf up to, but excluding, the root. */
    method Proof(index: nat) returns (proof: seq<Digest>)
      ensures proof == ProofOf(levels, index)
    {
      var len := if |levels| == 0 then 0 else |levels| - 1;
      var current := index;
      proof := [];
      assert levels[0..] == levels;
      for i := 0 to len
        invariant proof + ProofOf(levels[i..], current) == ProofOf(levels, index)
      {
        var sibling := Sibling(current);
        var level := levels[i];
        var hash := if sibling < |level| then level[sibling] else ZERO;
        assert levels[i..][1..] == levels[i + 1..];
        assert proof + ([hash] + ProofOf(levels[i + 1..], current / 2))
            == (proof + [hash]) + ProofOf(levels[i + 1..], current / 2);
        proof := proof + [hash];
        current := current / 2;
      }
    }
  }

  /** `MerkleRoot::verify`. */
  method Verify(root: Digest, leaf: Digest, proof: seq<Digest>) returns (ok: bool)
    ensures ok <==> Climb(leaf, proof) == root
  {
    var node := leaf;
    assert proof[0..] == proof;
    for i := 0 to |proof|
      invariant Climb(node, proof[i..]) == Climb(leaf, proof)
    {
      assert proof[i..][1..] == proof[i + 1..];
      node := HashPair(node, proof[i]);
    }
    ok := root == node;
  }

  // ---------------------------------------------------------------- proofs

  /** The nodes a proof can start from: the leaves, and the zero that pads an odd level. */
  function Padded(leaves: Level): Level {
    if leaves == [] || (|leaves| > 1 && |leaves| % 2 == 1) then leaves + [ZERO] else leaves
  }

  /** A node and its sibling hash to their parent. */
  lemma ParentOf(level: Level, index: nat)
    requires |level| > 1 && index < |Padded(level)|
    ensures index / 2 < |NextLevel(level)|
    ensures NextLevel(level)[index / 2] == HashPair(Padded(level)[index], At(level, Sibling(index)))
    ensures |NextLevel(level)| < |level|
  {
    assert Padded(level)[index] == At(level, index);
    PairCommutes(At(level, index), At(level, Sibling(index)));
  }

  lemma ProofSteps(leaves: Level, index: nat)
    requires |leaves| > 1
    ensures Levels(leaves)[1..] == Levels(NextLevel(leaves))
    ensures RootOf(Levels(leaves)) == RootOf(Levels(NextLevel(leaves)))
    ensures var proof := ProofOf(Levels(leaves), index);
            && proof != [] && proof[0] == At(leaves, Sibling(index))
            && proof[1..] == ProofOf(Levels(NextLevel(leaves)), index / 2)
  {
  }

  /** A generated proof is one shorter than the tree is high, and verifies its leaf. */
  lemma {:induction false} ProofVerifies(leaves: Level, index: nat)
    requires index < |Padded(leaves)|
    ensures var levels := Levels(leaves);
            var proof := ProofOf(levels, index);
            |proof| == |levels| - 1 && Climb(Padded(leaves)[index], proof) == RootOf(levels)
    decreases |leaves|
  {
    if |leaves| > 1 {
      var next := NextLevel(leaves);
      ParentOf(leaves, index);
      ProofSteps(leaves, index);
      ProofVerifies(next, index / 2);
      assert Padded(next)[index / 2] == next[index / 2];
    }
  }

  /** Every leaf's proof verifies. */
  lemma LeafVerifies(leaves: Level, index: nat)
    requires index < |leaves|
    ensures var proof := ProofOf(Levels(leaves), index);
            |proof| == |Levels(leaves)| - 1 && Climb(leaves[index], proof) == RootOf(Levels(leaves))
  {
    ProofVerifies(leaves, index);
  }

  lemma {:induction false} PaddedMembers(level: Level)
    ensures forall x :: x in Padded(level) ==> x in level || x == ZERO
    ensures forall x :: x in level ==> x in Padded(level)
    ensures forall i: nat :: |level| > 1 && i < 2 * |NextLevel(level)| ==> At(level, i) in Padded(level)
  {
    forall i: nat | |level| > 1 && i < 2 * |NextLevel(level)| ensures At(level, i) in Padded(level) {
      if i == |level| { assert Padded(level)[i] == ZERO; } else { assert level[i] in level; }
    }
  }

  /** What hashes to a node of the next level is a node of this one, or its padding. */
  lemma ChildOf(level: Level, node: Digest, sibling: Digest)
    requires |level| > 1 && HashPair(node, sibling) in Padded(NextLevel(level))
    ensures node in Padded(level)
  {
    var next := NextLevel(level);
    PaddedMembers(next);
    PaddedMembers(level);
    PairIsNotZero(node, sibling);
    var i :| 0 <= i < |next| && next[i] == HashPair(node, sibling);
    PairInjective(node, sibling, At(level, 2 * i), At(level, 2 * i + 1));
    assert At(level, 2 * i) in Padded(level) && At(level, 2 * i + 1) in Padded(level);
  }

  /** Only a leaf or the padding zero has a proof of the tree's own length. */
  lemma {:induction false} OnlyLeavesVerify(leaves: Level, leaf: Digest, proof: seq<Digest>)
    requires |proof| == |Levels(leaves)| - 1
    requires Climb(leaf, proof) == RootOf(Levels(leaves))
    ensures leaf in Padded(leaves)
    decreases |leaves|
  {
    if |leaves| > 1 {
      ProofSteps(leaves, 0);
      OnlyLeavesVerify(NextLevel(leaves), HashPair(leaf, proof[0]), proof[1..]);
      ChildOf(leaves, leaf, proof[0]);
    }
  }

  /** A value has a verifying proof of the tree's own length exactly when it is a leaf, or the
      zero with which the leaves are padded. */
  lemma VerifiesIffIncluded(leaves: Level, leaf: Digest)
    ensures (exists proof :: |proof| == |Levels(leaves)| - 1 && Climb(leaf, proof) == RootOf(Levels(leaves)))
            <==> leaf in Padded(leaves)
  {
    if leaf in Padded(leaves) {
      var index :| 0 <= index < |Padded(leaves)| && Padded(leaves)[index] == leaf;
      ProofVerifies(leaves, index);
      assert Climb(leaf, ProofOf(Levels(leaves), index)) == RootOf(Levels(leaves));
    }
    forall proof | |proof| == |Levels(leaves)| - 1 && Climb(leaf, proof) == RootOf(Levels(leaves))
      ensures leaf in Padded(leaves)
    {
      OnlyLeavesVerify(leaves, leaf, proof);
    }
  }

  function Pow2(n: nat): nat { if n == 0 then 1 else 2 * Pow2(n - 1) }

  /** The tree is as low as its leaves allow. */
  lemma {:induction false} HeightIsLogarithmic(leaves: Level)
    requires leaves != []
    ensures var h := |Levels(leaves)|;
            |leaves| <= Pow2(h - 1) && (h > 1 ==> Pow2(h - 2) < |leaves|)
    decreases |leaves|
  {
    if |leaves| > 1 {
      HeightIsLogarithmic(NextLevel(leaves));
      assert Levels(leaves)[1..] == Levels(NextLevel(leaves));
    }
  }
}
