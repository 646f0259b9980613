/** Merkle inclusion proofs as served by `blockchain.transaction.get_merkle`, checked against the
    Bitcoin tree, which pairs the last node of an odd level with itself. */
module Merkle {
  import opened Types

  type NodeHash = (Digest, Digest) -> Digest

  datatype Proof = Proof(merkle: seq<Digest>, pos: nat)

  // ----- The proof check -----

  function Step(H: NodeHash, cur: Digest, sibling: Digest, index: nat): Digest {
    if index % 2 == 0 then H(cur, sibling) else H(sibling, cur)
  }

  /** The value a branch leads to, starting from `cur` at slot `index` of its level. */
  function Fold(H: NodeHash, cur: Digest, branch: seq<Digest>, index: nat): Digest
    decreases |branch|
  {
    if branch == [] then cur
    else Fold(H, Step(H, cur, branch[0], index), branch[1..], index / 2)
  }

  predicate Accepts(H: NodeHash, txid: Txid, root: Digest, proof: Proof) {
    Fold(H, txid, proof.merkle, proof.pos) == root
  }

  method ValidateMerkleProof(H: NodeHash, txid: Txid, root: Digest, proof: Proof) returns (valid: bool)
    ensures valid <==> Accepts(H, txid, root, proof)
  {
    var index := proof.pos;
    var cur := txid;
    for i := 0 to |proof.merkle|
      invariant Fold(H, cur, proof.merkle[i..], index) == Fold(H, txid, proof.merkle, proof.pos)
    {
      assert proof.merkle[i..][1..] == proof.merkle[i + 1..];
      var hash := proof.merkle[i];
      if index % 2 == 0 {
        cur := H(cur, hash);
      } else {
        cur := H(hash, cur);
      }
      index := index / 2;
    }
    valid := cur == root;
  }

  // ----- The Bitcoin tree -----

  /** Node `i` of a level, where reading one past the end of an odd level repeats its last node. */
  function At(level: seq<Digest>, i: nat): Digest
    requires |level| > 0
  {
    if i < |level| then level[i] else level[|level| - 1]
  }

  function Parents(H: NodeHash, level: seq<Digest>): (up: seq<Digest>)
    requires |level| > 0
    ensures |up| == (|level| + 1) / 2
  {
    seq((|level| + 1) / 2, i requires 0 <= i => H(At(level, 2 * i), At(level, 2 * i + 1)))
  }

  function Root(H: NodeHash, leaves: seq<Digest>): Digest
    requires |leaves| > 0
    decreases |leaves|
  {
    if |leaves| == 1 then leaves[0] else Root(H, Parents(H, leaves))
  }

  function Depth(n: nat): nat
    requires n > 0
  {
    if n == 1 then 0 else 1 + Depth((n + 1) / 2)
  }

  /** The leaf that fills slot `q` of the perfect tree the duplications complete. */
  function Resolve(n: nat, q: nat): (r: nat)
    requires n > 0
    ensures r < n
    decreases n
  {
    if n == 1 then 0
    else
      var c := 2 * Resolve((n + 1) / 2, q / 2) + q % 2;
      if c < n then c else n - 1
  }

  /** The node paired with slot `q` of a level. */
  function Sibling(level: seq<Digest>, q: nat): Digest
    requires |level| > 1
  {
    var parent := Resolve((|level| + 1) / 2, q / 2);
    At(level, if q % 2 == 0 then 2 * parent + 1 else 2 * parent)
  }

  /** The siblings met on the way from slot `q` to the root. */
  function Branch(H: NodeHash, leaves: seq<Digest>, q: nat): (branch: seq<Digest>)
    requires |leaves| > 0
    ensures |branch| == Depth(|leaves|)
    decreases |leaves|
  {
    if |leaves| == 1 then []
    else
      [Sibling(leaves, q)] + Branch(H, Parents(H, leaves), q / 2)
  }

  /** Slots that hold a real leaf hold their own leaf. */
  lemma {:induction false} ResolveReal(n: nat, q: nat)
    requires q < n
    ensures Resolve(n, q) == q
    decreases n
  {
    if n > 1 {
      ResolveReal((n + 1) / 2, q / 2);
    }
  }

  lemma StepReachesParent(H: NodeHash, leaves: seq<Digest>, q: nat)
    requires |leaves| > 1
    ensures var n := |leaves|;
            Step(H, leaves[Resolve(n, q)], Sibling(leaves, q), q)
            == Parents(H, leaves)[Resolve((n + 1) / 2, q / 2)]
  {
    var parent := Resolve((|leaves| + 1) / 2, q / 2);
    assert leaves[Resolve(|leaves|, q)] == At(leaves, 2 * parent + q % 2);
    assert Parents(H, leaves)[parent] == H(At(leaves, 2 * parent), At(leaves, 2 * parent + 1));
  }

  /** Completeness: the branch of any slot, real or duplicated, is accepted for the leaf it holds. */
  lemma {:induction false} BranchAccepted(H: NodeHash, leaves: seq<Digest>, q: nat)
    requires |leaves| > 0
    ensures Fold(H, leaves[Resolve(|leaves|, q)], Branch(H, leaves, q), q) == Root(H, leaves)
    decreases |leaves|
  {
    if |leaves| > 1 {
      var up := Parents(H, leaves);
      StepReachesParent(H, leaves, q);
      BranchAccepted(H, up, q / 2);
      var branch := Branch(H, leaves, q);
      assert branch[1..] == Branch(H, up, q / 2);
    }
  }

  /** Completeness for the position an honest server reports. */
  lemma HonestProofAccepted(H: NodeHash, txids: seq<Txid>, pos: nat)
    requires pos < |txids|
    ensures Accepts(H, txids[pos], Root(H, txids), Proof(Branch(H, txids, pos), pos))
  {
    ResolveReal(|txids|, pos);
    BranchAccepted(H, txids, pos);
  }

  // ----- Binding -----

  lemma HalfMod(a: nat, m: nat)
    requires m > 0
    ensures (a % (2 * m)) / 2 == (a / 2) % m
    ensures (a % (2 * m)) % 2 == a % 2
  {
    var q := a / (2 * m);
    var r := a % (2 * m);
    assert a == 2 * (q * m) + r;
    assert a / 2 == q * m + r / 2;
    assert a % 2 == r % 2;
    assert 0 <= r / 2 < m;
    assert (q * m + r / 2) % m == r / 2 by { ModUnique(q * m + r / 2, m, q, r / 2); }
  }

  lemma ModUnique(a: nat, m: nat, q: nat, r: nat)
    requires m > 0 && a == q * m + r && r < m
    ensures a % m == r
  {
    var q', r' := a / m, a % m;
    assert a == q' * m + r';
    assert q' < q ==> (q' + 1) * m <= q * m;
    assert q < q' ==> (q + 1) * m <= q' * m;
  }

  /** Only the low bits of the position, one per branch element, take part in the check. */
  lemma {:induction false} OnlyLowBitsMatter(H: NodeHash, cur: Digest, branch: seq<Digest>, p: nat)
    ensures Fold(H, cur, branch, p) == Fold(H, cur, branch, p % Pow2(|branch|))
    decreases |branch|
  {
    if branch != [] {
      var m := Pow2(|branch| - 1);
      HalfMod(p, m);
      OnlyLowBitsMatter(H, Step(H, cur, branch[0], p), branch[1..], p / 2);
    }
  }

  /** Two different pairs of nodes with the same parent. */
  datatype Collision = Collision(left: (Digest, Digest), right: (Digest, Digest)) {
    predicate Holds(H: NodeHash) {
      left != right && H(left.0, left.1) == H(right.0, right.1)
    }
  }

  function Ordered(cur: Digest, sibling: Digest, index: nat): (Digest, Digest) {
    if index % 2 == 0 then (cur, sibling) else (sibling, cur)
  }

  /** Two different proofs for one slot that reach the same root give away a collision. */
  function FindCollision(H: NodeHash, a: Digest, bs: seq<Digest>, c: Digest, ds: seq<Digest>, index: nat)
    : (found: Option<Collision>)
    requires |bs| == |ds|
    ensures Fold(H, a, bs, index) == Fold(H, c, ds, index) && (a != c || bs != ds)
            ==> found.Some? && found.value.Holds(H)
    decreases |bs|
  {
    if bs == [] then None
    else
      var left, right := Ordered(a, bs[0], index), Ordered(c, ds[0], index);
      if left != right && H(left.0, left.1) == H(right.0, right.1) then
        Some(Collision(left, right))
      else
        assert bs == [bs[0]] + bs[1..] && ds == [ds[0]] + ds[1..];
        FindCollision(H, Step(H, a, bs[0], index), bs[1..], Step(H, c, ds[0], index), ds[1..], index / 2)
  }

  /** Binding: two accepted proofs for one root, equally long and for one slot, are the same proof
      for the same txid, or they exhibit a collision. */
  lemma Binding(H: NodeHash, root: Digest, t1: Txid, p1: Proof, t2: Txid, p2: Proof)
    requires |p1.merkle| == |p2.merkle|
    requires p1.pos % Pow2(|p1.merkle|) == p2.pos % Pow2(|p2.merkle|)
    requires Accepts(H, t1, root, p1) && Accepts(H, t2, root, p2)
    ensures (t1 == t2 && p1.merkle == p2.merkle)
            || (var slot := p1.pos % Pow2(|p1.merkle|);
                var found := FindCollision(H, t1, p1.merkle, t2, p2.merkle, slot);
                found.Some? && found.value.Holds(H))
  {
    OnlyLowBitsMatter(H, t1, p1.merkle, p1.pos);
    OnlyLowBitsMatter(H, t2, p2.merkle, p2.pos);
  }

  /** The value and the branch are those of the proof's slot in this level. */
  predicate IsNodeOf(H: NodeHash, level: seq<Digest>, value: Digest, proof: Proof)
    requires |level| > 0
  {
    var slot := proof.pos % Pow2(|proof.merkle|);
    value == level[Resolve(|level|, slot)] && proof.merkle == Branch(H, level, slot)
  }

  /** The value and the branch collide with those of the proof's slot in this level. */
  predicate CollidesWith(H: NodeHash, level: seq<Digest>, value: Digest, proof: Proof)
    requires |level| > 0 && |proof.merkle| == Depth(|level|)
  {
    var slot := proof.pos % Pow2(|proof.merkle|);
    var found := FindCollision(H, value, proof.merkle, level[Resolve(|level|, slot)], Branch(H, level, slot), slot);
    found.Some? && found.value.Holds(H)
  }

  predicate NodeOrCollision(H: NodeHash, level: seq<Digest>, value: Digest, proof: Proof)
    requires |level| > 0 && |proof.merkle| == Depth(|level|)
  {
    IsNodeOf(H, level, value, proof) || CollidesWith(H, level, value, proof)
  }

  /** Soundness: with a branch as long as the tree is deep, what is accepted is the leaf of its slot
      with that slot's branch, or a collision; and that leaf with that branch is accepted. */
  lemma AcceptedIsLeaf(H: NodeHash, leaves: seq<Digest>, root: Digest, txid: Txid, proof: Proof)
    requires |leaves| > 0 && root == Root(H, leaves) && |proof.merkle| == Depth(|leaves|)
    ensures IsNodeOf(H, leaves, txid, proof) ==> Accepts(H, txid, root, proof)
    ensures Accepts(H, txid, root, proof) ==> NodeOrCollision(H, leaves, txid, proof)
  {
    var slot := proof.pos % Pow2(|proof.merkle|);
    OnlyLowBitsMatter(H, txid, proof.merkle, proof.pos);
    BranchAccepted(H, leaves, slot);
  }

  /** The nodes `k` levels above the leaves. */
  function LevelAbove(H: NodeHash, leaves: seq<Digest>, k: nat): (level: seq<Digest>)
    requires |leaves| > 0 && k <= Depth(|leaves|)
    ensures |level| > 0 && Depth(|level|) == Depth(|leaves|) - k
    ensures Root(H, level) == Root(H, leaves)
    decreases k
  {
    if k == 0 then leaves else LevelAbove(H, Parents(H, leaves), k - 1)
  }

  /** A shorter branch speaks about an inner level: the check does not compare the branch length
      with the depth of the block, so the length fixes which level the accepted value belongs to. */
  lemma ShorterBranchIsInnerNode(H: NodeHash, leaves: seq<Digest>, root: Digest, node: Digest, proof: Proof,
                                 level: seq<Digest>, k: nat)
    requires |leaves| > 0 && root == Root(H, leaves) && |proof.merkle| + k == Depth(|leaves|)
    requires level == LevelAbove(H, leaves, k)
    ensures IsNodeOf(H, level, node, proof) ==> Accepts(H, node, root, proof)
    ensures Accepts(H, node, root, proof) ==> NodeOrCollision(H, level, node, proof)
  {
    AcceptedIsLeaf(H, level, root, node, proof);
  }

  /** A position without its `j` low bits. */
  function Shifted(pos: nat, j: nat): nat {
    if j == 0 then pos else Shifted(pos / 2, j - 1)
  }

  /** A branch can be folded in two goes. */
  lemma {:induction false} FoldSplit(H: NodeHash, cur: Digest, branch: seq<Digest>, pos: nat, j: nat)
    requires j <= |branch|
    ensures Fold(H, cur, branch, pos) == Fold(H, Fold(H, cur, branch[..j], pos), branch[j..], Shifted(pos, j))
    decreases j
  {
    if j == 0 {
      assert branch[0..] == branch;
    } else {
      FoldSplit(H, Step(H, cur, branch[0], pos), branch[1..], pos / 2, j - 1);
      assert branch[..j][1..] == branch[1..][..j - 1] && branch[1..][j - 1..] == branch[j..];
    }
  }

  /** A longer branch speaks about what lies below the leaves: its first `j` elements lead from the value
      to some `bottom`, as when a pair of nodes is passed off as a transaction. It is accepted if that is
      the leaf of the slot that the other position bits name, and the rest is that leaf's branch; and only
      then, or with a collision. */
  lemma LongerBranchEndsInLeaf(H: NodeHash, leaves: seq<Digest>, root: Digest, value: Digest, proof: Proof,
                               j: nat, bottom: Digest, rest: Proof)
    requires |leaves| > 0 && root == Root(H, leaves) && |proof.merkle| == Depth(|leaves|) + j
    requires bottom == Fold(H, value, proof.merkle[..j], proof.pos)
    requires rest == Proof(proof.merkle[j..], Shifted(proof.pos, j))
    ensures IsNodeOf(H, leaves, bottom, rest) ==> Accepts(H, value, root, proof)
    ensures Accepts(H, value, root, proof) ==> NodeOrCollision(H, leaves, bottom, rest)
  {
    FoldSplit(H, value, proof.merkle, proof.pos, j);
    AcceptedIsLeaf(H, leaves, root, bottom, rest);
  }
}
