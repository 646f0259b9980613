/** The checkpoint list of `bdk_core`, which is not part of this repository. A checkpoint is modelled
    as the ascending list of the blocks it reaches, its tip last.

    Assumed of the library: `insert` keeps the higher blocks when the height is new, drops the block
    at that height and everything above when its hash differs, and panics when nothing lies below. */
module Checkpoints {
  import opened Types

  predicate Ascending(blocks: seq<BlockId>) {
    forall i, j :: 0 <= i < j < |blocks| ==> blocks[i].height < blocks[j].height
  }

  predicate IsCheckPoint(blocks: seq<BlockId>) {
    |blocks| > 0 && Ascending(blocks)
  }

  function Tip(cp: seq<BlockId>): BlockId
    requires IsCheckPoint(cp)
  {
    cp[|cp| - 1]
  }

  predicate HasHeight(blocks: seq<BlockId>, height: u32) {
    exists i :: 0 <= i < |blocks| && blocks[i].height == height
  }

  /** How many blocks lie below a height. */
  function CountBelow(blocks: seq<BlockId>, height: u32): (k: nat)
    requires Ascending(blocks)
    ensures k <= |blocks|
    ensures forall i :: 0 <= i < k ==> blocks[i].height < height
    ensures forall i :: k <= i < |blocks| ==> blocks[i].height >= height
    ensures k < |blocks| && blocks[k].height == height <==> HasHeight(blocks, height)
  {
    if |blocks| == 0 then 0
    else
      var last := |blocks| - 1;
      if blocks[last].height < height then |blocks|
      else if blocks[last].height == height then last
      else CountBelow(blocks[..last], height)
  }

  function Place(cp: seq<BlockId>, k: nat, block: BlockId): (r: seq<BlockId>)
    requires k <= |cp|
    ensures |r| == |cp| + 1 && r[k] == block
    ensures forall i :: 0 <= i < k ==> r[i] == cp[i]
    ensures forall i :: k < i < |r| ==> r[i] == cp[i - 1]
  {
    cp[..k] + [block] + cp[k..]
  }

  lemma PlaceMembers(cp: seq<BlockId>, k: nat, block: BlockId)
    requires k <= |cp|
    ensures forall b :: b in Place(cp, k, block) <==> b in cp || b == block
  {
    var r := Place(cp, k, block);
    forall b | b in cp ensures b in r {
      var i :| 0 <= i < |cp| && cp[i] == b;
      assert i < k ==> r[i] == b;
      assert i >= k ==> r[i + 1] == b;
    }
  }

  /** `CheckPoint::insert`; `None` is the library's panic. */
  function Insert(cp: seq<BlockId>, block: BlockId): (r: Option<seq<BlockId>>)
    requires IsCheckPoint(cp)
    ensures r.None? <==> block.height < cp[0].height || (block.height == cp[0].height && block != cp[0])
    ensures r.Some? ==> IsCheckPoint(r.value) && r.value[0] == cp[0]
  {
    var k := CountBelow(cp, block.height);
    if k < |cp| && cp[k] == block then Some(cp)
    else if k == 0 then None
    else if k < |cp| && cp[k].height == block.height then Some(cp[..k] + [block])
    else Some(Place(cp, k, block))
  }

  /** A new height is added and nothing is lost; above the tip this extends the list. */
  lemma InsertNew(cp: seq<BlockId>, block: BlockId)
    requires IsCheckPoint(cp) && cp[0].height < block.height && !HasHeight(cp, block.height)
    ensures Insert(cp, block).Some?
    ensures forall b :: b in Insert(cp, block).value <==> b in cp || b == block
    ensures block.height < Tip(cp).height ==> Tip(Insert(cp, block).value) == Tip(cp)
    ensures block.height > Tip(cp).height ==> Insert(cp, block).value == cp + [block]
  {
    var k := CountBelow(cp, block.height);
    assert k > 0;
    PlaceMembers(cp, k, block);
  }

  /** Blocks whose heights are known and ascending are determined by their set. */
  lemma {:induction false} SameBlocksSameList(a: seq<BlockId>, b: seq<BlockId>)
    requires Ascending(a) && Ascending(b)
    requires forall x :: x in a <==> x in b
    ensures a == b
    decreases |a|
  {
    if a == [] {
      assert forall i :: 0 <= i < |b| ==> b[i] in a;
    } else {
      var x := a[|a| - 1];
      assert x in b;
      var y := b[|b| - 1];
      assert y in a;
      assert x == y;
      var a', b' := a[..|a| - 1], b[..|b| - 1];
      assert a == a' + [x] && b == b' + [y];
      forall z ensures z in a' <==> z in b' {
        assert z in a' ==> z in a && z != x;
        assert z in b' ==> z in b && z != y;
      }
      SameBlocksSameList(a', b');
    }
  }

  /** The entries of a height map at or above `floor`, in the order a `BTreeMap` yields them. */
  function Entries(m: map<u32, BlockHash>, floor: nat): (blocks: seq<BlockId>)
    ensures Ascending(blocks)
    ensures forall b :: b in blocks <==> b.height in m && m[b.height] == b.hash && b.height >= floor
    decreases U32_LIMIT - floor
  {
    if floor >= U32_LIMIT then []
    else if floor in m then
      var rest := Entries(m, floor + 1);
      var r := [BlockId(floor, m[floor])] + rest;
      assert forall i :: 1 <= i < |r| ==> r[i] == rest[i - 1] && rest[i - 1] in rest;
      r
    else Entries(m, floor + 1)
  }
}
