/** Finding where the local checkpoint chain and the server's chain agree, rebuilding above that
    point, and splicing in the blocks of new anchors. */
module Reconcile {
  import opened Types
  import opened Checkpoints
  import opened Server

  const CHAIN_SUFFIX_LENGTH: nat := 8

  type Blocks = map<u32, BlockHash>

  /** Hashes of consecutive headers, keyed by height. */
  function ByHeight(hashing: Hashing, start: u32, headers: seq<Header>): (blocks: Blocks)
    ensures forall h :: h in blocks <==> start <= h < start + |headers| && h < U32_LIMIT
    ensures forall h :: h in blocks ==> blocks[h] == hashing.BlockHash(headers[h - start])
    decreases |headers|
  {
    if headers == [] then map[]
    else
      var last := |headers| - 1;
      var below := ByHeight(hashing, start, headers[..last]);
      if start + last < U32_LIMIT then below[start + last := hashing.BlockHash(headers[last])] else below
  }

  /** One round of the closing fold: `insert` into the list so far, or a new list when there is none. */
  function Extend(cp: seq<BlockId>, block: BlockId): (r: seq<BlockId>)
    requires Ascending(cp) && forall i :: 0 <= i < |cp| ==> cp[i].height < block.height
    ensures r == cp + [block]
  {
    if cp == [] then [block]
    else
      InsertNew(cp, block);
      Insert(cp, block).value
  }

  /** The closing fold; the empty list stands for "no checkpoint yet". */
  function Rebuild(cp: seq<BlockId>, blocks: seq<BlockId>): (r: seq<BlockId>)
    requires Ascending(cp + blocks)
    ensures r == cp + blocks
    decreases |blocks|
  {
    if blocks == [] then cp
    else
      assert forall i :: 0 <= i < |cp| ==> (cp + blocks)[i] == cp[i];
      assert blocks[0] == (cp + blocks)[|cp|];
      assert (cp + [blocks[0]]) + blocks[1..] == cp + blocks;
      Rebuild(Extend(cp, blocks[0]), blocks[1..])
  }

  function Floor(agreed: seq<BlockId>): nat {
    if agreed == [] then 0 else agreed[|agreed| - 1].height + 1
  }

  lemma KeptThenAbove(prev: seq<BlockId>, k: nat, latest: Blocks)
    requires IsCheckPoint(prev) && k <= |prev|
    ensures Ascending(prev[..k] + Entries(latest, Floor(prev[..k])))
  {
    var above := Entries(latest, Floor(prev[..k]));
    var r := prev[..k] + above;
    forall i, j | 0 <= i < j < |r| ensures r[i].height < r[j].height {
      if j >= k {
        assert r[j] == above[j - k] && above[j - k] in above;
      }
    }
  }

  /** The first `k` old checkpoints are kept, the last of them agrees with the server and none above
      does; the blocks known above it follow. With `k == 0` nothing agrees. */
  ghost predicate Reconciled(prev: seq<BlockId>, latest: Blocks, k: nat, result: seq<BlockId>)
    requires IsCheckPoint(prev)
  {
    && k <= |prev|
    && (k > 0 ==> Matches(latest, prev[k - 1]))
    && (forall j :: k <= j < |prev| ==> Conflicts(latest, prev[j]))
    && result == prev[..k] + Entries(latest, Floor(prev[..k]))
  }

  predicate Matches(latest: Blocks, b: BlockId) {
    b.height in latest && latest[b.height] == b.hash
  }

  predicate Conflicts(latest: Blocks, b: BlockId) {
    b.height in latest && latest[b.height] != b.hash
  }

  ghost predicate Answered(hashing: Hashing, server: Server, h: u32, hash: BlockHash) {
    exists t: nat :: server.HeaderAt(t, h).Some? && hashing.BlockHash(server.HeaderAt(t, h).value) == hash
  }

  /** The blocks come from the server: the recent headers it sent, and single headers asked of it. */
  ghost predicate FromServer(hashing: Hashing, server: Server, prev: seq<BlockId>, suffix: Blocks, latest: Blocks) {
    && suffix.Keys <= latest.Keys
    && (forall h :: h in suffix ==> latest[h] == suffix[h])
    && (forall h :: h in latest && h !in suffix ==>
          HasHeight(prev, h) && Answered(hashing, server, h, latest[h]))
  }

  /** The header range asked for: up to eight blocks ending at the tip. */
  function SuffixStart(newTip: u32): u32 {
    if newTip < CHAIN_SUFFIX_LENGTH - 1 then 0 else newTip - (CHAIN_SUFFIX_LENGTH - 1)
  }

  ghost predicate SentSuffix(hashing: Hashing, server: Server, newTip: u32, suffix: Blocks) {
    exists t: nat :: server.HeadersAt(t, SuffixStart(newTip), CHAIN_SUFFIX_LENGTH).Some? &&
      suffix == ByHeight(hashing, SuffixStart(newTip),
                         server.HeadersAt(t, SuffixStart(newTip), CHAIN_SUFFIX_LENGTH).value)
  }

  /** A request this procedure makes went unanswered, from request number `since` on. */
  ghost predicate SomeRequestFailed(server: Server, since: nat, prevTip: seq<BlockId>) {
    || (exists t: nat :: t >= since && server.Tip(t).None?)
    || (exists t: nat, start: u32 :: t >= since && server.HeadersAt(t, start, CHAIN_SUFFIX_LENGTH).None?)
    || (exists t: nat, i: nat :: t >= since && i < |prevTip| && server.HeaderAt(t, prevTip[i].height).None?)
  }

  /** The search from the tip down, asking for headers that are not known yet. `k` counts the
      checkpoints up to and including the agreeing one. */
  method FindAgreement(hashing: Hashing, client: ElectrumClient, prevTip: seq<BlockId>, suffix: Blocks)
    returns (r: Option<Blocks>, k: nat)
    requires IsCheckPoint(prevTip)
    modifies client
    ensures client.now >= old(client.now)
    ensures r.None? ==> SomeRequestFailed(client.server, old(client.now), prevTip)
    ensures r.Some? ==>
              && k <= |prevTip|
              && (k > 0 ==> Matches(r.value, prevTip[k - 1]))
              && (forall j :: k <= j < |prevTip| ==> Conflicts(r.value, prevTip[j]))
              && FromServer(hashing, client.server, prevTip, suffix, r.value)
  {
    var latestBlocks: Blocks := suffix;
    k := |prevTip|;
    while k > 0
      invariant k <= |prevTip|
      invariant forall j :: k <= j < |prevTip| ==> Conflicts(latestBlocks, prevTip[j])
      invariant FromServer(hashing, client.server, prevTip, suffix, latestBlocks)
      invariant client.now >= old(client.now)
    {
      var blockId := prevTip[k - 1];
      var hash: BlockHash;
      if blockId.height in latestBlocks {
        hash := latestBlocks[blockId.height];
      } else {
        var header := client.BlockHeader(blockId.height);
        if header.None? {
          return None, k;
        }
        hash := hashing.BlockHash(header.value);
        assert Answered(hashing, client.server, blockId.height, hash);
        latestBlocks := latestBlocks[blockId.height := hash];
      }
      if hash == blockId.hash {
        return Some(latestBlocks), k;
      }
      k := k - 1;
    }
    return Some(latestBlocks), k;
  }

  method FetchTipAndLatestBlocks(hashing: Hashing, client: ElectrumClient, prevTip: seq<BlockId>)
    returns (r: Option<(seq<BlockId>, Blocks)>, ghost newTip: u32, ghost suffix: Blocks, ghost k: nat)
    requires IsCheckPoint(prevTip)
    modifies client
    ensures client.now >= old(client.now)
    ensures r.None? ==> SomeRequestFailed(client.server, old(client.now), prevTip)
    ensures r.Some? ==> client.server.Tip(old(client.now)) == Some(newTip)
    ensures r.Some? && newTip < Tip(prevTip).height ==> r.value == (prevTip, map[])
    ensures r.Some? && newTip >= Tip(prevTip).height ==>
              && Reconciled(prevTip, r.value.1, k, r.value.0)
              && FromServer(hashing, client.server, prevTip, suffix, r.value.1)
              && SentSuffix(hashing, client.server, newTip, suffix)
  {
    newTip, suffix, k := 0, map[], 0;
    var newTipHeight := client.GetTip();
    if newTipHeight.None? {
      return None, newTip, suffix, k;
    }
    newTip := newTipHeight.value;
    if newTipHeight.value < Tip(prevTip).height {
      return Some((prevTip, map[])), newTip, suffix, k;
    }

    var start := SuffixStart(newTipHeight.value);
    var headers := client.BlockHeaders(start, CHAIN_SUFFIX_LENGTH);
    if headers.None? {
      return None, newTip, suffix, k;
    }
    var recent := ByHeight(hashing, start, headers.value);
    suffix := recent;

    var found, agreed := FindAgreement(hashing, client, prevTip, recent);
    if found.None? {
      return None, newTip, suffix, k;
    }
    k := agreed;
    var latestBlocks := found.value;
    var agreement := prevTip[..agreed];
    KeptThenAbove(prevTip, agreed, latestBlocks);
    var rebuilt := Rebuild(agreement, Entries(latestBlocks, Floor(agreement)));
    if agreed == 0 {
      // Every checkpoint conflicts, so at least one block is known: the default is never used.
      assert BlockId(prevTip[0].height, latestBlocks[prevTip[0].height]) in rebuilt;
    }
    assert rebuilt != [];
    r := Some((if rebuilt == [] then prevTip else rebuilt, latestBlocks));
  }

  // ----- What reconciliation guarantees -----

  lemma ReconciledMembers(prev: seq<BlockId>, latest: Blocks, k: nat, result: seq<BlockId>)
    requires IsCheckPoint(prev) && Reconciled(prev, latest, k, result)
    ensures forall b :: b in result <==> b in prev[..k] || (Matches(latest, b) && Floor(prev[..k]) <= b.height)
  {
    var above := Entries(latest, Floor(prev[..k]));
    assert forall b :: b in result <==> b in prev[..k] || b in above;
  }

  lemma OldBlockOverruled(prev: seq<BlockId>, latest: Blocks, k: nat, result: seq<BlockId>, j: nat)
    requires IsCheckPoint(prev) && Reconciled(prev, latest, k, result) && k <= j < |prev|
    ensures prev[j] !in result && HasHeight(result, prev[j].height)
  {
    ReconciledMembers(prev, latest, k, result);
    assert Floor(prev[..k]) <= prev[j].height;
    var b := BlockId(prev[j].height, latest[prev[j].height]);
    assert b in result;
    assert Conflicts(latest, prev[j]);
  }

  /** The result is a well-formed list that keeps everything up to the agreement, holds only known
      server blocks above it, and overrules every old checkpoint above it at that checkpoint's height. */
  lemma ReconciledShape(prev: seq<BlockId>, latest: Blocks, k: nat, result: seq<BlockId>)
    requires IsCheckPoint(prev) && Reconciled(prev, latest, k, result)
    ensures IsCheckPoint(result)
    ensures prev[..k] <= result
    ensures forall i :: k <= i < |result| ==> Matches(latest, result[i])
    ensures forall b :: Matches(latest, b) && Floor(prev[..k]) <= b.height ==> b in result
    ensures forall j :: k <= j < |prev| ==> prev[j] !in result && HasHeight(result, prev[j].height)
  {
    ReconciledMembers(prev, latest, k, result);
    KeptThenAbove(prev, k, latest);
    forall i | k <= i < |result| ensures Matches(latest, result[i]) {
      var above := Entries(latest, Floor(prev[..k]));
      assert result[i] == above[i - k] && above[i - k] in above;
    }
    forall j | k <= j < |prev| ensures prev[j] !in result && HasHeight(result, prev[j].height) {
      OldBlockOverruled(prev, latest, k, result, j);
    }
    assert k == 0 ==> HasHeight(result, prev[0].height);
  }

  /** The base of the list never moves up. */
  lemma BaseNotRaised(prev: seq<BlockId>, latest: Blocks, k: nat, result: seq<BlockId>)
    requires IsCheckPoint(prev) && Reconciled(prev, latest, k, result)
    ensures IsCheckPoint(result) && result[0].height <= prev[0].height
  {
    ReconciledShape(prev, latest, k, result);
    if k > 0 {
      assert prev[..k][0] == result[0];
    } else {
      var i :| 0 <= i < |result| && result[i].height == prev[0].height;
    }
  }

  lemma LargestIsTip(cp: seq<BlockId>, b: BlockId)
    requires IsCheckPoint(cp) && b in cp && forall i :: 0 <= i < |cp| ==> cp[i].height <= b.height
    ensures Tip(cp) == b
  {
    var i :| 0 <= i < |cp| && cp[i] == b;
    assert cp[|cp| - 1].height <= cp[i].height;
  }

  lemma KnownHeightsBounded(hashing: Hashing, server: Server, prev: seq<BlockId>, newTip: u32,
                            suffix: Blocks, latest: Blocks, h: u32)
    requires IsCheckPoint(prev) && Tip(prev).height <= newTip
    requires forall s :: s in suffix ==> s <= newTip
    requires FromServer(hashing, server, prev, suffix, latest) && h in latest
    ensures h <= newTip
  {
    if h !in suffix {
      var i :| 0 <= i < |prev| && prev[i].height == h;
      assert prev[i].height <= Tip(prev).height;
    }
  }

  /** With a full header range the new tip is the server's tip. */
  lemma ReconciledTip(hashing: Hashing, server: Server, prev: seq<BlockId>, newTip: u32, headers: seq<Header>,
                      latest: Blocks, k: nat, result: seq<BlockId>)
    requires IsCheckPoint(prev) && Tip(prev).height <= newTip
    requires Reconciled(prev, latest, k, result)
    requires |headers| == newTip - SuffixStart(newTip) + 1
    requires FromServer(hashing, server, prev, ByHeight(hashing, SuffixStart(newTip), headers), latest)
    ensures IsCheckPoint(result)
    ensures Tip(result) == BlockId(newTip, hashing.BlockHash(headers[|headers| - 1]))
  {
    ReconciledShape(prev, latest, k, result);
    var suffix := ByHeight(hashing, SuffixStart(newTip), headers);
    var top := BlockId(newTip, hashing.BlockHash(headers[|headers| - 1]));
    assert newTip in suffix;
    assert Matches(latest, top);
    if Floor(prev[..k]) > newTip {
      assert prev[k - 1] == result[k - 1];
      assert prev[k - 1].height == newTip;
    }
    assert top in result;
    forall i | 0 <= i < |result| ensures result[i].height <= newTip {
      if i < k {
        assert result[i] == prev[i] && prev[i].height <= Tip(prev).height;
      } else {
        KnownHeightsBounded(hashing, server, prev, newTip, suffix, latest, result[i].height);
      }
    }
    LargestIsTip(result, top);
  }

  // ----- One chain below the agreement -----

  /** Each header names the hash of the one before it. */
  ghost predicate Linked(hashing: Hashing, chain: u32 -> Header, top: u32) {
    forall h: u32 :: 0 < h <= top ==> chain(h).prevBlockHash == hashing.BlockHash(chain(h - 1))
  }

  predicate HeaderCollision(hashing: Hashing, pair: (Header, Header)) {
    pair.0 != pair.1 && hashing.BlockHash(pair.0) == hashing.BlockHash(pair.1)
  }

  /** Walks down from a height where two linked chains have the same hash: either the headers are the
      same, and so are the hashes one below, or they collide. */
  function FindHeaderCollision(hashing: Hashing, a: u32 -> Header, b: u32 -> Header, top: u32, h: u32)
    : (found: Option<(Header, Header)>)
    requires h <= top
    ensures Linked(hashing, a, top) && Linked(hashing, b, top)
            && hashing.BlockHash(a(top)) == hashing.BlockHash(b(top))
            && hashing.BlockHash(a(h)) != hashing.BlockHash(b(h))
            ==> found.Some? && HeaderCollision(hashing, found.value)
    decreases top
  {
    if a(top) != b(top) then Some((a(top), b(top)))
    else if h < top then FindHeaderCollision(hashing, a, b, top - 1, h)
    else None
  }

  ghost predicate OnChain(hashing: Hashing, chain: u32 -> Header, blocks: seq<BlockId>) {
    forall i :: 0 <= i < |blocks| ==> blocks[i].hash == hashing.BlockHash(chain(blocks[i].height))
  }

  /** Whatever header the server sends, alone or in the range that ends at its tip, is of this chain. */
  ghost predicate AnswersFrom(server: Server, theirs: u32 -> Header, newTip: u32) {
    && (forall t: nat, h: u32 :: server.HeaderAt(t, h).Some? ==> server.HeaderAt(t, h).value == theirs(h))
    && (forall t: nat :: RangeFrom(server.HeadersAt(t, SuffixStart(newTip), CHAIN_SUFFIX_LENGTH), theirs,
                                   SuffixStart(newTip)))
  }

  ghost predicate RangeFrom(reply: Option<seq<Header>>, theirs: u32 -> Header, start: u32) {
    reply.Some? ==> forall i :: 0 <= i < |reply.value| && start + i < U32_LIMIT ==> reply.value[i] == theirs(start + i)
  }

  /** Then all blocks known to the search are of that chain. */
  lemma KnownOnChain(hashing: Hashing, server: Server, theirs: u32 -> Header, prev: seq<BlockId>, newTip: u32,
                     suffix: Blocks, latest: Blocks)
    requires AnswersFrom(server, theirs, newTip)
    requires FromServer(hashing, server, prev, suffix, latest) && SentSuffix(hashing, server, newTip, suffix)
    ensures forall h :: h in latest ==> latest[h] == hashing.BlockHash(theirs(h))
  {
    var start := SuffixStart(newTip);
    var t: nat :| server.HeadersAt(t, start, CHAIN_SUFFIX_LENGTH).Some?
                  && suffix == ByHeight(hashing, start, server.HeadersAt(t, start, CHAIN_SUFFIX_LENGTH).value);
    RangeOnChain(hashing, theirs, start, server.HeadersAt(t, start, CHAIN_SUFFIX_LENGTH).value);
    forall h | h in latest && h !in suffix ensures latest[h] == hashing.BlockHash(theirs(h)) {
      var u: nat :| server.HeaderAt(u, h).Some? && hashing.BlockHash(server.HeaderAt(u, h).value) == latest[h];
    }
  }

  lemma RangeOnChain(hashing: Hashing, theirs: u32 -> Header, start: u32, headers: seq<Header>)
    requires RangeFrom(Some(headers), theirs, start)
    ensures forall h :: h in ByHeight(hashing, start, headers) ==>
              ByHeight(hashing, start, headers)[h] == hashing.BlockHash(theirs(h))
  {
    forall h | h in ByHeight(hashing, start, headers)
      ensures ByHeight(hashing, start, headers)[h] == hashing.BlockHash(theirs(h))
    {
      assert headers[h - start] == theirs(start + (h - start));
    }
  }

  /** When the old checkpoints lie on one linked chain and the server answers from another, the reconciled
      list lies entirely on the server's chain, or a header collision shows up. */
  lemma ReconciledOnServerChain(hashing: Hashing, server: Server, ours: u32 -> Header, theirs: u32 -> Header,
                                prev: seq<BlockId>, newTip: u32, suffix: Blocks, latest: Blocks, k: nat,
                                result: seq<BlockId>, i: nat)
    requires IsCheckPoint(prev) && Reconciled(prev, latest, k, result) && i < |result|
    requires FromServer(hashing, server, prev, suffix, latest) && SentSuffix(hashing, server, newTip, suffix)
    requires AnswersFrom(server, theirs, newTip) && OnChain(hashing, ours, prev)
    requires Linked(hashing, ours, Tip(prev).height) && Linked(hashing, theirs, Tip(prev).height)
    ensures result[i].hash == hashing.BlockHash(theirs(result[i].height))
            || (i < k && result[i].height <= prev[k - 1].height
                && Collides(hashing, ours, theirs, prev[k - 1].height, result[i].height))
  {
    KnownOnChain(hashing, server, theirs, prev, newTip, suffix, latest);
    ReconciledOnKnownChain(hashing, ours, theirs, prev, latest, k, result, i);
  }

  /** The search from height `top` for a header collision above height `h` succeeds. */
  predicate Collides(hashing: Hashing, ours: u32 -> Header, theirs: u32 -> Header, top: u32, h: u32)
    requires h <= top
  {
    var found := FindHeaderCollision(hashing, ours, theirs, top, h);
    found.Some? && HeaderCollision(hashing, found.value)
  }

  lemma ReconciledOnKnownChain(hashing: Hashing, ours: u32 -> Header, theirs: u32 -> Header,
                                prev: seq<BlockId>, latest: Blocks, k: nat, result: seq<BlockId>, i: nat)
    requires IsCheckPoint(prev) && Reconciled(prev, latest, k, result) && i < |result|
    requires OnChain(hashing, ours, prev)
    requires forall h :: h in latest ==> latest[h] == hashing.BlockHash(theirs(h))
    requires Linked(hashing, ours, Tip(prev).height) && Linked(hashing, theirs, Tip(prev).height)
    ensures result[i].hash == hashing.BlockHash(theirs(result[i].height))
            || (i < k && result[i].height <= prev[k - 1].height
                && Collides(hashing, ours, theirs, prev[k - 1].height, result[i].height))
  {
    ReconciledShape(prev, latest, k, result);
    if i < k {
      assert result[i] == prev[i];
      assert prev[k - 1].height <= Tip(prev).height;
      var found := FindHeaderCollision(hashing, ours, theirs, prev[k - 1].height, result[i].height);
    }
  }

  // ----- Splicing in the blocks of anchors -----

  type Anchors = seq<(ConfirmationBlockTime, Txid)>

  function HeightOf(a: (ConfirmationBlockTime, Txid)): u32 {
    a.0.blockId.height
  }

  /** The block a missing anchor height gets: the server's if it was seen, else the first anchor's. */
  function SplicedHash(latest: Blocks, anchors: Anchors, height: u32): (hash: BlockHash)
    requires exists i :: 0 <= i < |anchors| && HeightOf(anchors[i]) == height
  {
    if height in latest then latest[height]
    else if HeightOf(anchors[0]) == height then anchors[0].0.blockId.hash
    else
      assert exists i :: 0 <= i < |anchors[1..]| && HeightOf(anchors[1..][i]) == height by {
        var i :| 0 <= i < |anchors| && HeightOf(anchors[i]) == height;
        assert anchors[1..][i - 1] == anchors[i];
      }
      SplicedHash(latest, anchors[1..], height)
  }

  predicate Anchored(anchors: Anchors, height: u32) {
    exists i :: 0 <= i < |anchors| && HeightOf(anchors[i]) == height
  }

  /** A block that splicing adds: its height is anchored, not above the tip, and was missing. */
  predicate Added(tip: seq<BlockId>, latest: Blocks, anchors: Anchors, b: BlockId)
    requires IsCheckPoint(tip)
  {
    && Anchored(anchors, b.height)
    && b.height <= Tip(tip).height
    && !HasHeight(tip, b.height)
    && b.hash == SplicedHash(latest, anchors, b.height)
  }

  lemma {:induction false} SplicedHashExtends(latest: Blocks, anchors: Anchors, more: Anchors, height: u32)
    requires Anchored(anchors, height)
    ensures Anchored(anchors + more, height)
    ensures SplicedHash(latest, anchors + more, height) == SplicedHash(latest, anchors, height)
    decreases |anchors|
  {
    var i :| 0 <= i < |anchors| && HeightOf(anchors[i]) == height;
    assert (anchors + more)[i] == anchors[i];
    if height !in latest && HeightOf(anchors[0]) != height {
      assert anchors[1..][i - 1] == anchors[i];
      assert (anchors + more)[1..] == anchors[1..] + more;
      SplicedHashExtends(latest, anchors[1..], more, height);
    }
  }

  lemma {:induction false} SplicedHashFirst(latest: Blocks, anchors: Anchors, a: (ConfirmationBlockTime, Txid))
    requires !Anchored(anchors, HeightOf(a))
    ensures Anchored(anchors + [a], HeightOf(a))
    ensures SplicedHash(latest, anchors + [a], HeightOf(a))
            == if HeightOf(a) in latest then latest[HeightOf(a)] else a.0.blockId.hash
    decreases |anchors|
  {
    assert (anchors + [a])[|anchors|] == a;
    if anchors != [] {
      assert HeightOf(anchors[0]) != HeightOf(a);
      assert (anchors + [a])[1..] == anchors[1..] + [a];
      forall i | 0 <= i < |anchors[1..]| ensures HeightOf(anchors[1..][i]) != HeightOf(a) {
        assert anchors[1..][i] == anchors[i + 1];
      }
      SplicedHashFirst(latest, anchors[1..], a);
    }
  }

  /** Splicing keeps every block and the tip and adds exactly the missing anchored heights below it.
      It panics exactly when an anchor lies below the base of the list. */
  method ChainUpdate(tip: seq<BlockId>, latest: Blocks, anchors: Anchors) returns (r: Option<seq<BlockId>>)
    requires IsCheckPoint(tip)
    ensures r.None? <==> exists i :: 0 <= i < |anchors| && HeightOf(anchors[i]) < tip[0].height
    ensures r.Some? ==> IsCheckPoint(r.value) && r.value[0] == tip[0] && Tip(r.value) == Tip(tip)
    ensures r.Some? ==> forall b :: b in r.value <==> b in tip || Added(tip, latest, anchors, b)
  {
    var cur := tip;
    for n := 0 to |anchors|
      invariant forall i :: 0 <= i < n ==> HeightOf(anchors[i]) >= tip[0].height
      invariant IsCheckPoint(cur) && cur[0] == tip[0] && Tip(cur) == Tip(tip)
      invariant forall b :: b in cur <==> b in tip || Added(tip, latest, anchors[..n], b)
    {
      var anchor := anchors[n];
      var height := HeightOf(anchor);
      if !HasHeight(cur, height) && height <= Tip(cur).height {
        var hash := if height in latest then latest[height] else anchor.0.blockId.hash;
        var inserted := Insert(cur, BlockId(height, hash));
        if inserted.None? {
          return None;
        }
        SpliceOne(tip, latest, anchors, n, cur, BlockId(height, hash));
        cur := inserted.value;
      } else {
        SpliceNone(tip, latest, anchors, n, cur);
      }
    }
    assert anchors[..|anchors|] == anchors;
    r := Some(cur);
  }

  lemma SpliceOne(tip: seq<BlockId>, latest: Blocks, anchors: Anchors, n: nat, cur: seq<BlockId>, block: BlockId)
    requires IsCheckPoint(tip) && n < |anchors|
    requires IsCheckPoint(cur) && cur[0] == tip[0] && Tip(cur) == Tip(tip)
    requires forall b :: b in cur <==> b in tip || Added(tip, latest, anchors[..n], b)
    requires block.height == HeightOf(anchors[n]) && !HasHeight(cur, block.height) && block.height <= Tip(cur).height
    requires block.hash == if block.height in latest then latest[block.height] else anchors[n].0.blockId.hash
    requires Insert(cur, block).Some?
    ensures block.height >= tip[0].height
    ensures Tip(Insert(cur, block).value) == Tip(tip)
    ensures forall b :: b in Insert(cur, block).value <==> b in tip || Added(tip, latest, anchors[..n + 1], b)
  {
    assert cur[0].height != block.height;
    InsertNew(cur, block);
    assert anchors[..n + 1] == anchors[..n] + [anchors[n]];
    assert forall i :: 0 <= i < |tip| ==> tip[i] in cur;
    assert !HasHeight(tip, block.height);
    assert Anchored(anchors[..n], block.height) ==>
        BlockId(block.height, SplicedHash(latest, anchors[..n], block.height)) in cur;
    SplicedHashFirst(latest, anchors[..n], anchors[n]);
    AddedGrows(tip, latest, anchors, n);
  }

  lemma SpliceNone(tip: seq<BlockId>, latest: Blocks, anchors: Anchors, n: nat, cur: seq<BlockId>)
    requires IsCheckPoint(tip) && n < |anchors|
    requires IsCheckPoint(cur) && cur[0] == tip[0] && Tip(cur) == Tip(tip)
    requires forall b :: b in cur <==> b in tip || Added(tip, latest, anchors[..n], b)
    requires HasHeight(cur, HeightOf(anchors[n])) || HeightOf(anchors[n]) > Tip(cur).height
    ensures HeightOf(anchors[n]) >= tip[0].height
    ensures forall b :: b in cur <==> b in tip || Added(tip, latest, anchors[..n + 1], b)
  {
    AddedGrows(tip, latest, anchors, n);
    var h := HeightOf(anchors[n]);
    if HasHeight(cur, h) {
      var i :| 0 <= i < |cur| && cur[i].height == h;
      assert cur[i] in tip || Added(tip, latest, anchors[..n], cur[i]);
      assert cur[0].height <= cur[i].height;
    }
  }

  /** One more anchor adds its own height only. */
  lemma AddedGrows(tip: seq<BlockId>, latest: Blocks, anchors: Anchors, n: nat)
    requires IsCheckPoint(tip) && n < |anchors|
    ensures forall b: BlockId :: Added(tip, latest, anchors[..n], b) ==> Added(tip, latest, anchors[..n + 1], b)
    ensures forall b: BlockId :: Added(tip, latest, anchors[..n + 1], b) ==>
              Added(tip, latest, anchors[..n], b)
              || (!Anchored(anchors[..n], b.height) && b.height == HeightOf(anchors[n]))
  {
    assert anchors[..n + 1] == anchors[..n] + [anchors[n]];
    forall b: BlockId | Anchored(anchors[..n], b.height)
      ensures Added(tip, latest, anchors[..n], b) == Added(tip, latest, anchors[..n + 1], b)
    {
      SplicedHashExtends(latest, anchors[..n], [anchors[n]], b.height);
    }
  }
}
