/** Fetching and checking confirmation anchors: header lookup, anchor-cache lookup, proofs in chunks
    with a single-request fallback, and one retry with a fresh header. */
module Anchors {
  import opened Types
  import opened Server
  import opened Client
  import Merkle

  type Requests = seq<(Txid, u32)>
  type Results = seq<(Txid, ConfirmationBlockTime)>

  /** One anchor per request, straight from the world's headers. */
  function Naive(hashing: Hashing, world: World, reqs: Requests): Results {
    if reqs == [] then []
    else Naive(hashing, world, reqs[..|reqs| - 1])
         + [(reqs[|reqs| - 1].0, AnchorAt(hashing, world, reqs[|reqs| - 1].1))]
  }

  ghost predicate OnWorld(world: World, reqs: Requests) {
    forall i :: 0 <= i < |reqs| ==> reqs[i].1 <= world.tip && reqs[i].0 in world.BlockAt(reqs[i].1)
  }

  // ----- Headers, with the single-request fallback -----

  /** The headers that did arrive, in request order. */
  function Successes(replies: seq<Option<Header>>): (headers: seq<Header>)
    ensures |headers| <= |replies|
  {
    if replies == [] then []
    else
      var init := Successes(replies[..|replies| - 1]);
      if replies[|replies| - 1].Some? then init + [replies[|replies| - 1].value] else init
  }

  /** As long as nothing has failed yet, the headers line up with their requests. */
  lemma {:induction false} SuccessesAligned(replies: seq<Option<Header>>, m: nat)
    requires m <= |replies| && forall i :: 0 <= i < m ==> replies[i].Some?
    ensures m <= |Successes(replies)|
    ensures forall i :: 0 <= i < m ==> replies[i] == Some(Successes(replies)[i])
    ensures |Successes(replies)| == m <==> forall i :: m <= i < |replies| ==> replies[i].None?
    decreases |replies|
  {
    if replies != [] {
      var init := replies[..|replies| - 1];
      SuccessesAligned(init, if m < |replies| then m else m - 1);
      assert forall i :: 0 <= i < |init| ==> init[i] == replies[i];
    }
  }

  lemma {:induction false} AllArrived(headers: seq<Header>)
    ensures Successes(Arrived(headers)) == headers
    decreases |headers|
  {
    if headers != [] {
      var last := |headers| - 1;
      assert Arrived(headers)[..last] == Arrived(headers[..last]);
      AllArrived(headers[..last]);
    }
  }

  function Arrived(headers: seq<Header>): seq<Option<Header>> {
    seq(|headers|, i requires 0 <= i < |headers| => Some(headers[i]))
  }

  /** A reply to a header request with number `since` or later. */
  ghost predicate Replied(server: Server, since: nat, height: u32, reply: Option<Header>) {
    exists t: nat :: t >= since && server.HeaderAt(t, height) == reply
  }

  /** Whatever arrived was sent. */
  lemma {:induction false} SuccessesSent(server: Server, since: nat, chunk: seq<u32>, replies: seq<Option<Header>>)
    requires |replies| == |chunk| && forall i :: 0 <= i < |chunk| ==> Replied(server, since, chunk[i], replies[i])
    ensures forall i :: 0 <= i < |Successes(replies)| ==> HeaderSent(server, Successes(replies)[i])
    decreases |replies|
  {
    if replies != [] {
      var last := |replies| - 1;
      assert Replied(server, since, chunk[last], replies[last]);
      SuccessesSent(server, since, chunk[..last], replies[..last]);
    }
  }

  method FetchHeaderChunk(client: ElectrumClient, chunk: seq<u32>)
    returns (headers: seq<Header>, ghost replies: seq<Option<Header>>)
    modifies client
    ensures client.now >= old(client.now)
    ensures |replies| == |chunk| && headers == Successes(replies)
    ensures forall i :: 0 <= i < |chunk| ==> Replied(client.server, old(client.now), chunk[i], replies[i])
  {
    var batch := client.BatchBlockHeader(chunk);
    if batch.Some? {
      replies := Arrived(batch.value);
      AllArrived(batch.value);
      forall i | 0 <= i < |chunk| ensures Replied(client.server, old(client.now), chunk[i], replies[i]) {
        assert client.server.HeaderAt(old(client.now) + i, chunk[i]) == replies[i];
      }
      return batch.value, replies;
    }
    headers, replies := FetchHeadersSingly(client, old(client.now), chunk);
  }

  /** One request per height; failed ones are passed over. */
  method FetchHeadersSingly(client: ElectrumClient, ghost since: nat, chunk: seq<u32>)
    returns (headers: seq<Header>, ghost replies: seq<Option<Header>>)
    requires client.now >= since
    modifies client
    ensures client.now >= old(client.now)
    ensures |replies| == |chunk| && headers == Successes(replies)
    ensures forall i :: 0 <= i < |chunk| ==> Replied(client.server, since, chunk[i], replies[i])
  {
    headers, replies := [], [];
    for i := 0 to |chunk|
      invariant |replies| == i && headers == Successes(replies) && client.now >= old(client.now)
      invariant forall j :: 0 <= j < i ==> Replied(client.server, since, chunk[j], replies[j])
    {
      var header := client.BlockHeader(chunk[i]);
      assert Replied(client.server, since, chunk[i], header);
      assert (replies + [header])[..|replies|] == replies;
      replies := replies + [header];
      if header.Some? {
        headers := headers + [header.value];
      }
    }
  }

  /** The members of a set from `floor` up, in ascending order. */
  function Sorted(heights: set<u32>, floor: nat): (r: seq<u32>)
    ensures forall h :: h in r <==> h in heights && h >= floor
    ensures forall i, j :: 0 <= i < j < |r| ==> r[i] < r[j]
    decreases U32_LIMIT - floor
  {
    if floor >= U32_LIMIT then []
    else if floor in heights then
      var rest := Sorted(heights, floor + 1);
      assert forall j :: 0 <= j < |rest| ==> rest[j] in rest;
      [floor] + rest
    else Sorted(heights, floor + 1)
  }

  /** The heights a request list needs, sorted and each once. */
  function NeededHeights(reqs: Requests): (heights: seq<u32>)
    ensures forall i :: 0 <= i < |reqs| ==> reqs[i].1 in heights
    ensures forall h :: h in heights ==> exists i :: 0 <= i < |reqs| && reqs[i].1 == h
    ensures forall i, j :: 0 <= i < j < |heights| ==> heights[i] < heights[j]
  {
    Sorted(set req | req in reqs :: req.1, 0)
  }

  /** Known hashes are those of the cached headers. */
  ghost predicate Recorded(client: BdkElectrumClient, heightToHash: map<u32, BlockHash>)
    reads client
  {
    forall h :: h in heightToHash ==>
      h in client.blockHeaderCache && heightToHash[h] == client.hashing.BlockHash(client.blockHeaderCache[h])
  }

  /** Puts a header the server sent into the cache. */
  method CacheHeader(client: BdkElectrumClient, height: u32, header: Header)
    requires client.Valid() && HeaderSent(client.inner.server, header)
    requires client.ideal ==> height <= client.world.tip && header == client.world.HeaderAt(height)
    modifies client`blockHeaderCache, client`stored
    ensures client.Valid() && client.Evolves()
    ensures client.blockHeaderCache == old(client.blockHeaderCache)[height := header]
    ensures client.stored == old(client.stored) + {(height, header)}
  {
    client.stored := client.stored + {(height, header)};
    client.blockHeaderCache := client.blockHeaderCache[height := header];
  }

  /** Caches a header and records its hash. */
  method StoreHeader(client: BdkElectrumClient, height: u32, header: Header, heightToHash: map<u32, BlockHash>)
    returns (r: map<u32, BlockHash>)
    requires client.Valid() && Recorded(client, heightToHash) && HeaderSent(client.inner.server, header)
    requires client.ideal ==> height <= client.world.tip && header == client.world.HeaderAt(height)
    modifies client`blockHeaderCache, client`stored
    ensures client.Valid() && Recorded(client, r) && r.Keys == heightToHash.Keys + {height}
    ensures client.blockHeaderCache == old(client.blockHeaderCache)[height := header]
    ensures client.stored == old(client.stored) + {(height, header)}
  {
    CacheHeader(client, height, header);
    r := heightToHash[height := client.hashing.BlockHash(header)];
  }

  /** Pairs the heights of a chunk with the headers that arrived, first with first, and stores them. */
  method StoreHeaders(client: BdkElectrumClient, chunk: seq<u32>, headers: seq<Header>,
                      heightToHash: map<u32, BlockHash>) returns (r: map<u32, BlockHash>)
    requires client.Valid() && |headers| <= |chunk|
    requires Recorded(client, heightToHash)
    requires forall i, j :: 0 <= i < j < |chunk| ==> chunk[i] != chunk[j]
    requires forall i :: 0 <= i < |headers| ==> HeaderSent(client.inner.server, headers[i])
    requires client.ideal ==> forall i :: 0 <= i < |headers| ==>
               chunk[i] <= client.world.tip && headers[i] == client.world.HeaderAt(chunk[i])
    modifies client`blockHeaderCache, client`stored
    ensures client.Valid() && Recorded(client, r)
    ensures client.stored == old(client.stored) + PairSet(chunk, headers)
    ensures client.blockHeaderCache == old(client.blockHeaderCache) + Paired(chunk, headers)
    ensures r.Keys == heightToHash.Keys + Paired(chunk, headers).Keys
  {
    r := heightToHash;
    for i := 0 to |headers|
      invariant client.Valid() && Recorded(client, r)
      invariant client.blockHeaderCache == old(client.blockHeaderCache) + Paired(chunk, headers[..i])
      invariant client.stored == old(client.stored) + PairSet(chunk, headers[..i])
      invariant r.Keys == heightToHash.Keys + Paired(chunk, headers[..i]).Keys
    {
      NextPair(chunk, headers, i, old(client.blockHeaderCache));
      NextStored(chunk, headers, i, old(client.stored));
      NextKeys(chunk, headers, i, heightToHash.Keys);
      r := StoreHeader(client, chunk[i], headers[i], r);
    }
    assert headers[..|headers|] == headers;
  }

  /** The entries that zipping a chunk with its headers yields. */
  function Paired(chunk: seq<u32>, headers: seq<Header>): (m: map<u32, Header>)
    requires |headers| <= |chunk|
  {
    if headers == [] then map[]
    else
      var last := |headers| - 1;
      Paired(chunk, headers[..last])[chunk[last] := headers[last]]
  }

  ghost function PairSet(chunk: seq<u32>, headers: seq<Header>): Stored
    requires |headers| <= |chunk|
  {
    if headers == [] then {}
    else
      var last := |headers| - 1;
      PairSet(chunk, headers[..last]) + {(chunk[last], headers[last])}
  }

  lemma NextKeys(chunk: seq<u32>, headers: seq<Header>, i: nat, keys: set<u32>)
    requires i < |headers| <= |chunk|
    ensures keys + Paired(chunk, headers[..i + 1]).Keys == (keys + Paired(chunk, headers[..i]).Keys) + {chunk[i]}
  {
    assert headers[..i + 1][..i] == headers[..i];
  }

  lemma NextStored(chunk: seq<u32>, headers: seq<Header>, i: nat, stored: Stored)
    requires i < |headers| <= |chunk|
    ensures stored + PairSet(chunk, headers[..i + 1])
            == (stored + PairSet(chunk, headers[..i])) + {(chunk[i], headers[i])}
  {
    assert headers[..i + 1][..i] == headers[..i];
  }

  lemma NextPair(chunk: seq<u32>, headers: seq<Header>, i: nat, cache: map<u32, Header>)
    requires i < |headers| <= |chunk|
    ensures cache + Paired(chunk, headers[..i + 1]) == (cache + Paired(chunk, headers[..i]))[chunk[i] := headers[i]]
  {
    assert headers[..i + 1][..i] == headers[..i];
  }

  lemma {:induction false} PairedAt(chunk: seq<u32>, headers: seq<Header>)
    requires |headers| <= |chunk|
    requires forall i, j :: 0 <= i < j < |chunk| ==> chunk[i] != chunk[j]
    ensures forall i :: 0 <= i < |headers| ==> chunk[i] in Paired(chunk, headers)
    ensures forall i :: 0 <= i < |headers| ==> Paired(chunk, headers)[chunk[i]] == headers[i]
    ensures forall h :: h in Paired(chunk, headers) ==> exists i :: 0 <= i < |headers| && chunk[i] == h
    decreases |headers|
  {
    if headers != [] {
      var last := |headers| - 1;
      var init := headers[..last];
      PairedAt(chunk, init);
      assert forall i :: 0 <= i < last ==> init[i] == headers[i];
    }
  }

  /** An honest server's headers end up with their own heights: requests beyond its tip fail, but they
      come last in an ascending chunk. */
  lemma HonestChunk(client: BdkElectrumClient, since: nat, chunk: seq<u32>, replies: seq<Option<Header>>)
    requires client.Honest() && |replies| == |chunk|
    requires forall i :: 0 <= i < |chunk| ==> Replied(client.inner.server, since, chunk[i], replies[i])
    requires forall i, j :: 0 <= i < j < |chunk| ==> chunk[i] < chunk[j]
    ensures forall i :: 0 <= i < |Successes(replies)| ==>
              chunk[i] <= client.world.tip && Successes(replies)[i] == client.world.HeaderAt(chunk[i])
    ensures forall i :: 0 <= i < |chunk| && chunk[i] <= client.world.tip ==>
              i < |Successes(replies)|
  {
    var m := CountUpTo(chunk, client.world.tip);
    forall i | 0 <= i < |chunk|
      ensures replies[i] == if i < m then Some(client.world.HeaderAt(chunk[i])) else None
    {
      var t: nat :| client.inner.server.HeaderAt(t, chunk[i]) == replies[i];
    }
    SuccessesAligned(replies, m);
  }

  function CountUpTo(chunk: seq<u32>, top: u32): (m: nat)
    requires forall i, j :: 0 <= i < j < |chunk| ==> chunk[i] < chunk[j]
    ensures m <= |chunk| && forall i :: 0 <= i < |chunk| ==> (chunk[i] <= top <==> i < m)
  {
    if chunk == [] then 0
    else if chunk[|chunk| - 1] <= top then |chunk|
    else CountUpTo(chunk[..|chunk| - 1], top)
  }

  /** The heights whose headers are cached, and the others in order. */
  method SplitMissing(client: BdkElectrumClient, heights: seq<u32>)
    returns (heightToHash: map<u32, BlockHash>, missing: seq<u32>)
    requires forall i, j :: 0 <= i < j < |heights| ==> heights[i] < heights[j]
    ensures Recorded(client, heightToHash)
    ensures forall h :: h in heights <==> h in heightToHash || h in missing
    ensures forall i, j :: 0 <= i < j < |missing| ==> missing[i] < missing[j]
  {
    heightToHash, missing := map[], [];
    for i := 0 to |heights|
      invariant Recorded(client, heightToHash)
      invariant forall h :: h in heights[..i] <==> h in heightToHash || h in missing
      invariant forall k, j :: 0 <= k < j < |missing| ==> missing[k] < missing[j]
    {
      assert forall h :: h in heights[..i] ==> h < heights[i];
      assert heights[..i + 1] == heights[..i] + [heights[i]];
      if heights[i] in client.blockHeaderCache {
        heightToHash := heightToHash[heights[i] := client.hashing.BlockHash(client.blockHeaderCache[heights[i]])];
      } else {
        assert forall k :: 0 <= k < |missing| ==> missing[k] in missing;
        missing := missing + [heights[i]];
      }
    }
    assert heights[..|heights|] == heights;
  }

  ghost predicate UpTo(world: World, heights: seq<u32>) {
    forall h :: h in heights ==> h <= world.tip
  }

  /** Since request number `since` the server failed to give the header of one of these heights, one not
      above `height`. */
  ghost predicate FailedUpTo(server: Server, since: nat, heights: seq<u32>, height: u32) {
    exists g :: g in heights && g <= height && Replied(server, since, g, None)
  }

  /** Each of these heights has its hash, unless a header request failed. */
  ghost predicate FoundOrFailed(server: Server, since: nat, heights: seq<u32>, some: seq<u32>,
                                heightToHash: map<u32, BlockHash>) {
    forall h :: h in some ==> h in heightToHash || FailedUpTo(server, since, heights, h)
  }

  /** A height goes without a header only if a failure comes at it or before it. */
  lemma UnpairedFailed(server: Server, since: nat, chunk: seq<u32>, replies: seq<Option<Header>>, i: nat)
    requires |replies| == |chunk| && |Successes(replies)| <= i < |chunk|
    requires forall j :: 0 <= j < |chunk| ==> Replied(server, since, chunk[j], replies[j])
    requires forall j, k :: 0 <= j < k < |chunk| ==> chunk[j] < chunk[k]
    ensures FailedUpTo(server, since, chunk, chunk[i])
  {
    if forall j :: 0 <= j <= i ==> replies[j].Some? {
      SuccessesAligned(replies, i + 1);
      assert false;
    }
    var j :| 0 <= j <= i && replies[j].None?;
    assert Replied(server, since, chunk[j], None);
  }

  lemma ChunkPaired(server: Server, since: nat, chunk: seq<u32>, replies: seq<Option<Header>>,
                    heightToHash: map<u32, BlockHash>)
    requires |replies| == |chunk|
    requires forall j :: 0 <= j < |chunk| ==> Replied(server, since, chunk[j], replies[j])
    requires forall j, k :: 0 <= j < k < |chunk| ==> chunk[j] < chunk[k]
    requires forall i :: 0 <= i < |Successes(replies)| ==> chunk[i] in heightToHash
    ensures FoundOrFailed(server, since, chunk, chunk, heightToHash)
  {
    forall h | h in chunk && h !in heightToHash ensures FailedUpTo(server, since, chunk, h) {
      var i :| 0 <= i < |chunk| && chunk[i] == h;
      UnpairedFailed(server, since, chunk, replies, i);
    }
  }

  /** Fetches one chunk of headers and records what arrived. */
  method FetchInto(client: BdkElectrumClient, chunk: seq<u32>, heightToHash: map<u32, BlockHash>)
    returns (r: map<u32, BlockHash>)
    requires client.Valid() && Recorded(client, heightToHash)
    requires forall i, j :: 0 <= i < j < |chunk| ==> chunk[i] < chunk[j]
    modifies client, client.inner
    ensures client.Valid() && client.Evolves() && Recorded(client, r)
    ensures heightToHash.Keys <= r.Keys && forall h :: h in r ==> h in heightToHash || h in chunk
    ensures FoundOrFailed(client.inner.server, old(client.inner.now), chunk, chunk, r)
  {
    var headers, replies := FetchHeaderChunk(client.inner, chunk);
    PairedAt(chunk, headers);
    SuccessesSent(client.inner.server, old(client.inner.now), chunk, replies);
    if client.ideal {
      HonestChunk(client, old(client.inner.now), chunk, replies);
    }
    r := StoreHeaders(client, chunk, headers, heightToHash);
    ChunkPaired(client.inner.server, old(client.inner.now), chunk, replies, r);
  }

  /** Collects the header hash of each height, from the cache or else from the server in chunks. The
      header cache stays locked throughout, so only this code changes it. */
  method LookupHeaders(client: BdkElectrumClient, heights: seq<u32>, batchSize: nat)
    returns (heightToHash: map<u32, BlockHash>)
    requires client.Valid() && batchSize > 0
    requires forall i, j :: 0 <= i < j < |heights| ==> heights[i] < heights[j]
    modifies client, client.inner
    ensures client.Valid() && client.Evolves() && Recorded(client, heightToHash)
    ensures forall h :: h in heightToHash ==> h in heights
    ensures FoundOrFailed(client.inner.server, old(client.inner.now), heights, heights, heightToHash)
    ensures client.ideal && UpTo(client.world, heights) ==> forall h :: h in heights ==> h in heightToHash
  {
    var missing;
    heightToHash, missing := SplitMissing(client, heights);
    ghost var cached := heightToHash.Keys;
    var k := 0;
    while k < |missing|
      invariant k <= |missing|
      invariant client.Valid() && client.Evolves() && Recorded(client, heightToHash)
      invariant cached <= heightToHash.Keys
      invariant forall h :: h in heightToHash ==> h in heights
      invariant FoundOrFailed(client.inner.server, old(client.inner.now), heights, missing[..k], heightToHash)
    {
      var end := if k + batchSize < |missing| then k + batchSize else |missing|;
      ChunkOf(missing, k, end);
      ghost var now, before := client.inner.now, heightToHash;
      heightToHash := FetchInto(client, missing[k..end], heightToHash);
      NextFound(client.inner.server, old(client.inner.now), now, heights, missing, k, end, before, heightToHash);
      k := end;
    }
    assert missing[..|missing|] == missing;
    if client.ideal && UpTo(client.world, heights) {
      HonestFound(client.inner.server, client.hashing, client.world, old(client.inner.now), heights, heightToHash);
    }
  }

  lemma NextFound(server: Server, since: nat, later: nat, heights: seq<u32>, missing: seq<u32>, k: nat, end: nat,
                  before: map<u32, BlockHash>, after: map<u32, BlockHash>)
    requires k <= end <= |missing| && since <= later && before.Keys <= after.Keys
    requires forall h :: h in missing ==> h in heights
    requires FoundOrFailed(server, since, heights, missing[..k], before)
    requires FoundOrFailed(server, later, missing[k..end], missing[k..end], after)
    ensures FoundOrFailed(server, since, heights, missing[..end], after)
  {
    ChunkOf(missing, k, end);
    forall h | h in missing[..end] && h !in after ensures FailedUpTo(server, since, heights, h) {
      if h in missing[k..end] {
        var g :| g in missing[k..end] && g <= h && Replied(server, later, g, None);
        assert Replied(server, since, g, None);
      }
    }
  }

  /** An honest server fails no header request up to its tip. */
  lemma HonestFound(server: Server, hashing: Hashing, world: World, since: nat, heights: seq<u32>,
                    heightToHash: map<u32, BlockHash>)
    requires ServesChain(server, hashing, world) && UpTo(world, heights)
    requires FoundOrFailed(server, since, heights, heights, heightToHash)
    ensures forall h :: h in heights ==> h in heightToHash
  {
  }

  lemma ChunkOf(heights: seq<u32>, k: nat, end: nat)
    requires k <= end <= |heights|
    ensures forall h :: h in heights[k..end] ==> h in heights
    ensures forall h :: h in heights[..end] <==> h in heights[..k] || h in heights[k..end]
  {
    assert heights[..end] == heights[..k] + heights[k..end];
    assert forall i :: 0 <= i < end - k ==> heights[k..end][i] == heights[k + i];
  }

  // ----- The anchor cache -----

  predicate Hit(req: (Txid, u32), heightToHash: map<u32, BlockHash>, cache: AnchorCache) {
    req.1 in heightToHash && (req.0, heightToHash[req.1]) in cache
  }

  predicate Miss(req: (Txid, u32), heightToHash: map<u32, BlockHash>, cache: AnchorCache) {
    req.1 in heightToHash && (req.0, heightToHash[req.1]) !in cache
  }

  /** The requests answered from the cache. */
  function FromCache(reqs: Requests, heightToHash: map<u32, BlockHash>, cache: AnchorCache): Results {
    if reqs == [] then []
    else
      var init, req := FromCache(reqs[..|reqs| - 1], heightToHash, cache), reqs[|reqs| - 1];
      init + if Hit(req, heightToHash, cache) then [(req.0, cache[(req.0, heightToHash[req.1])])] else []
  }

  /** The requests with a known header that the cache does not answer. */
  function StillNeeded(reqs: Requests, heightToHash: map<u32, BlockHash>, cache: AnchorCache): Requests {
    if reqs == [] then []
    else
      var init, req := StillNeeded(reqs[..|reqs| - 1], heightToHash, cache), reqs[|reqs| - 1];
      init + if Miss(req, heightToHash, cache) then [req] else []
  }

  method SplitCached(client: BdkElectrumClient, reqs: Requests, heightToHash: map<u32, BlockHash>)
    returns (results: Results, toFetch: Requests)
    ensures results == FromCache(reqs, heightToHash, client.anchorCache)
    ensures toFetch == StillNeeded(reqs, heightToHash, client.anchorCache)
  {
    results, toFetch := [], [];
    for i := 0 to |reqs|
      invariant results == FromCache(reqs[..i], heightToHash, client.anchorCache)
      invariant toFetch == StillNeeded(reqs[..i], heightToHash, client.anchorCache)
    {
      assert reqs[..i + 1][..i] == reqs[..i];
      var txid, height := reqs[i].0, reqs[i].1;
      if height !in heightToHash {
        continue;
      }
      var hash := heightToHash[height];
      if (txid, hash) in client.anchorCache {
        results := results + [(txid, client.anchorCache[(txid, hash)])];
      } else {
        toFetch := toFetch + [(txid, height)];
      }
    }
    assert reqs[..|reqs|] == reqs;
  }

  /** The hashes known for these heights are those of headers cached there. */
  ghost predicate HashesStored(hashing: Hashing, stored: Stored, heightToHash: map<u32, BlockHash>) {
    forall h :: h in heightToHash ==> StoredAt(hashing, stored, h, heightToHash[h])
  }

  /** The cached anchor for a request: the one stored under the hash known for its height. */
  predicate CachedFor(req: (Txid, u32), heightToHash: map<u32, BlockHash>, cache: AnchorCache,
                      r: (Txid, ConfirmationBlockTime)) {
    Hit(req, heightToHash, cache) && r == (req.0, cache[(req.0, heightToHash[req.1])])
  }

  /** What the cache answers is the cached anchor of some request; what is still needed was asked for and
      has a known header. */
  lemma {:induction false} SplitSound(reqs: Requests, heightToHash: map<u32, BlockHash>, cache: AnchorCache)
    ensures forall r :: r in FromCache(reqs, heightToHash, cache) ==>
              exists i :: 0 <= i < |reqs| && CachedFor(reqs[i], heightToHash, cache, r)
    ensures forall r :: r in StillNeeded(reqs, heightToHash, cache) ==> r in reqs && r.1 in heightToHash
    decreases |reqs|
  {
    if reqs != [] {
      var init := reqs[..|reqs| - 1];
      SplitSound(init, heightToHash, cache);
      forall r | r in FromCache(reqs, heightToHash, cache)
        ensures exists i :: 0 <= i < |reqs| && CachedFor(reqs[i], heightToHash, cache, r)
      {
        if r in FromCache(init, heightToHash, cache) {
          var i :| 0 <= i < |init| && CachedFor(init[i], heightToHash, cache, r);
          assert CachedFor(reqs[i], heightToHash, cache, r);
        } else {
          assert CachedFor(reqs[|reqs| - 1], heightToHash, cache, r);
        }
      }
    }
  }

  lemma NaiveAppend(hashing: Hashing, world: World, reqs: Requests, req: (Txid, u32))
    ensures Naive(hashing, world, reqs + [req])
            == Naive(hashing, world, reqs) + [(req.0, AnchorAt(hashing, world, req.1))]
  {
    assert (reqs + [req])[..|reqs|] == reqs;
  }

  ghost predicate KnowsHashes(hashing: Hashing, world: World, reqs: Requests, heightToHash: map<u32, BlockHash>) {
    forall i :: 0 <= i < |reqs| ==>
      reqs[i].1 in heightToHash && heightToHash[reqs[i].1] == hashing.BlockHash(world.HeaderAt(reqs[i].1))
  }

  /** With caches that agree with the world, cached answers and open requests together make up one
      anchor per request. */
  lemma {:induction false} SplitComplete(hashing: Hashing, world: World, reqs: Requests,
                                         heightToHash: map<u32, BlockHash>, cache: AnchorCache)
    requires OnWorld(world, reqs) && KnowsHashes(hashing, world, reqs, heightToHash)
    requires AnchorsAgree(hashing, world, cache)
    ensures multiset(FromCache(reqs, heightToHash, cache))
            + multiset(Naive(hashing, world, StillNeeded(reqs, heightToHash, cache)))
            == multiset(Naive(hashing, world, reqs))
    decreases |reqs|
  {
    if reqs != [] {
      var init, req := reqs[..|reqs| - 1], reqs[|reqs| - 1];
      assert OnWorld(world, init) by { assert forall i :: 0 <= i < |init| ==> init[i] == reqs[i]; }
      assert KnowsHashes(hashing, world, init, heightToHash) by {
        assert forall i :: 0 <= i < |init| ==> init[i] == reqs[i];
      }
      SplitComplete(hashing, world, init, heightToHash, cache);
      SplitStep(hashing, world, reqs, heightToHash, cache);
    }
  }

  lemma SplitStep(hashing: Hashing, world: World, reqs: Requests,
                  heightToHash: map<u32, BlockHash>, cache: AnchorCache)
    requires |reqs| > 0 && OnWorld(world, reqs) && KnowsHashes(hashing, world, reqs, heightToHash)
    requires AnchorsAgree(hashing, world, cache)
    ensures var init, req := reqs[..|reqs| - 1], reqs[|reqs| - 1];
            multiset(FromCache(reqs, heightToHash, cache))
            + multiset(Naive(hashing, world, StillNeeded(reqs, heightToHash, cache)))
            == multiset(FromCache(init, heightToHash, cache))
            + multiset(Naive(hashing, world, StillNeeded(init, heightToHash, cache)))
            + multiset{(req.0, AnchorAt(hashing, world, req.1))}
  {
    var init, req := reqs[..|reqs| - 1], reqs[|reqs| - 1];
    var hits, open := FromCache(init, heightToHash, cache), StillNeeded(init, heightToHash, cache);
    var a := (req.0, AnchorAt(hashing, world, req.1));
    if Hit(req, heightToHash, cache) {
      assert FromCache(reqs, heightToHash, cache) == hits + [a];
      assert StillNeeded(reqs, heightToHash, cache) == open;
    } else {
      NaiveAppend(hashing, world, open, req);
      assert FromCache(reqs, heightToHash, cache) == hits;
      assert StillNeeded(reqs, heightToHash, cache) == open + [req];
    }
  }

  // ----- Proofs -----

  /** A reply to a proof request with number `since` or later. */
  ghost predicate ProofReplied(server: Server, since: nat, asked: (Txid, u32), reply: Option<Merkle.Proof>) {
    exists t: nat :: t >= since && server.MerkleAt(t, asked) == reply
  }

  /** One reply per request of the chunk, a failed single request leaving a gap in its own place. */
  method FetchProofChunk(client: ElectrumClient, chunk: Requests) returns (proofs: seq<Option<Merkle.Proof>>)
    modifies client
    ensures |proofs| == |chunk| && client.now >= old(client.now)
    ensures forall i :: 0 <= i < |chunk| ==> ProofReplied(client.server, old(client.now), chunk[i], proofs[i])
  {
    var batch := client.BatchTransactionGetMerkle(chunk);
    if batch.Some? {
      proofs := seq(|chunk|, i requires 0 <= i < |chunk| => Some(batch.value[i]));
      forall i | 0 <= i < |chunk| ensures ProofReplied(client.server, old(client.now), chunk[i], proofs[i]) {
        assert client.server.MerkleAt(old(client.now) + i, chunk[i]) == proofs[i];
      }
      return;
    }
    proofs := [];
    for i := 0 to |chunk|
      invariant |proofs| == i && client.now >= old(client.now)
      invariant forall j :: 0 <= j < i ==> ProofReplied(client.server, old(client.now), chunk[j], proofs[j])
    {
      var proof := client.TransactionGetMerkle(chunk[i]);
      assert ProofReplied(client.server, old(client.now), chunk[i], proof);
      proofs := proofs + [proof];
    }
  }

  /** The world's own anchor follows from an honest proof and the world's header. */
  lemma HonestProofChecks(hashing: Hashing, world: World, txid: Txid, height: u32, proof: Merkle.Proof)
    requires Coherent(hashing, world) && height <= world.tip
    requires HonestProof(hashing, world, txid, height, proof)
    ensures Merkle.Accepts(hashing.node, txid, world.HeaderAt(height).merkleRoot, proof)
  {
    Merkle.HonestProofAccepted(hashing.node, world.BlockAt(height), proof.pos);
  }

  /** Caching an anchor that its header and proof back keeps what the clones rely on. */
  method CacheAnchor(client: BdkElectrumClient, txid: Txid, height: u32, header: Header, proof: Merkle.Proof)
    returns (anchor: ConfirmationBlockTime)
    requires client.Valid() && (height, header) in client.stored
    requires ProofSent(client.inner.server, txid, height, proof)
    requires Merkle.Accepts(client.hashing.node, txid, header.merkleRoot, proof)
    requires client.ideal ==>
               height <= client.world.tip && header == client.world.HeaderAt(height)
    modifies client
    ensures client.Valid() && client.Evolves() && client.blockHeaderCache == old(client.blockHeaderCache)
    ensures Proves(client.hashing, txid, anchor, header, proof) && anchor.blockId.height == height
    ensures (txid, anchor) in client.evidence && client.seeded == old(client.seeded)
    ensures client.stored == old(client.stored)
    ensures client.anchorCache == old(client.anchorCache)[(txid, anchor.blockId.hash) := anchor]
  {
    var hash := client.hashing.BlockHash(header);
    anchor := ConfirmationBlockTime(BlockId(height, hash), header.time);
    assert Proves(client.hashing, txid, anchor, header, proof);
    client.evidence := client.evidence[(txid, anchor) := (header, proof)];
    client.anchorCache := client.anchorCache[(txid, hash) := anchor];
  }

  /** Since request number `since` the server failed to give the header of this height, or gave one that
      the proof does not check against. */
  ghost predicate Refuted(server: Server, since: nat, H: Merkle.NodeHash, txid: Txid, height: u32,
                          proof: Merkle.Proof) {
    exists t: nat :: t >= since && Denied(server.HeaderAt(t, height), H, txid, proof)
  }

  predicate Denied(reply: Option<Header>, H: Merkle.NodeHash, txid: Txid, proof: Merkle.Proof) {
    reply.None? || !Merkle.Accepts(H, txid, reply.value.merkleRoot, proof)
  }

  /** Asks for a header again and caches it. */
  method RefreshHeader(client: BdkElectrumClient, height: u32) returns (r: Option<Header>)
    requires client.Valid()
    modifies client, client.inner
    ensures client.Valid() && client.Evolves()
    ensures r == client.inner.server.HeaderAt(old(client.inner.now), height)
    ensures r.Some? ==> (height, r.value) in client.stored
  {
    r := client.inner.BlockHeader(height);
    if r.Some? {
      assert HeaderSent(client.inner.server, r.value);
      client.Interfere();
      CacheHeader(client, height, r.value);
    }
  }

  /** Checks one proof against the cached header and once more against a fresh one. Reading the cached
      header cannot fail: its key was there before and keys are never removed. */
  method ValidateProof(client: BdkElectrumClient, txid: Txid, height: u32, proof: Merkle.Proof)
    returns (r: Option<ConfirmationBlockTime>)
    requires client.Valid() && height in client.blockHeaderCache
    requires ProofSent(client.inner.server, txid, height, proof)
    modifies client, client.inner
    ensures client.Valid() && client.Evolves()
    ensures r.Some? ==> (txid, r.value) in client.evidence && r.value.blockId.height == height
                        && (txid, r.value.blockId.hash) in client.anchorCache
    ensures r.None? ==>
              Refuted(client.inner.server, old(client.inner.now), client.hashing.node, txid, height, proof)
    ensures client.ideal && HonestProof(client.hashing, client.world, txid, height, proof)
            ==> r == Some(AnchorAt(client.hashing, client.world, height))
  {
    client.Interfere();
    var header := client.blockHeaderCache[height];
    if client.ideal && HonestProof(client.hashing, client.world, txid, height, proof) {
      HonestProofChecks(client.hashing, client.world, txid, height, proof);
    }

    var valid := Merkle.ValidateMerkleProof(client.hashing.node, txid, header.merkleRoot, proof);
    if !valid {
      ghost var now := client.inner.now;
      var reply := RefreshHeader(client, height);
      assert reply.None? ==> Denied(client.inner.server.HeaderAt(now, height), client.hashing.node, txid, proof);
      if reply.None? {
        return None;
      }
      header := reply.value;
      valid := Merkle.ValidateMerkleProof(client.hashing.node, txid, header.merkleRoot, proof);
    }

    if !valid {
      return None;
    }
    client.Interfere();
    var anchor := CacheAnchor(client, txid, height, header, proof);
    return Some(anchor);
  }

  /** A result answers a request: its block's header was cached at the height asked for. */
  ghost predicate Answers(hashing: Hashing, stored: Stored, reqs: Requests, r: (Txid, ConfirmationBlockTime)) {
    exists i :: 0 <= i < |reqs| && reqs[i].0 == r.0 && StoredAt(hashing, stored, reqs[i].1, r.1.blockId.hash)
  }

  ghost predicate AllAnswer(hashing: Hashing, stored: Stored, reqs: Requests, results: Results) {
    forall r :: r in results ==> Answers(hashing, stored, reqs, r)
  }

  /** A result carries the very height that was asked for. */
  predicate Exact(reqs: Requests, r: (Txid, ConfirmationBlockTime)) {
    (r.0, r.1.blockId.height) in reqs
  }

  predicate ExactFrom(reqs: Requests, results: Results, n: nat) {
    n <= |results| && forall i :: n <= i < |results| ==> Exact(reqs, results[i])
  }

  ghost predicate AllIn(results: Results, anchors: set<(Txid, ConfirmationBlockTime)>) {
    forall r :: r in results ==> r in anchors
  }

  /** The anchors a caller supplied and those that were checked. */
  ghost function Trusted(client: BdkElectrumClient): set<(Txid, ConfirmationBlockTime)>
    reads client
  {
    client.seeded + client.evidence.Keys
  }

  /** Open requests are among those asked, and their headers have been cached. */
  ghost predicate Open(reqs: Requests, some: Requests, heights: set<u32>) {
    forall i :: 0 <= i < |some| ==> some[i] in reqs && some[i].1 in heights
  }

  // ----- Which requests go unanswered -----

  /** The txids of requests or of results, with multiplicity. */
  function Ids<A>(pairs: seq<(Txid, A)>): (ids: multiset<Txid>)
    ensures |ids| == |pairs|
  {
    if pairs == [] then multiset{} else Ids(pairs[..|pairs| - 1]) + multiset{pairs[|pairs| - 1].0}
  }

  lemma IdsAppend<A>(pairs: seq<(Txid, A)>, last: (Txid, A))
    ensures Ids(pairs + [last]) == Ids(pairs) + multiset{last.0}
  {
    assert (pairs + [last])[..|pairs|] == pairs;
  }

  lemma {:induction false} IdsConcat<A>(a: seq<(Txid, A)>, b: seq<(Txid, A)>)
    ensures Ids(a + b) == Ids(a) + Ids(b)
    decreases |b|
  {
    if b == [] {
      assert a + b == a;
    } else {
      assert (a + b)[..|a + b| - 1] == a + b[..|b| - 1];
      IdsConcat(a, b[..|b| - 1]);
    }
  }

  lemma {:induction false} IdsMembers<A>(pairs: seq<(Txid, A)>)
    ensures forall id :: id in Ids(pairs) <==> exists i :: 0 <= i < |pairs| && pairs[i].0 == id
    decreases |pairs|
  {
    if pairs != [] {
      var init := pairs[..|pairs| - 1];
      IdsMembers(init);
      assert forall i :: 0 <= i < |init| ==> init[i] == pairs[i];
    }
  }

  /** Since request number `since` the server failed to give a header that was needed, for this height or
      for a lower one. */
  ghost predicate HeaderMissed(server: Server, since: nat, reqs: Requests, height: u32) {
    exists i :: 0 <= i < |reqs| && reqs[i].1 <= height && Replied(server, since, reqs[i].1, None)
  }

  /** A proof was sent that did not check against a fresh header, or none could be had. */
  ghost predicate ProofRefuted(hashing: Hashing, server: Server, since: nat, req: (Txid, u32)) {
    exists proof :: ProofReplied(server, since, req, Some(proof))
                    && Refuted(server, since, hashing.node, req.0, req.1, proof)
  }

  /** Why a request has no result. */
  ghost predicate Unanswered(hashing: Hashing, server: Server, since: nat, reqs: Requests, req: (Txid, u32)) {
    && req in reqs
    && (HeaderMissed(server, since, reqs, req.1) || ProofReplied(server, since, req, None)
        || ProofRefuted(hashing, server, since, req))
  }

  lemma UnansweredSince(hashing: Hashing, server: Server, since: nat, later: nat, reqs: Requests, req: (Txid, u32))
    requires Unanswered(hashing, server, later, reqs, req) && since <= later
    ensures Unanswered(hashing, server, since, reqs, req)
  {
    if HeaderMissed(server, later, reqs, req.1) {
      var i :| 0 <= i < |reqs| && reqs[i].1 <= req.1 && Replied(server, later, reqs[i].1, None);
      assert Replied(server, since, reqs[i].1, None);
    } else if ProofReplied(server, later, req, None) {
      ProofSince(server, since, later, req, None);
    } else {
      var proof :| ProofReplied(server, later, req, Some(proof))
                   && Refuted(server, later, hashing.node, req.0, req.1, proof);
      ProofSince(server, since, later, req, Some(proof));
      RefutedSince(hashing, server, since, later, reqs, req, proof);
    }
  }

  /** Each txid asked for has its result or is among the unanswered ones, with multiplicity. */
  ghost predicate Settled(hashing: Hashing, server: Server, since: nat, reqs: Requests, asked: multiset<Txid>,
                          results: Results, lost: Requests) {
    && asked == Ids(results) + Ids(lost)
    && forall req :: req in lost ==> Unanswered(hashing, server, since, reqs, req)
  }

  lemma SettledNext(hashing: Hashing, server: Server, since: nat, reqs: Requests, asked: multiset<Txid>,
                    results: Results, lost: Requests, r: (Txid, ConfirmationBlockTime))
    requires Settled(hashing, server, since, reqs, asked, results, lost)
    ensures Settled(hashing, server, since, reqs, asked + multiset{r.0}, results + [r], lost)
  {
    IdsAppend(results, r);
  }

  lemma LostNext(hashing: Hashing, server: Server, since: nat, reqs: Requests, asked: multiset<Txid>,
                 results: Results, lost: Requests, req: (Txid, u32))
    requires Settled(hashing, server, since, reqs, asked, results, lost)
    requires Unanswered(hashing, server, since, reqs, req)
    ensures Settled(hashing, server, since, reqs, asked + multiset{req.0}, results, lost + [req])
  {
    IdsAppend(lost, req);
  }

  /** The requests whose height has no known header. */
  function Headless(reqs: Requests, heightToHash: map<u32, BlockHash>): Requests {
    if reqs == [] then []
    else
      var init, req := Headless(reqs[..|reqs| - 1], heightToHash), reqs[|reqs| - 1];
      init + if req.1 in heightToHash then [] else [req]
  }

  lemma {:induction false} HeadlessAsked(reqs: Requests, heightToHash: map<u32, BlockHash>)
    ensures forall req :: req in Headless(reqs, heightToHash) ==> req in reqs && req.1 !in heightToHash
    decreases |reqs|
  {
    if reqs != [] {
      HeadlessAsked(reqs[..|reqs| - 1], heightToHash);
    }
  }

  function OneId(counts: bool, id: Txid): multiset<Txid> {
    if counts then multiset{id} else multiset{}
  }

  lemma HitIds(reqs: Requests, heightToHash: map<u32, BlockHash>, cache: AnchorCache)
    requires |reqs| > 0
    ensures var req := reqs[|reqs| - 1];
      Ids(FromCache(reqs, heightToHash, cache))
      == Ids(FromCache(reqs[..|reqs| - 1], heightToHash, cache)) + OneId(Hit(req, heightToHash, cache), req.0)
  {
    var init, req := FromCache(reqs[..|reqs| - 1], heightToHash, cache), reqs[|reqs| - 1];
    if Hit(req, heightToHash, cache) {
      IdsAppend(init, (req.0, cache[(req.0, heightToHash[req.1])]));
    } else {
      assert FromCache(reqs, heightToHash, cache) == init;
    }
  }

  lemma MissIds(reqs: Requests, heightToHash: map<u32, BlockHash>, cache: AnchorCache)
    requires |reqs| > 0
    ensures var req := reqs[|reqs| - 1];
      Ids(StillNeeded(reqs, heightToHash, cache))
      == Ids(StillNeeded(reqs[..|reqs| - 1], heightToHash, cache)) + OneId(Miss(req, heightToHash, cache), req.0)
  {
    var init, req := StillNeeded(reqs[..|reqs| - 1], heightToHash, cache), reqs[|reqs| - 1];
    if Miss(req, heightToHash, cache) {
      IdsAppend(init, req);
    } else {
      assert StillNeeded(reqs, heightToHash, cache) == init;
    }
  }

  lemma HeadlessIds(reqs: Requests, heightToHash: map<u32, BlockHash>)
    requires |reqs| > 0
    ensures var req := reqs[|reqs| - 1];
      Ids(Headless(reqs, heightToHash))
      == Ids(Headless(reqs[..|reqs| - 1], heightToHash)) + OneId(req.1 !in heightToHash, req.0)
  {
    var init, req := Headless(reqs[..|reqs| - 1], heightToHash), reqs[|reqs| - 1];
    if req.1 !in heightToHash {
      IdsAppend(init, req);
    } else {
      assert Headless(reqs, heightToHash) == init;
    }
  }

  /** Every request is dropped, answered from the cache, or still needed. */
  lemma {:induction false} SplitIds(reqs: Requests, heightToHash: map<u32, BlockHash>, cache: AnchorCache)
    ensures Ids(reqs) == Ids(FromCache(reqs, heightToHash, cache)) + Ids(Headless(reqs, heightToHash))
                         + Ids(StillNeeded(reqs, heightToHash, cache))
    decreases |reqs|
  {
    if reqs != [] {
      SplitIds(reqs[..|reqs| - 1], heightToHash, cache);
      HitIds(reqs, heightToHash, cache);
      MissIds(reqs, heightToHash, cache);
      HeadlessIds(reqs, heightToHash);
      var init, req := reqs[..|reqs| - 1], reqs[|reqs| - 1];
      OneOfThree(Ids(FromCache(init, heightToHash, cache)), Ids(Headless(init, heightToHash)),
                 Ids(StillNeeded(init, heightToHash, cache)), Hit(req, heightToHash, cache),
                 req.1 !in heightToHash, Miss(req, heightToHash, cache), req.0);
    }
  }

  lemma OneOfThree(a: multiset<Txid>, b: multiset<Txid>, c: multiset<Txid>, x: bool, y: bool, z: bool, id: Txid)
    requires (x && !y && !z) || (!x && y && !z) || (!x && !y && z)
    ensures (a + OneId(x, id)) + (b + OneId(y, id)) + (c + OneId(z, id)) == (a + b + c) + multiset{id}
  {
  }

  lemma HeadlessUnanswered(hashing: Hashing, server: Server, since: nat, reqs: Requests, heights: seq<u32>,
                           heightToHash: map<u32, BlockHash>, cache: AnchorCache)
    requires heights == NeededHeights(reqs) && FoundOrFailed(server, since, heights, heights, heightToHash)
    ensures var cached, headless := FromCache(reqs, heightToHash, cache), Headless(reqs, heightToHash);
      Settled(hashing, server, since, reqs, Ids(cached) + Ids(headless), cached, headless)
  {
    HeadlessAsked(reqs, heightToHash);
    forall req | req in Headless(reqs, heightToHash) ensures Unanswered(hashing, server, since, reqs, req) {
      assert req.1 in heights;
      var g :| g in heights && g <= req.1 && Replied(server, since, g, None);
      var i :| 0 <= i < |reqs| && reqs[i].1 == g;
    }
  }

  // ----- Fetching and checking the open requests -----

  /** Fetches, checks and appends the anchors of one chunk. */
  method FetchAnchorChunk(client: BdkElectrumClient, ghost reqs: Requests, chunk: Requests, before: Results,
                          ghost n: nat, ghost since: nat, ghost asked: multiset<Txid>, ghost lostBefore: Requests)
    returns (results: Results, ghost lost: Requests)
    requires client.Valid() && Open(reqs, chunk, client.blockHeaderCache.Keys) && since <= client.inner.now
    requires AllAnswer(client.hashing, client.stored, reqs, before) && AllIn(before, Trusted(client))
    requires ExactFrom(reqs, before, n)
    requires Settled(client.hashing, client.inner.server, since, reqs, asked, before, lostBefore)
    modifies client, client.inner
    ensures client.Valid() && client.Evolves()
    ensures AllAnswer(client.hashing, client.stored, reqs, results) && AllIn(results, Trusted(client))
    ensures ExactFrom(reqs, results, n)
    ensures Settled(client.hashing, client.inner.server, since, reqs, asked + Ids(chunk), results, lost)
    ensures client.ideal && OnWorld(client.world, chunk) ==>
              results == before + Naive(client.hashing, client.world, chunk)
  {
    results, lost := before, lostBefore;
    var proofs := FetchProofChunk(client.inner, chunk);
    ghost var sent := old(client.inner.now);
    for i := 0 to |chunk|
      invariant client.Valid() && client.Evolves()
      invariant AllAnswer(client.hashing, client.stored, reqs, results) && AllIn(results, Trusted(client))
      invariant ExactFrom(reqs, results, n)
      invariant Settled(client.hashing, client.inner.server, since, reqs, asked + Ids(chunk[..i]), results, lost)
      invariant client.ideal && OnWorld(client.world, chunk) ==>
                  results == before + Naive(client.hashing, client.world, chunk[..i])
    {
      ProofSince(client.inner.server, since, sent, chunk[i], proofs[i]);
      NextIds(asked, chunk, i);
      if client.ideal && OnWorld(client.world, chunk) {
        HonestProofArrived(client, since, chunk[i], proofs[i]);
        NextNaive(client.hashing, client.world, chunk, i, before);
      }
      if proofs[i].None? {
        LostNext(client.hashing, client.inner.server, since, reqs, asked + Ids(chunk[..i]), results, lost, chunk[i]);
        lost := lost + [chunk[i]];
        continue;
      }
      results, lost := AppendAnchor(client, reqs, chunk[i], proofs[i].value, results, n, since,
                                    asked + Ids(chunk[..i]), lost);
    }
    assert chunk[..|chunk|] == chunk;
  }

  lemma ProofSince(server: Server, since: nat, later: nat, asked: (Txid, u32), reply: Option<Merkle.Proof>)
    requires ProofReplied(server, later, asked, reply) && since <= later
    ensures ProofReplied(server, since, asked, reply)
    ensures reply.Some? ==> ProofSent(server, asked.0, asked.1, reply.value)
  {
    var t: nat :| t >= later && server.MerkleAt(t, asked) == reply;
    assert asked == (asked.0, asked.1);
  }

  lemma NextIds(asked: multiset<Txid>, reqs: Requests, i: nat)
    requires i < |reqs|
    ensures asked + Ids(reqs[..i + 1]) == (asked + Ids(reqs[..i])) + multiset{reqs[i].0}
  {
    assert reqs[..i + 1][..i] == reqs[..i];
  }

  lemma NextNaive(hashing: Hashing, world: World, reqs: Requests, i: nat, before: Results)
    requires i < |reqs|
    ensures before + Naive(hashing, world, reqs[..i + 1])
            == (before + Naive(hashing, world, reqs[..i])) + [(reqs[i].0, AnchorAt(hashing, world, reqs[i].1))]
  {
    assert reqs[..i + 1][..i] == reqs[..i];
  }

  lemma BackedAnswers(hashing: Hashing, server: Server, stored: Stored, evidence: Evidence, reqs: Requests,
                      k: nat, a: ConfirmationBlockTime)
    requires EvidenceHolds(hashing, server, stored, evidence)
    requires k < |reqs| && reqs[k].1 == a.blockId.height && (reqs[k].0, a) in evidence
    ensures Answers(hashing, stored, reqs, (reqs[k].0, a))
  {
    var p := (reqs[k].0, a);
    assert Backed(hashing, server, stored, p, evidence[p]);
    assert StoredAt(hashing, stored, a.blockId.height, a.blockId.hash);
  }

  method AppendAnchor(client: BdkElectrumClient, ghost reqs: Requests, req: (Txid, u32), proof: Merkle.Proof,
                      before: Results, ghost n: nat, ghost since: nat, ghost asked: multiset<Txid>,
                      ghost lostBefore: Requests)
    returns (results: Results, ghost lost: Requests)
    requires client.Valid() && req.1 in client.blockHeaderCache && req in reqs && since <= client.inner.now
    requires ProofSent(client.inner.server, req.0, req.1, proof)
    requires ProofReplied(client.inner.server, since, req, Some(proof))
    requires AllAnswer(client.hashing, client.stored, reqs, before) && AllIn(before, Trusted(client))
    requires ExactFrom(reqs, before, n)
    requires Settled(client.hashing, client.inner.server, since, reqs, asked, before, lostBefore)
    modifies client, client.inner
    ensures client.Valid() && client.Evolves()
    ensures AllAnswer(client.hashing, client.stored, reqs, results) && AllIn(results, Trusted(client))
    ensures ExactFrom(reqs, results, n)
    ensures Settled(client.hashing, client.inner.server, since, reqs, asked + multiset{req.0}, results, lost)
    ensures client.ideal && HonestProof(client.hashing, client.world, req.0, req.1, proof) ==>
              results == before + [(req.0, AnchorAt(client.hashing, client.world, req.1))]
  {
    results, lost := before, lostBefore;
    var anchor := ValidateProof(client, req.0, req.1, proof);
    if anchor.None? {
      RefutedSince(client.hashing, client.inner.server, since, old(client.inner.now), reqs, req, proof);
      LostNext(client.hashing, client.inner.server, since, reqs, asked, before, lost, req);
      StillAnswer(client.hashing, old(client.stored), client.stored, reqs, before);
      lost := lost + [req];
      return;
    }
    ghost var k :| 0 <= k < |reqs| && reqs[k] == req;
    BackedAnswers(client.hashing, client.inner.server, client.stored, client.evidence, reqs, k, anchor.value);
    StillAnswer(client.hashing, old(client.stored), client.stored, reqs, before);
    OneMore(client.hashing, client.stored, reqs, Trusted(client), before, (req.0, anchor.value), n);
    SettledNext(client.hashing, client.inner.server, since, reqs, asked, before, lost, (req.0, anchor.value));
    results := before + [(req.0, anchor.value)];
  }

  lemma RefutedSince(hashing: Hashing, server: Server, since: nat, later: nat, reqs: Requests, req: (Txid, u32),
                     proof: Merkle.Proof)
    requires since <= later && req in reqs && ProofReplied(server, since, req, Some(proof))
    requires Refuted(server, later, hashing.node, req.0, req.1, proof)
    ensures Unanswered(hashing, server, since, reqs, req)
  {
    var t: nat :| t >= later && Denied(server.HeaderAt(t, req.1), hashing.node, req.0, proof);
    assert Refuted(server, since, hashing.node, req.0, req.1, proof);
    assert ProofRefuted(hashing, server, since, req);
  }

  lemma OneMore(hashing: Hashing, stored: Stored, reqs: Requests, trusted: set<(Txid, ConfirmationBlockTime)>,
                before: Results, r: (Txid, ConfirmationBlockTime), n: nat)
    requires AllAnswer(hashing, stored, reqs, before) && AllIn(before, trusted) && ExactFrom(reqs, before, n)
    requires Answers(hashing, stored, reqs, r) && r in trusted && Exact(reqs, r)
    ensures AllAnswer(hashing, stored, reqs, before + [r]) && AllIn(before + [r], trusted)
    ensures ExactFrom(reqs, before + [r], n)
  {
  }

  lemma StillAnswer(hashing: Hashing, stored: Stored, more: Stored, reqs: Requests, results: Results)
    requires AllAnswer(hashing, stored, reqs, results) && stored <= more
    ensures AllAnswer(hashing, more, reqs, results)
  {
    forall r | r in results ensures Answers(hashing, more, reqs, r) {
      var i :| 0 <= i < |reqs| && reqs[i].0 == r.0 && StoredAt(hashing, stored, reqs[i].1, r.1.blockId.hash);
      assert StoredAt(hashing, more, reqs[i].1, r.1.blockId.hash);
    }
  }

  lemma HonestProofArrived(client: BdkElectrumClient, since: nat, asked: (Txid, u32), reply: Option<Merkle.Proof>)
    requires client.Honest() && asked.1 <= client.world.tip && asked.0 in client.world.BlockAt(asked.1)
    requires ProofReplied(client.inner.server, since, asked, reply)
    ensures reply.Some? && HonestProof(client.hashing, client.world, asked.0, asked.1, reply.value)
  {
    var t: nat :| t >= since && client.inner.server.MerkleAt(t, asked) == reply;
    assert asked == (asked.0, asked.1);
    assert HasProof(client.hashing, client.world, asked.0, asked.1,
                    client.inner.server.MerkleAt(t, (asked.0, asked.1)));
  }

  /** Takes the anchors of the open requests up to `k` to those up to `end`. */
  method FetchUpTo(client: BdkElectrumClient, ghost reqs: Requests, toFetch: Requests, k: nat, end: nat,
                   before: Results, ghost cached: Results, ghost since: nat, ghost asked: multiset<Txid>,
                   ghost lostBefore: Requests)
    returns (results: Results, ghost lost: Requests)
    requires client.Valid() && k <= end <= |toFetch| && since <= client.inner.now
    requires Open(reqs, toFetch, client.blockHeaderCache.Keys)
    requires AllAnswer(client.hashing, client.stored, reqs, before) && AllIn(before, Trusted(client))
    requires ExactFrom(reqs, before, |cached|)
    requires Settled(client.hashing, client.inner.server, since, reqs, asked + Ids(toFetch[..k]), before, lostBefore)
    requires client.ideal && OnWorld(client.world, toFetch) ==>
               before == cached + Naive(client.hashing, client.world, toFetch[..k])
    modifies client, client.inner
    ensures client.Valid() && client.Evolves()
    ensures AllAnswer(client.hashing, client.stored, reqs, results) && AllIn(results, Trusted(client))
    ensures ExactFrom(reqs, results, |cached|)
    ensures Settled(client.hashing, client.inner.server, since, reqs, asked + Ids(toFetch[..end]), results, lost)
    ensures client.ideal && OnWorld(client.world, toFetch) ==>
              results == cached + Naive(client.hashing, client.world, toFetch[..end])
  {
    NextChunk(client.hashing, client.world, toFetch, k, end, cached);
    NextChunkIds(asked, toFetch, k, end);
    StillOpen(reqs, toFetch, k, end, client.blockHeaderCache.Keys, client.blockHeaderCache.Keys);
    results, lost := FetchAnchorChunk(client, reqs, toFetch[k..end], before, |cached|, since,
                                      asked + Ids(toFetch[..k]), lostBefore);
  }

  /** Works through the open requests in chunks. */
  method FetchAnchors(client: BdkElectrumClient, ghost reqs: Requests, toFetch: Requests, batchSize: nat,
                      cached: Results, ghost since: nat, ghost asked: multiset<Txid>, ghost dropped: Requests)
    returns (results: Results, ghost lost: Requests)
    requires client.Valid() && batchSize > 0 && since <= client.inner.now
    requires Open(reqs, toFetch, client.blockHeaderCache.Keys)
    requires AllAnswer(client.hashing, client.stored, reqs, cached) && AllIn(cached, Trusted(client))
    requires Settled(client.hashing, client.inner.server, since, reqs, asked, cached, dropped)
    modifies client, client.inner
    ensures client.Valid() && client.Evolves()
    ensures AllAnswer(client.hashing, client.stored, reqs, results) && AllIn(results, Trusted(client))
    ensures ExactFrom(reqs, results, |cached|)
    ensures Settled(client.hashing, client.inner.server, since, reqs, asked + Ids(toFetch), results, lost)
    ensures client.ideal && OnWorld(client.world, toFetch) ==>
              results == cached + Naive(client.hashing, client.world, toFetch)
  {
    results, lost := cached, dropped;
    var k := 0;
    assert toFetch[..0] == [];
    while k < |toFetch|
      invariant k <= |toFetch| && Open(reqs, toFetch, client.blockHeaderCache.Keys)
      invariant client.Valid() && client.Evolves()
      invariant AllAnswer(client.hashing, client.stored, reqs, results) && AllIn(results, Trusted(client))
      invariant ExactFrom(reqs, results, |cached|)
      invariant Settled(client.hashing, client.inner.server, since, reqs, asked + Ids(toFetch[..k]), results, lost)
      invariant client.ideal && OnWorld(client.world, toFetch) ==>
                  results == cached + Naive(client.hashing, client.world, toFetch[..k])
    {
      var end := if k + batchSize < |toFetch| then k + batchSize else |toFetch|;
      results, lost := FetchUpTo(client, reqs, toFetch, k, end, results, cached, since, asked, lost);
      k := end;
    }
    assert toFetch[..|toFetch|] == toFetch;
  }

  lemma NextChunkIds(asked: multiset<Txid>, reqs: Requests, k: nat, end: nat)
    requires k <= end <= |reqs|
    ensures asked + Ids(reqs[..end]) == (asked + Ids(reqs[..k])) + Ids(reqs[k..end])
  {
    var a, b := reqs[..k], reqs[k..end];
    assert a + b == reqs[..end];
    IdsConcat(a, b);
    AddInTurn(asked, Ids(a), Ids(b));
  }

  lemma AddInTurn(a: multiset<Txid>, b: multiset<Txid>, c: multiset<Txid>)
    ensures a + (b + c) == (a + b) + c
  {
  }

  lemma StillOpen(reqs: Requests, some: Requests, k: nat, end: nat, known: set<u32>, now: set<u32>)
    requires k <= end <= |some| && Open(reqs, some, known) && known <= now
    ensures Open(reqs, some[k..end], now)
  {
    assert forall i :: 0 <= i < end - k ==> some[k..end][i] == some[k + i];
  }

  lemma NextChunk(hashing: Hashing, world: World, reqs: Requests, k: nat, end: nat, before: Results)
    requires k <= end <= |reqs|
    ensures OnWorld(world, reqs) ==> OnWorld(world, reqs[k..end])
    ensures before + Naive(hashing, world, reqs[..end])
            == (before + Naive(hashing, world, reqs[..k])) + Naive(hashing, world, reqs[k..end])
  {
    assert forall i :: 0 <= i < end - k ==> reqs[k..end][i] == reqs[k + i];
    NaiveConcat(hashing, world, reqs[..k], reqs[k..end]);
    assert reqs[..k] + reqs[k..end] == reqs[..end];
    var a, b := Naive(hashing, world, reqs[..k]), Naive(hashing, world, reqs[k..end]);
    assert before + (a + b) == (before + a) + b;
  }

  /** Returns anchors for the requests, each backed by a header and a proof or seeded by a caller, and each
      of a block whose header was cached at a height asked for. The first `fromCache` of them come from the
      cache, the others carry exactly the heights asked for. Results and unanswered requests make up the
      requests, and a request goes unanswered only for one of three reasons. With an honest server and caches
      that do not contradict it, the results are exactly the naive answers, whatever was cached before, whatever
      the batch size and whatever other clones do meanwhile. */
  method BatchFetchAnchors(client: BdkElectrumClient, reqs: Requests, batchSize: nat)
    returns (results: Results, ghost fromCache: nat, ghost lost: Requests)
    requires client.Valid() && batchSize > 0
    modifies client, client.inner
    ensures client.Valid() && client.Evolves()
    ensures AllAnswer(client.hashing, client.stored, reqs, results) && AllIn(results, Trusted(client))
    ensures ExactFrom(reqs, results, fromCache)
    ensures Settled(client.hashing, client.inner.server, old(client.inner.now), reqs, Ids(reqs), results, lost)
    ensures Ids(results) <= Ids(reqs) && |results| + |lost| == |reqs|
    ensures client.ideal && OnWorld(client.world, reqs) ==>
              multiset(results) == multiset(Naive(client.hashing, client.world, reqs))
  {
    ghost var server, since := client.inner.server, client.inner.now;
    var heights := NeededHeights(reqs);
    var heightToHash := LookupHeaders(client, heights, batchSize);
    ghost var onWorld := client.ideal && OnWorld(client.world, reqs);
    assert onWorld ==> KnowsHashes(client.hashing, client.world, reqs, heightToHash);
    assert HashesStored(client.hashing, client.stored, heightToHash);
    client.Interfere();
    var cached, toFetch := SplitCached(client, reqs, heightToHash);
    SplitSound(reqs, heightToHash, client.anchorCache);
    SplitIds(reqs, heightToHash, client.anchorCache);
    CachedAnswer(client.hashing, client.stored, reqs, heightToHash, client.anchorCache, client.seeded,
                 client.evidence.Keys);
    HeadlessUnanswered(client.hashing, server, since, reqs, heights, heightToHash, client.anchorCache);
    fromCache := |cached|;
    if onWorld {
      SplitComplete(client.hashing, client.world, reqs, heightToHash, client.anchorCache);
      StillOnWorld(client.world, reqs, toFetch);
    }
    ghost var dropped := Headless(reqs, heightToHash);
    results, lost := FetchAnchors(client, reqs, toFetch, batchSize, cached, since, Ids(cached) + Ids(dropped),
                                  dropped);
    SettledSizes(results, lost, reqs);
  }

  lemma SettledSizes(results: Results, lost: Requests, reqs: Requests)
    requires Ids(reqs) == Ids(results) + Ids(lost)
    ensures Ids(results) <= Ids(reqs) && |results| + |lost| == |reqs|
  {
    assert |Ids(reqs)| == |Ids(results)| + |Ids(lost)|;
  }

  /** What the cache answers carries the hash of a header cached at a height asked for. */
  lemma CachedAnswer(hashing: Hashing, stored: Stored, reqs: Requests, heightToHash: map<u32, BlockHash>,
                     cache: AnchorCache, seeded: set<(Txid, ConfirmationBlockTime)>,
                     checked: set<(Txid, ConfirmationBlockTime)>)
    requires HashesStored(hashing, stored, heightToHash) && AnchorsBacked(cache, seeded, checked)
    ensures AllAnswer(hashing, stored, reqs, FromCache(reqs, heightToHash, cache))
    ensures AllIn(FromCache(reqs, heightToHash, cache), seeded + checked)
  {
    SplitSound(reqs, heightToHash, cache);
    forall r | r in FromCache(reqs, heightToHash, cache)
      ensures Answers(hashing, stored, reqs, r) && r in seeded + checked
    {
      var i :| 0 <= i < |reqs| && CachedFor(reqs[i], heightToHash, cache, r);
      assert StoredAt(hashing, stored, reqs[i].1, heightToHash[reqs[i].1]);
    }
  }

  lemma StillOnWorld(world: World, reqs: Requests, some: Requests)
    requires OnWorld(world, reqs) && forall r :: r in some ==> r in reqs
    ensures OnWorld(world, some)
  {
    forall i | 0 <= i < |some| ensures some[i].1 <= world.tip && some[i].0 in world.BlockAt(some[i].1) {
      assert some[i] in reqs;
    }
  }

  lemma {:induction false} NaiveConcat(hashing: Hashing, world: World, a: Requests, b: Requests)
    ensures Naive(hashing, world, a + b) == Naive(hashing, world, a) + Naive(hashing, world, b)
    decreases |b|
  {
    if b == [] {
      assert a + b == a;
    } else {
      var init, last := b[..|b| - 1], b[|b| - 1];
      assert a + b == (a + init) + [last];
      NaiveConcat(hashing, world, a, init);
      NaiveAppend(hashing, world, a + init, last);
    }
  }

  // ----- When the header fallback lines up -----

  /** Every height the chunk stores has its own header. */
  ghost predicate LinedUp(chunk: seq<u32>, truth: seq<Header>, headers: seq<Header>)
    requires |headers| <= |chunk| == |truth|
  {
    forall i :: 0 <= i < |chunk| && chunk[i] in Paired(chunk, headers) ==>
      Paired(chunk, headers)[chunk[i]] == truth[i]
  }

  lemma LinedUpMeans(chunk: seq<u32>, truth: seq<Header>, headers: seq<Header>)
    requires |headers| <= |chunk| == |truth|
    requires forall i, j :: 0 <= i < j < |chunk| ==> chunk[i] != chunk[j]
    ensures LinedUp(chunk, truth, headers) <==> forall i :: 0 <= i < |headers| ==> headers[i] == truth[i]
  {
    PairedAt(chunk, headers);
    forall i | 0 <= i < |chunk| && chunk[i] in Paired(chunk, headers) ensures i < |headers| {
      var j :| 0 <= j < |headers| && chunk[j] == chunk[i];
    }
  }

  /** The single-request fallback pairs heights with the headers that arrived, first with first. When
      the chunk's true headers are distinct, every height it stores has its own header exactly if the
      failures come last. */
  lemma FallbackAlignment(chunk: seq<u32>, truth: seq<Header>, replies: seq<Option<Header>>)
    requires |chunk| == |truth| == |replies|
    requires forall i, j :: 0 <= i < j < |chunk| ==> chunk[i] != chunk[j] && truth[i] != truth[j]
    requires forall i :: 0 <= i < |replies| && replies[i].Some? ==> replies[i].value == truth[i]
    ensures LinedUp(chunk, truth, Successes(replies)) <==> FailuresLast(replies)
  {
    LinedUpMeans(chunk, truth, Successes(replies));
    var m := LeadingReplies(replies);
    SuccessesAligned(replies, m);
    if !FailuresLast(replies) {
      // The header stored for the first failed height is that of a later one.
      LaterReply(replies, m);
      FirstMisplaced(truth, replies, m);
    } else {
      assert |Successes(replies)| == m;
    }
  }

  lemma LaterReply(replies: seq<Option<Header>>, m: nat)
    requires m == LeadingReplies(replies) && !FailuresLast(replies)
    ensures m < |replies| && replies[m].None? && exists j :: m < j < |replies| && replies[j].Some?
  {
    var i, j :| 0 <= i < j < |replies| && replies[i].None? && replies[j].Some?;
    assert i >= m && replies[j].Some?;
  }

  ghost predicate FailuresLast(replies: seq<Option<Header>>) {
    forall i, j :: 0 <= i < j < |replies| && replies[i].None? ==> replies[j].None?
  }

  function LeadingReplies(replies: seq<Option<Header>>): (m: nat)
    ensures m <= |replies| && (forall i :: 0 <= i < m ==> replies[i].Some?)
    ensures m < |replies| ==> replies[m].None?
  {
    if replies == [] || replies[0].None? then 0 else 1 + LeadingReplies(replies[1..])
  }

  /** Past the first failure, the next header that arrived belongs to a later height. */
  lemma {:induction false} FirstMisplaced(truth: seq<Header>, replies: seq<Option<Header>>, m: nat)
    requires |truth| == |replies| && m < |replies|
    requires (forall i :: 0 <= i < m ==> replies[i].Some?) && replies[m].None?
    requires forall i :: 0 <= i < |replies| && replies[i].Some? ==> replies[i].value == truth[i]
    requires exists j :: m < j < |replies| && replies[j].Some?
    ensures |Successes(replies)| > m
    ensures exists j :: m < j < |truth| && Successes(replies)[m] == truth[j]
    decreases |replies|
  {
    var last := |replies| - 1;
    var init := replies[..last];
    if exists j :: m < j < last && replies[j].Some? {
      var j :| m < j < last && replies[j].Some?;
      assert init[j] == replies[j];
      FirstMisplaced(truth[..last], init, m);
      var k :| m < k < last && Successes(init)[m] == truth[..last][k];
      assert Successes(replies)[m] == truth[k];
    } else {
      SuccessesAligned(init, m);
      assert forall j :: m < j < last ==> init[j] == replies[j] && replies[j].None?;
      assert |Successes(init)| == m && replies[last].Some?;
      assert Successes(replies) == Successes(init) + [replies[last].value];
      assert Successes(replies)[m] == truth[last];
    }
  }
}
