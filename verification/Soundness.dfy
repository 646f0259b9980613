/** What the evidence behind an anchor says about its height, and about a server that fails but does not
    lie. */
module Soundness {
  import opened Types
  import opened Server
  import opened Client
  import opened Anchors
  import Merkle

  // ----- Heights -----

  /** Headers with one hash were cached at two heights. */
  ghost predicate CachedTwice(hashing: Hashing, stored: Stored, g: u32, h: u32, hash: BlockHash) {
    g != h && StoredAt(hashing, stored, g, hash) && StoredAt(hashing, stored, h, hash)
  }

  /** The height is one asked for, or the block's hash was cached both at it and at another one asked for. */
  ghost predicate HeightSound(hashing: Hashing, stored: Stored, reqs: Requests, r: (Txid, ConfirmationBlockTime)) {
    || Exact(reqs, r)
    || exists h :: (r.0, h) in reqs && CachedTwice(hashing, stored, h, r.1.blockId.height, r.1.blockId.hash)
  }

  /** A checked result carries a height that was asked for, unless its block's hash was cached both at its
      own height and at another one that was asked for. */
  lemma HeightTied(hashing: Hashing, server: Server, stored: Stored, evidence: Evidence, reqs: Requests,
                   r: (Txid, ConfirmationBlockTime))
    requires EvidenceHolds(hashing, server, stored, evidence) && r in evidence
    requires Answers(hashing, stored, reqs, r)
    ensures HeightSound(hashing, stored, reqs, r)
  {
    assert Backed(hashing, server, stored, r, evidence[r]);
    assert StoredAt(hashing, stored, r.1.blockId.height, r.1.blockId.hash);
    var i :| 0 <= i < |reqs| && reqs[i].0 == r.0 && StoredAt(hashing, stored, reqs[i].1, r.1.blockId.hash);
    assert reqs[i] == (r.0, reqs[i].1);
  }

  /** With one header cached at two heights, an anchor fetched for the one answers a request for the other
      from the cache, and carries the wrong height. */
  method AnsweredElsewhere(client: BdkElectrumClient, txid: Txid, g: u32, h: u32, header: Header, proof: Merkle.Proof)
    returns (results: Results, toFetch: Requests)
    requires client.Valid() && !client.ideal && g != h
    requires g in client.blockHeaderCache && client.blockHeaderCache[g] == header
    requires h in client.blockHeaderCache && client.blockHeaderCache[h] == header
    requires ProofSent(client.inner.server, txid, g, proof)
    requires Merkle.Accepts(client.hashing.node, txid, header.merkleRoot, proof)
    modifies client
    ensures client.Valid() && client.Evolves() && client.blockHeaderCache == old(client.blockHeaderCache)
    ensures client.seeded == old(client.seeded)
    ensures results == FromCache([(txid, h)], map[h := client.hashing.BlockHash(header)], client.anchorCache)
    ensures |results| == 1 && toFetch == [] && results[0] in client.evidence
    ensures results[0].1.blockId.height == g && !Exact([(txid, h)], results[0])
  {
    var hash := client.hashing.BlockHash(header);
    var anchor := CacheAnchor(client, txid, g, header, proof);
    results, toFetch := SplitCached(client, [(txid, h)], map[h := hash]);
    AnswerOfOne((txid, h), map[h := hash], client.anchorCache);
  }

  lemma AnswerOfOne(req: (Txid, u32), known: map<u32, BlockHash>, cache: AnchorCache)
    requires Hit(req, known, cache)
    ensures FromCache([req], known, cache) == [(req.0, cache[(req.0, known[req.1])])]
    ensures StillNeeded([req], known, cache) == []
  {
    assert [req][..0] == [];
  }

  /** A server that sends one header for every height, with a proof that fits it. */
  function OneHeader(header: Header): (server: Server)
    ensures forall t: nat, h: u32 :: server.HeaderAt(t, h) == Some(header)
    ensures forall t: nat, asked :: server.MerkleAt(t, asked) == Some(Merkle.Proof([], 0))
    ensures forall t: nat, txid :: server.TxAt(t, txid) == None
  {
    Server((t: nat) => false, (t: nat) => None, (t: nat, h: u32) => Some(header),
           (t: nat, start: u32, count: nat) => None, (t: nat, s: Script) => None, (t: nat, id: Txid) => None,
           (t: nat, asked: (Txid, u32)) => Some(Merkle.Proof([], 0)))
  }

  method CacheTwice(client: BdkElectrumClient, g: u32, h: u32, header: Header)
    requires client.Valid() && !client.ideal && HeaderSent(client.inner.server, header)
    modifies client`blockHeaderCache, client`stored
    ensures client.Valid()
    ensures client.blockHeaderCache == old(client.blockHeaderCache)[g := header][h := header]
  {
    CacheHeader(client, g, header);
    CacheHeader(client, h, header);
  }

  method NewClient(hashing: Hashing, server: Server, ghost world: World) returns (client: BdkElectrumClient)
    requires forall t: nat, txid :: server.TxAt(t, txid) == None
    ensures fresh(client) && client.Valid() && !client.ideal && client.hashing == hashing
    ensures client.inner.server == server && client.seeded == {}
  {
    var inner := new ElectrumClient(server);
    client := new BdkElectrumClient(hashing, inner, (id: Txid, tx: Tx) => true, world, false);
  }

  lemma OneHeaderSent(header: Header, txid: Txid, g: u32)
    ensures HeaderSent(OneHeader(header), header)
    ensures ProofSent(OneHeader(header), txid, g, Merkle.Proof([], 0))
  {
    assert OneHeader(header).HeaderAt(0, g) == Some(header);
    assert OneHeader(header).MerkleAt(0, (txid, g)) == Some(Merkle.Proof([], 0));
  }

  /** Such a server leads a new client there: after headers 0 and 1, the anchor of height 0 answers a request
      for height 1. */
  method WrongHeight(hashing: Hashing, txid: Txid, ghost world: World)
    returns (client: BdkElectrumClient, results: Results, toFetch: Requests)
    ensures fresh(client) && client.Valid() && client.hashing == hashing && client.seeded == {}
    ensures 1 in client.blockHeaderCache && toFetch == []
    ensures results == FromCache([(txid, 1)], map[1 := hashing.BlockHash(client.blockHeaderCache[1])],
                                 client.anchorCache)
    ensures |results| == 1 && results[0] in client.evidence && !Exact([(txid, 1)], results[0])
  {
    var header := Header(0, txid, 0, 0);
    client := NewClient(hashing, OneHeader(header), world);
    OneHeaderSent(header, txid, 0);
    CacheTwice(client, 0, 1, header);
    results, toFetch := AnsweredElsewhere(client, txid, 0, 1, header, Merkle.Proof([], 0));
  }

  // ----- A server that may fail at any time but does not lie -----

  ghost predicate TruthfulHeader(world: World, h: u32, reply: Option<Header>) {
    reply.Some? ==> h <= world.tip && reply.value == world.HeaderAt(h)
  }

  ghost predicate TruthfulProof(hashing: Hashing, world: World, txid: Txid, h: u32, reply: Option<Merkle.Proof>) {
    reply.Some? ==> h <= world.tip && HonestProof(hashing, world, txid, h, reply.value)
  }

  ghost predicate Truthful(server: Server, hashing: Hashing, world: World) {
    && Coherent(hashing, world)
    && (forall t: nat, h: u32 :: TruthfulHeader(world, h, server.HeaderAt(t, h)))
    && (forall t: nat, txid: Txid, h: u32 :: TruthfulProof(hashing, world, txid, h, server.MerkleAt(t, (txid, h))))
  }

  ghost predicate DistinctRoots(world: World) {
    forall g: u32, h: u32 :: g < h <= world.tip ==> world.HeaderAt(g).merkleRoot != world.HeaderAt(h).merkleRoot
  }

  ghost predicate InOneBlock(world: World, txid: Txid) {
    forall g: u32, h: u32 :: g < h <= world.tip ==> !(txid in world.BlockAt(g) && txid in world.BlockAt(h))
  }

  /** However the headers were paired with their heights, an honest proof only checks against its own
      block's header: every checked anchor is that of its block, which holds the transaction. */
  lemma CheckedIsTrue(hashing: Hashing, server: Server, world: World, stored: Stored, evidence: Evidence,
                      r: (Txid, ConfirmationBlockTime))
    requires Truthful(server, hashing, world) && DistinctRoots(world)
    requires StoredSent(server, stored) && EvidenceHolds(hashing, server, stored, evidence) && r in evidence
    ensures var h := r.1.blockId.height;
      h <= world.tip && r.0 in world.BlockAt(h) && r.1 == AnchorAt(hashing, world, h)
  {
    var h, header, proof := r.1.blockId.height, evidence[r].0, evidence[r].1;
    assert Backed(hashing, server, stored, r, evidence[r]);
    var t: nat :| server.MerkleAt(t, (r.0, h)) == Some(proof);
    assert TruthfulProof(hashing, world, r.0, h, server.MerkleAt(t, (r.0, h)));
    HonestProofChecks(hashing, world, r.0, h, proof);
    assert HeaderSent(server, header);
    var u: nat, g: u32 :| server.HeaderAt(u, g) == Some(header);
    assert TruthfulHeader(world, g, server.HeaderAt(u, g));
    assert header.merkleRoot == world.HeaderAt(h).merkleRoot;
    assert g == h;
  }

  /** With a server that may fail at any time, so that headers may be cached at wrong heights, every checked
      result is still the one that was asked for. */
  lemma CheckedIsNaive(hashing: Hashing, server: Server, world: World, stored: Stored, evidence: Evidence,
                       reqs: Requests, r: (Txid, ConfirmationBlockTime))
    requires Truthful(server, hashing, world) && DistinctRoots(world) && InOneBlock(world, r.0)
    requires StoredSent(server, stored) && EvidenceHolds(hashing, server, stored, evidence) && r in evidence
    requires OnWorld(world, reqs) && Answers(hashing, stored, reqs, r)
    ensures exists h :: (r.0, h) in reqs && r.1 == AnchorAt(hashing, world, h)
    ensures Exact(reqs, r)
  {
    CheckedIsTrue(hashing, server, world, stored, evidence, r);
    AskedBlock(hashing, world, stored, reqs, r);
  }

  lemma AskedBlock(hashing: Hashing, world: World, stored: Stored, reqs: Requests, r: (Txid, ConfirmationBlockTime))
    requires InOneBlock(world, r.0) && OnWorld(world, reqs) && Answers(hashing, stored, reqs, r)
    requires r.1.blockId.height <= world.tip && r.0 in world.BlockAt(r.1.blockId.height)
    ensures Exact(reqs, r)
  {
    var i :| 0 <= i < |reqs| && reqs[i].0 == r.0 && StoredAt(hashing, stored, reqs[i].1, r.1.blockId.hash);
    assert reqs[i] == (r.0, reqs[i].1);
    assert reqs[i].0 in world.BlockAt(reqs[i].1);
  }
}
