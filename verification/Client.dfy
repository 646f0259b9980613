/** The BDK client: three caches shared by all clones of the client, and the connection they use. */
module Client {
  import opened Types
  import opened Server
  import Merkle

  /** A fixed block chain and transaction set that a server may or may not report truthfully. */
  datatype World = World(
    tip: u32,
    block: u32 -> seq<Txid>,
    header: u32 -> Header,
    history: Script -> History,
    tx: Txid -> Tx)
  {
    function BlockAt(h: u32): seq<Txid> { block(h) }
    function HeaderAt(h: u32): Header { header(h) }
    function HistoryOf(script: Script): History { history(script) }
    function TxOf(txid: Txid): Tx { tx(txid) }
  }

  /** Any property of transactions, such as having the id they were asked by. */
  type Vouch = (Txid, Tx) -> bool

  predicate Vouches(vouch: Vouch, txid: Txid, tx: Tx) {
    vouch(txid, tx)
  }

  ghost predicate ServerVouched(server: Server, vouch: Vouch) {
    forall t: nat, txid :: server.TxAt(t, txid).Some? ==> Vouches(vouch, txid, server.TxAt(t, txid).value)
  }

  ghost predicate TxsVouched(cache: map<Txid, Tx>, vouch: Vouch) {
    forall txid :: txid in cache ==> Vouches(vouch, txid, cache[txid])
  }

  function AnchorAt(hashing: Hashing, world: World, height: u32): ConfirmationBlockTime {
    ConfirmationBlockTime(BlockId(height, hashing.BlockHash(world.HeaderAt(height))), world.HeaderAt(height).time)
  }

  /** Blocks are non-empty, headers commit to them, and no two blocks share a hash. */
  ghost predicate Coherent(hashing: Hashing, world: World) {
    && (forall h: u32 :: h <= world.tip ==>
          |world.BlockAt(h)| > 0 && world.HeaderAt(h).merkleRoot == Merkle.Root(hashing.node, world.BlockAt(h)))
    && (forall g: u32, h: u32 :: g < h <= world.tip ==>
          hashing.BlockHash(world.HeaderAt(g)) != hashing.BlockHash(world.HeaderAt(h)))
  }

  /** The proof of `blockchain.transaction.get_merkle`: a position of the txid and its branch. */
  ghost predicate HonestProof(hashing: Hashing, world: World, txid: Txid, height: u32, proof: Merkle.Proof) {
    && proof.pos < |world.BlockAt(height)|
    && world.BlockAt(height)[proof.pos] == txid
    && proof.merkle == Merkle.Branch(hashing.node, world.BlockAt(height), proof.pos)
  }

  ghost predicate HasProof(hashing: Hashing, world: World, txid: Txid, height: u32, reply: Option<Merkle.Proof>) {
    reply.Some? && HonestProof(hashing, world, txid, height, reply.value)
  }

  /** Every header and proof request about the world's chain is answered, truthfully, at all times. */
  ghost predicate ServesChain(server: Server, hashing: Hashing, world: World) {
    && Coherent(hashing, world)
    && (forall t: nat :: !server.Lost(t))
    && (forall t: nat, h: u32 :: server.HeaderAt(t, h) == if h <= world.tip then Some(world.HeaderAt(h)) else None)
    && (forall t: nat, txid: Txid, h: u32 :: h <= world.tip && txid in world.BlockAt(h) ==>
          HasProof(hashing, world, txid, h, server.MerkleAt(t, (txid, h))))
  }

  type Evidence = map<(Txid, ConfirmationBlockTime), (Header, Merkle.Proof)>

  /** Headers with the heights they were cached at, at any time. */
  type Stored = set<(u32, Header)>

  ghost predicate HeaderSent(server: Server, header: Header) {
    exists t: nat, h: u32 :: server.HeaderAt(t, h) == Some(header)
  }

  ghost predicate StoredSent(server: Server, stored: Stored) {
    forall p :: p in stored ==> HeaderSent(server, p.1)
  }

  ghost predicate CacheStored(cache: map<u32, Header>, stored: Stored) {
    forall h :: h in cache ==> (h, cache[h]) in stored
  }

  /** A header with this hash was cached at this height. */
  ghost predicate StoredAt(hashing: Hashing, stored: Stored, height: u32, hash: BlockHash) {
    exists header :: (height, header) in stored && hashing.BlockHash(header) == hash
  }

  ghost predicate ProofSent(server: Server, txid: Txid, height: u32, proof: Merkle.Proof) {
    exists t: nat :: server.MerkleAt(t, (txid, height)) == Some(proof)
  }

  /** The header was cached at the anchor's height, the server sent the proof for that height, and the two
      of them check. */
  ghost predicate Backed(hashing: Hashing, server: Server, stored: Stored, p: (Txid, ConfirmationBlockTime),
                         proof: (Header, Merkle.Proof)) {
    && Proves(hashing, p.0, p.1, proof.0, proof.1)
    && (p.1.blockId.height, proof.0) in stored
    && ProofSent(server, p.0, p.1.blockId.height, proof.1)
  }

  ghost predicate EvidenceHolds(hashing: Hashing, server: Server, stored: Stored, evidence: Evidence) {
    forall p :: p in evidence ==> Backed(hashing, server, stored, p, evidence[p])
  }

  /** Each cached anchor is keyed by its own block hash and was either supplied or checked. */
  ghost predicate AnchorsBacked(cache: AnchorCache, seeded: set<(Txid, ConfirmationBlockTime)>,
                                checked: set<(Txid, ConfirmationBlockTime)>) {
    forall key :: key in cache ==>
      && cache[key].blockId.hash == key.1
      && ((key.0, cache[key]) in seeded || (key.0, cache[key]) in checked)
  }

  ghost predicate HeadersAgree(world: World, cache: map<u32, Header>) {
    forall h :: h in cache ==> h <= world.tip && cache[h] == world.HeaderAt(h)
  }

  type AnchorCache = map<(Txid, BlockHash), ConfirmationBlockTime>

  /** What is cached for a block of the world is that block's anchor. */
  ghost predicate AnchorsAgree(hashing: Hashing, world: World, cache: AnchorCache) {
    forall key, h: u32 :: key in cache && h <= world.tip && key.1 == hashing.BlockHash(world.HeaderAt(h)) ==>
      cache[key] == AnchorAt(hashing, world, h)
  }

  /** An anchor that, if it names a block of the world, is that block's anchor. */
  ghost predicate Consistent(hashing: Hashing, world: World, a: ConfirmationBlockTime) {
    forall h: u32 :: h <= world.tip && a.blockId.hash == hashing.BlockHash(world.HeaderAt(h)) ==>
      a == AnchorAt(hashing, world, h)
  }

  /** A header and a proof that back an anchor. */
  ghost predicate Proves(hashing: Hashing, txid: Txid, a: ConfirmationBlockTime, header: Header, proof: Merkle.Proof) {
    && Merkle.Accepts(hashing.node, txid, header.merkleRoot, proof)
    && a.blockId.hash == hashing.BlockHash(header)
    && a.confirmationTime == header.time
  }

  class BdkElectrumClient {
    const hashing: Hashing
    const inner: ElectrumClient
    var txCache: map<Txid, Tx>
    var blockHeaderCache: map<u32, Header>
    var anchorCache: AnchorCache

    /** The anchors callers put into the cache themselves. */
    ghost var seeded: set<(Txid, ConfirmationBlockTime)>
    /** The header and proof behind each anchor that was checked. */
    ghost var evidence: Evidence
    /** What was ever put into the header cache. */
    ghost var stored: Stored
    /** Any property the transactions of the server and of callers have. Results hold for each choice. */
    ghost const vouch: Vouch
    /** The chain that statements about an honest server compare with. */
    ghost const world: World
    /** Whether the server is taken to be honest and the caches never to contradict it. Results that do
        not mention it hold for every server and every cache. */
    ghost const ideal: bool

    constructor (hashing: Hashing, inner: ElectrumClient,
                 ghost vouch: Vouch, ghost world: World, ghost ideal: bool)
      requires ServerVouched(inner.server, vouch)
      requires ideal ==> ServesChain(inner.server, hashing, world)
      ensures Valid()
      ensures this.hashing == hashing && this.inner == inner
      ensures this.vouch == vouch && this.world == world && this.ideal == ideal
      ensures txCache == map[] && blockHeaderCache == map[] && anchorCache == map[]
      ensures seeded == {} && evidence == map[] && stored == {}
    {
      this.hashing, this.inner, this.vouch, this.world, this.ideal := hashing, inner, vouch, world, ideal;
      txCache, blockHeaderCache, anchorCache := map[], map[], map[];
      seeded, evidence, stored := {}, map[], {};
    }

    /** An anchor is either backed by a header and a proof or was supplied by a caller. */
    ghost predicate Trusted(txid: Txid, a: ConfirmationBlockTime)
      reads this
    {
      (txid, a) in seeded || (txid, a) in evidence
    }

    ghost predicate Valid()
      reads this
    {
      && ServerVouched(inner.server, vouch)
      && TxsVouched(txCache, vouch)
      && AnchorsBacked(anchorCache, seeded, evidence.Keys)
      && EvidenceHolds(hashing, inner.server, stored, evidence)
      && CacheStored(blockHeaderCache, stored)
      && StoredSent(inner.server, stored)
      && (ideal ==> Honest() && Agrees())
    }

    ghost predicate Honest() {
      ServesChain(inner.server, hashing, world)
    }

    /** Nothing in the caches contradicts the world's chain. */
    ghost predicate Agrees()
      reads this
    {
      && HeadersAgree(world, blockHeaderCache)
      && AnchorsAgree(hashing, world, anchorCache)
    }

    /** What every clone keeps besides validity: cached keys and seeds stay, and requests are numbered
        upwards. It is both what this code relies on and what it guarantees to the others. */
    twostate predicate Evolves()
      reads this, inner
    {
      && old(blockHeaderCache).Keys <= blockHeaderCache.Keys
      && old(anchorCache).Keys <= anchorCache.Keys
      && old(txCache).Keys <= txCache.Keys
      && old(seeded) <= seeded
      && old(evidence).Keys <= evidence.Keys
      && old(stored) <= stored
      && old(inner.now) <= inner.now
    }

    /** Other clones at work while no lock is held: callers may count on the contract only, so any
        change it allows can happen here. */
    method Interfere()
      requires Valid()
      modifies this, inner
      ensures Valid() && Evolves()
    {
    }

    /** Each cached anchor was there before or is one of the given ones, and all of those are there. */
    twostate predicate SeededWith(new added: set<(Txid, ConfirmationBlockTime)>)
      reads this
    {
      && seeded == old(seeded) + added
      && old(anchorCache).Keys <= anchorCache.Keys
      && (forall p :: p in added ==> (p.0, p.1.blockId.hash) in anchorCache)
      && (forall key :: key in anchorCache ==>
            (key in old(anchorCache) && anchorCache[key] == old(anchorCache)[key])
            || (key.0, anchorCache[key]) in added)
    }

    method SeedAnchors(txid: Txid, anchors: seq<ConfirmationBlockTime>)
      requires Valid()
      requires ideal ==> forall i :: 0 <= i < |anchors| ==> Consistent(hashing, world, anchors[i])
      modifies this
      ensures Valid()
      ensures blockHeaderCache == old(blockHeaderCache) && txCache == old(txCache)
      ensures evidence == old(evidence) && stored == old(stored)
      ensures SeededWith(PairsOf(txid, anchors))
    {
      for j := 0 to |anchors|
        invariant Valid()
        invariant blockHeaderCache == old(blockHeaderCache) && txCache == old(txCache)
        invariant evidence == old(evidence) && stored == old(stored)
        invariant SeededWith(PairsOf(txid, anchors[..j]))
      {
        var anchor := anchors[j];
        assert anchors[..j + 1][..j] == anchors[..j];
        seeded := seeded + {(txid, anchor)};
        anchorCache := anchorCache[(txid, anchor.blockId.hash) := anchor];
      }
      assert anchors[..|anchors|] == anchors;
    }

    /** Seeds the anchor cache, keying each anchor by its own block hash. */
    method PopulateAnchorCache(txAnchors: seq<(Txid, seq<ConfirmationBlockTime>)>)
      requires Valid()
      requires ideal ==> forall i, j :: 0 <= i < |txAnchors| && 0 <= j < |txAnchors[i].1| ==>
                           Consistent(hashing, world, txAnchors[i].1[j])
      modifies this
      ensures Valid()
      ensures blockHeaderCache == old(blockHeaderCache) && txCache == old(txCache)
      ensures evidence == old(evidence) && stored == old(stored)
      ensures SeededWith(Pairs(txAnchors))
    {
      for i := 0 to |txAnchors|
        invariant Valid()
        invariant blockHeaderCache == old(blockHeaderCache) && txCache == old(txCache)
        invariant evidence == old(evidence) && stored == old(stored)
        invariant SeededWith(Pairs(txAnchors[..i]))
      {
        SeedAnchors(txAnchors[i].0, txAnchors[i].1);
        assert txAnchors[..i + 1][..i] == txAnchors[..i];
      }
      assert txAnchors[..|txAnchors|] == txAnchors;
    }

    /** Fetches a transaction by id, using the cache first. */
    method FetchTx(txid: Txid) returns (r: Option<Tx>)
      requires Valid()
      modifies this, inner
      ensures Valid() && Evolves()
      ensures r.Some? ==> Vouches(vouch, txid, r.value) && txid in txCache && txCache[txid] == r.value
      ensures r.None? ==> txid !in old(txCache)
      ensures r.None? ==> exists t: nat :: t >= old(inner.now) && inner.server.TxAt(t, txid).None?
    {
      Interfere();
      if txid in txCache {
        return Some(txCache[txid]);
      }
      var tx := inner.TransactionGet(txid);
      if tx.None? {
        return None;
      }
      Interfere();
      txCache := txCache[txid := tx.value];
      return tx;
    }
  }

  ghost function PairsOf(txid: Txid, anchors: seq<ConfirmationBlockTime>): set<(Txid, ConfirmationBlockTime)> {
    if anchors == [] then {}
    else PairsOf(txid, anchors[..|anchors| - 1]) + {(txid, anchors[|anchors| - 1])}
  }

  ghost function Pairs(txAnchors: seq<(Txid, seq<ConfirmationBlockTime>)>): set<(Txid, ConfirmationBlockTime)> {
    if txAnchors == [] then {}
    else
      var last := txAnchors[|txAnchors| - 1];
      Pairs(txAnchors[..|txAnchors| - 1]) + PairsOf(last.0, last.1)
  }
}
