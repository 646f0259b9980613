/** The two entry points: scanning keychains, and polling known scripts, txids and outpoints. */
module Sync {
  import opened Types
  import opened Server
  import opened Checkpoints
  import opened Reconcile
  import opened Client
  import opened Updates
  import opened Scan
  import Anchors
  import Merkle
  import Soundness
  import Histories
  import Outpoints
  import Prevouts

  /** How a sync ends; `Panicked` is the panic of the checkpoint library. */
  datatype Reply = Done(chainUpdate: Option<seq<BlockId>>) | Failed | Panicked

  /** The tip to report and the server's blocks, once the local tip has been reconciled. */
  type ChainState = Option<(seq<BlockId>, Blocks)>

  ghost predicate Wellformed(chain: ChainState) {
    chain.Some? ==> IsCheckPoint(chain.value.0)
  }

  /** Every anchor belongs to a transaction of the update, is trusted, and answers a pending confirmation. */
  ghost predicate AnchorsSound(client: BdkElectrumClient, update: TxUpdate, pending: PendingAnchors)
    reads client, update, pending
  {
    forall p :: p in update.anchors ==> AnchorSound(client, update, pending, p)
  }

  ghost predicate AnchorSound(client: BdkElectrumClient, update: TxUpdate, pending: PendingAnchors,
                              p: (ConfirmationBlockTime, Txid))
    reads client, update, pending
  {
    && Covered(client.vouch, update.txs, p.1) && (p.1, p.0) in Anchors.Trusted(client)
    && Anchors.Answers(client.hashing, client.stored, pending.items, (p.1, p.0))
    && HeightSound(client, pending, (p.1, p.0))
  }

  /** Unless a caller supplied the anchor, its height is accounted for. */
  ghost predicate HeightSound(client: BdkElectrumClient, pending: PendingAnchors, r: (Txid, ConfirmationBlockTime))
    reads client, pending
  {
    r in client.seeded || Soundness.HeightSound(client.hashing, client.stored, pending.items, r)
  }

  /** Exactly the world's anchor for every pending confirmation. */
  ghost function WorldAnchors(hashing: Hashing, world: World, pending: seq<(Txid, u32)>)
    : set<(ConfirmationBlockTime, Txid)>
  {
    set p | p in pending :: (AnchorAt(hashing, world, p.1), p.0)
  }

  ghost function Swapped(results: Anchors.Results): set<(ConfirmationBlockTime, Txid)> {
    set r | r in results :: (r.1, r.0)
  }

  lemma {:induction false} NaiveMembers(hashing: Hashing, world: World, reqs: Anchors.Requests)
    ensures forall r :: r in Anchors.Naive(hashing, world, reqs) <==>
              exists q :: q in reqs && r == (q.0, AnchorAt(hashing, world, q.1))
    decreases |reqs|
  {
    if reqs != [] {
      var init, last := reqs[..|reqs| - 1], reqs[|reqs| - 1];
      NaiveMembers(hashing, world, init);
      assert reqs == init + [last];
      forall r | exists q :: q in reqs && r == (q.0, AnchorAt(hashing, world, q.1))
        ensures r in Anchors.Naive(hashing, world, reqs)
      {
        var q :| q in reqs && r == (q.0, AnchorAt(hashing, world, q.1));
        assert q in init || q == last;
      }
    }
  }

  lemma SwappedNaive(hashing: Hashing, world: World, pending: Anchors.Requests, results: Anchors.Results)
    requires multiset(results) == multiset(Anchors.Naive(hashing, world, pending))
    ensures Swapped(results) == WorldAnchors(hashing, world, pending)
  {
    NaiveMembers(hashing, world, pending);
    var naive := Anchors.Naive(hashing, world, pending);
    forall r ensures r in results <==> r in naive {
      assert r in results <==> r in multiset(results);
      assert r in naive <==> r in multiset(naive);
    }
    forall p | p in WorldAnchors(hashing, world, pending) ensures p in Swapped(results) {
      assert (p.1, p.0) in results;
    }
  }

  lemma ResultSound(client: BdkElectrumClient, update: TxUpdate, pending: PendingAnchors, results: Anchors.Results,
                    p: (ConfirmationBlockTime, Txid))
    requires client.Valid() && Closed(client.vouch, Now(update, pending)) && (p.1, p.0) in results
    requires Anchors.AllAnswer(client.hashing, client.stored, pending.items, results)
    requires Anchors.AllIn(results, Anchors.Trusted(client))
    ensures AnchorSound(client, update, pending, p)
  {
    if (p.1, p.0) in client.evidence {
      Soundness.HeightTied(client.hashing, client.inner.server, client.stored, client.evidence, pending.items,
                           (p.1, p.0));
    }
    var i :| 0 <= i < |pending.items| && pending.items[i].0 == p.1
             && StoredAt(client.hashing, client.stored, pending.items[i].1, p.0.blockId.hash);
    assert pending.items[i] in Now(update, pending).pending;
  }

  /** Every pending txid has an anchor, unless one of its requests failed or was refuted since then. */
  ghost predicate NoneForgotten(hashing: Hashing, server: Server, since: nat, reqs: Anchors.Requests,
                                anchors: set<(ConfirmationBlockTime, Txid)>) {
    forall p :: p in reqs ==> HasAnchor(anchors, p.0) || WentUnanswered(hashing, server, since, reqs, p.0)
  }

  ghost predicate HasAnchor(anchors: set<(ConfirmationBlockTime, Txid)>, txid: Txid) {
    exists a :: a in anchors && a.1 == txid
  }

  ghost predicate WentUnanswered(hashing: Hashing, server: Server, since: nat, reqs: Anchors.Requests, txid: Txid) {
    exists req: (Txid, u32) :: req.0 == txid && Anchors.Unanswered(hashing, server, since, reqs, req)
  }

  lemma SettledMeans(hashing: Hashing, server: Server, since: nat, later: nat, reqs: Anchors.Requests,
                     results: Anchors.Results, lost: Anchors.Requests)
    requires Anchors.Settled(hashing, server, later, reqs, Anchors.Ids(reqs), results, lost) && since <= later
    ensures NoneForgotten(hashing, server, since, reqs, Swapped(results))
  {
    Anchors.IdsMembers(reqs);
    Anchors.IdsMembers(results);
    Anchors.IdsMembers(lost);
    forall p | p in reqs
      ensures HasAnchor(Swapped(results), p.0) || WentUnanswered(hashing, server, since, reqs, p.0)
    {
      assert p.0 in Anchors.Ids(reqs);
      if p.0 in Anchors.Ids(results) {
        var i :| 0 <= i < |results| && results[i].0 == p.0;
        assert (results[i].1, results[i].0) in Swapped(results);
      } else {
        var i :| 0 <= i < |lost| && lost[i].0 == p.0;
        Anchors.UnansweredSince(hashing, server, since, later, reqs, lost[i]);
      }
    }
  }

  method StoreAnchors(update: TxUpdate, results: Anchors.Results)
    requires update.anchors == {}
    modifies update`anchors
    ensures update.anchors == Swapped(results)
  {
    for i := 0 to |results|
      invariant update.anchors == Swapped(results[..i])
    {
      assert results[..i + 1] == results[..i] + [results[i]];
      update.anchors := update.anchors + {(results[i].1, results[i].0)};
    }
    assert results[..|results|] == results;
  }

  /** Fetches the pending anchors and stores them in the update. */
  method SettleAnchors(client: BdkElectrumClient, update: TxUpdate, pending: PendingAnchors, batchSize: nat,
                       ghost since: nat)
    requires client.Valid() && batchSize > 0 && update.anchors == {} && since <= client.inner.now
    requires Closed(client.vouch, Now(update, pending))
    modifies client, client.inner, update`anchors
    ensures client.Valid() && client.Evolves() && AnchorsSound(client, update, pending)
    ensures NoneForgotten(client.hashing, client.inner.server, since, pending.items, update.anchors)
    ensures client.ideal && Anchors.OnWorld(client.world, pending.items) ==>
              update.anchors == WorldAnchors(client.hashing, client.world, pending.items)
  {
    if pending.items == [] {
      return;
    }
    var results;
    ghost var fromCache, lost;
    results, fromCache, lost := Anchors.BatchFetchAnchors(client, pending.items, batchSize);
    SettledMeans(client.hashing, client.inner.server, since, old(client.inner.now), pending.items, results, lost);
    StoreAnchors(update, results);
    AllSound(client, update, pending, results);
    if client.ideal && Anchors.OnWorld(client.world, pending.items) {
      SwappedNaive(client.hashing, client.world, pending.items, results);
    }
  }

  lemma AllSound(client: BdkElectrumClient, update: TxUpdate, pending: PendingAnchors, results: Anchors.Results)
    requires client.Valid() && Closed(client.vouch, Now(update, pending)) && update.anchors == Swapped(results)
    requires Anchors.AllAnswer(client.hashing, client.stored, pending.items, results)
    requires Anchors.AllIn(results, Anchors.Trusted(client))
    ensures AnchorsSound(client, update, pending)
  {
    forall p | p in update.anchors ensures AnchorSound(client, update, pending, p) {
      ResultSound(client, update, pending, results, p);
    }
  }

  /** The members of a set, in whatever order it is iterated. */
  method InOrder(anchors: set<(ConfirmationBlockTime, Txid)>) returns (r: Reconcile.Anchors)
    ensures forall a :: a in r <==> a in anchors
  {
    r := [];
    var rest := anchors;
    while rest != {}
      invariant rest <= anchors
      invariant forall a :: a in r <==> a in anchors && a !in rest
      decreases rest
    {
      var a :| a in rest;
      r := r + [a];
      rest := rest - {a};
    }
  }

  /** The reported chain: the reconciled one with the anchored blocks below its tip spliced in. */
  ghost predicate Spliced(chain: ChainState, order: Reconcile.Anchors, reported: Option<seq<BlockId>>)
    requires Wellformed(chain)
  {
    && (reported.None? <==> chain.None?)
    && (chain.Some? ==>
          && IsCheckPoint(reported.value) && Tip(reported.value) == Tip(chain.value.0)
          && reported.value[0] == chain.value.0[0]
          && forall b :: b in reported.value <==>
               b in chain.value.0 || Added(chain.value.0, chain.value.1, order, b))
  }

  /** The chain update; an anchor below the base makes the library panic. */
  method Splice(chain: ChainState, anchors: Reconcile.Anchors, ghost all: set<(ConfirmationBlockTime, Txid)>)
    returns (r: Reply)
    requires Wellformed(chain) && forall a :: a in anchors <==> a in all
    ensures !r.Failed? && (r.Done? ==> Spliced(chain, anchors, r.chainUpdate))
    ensures r.Panicked? <==> chain.Some? && exists a :: a in all && a.0.blockId.height < chain.value.0[0].height
  {
    if chain.None? {
      return Done(None);
    }
    var spliced := ChainUpdate(chain.value.0, chain.value.1, anchors);
    if spliced.None? {
      ghost var i :| 0 <= i < |anchors| && HeightOf(anchors[i]) < chain.value.0[0].height;
      assert anchors[i] in all;
      return Panicked;
    }
    assert forall a :: a in all ==> a in anchors;
    r := Done(spliced);
  }

  /** The previous outputs asked for: what the transactions spend, and the world's outputs if only its own
      transactions are delivered. */
  ghost predicate PrevoutsAdded(client: BdkElectrumClient, update: TxUpdate, fetchPrevTxouts: bool)
    reads update
  {
    if fetchPrevTxouts then
      && Prevouts.SpentAdded(client.hashing, client.vouch, update.txs, update.txouts)
      && (Pins(client.vouch, client.world) && Prevouts.CommitsToInputs(client.hashing, update.txs) ==>
            update.txouts == Prevouts.OutputsAt(client.world, Prevouts.Spent(update.txs)))
    else
      update.txouts == map[]
  }

  /** The anchors: sound, none forgotten, and with an honest server exactly the world's. */
  ghost predicate AnchorsSettled(client: BdkElectrumClient, update: TxUpdate, pending: PendingAnchors, since: nat)
    reads client, update, pending
  {
    && AnchorsSound(client, update, pending)
    && NoneForgotten(client.hashing, client.inner.server, since, pending.items, update.anchors)
    && (client.ideal && Anchors.OnWorld(client.world, pending.items) ==>
          update.anchors == WorldAnchors(client.hashing, client.world, pending.items))
  }

  /** The chain update: the anchors spliced in in some order, or a panic if one lies below the base. */
  ghost predicate ChainReported(anchors: set<(ConfirmationBlockTime, Txid)>, chain: ChainState,
                                order: Reconcile.Anchors, r: Reply)
    requires Wellformed(chain)
  {
    && (forall a :: a in order <==> a in anchors)
    && (r.Done? ==> Spliced(chain, order, r.chainUpdate))
    && (r.Panicked? <==> chain.Some? && exists a :: a in anchors && a.0.blockId.height < chain.value.0[0].height)
  }

  /** How both entry points end, unless a request fails. */
  ghost predicate Ended(client: BdkElectrumClient, update: TxUpdate, pending: PendingAnchors, since: nat,
                        fetchPrevTxouts: bool, chain: ChainState, order: Reconcile.Anchors, r: Reply)
    reads client, update, pending
    requires Wellformed(chain)
  {
    && AnchorsSettled(client, update, pending, since)
    && PrevoutsAdded(client, update, fetchPrevTxouts)
    && ChainReported(update.anchors, chain, order, r)
  }

  method AddPrevouts(client: BdkElectrumClient, update: TxUpdate, fetchPrevTxouts: bool, ghost since: nat)
    returns (ok: bool)
    requires client.Valid() && update.txouts == map[] && since <= client.inner.now
    modifies client, client.inner, update`txouts
    ensures client.Valid() && client.Evolves()
    ensures !ok ==> fetchPrevTxouts && Prevouts.SpentFailed(client.inner.server, since, update.txs)
    ensures ok ==> PrevoutsAdded(client, update, fetchPrevTxouts)
  {
    ok := true;
    if fetchPrevTxouts {
      ok := Prevouts.FetchPrevTxout(client, update);
    }
  }

  method ReportChain(anchors: set<(ConfirmationBlockTime, Txid)>, chain: ChainState)
    returns (r: Reply, ghost order: Reconcile.Anchors)
    requires Wellformed(chain)
    ensures !r.Failed? && ChainReported(anchors, chain, order, r)
  {
    var ordered := InOrder(anchors);
    order := ordered;
    r := Splice(chain, ordered, anchors);
  }

  /** The common end of both entry points: previous outputs, anchors, and the chain update. */
  method Finish(client: BdkElectrumClient, update: TxUpdate, pending: PendingAnchors, batchSize: nat,
                fetchPrevTxouts: bool, chain: ChainState, ghost since: nat)
    returns (r: Reply, ghost order: Reconcile.Anchors)
    requires client.Valid() && batchSize > 0 && Wellformed(chain) && since <= client.inner.now
    requires update.anchors == {} && update.txouts == map[] && Closed(client.vouch, Now(update, pending))
    modifies client, client.inner, update
    ensures client.Valid() && client.Evolves()
    ensures Now(update, pending) == old(Now(update, pending))
    ensures r.Failed? ==>
              fetchPrevTxouts && Prevouts.SpentFailed(client.inner.server, since, update.txs)
    ensures !r.Failed? ==> Ended(client, update, pending, since, fetchPrevTxouts, chain, order, r)
  {
    order := [];
    var ok := AddPrevouts(client, update, fetchPrevTxouts, since);
    if !ok {
      return Reply.Failed, order;
    }
    SettleAnchors(client, update, pending, batchSize, since);
    r, order := ReportChain(update.anchors, chain);
  }

  /** How the reported chain starts out: untouched if the tip reported by request `t`, the first one made,
      is behind, and reconciled otherwise. */
  ghost predicate ChainStarted(hashing: Hashing, server: Server, t: nat, chainTip: Option<seq<BlockId>>,
                               chain: ChainState)
    requires chainTip.Some? ==> IsCheckPoint(chainTip.value)
  {
    if chainTip.None? then chain.None?
    else
      && chain.Some? && server.Tip(t).Some?
      && if server.Tip(t).value < Tip(chainTip.value).height then chain.value == (chainTip.value, map[])
         else
           exists suffix: Blocks, k: nat ::
             && Reconciled(chainTip.value, chain.value.1, k, chain.value.0)
             && FromServer(hashing, server, chainTip.value, suffix, chain.value.1)
             && SentSuffix(hashing, server, server.Tip(t).value, suffix)
  }

  method StartChain(client: BdkElectrumClient, chainTip: Option<seq<BlockId>>) returns (ok: bool, chain: ChainState)
    requires client.Valid() && (chainTip.Some? ==> IsCheckPoint(chainTip.value))
    modifies client.inner
    ensures client.Valid() && client.Evolves()
    ensures !ok ==> chainTip.Some? && SomeRequestFailed(client.inner.server, old(client.inner.now), chainTip.value)
    ensures ok ==> Wellformed(chain)
                   && ChainStarted(client.hashing, client.inner.server, old(client.inner.now), chainTip, chain)
    ensures ok && chain.Some? ==> chain.value.0[0].height <= chainTip.value[0].height
  {
    if chainTip.None? {
      return true, None;
    }
    var fetched;
    ghost var newTip, suffix, k;
    fetched, newTip, suffix, k := FetchTipAndLatestBlocks(client.hashing, client.inner, chainTip.value);
    if fetched.Some? && newTip >= Tip(chainTip.value).height {
      BaseNotRaised(chainTip.value, fetched.value.1, k, fetched.value.0);
    }
    ok, chain := fetched.Some?, fetched;
  }

  // ----- The reported chain and the server's chain -----

  lemma {:induction false} SplicedHashSource(latest: Blocks, anchors: Reconcile.Anchors, height: u32)
    requires Anchored(anchors, height)
    ensures height in latest ==> SplicedHash(latest, anchors, height) == latest[height]
    ensures height !in latest ==>
      exists i :: (
        && 0 <= i < |anchors|
        && HeightOf(anchors[i]) == height
        && SplicedHash(latest, anchors, height) == anchors[i].0.blockId.hash)
    decreases |anchors|
  {
    if height !in latest && HeightOf(anchors[0]) != height {
      var i :| 0 <= i < |anchors| && HeightOf(anchors[i]) == height;
      assert anchors[1..][i - 1] == anchors[i];
      SplicedHashSource(latest, anchors[1..], height);
      var j :| 0 <= j < |anchors[1..]| && HeightOf(anchors[1..][j]) == height
               && SplicedHash(latest, anchors[1..], height) == anchors[1..][j].0.blockId.hash;
      assert anchors[j + 1] == anchors[1..][j];
    }
  }

  /** The headers the world has from here on, up to a number. */
  function HeadersFrom(world: World, start: u32, count: nat): (headers: seq<Header>)
    requires start <= world.tip
    ensures |headers| == if count <= world.tip + 1 - start then count else world.tip + 1 - start
    ensures forall i :: 0 <= i < |headers| ==> headers[i] == world.HeaderAt(start + i)
  {
    seq(if count <= world.tip + 1 - start then count else world.tip + 1 - start,
        i requires 0 <= i <= world.tip - start => world.HeaderAt(start + i))
  }

  /** The world's tip and header ranges are reported truthfully at all times. */
  ghost predicate ReportsChain(server: Server, world: World) {
    && (forall t: nat :: server.Tip(t) == Some(world.tip))
    && (forall t: nat, start: u32, count: nat :: start <= world.tip ==>
          server.HeadersAt(t, start, count) == Some(HeadersFrom(world, start, count)))
  }

  /** An honest server, whose chain is linked and no shorter than the local one, which is linked as well. */
  ghost predicate HonestSetting(server: Server, hashing: Hashing, world: World, ours: u32 -> Header,
                                chainTip: Option<seq<BlockId>>) {
    && ServesChain(server, hashing, world) && ReportsChain(server, world)
    && Linked(hashing, world.header, world.tip)
    && (chainTip.Some? && IsCheckPoint(chainTip.value) ==>
          && OnChain(hashing, ours, chainTip.value)
          && Linked(hashing, ours, Tip(chainTip.value).height)
          && Tip(chainTip.value).height <= world.tip)
  }

  /** A block of the world, or two chains that collide above its height. */
  ghost predicate OfWorld(hashing: Hashing, world: World, ours: u32 -> Header, b: BlockId) {
    || b.hash == hashing.BlockHash(world.HeaderAt(b.height))
    || exists top: u32 :: b.height <= top && Collides(hashing, ours, world.header, top, b.height)
  }

  /** The list ends at the world's tip and lies on its chain. */
  ghost predicate HonestReport(hashing: Hashing, world: World, ours: u32 -> Header, reported: seq<BlockId>)
    requires IsCheckPoint(reported)
  {
    && Tip(reported) == BlockId(world.tip, hashing.BlockHash(world.HeaderAt(world.tip)))
    && forall b :: b in reported ==> OfWorld(hashing, world, ours, b)
  }

  /** There are such servers: a chain of one block with one transaction, always answered. */
  lemma HonestSettingPossible(hashing: Hashing, txid: Txid, tx: Tx)
    returns (server: Server, world: World, chainTip: seq<BlockId>)
    ensures IsCheckPoint(chainTip) && HonestSetting(server, hashing, world, world.header, Some(chainTip))
  {
    var header := Header(0, txid, 0, 0);
    world := World(0, (h: u32) => [txid], (h: u32) => header, (s: Script) => [], (t: Txid) => tx);
    server := Server((t: nat) => false, (t: nat) => Some(0),
                     (t: nat, h: u32) => if h == 0 then Some(header) else None,
                     (t: nat, start: u32, count: nat) => Some(if count == 0 then [] else [header]),
                     (t: nat, s: Script) => Some([]),
                     (t: nat, id: Txid) => Some(tx),
                     (t: nat, asked: (Txid, u32)) => Some(Merkle.Proof([], 0)));
    chainTip := [BlockId(0, hashing.BlockHash(header))];
    assert Merkle.Branch(hashing.node, [txid], 0) == [];
    forall t: nat, start: u32, count: nat | start <= world.tip
      ensures server.HeadersAt(t, start, count) == Some(HeadersFrom(world, start, count))
    {
      assert HeadersFrom(world, start, count) == if count == 0 then [] else [header];
    }
  }

  lemma WorldAnswers(server: Server, hashing: Hashing, world: World)
    requires ServesChain(server, hashing, world) && ReportsChain(server, world)
    ensures AnswersFrom(server, world.header, world.tip)
  {
    var start := SuffixStart(world.tip);
    forall t: nat ensures RangeFrom(server.HeadersAt(t, start, CHAIN_SUFFIX_LENGTH), world.header, start) {
      assert server.HeadersAt(t, start, CHAIN_SUFFIX_LENGTH)
             == Some(HeadersFrom(world, start, CHAIN_SUFFIX_LENGTH));
    }
  }

  /** With an honest server the reconciled list ends at its tip and lies on its chain, and so does every
      block known. */
  lemma StartedOnChain(server: Server, hashing: Hashing, world: World, ours: u32 -> Header, t: nat,
                       chainTip: seq<BlockId>, chain: ChainState)
    requires IsCheckPoint(chainTip) && HonestSetting(server, hashing, world, ours, Some(chainTip))
    requires Wellformed(chain) && ChainStarted(hashing, server, t, Some(chainTip), chain)
    ensures chain.Some? && HonestReport(hashing, world, ours, chain.value.0)
    ensures forall h :: h in chain.value.1 ==> chain.value.1[h] == hashing.BlockHash(world.HeaderAt(h))
  {
    assert server.Tip(t) == Some(world.tip);
    var result, latest := chain.value.0, chain.value.1;
    var suffix: Blocks, k: nat :| Reconciled(chainTip, latest, k, result)
                                  && FromServer(hashing, server, chainTip, suffix, latest)
                                  && SentSuffix(hashing, server, world.tip, suffix);
    WorldAnswers(server, hashing, world);
    KnownOnChain(hashing, server, world.header, chainTip, world.tip, suffix, latest);
    SentWorld(server, hashing, world, suffix);
    WorldTip(server, hashing, world, chainTip, suffix, latest, k, result);
    forall b | b in result ensures OfWorld(hashing, world, ours, b) {
      MemberOfWorld(server, hashing, world, ours, chainTip, suffix, latest, k, result, b);
    }
  }

  lemma WorldTip(server: Server, hashing: Hashing, world: World, chainTip: seq<BlockId>, suffix: Blocks,
                 latest: Blocks, k: nat, result: seq<BlockId>)
    requires IsCheckPoint(chainTip) && Tip(chainTip).height <= world.tip
    requires Reconciled(chainTip, latest, k, result) && FromServer(hashing, server, chainTip, suffix, latest)
    requires suffix == ByHeight(hashing, SuffixStart(world.tip),
                                HeadersFrom(world, SuffixStart(world.tip), CHAIN_SUFFIX_LENGTH))
    ensures IsCheckPoint(result)
    ensures Tip(result) == BlockId(world.tip, hashing.BlockHash(world.HeaderAt(world.tip)))
  {
    ReconciledTip(hashing, server, chainTip, world.tip, HeadersFrom(world, SuffixStart(world.tip), CHAIN_SUFFIX_LENGTH),
                  latest, k, result);
  }

  lemma MemberOfWorld(server: Server, hashing: Hashing, world: World, ours: u32 -> Header, chainTip: seq<BlockId>,
                      suffix: Blocks, latest: Blocks, k: nat, result: seq<BlockId>, b: BlockId)
    requires IsCheckPoint(chainTip) && Reconciled(chainTip, latest, k, result) && b in result
    requires FromServer(hashing, server, chainTip, suffix, latest) && SentSuffix(hashing, server, world.tip, suffix)
    requires AnswersFrom(server, world.header, world.tip) && Linked(hashing, world.header, world.tip)
    requires OnChain(hashing, ours, chainTip) && Linked(hashing, ours, Tip(chainTip).height)
    requires Tip(chainTip).height <= world.tip
    ensures OfWorld(hashing, world, ours, b)
  {
    var i :| 0 <= i < |result| && result[i] == b;
    ReconciledOnServerChain(hashing, server, ours, world.header, chainTip, world.tip, suffix, latest, k, result, i);
  }

  lemma SentWorld(server: Server, hashing: Hashing, world: World, suffix: Blocks)
    requires ReportsChain(server, world) && SentSuffix(hashing, server, world.tip, suffix)
    ensures suffix == ByHeight(hashing, SuffixStart(world.tip),
                               HeadersFrom(world, SuffixStart(world.tip), CHAIN_SUFFIX_LENGTH))
  {
  }

  /** With an honest server and the world's anchors, what is reported ends at the server's tip and lies on
      its chain, or the two chains collide. */
  lemma ReportedOnChain(server: Server, hashing: Hashing, world: World, ours: u32 -> Header, t: nat,
                        chainTip: seq<BlockId>, chain: ChainState, order: Reconcile.Anchors,
                        reported: seq<BlockId>)
    requires IsCheckPoint(chainTip) && HonestSetting(server, hashing, world, ours, Some(chainTip))
    requires Wellformed(chain) && ChainStarted(hashing, server, t, Some(chainTip), chain)
    requires Spliced(chain, order, Some(reported))
    requires forall i :: 0 <= i < |order| ==> order[i].0 == AnchorAt(hashing, world, HeightOf(order[i]))
    ensures IsCheckPoint(reported) && HonestReport(hashing, world, ours, reported)
  {
    StartedOnChain(server, hashing, world, ours, t, chainTip, chain);
    forall b | b in reported ensures OfWorld(hashing, world, ours, b) {
      if b !in chain.value.0 {
        SplicedHashSource(chain.value.1, order, b.height);
      }
    }
  }

  // ----- The order in which anchors are spliced in -----

  ghost predicate SameAnchors(a: Reconcile.Anchors, b: Reconcile.Anchors) {
    forall x :: x in a <==> x in b
  }

  /** A height not above the tip, where neither the list nor the server's known blocks have one. */
  predicate OpenHeight(chain: (seq<BlockId>, Blocks), height: u32)
    requires IsCheckPoint(chain.0)
  {
    height <= Tip(chain.0).height && !HasHeight(chain.0, height) && height !in chain.1
  }

  predicate BothOpen(chain: (seq<BlockId>, Blocks), a: (ConfirmationBlockTime, Txid), b: (ConfirmationBlockTime, Txid))
    requires IsCheckPoint(chain.0)
  {
    HeightOf(a) == HeightOf(b) && OpenHeight(chain, HeightOf(a))
  }

  /** The anchors of an open height name one block. */
  predicate Unambiguous(chain: (seq<BlockId>, Blocks), order: Reconcile.Anchors)
    requires IsCheckPoint(chain.0)
  {
    forall i, j :: 0 <= i < |order| && 0 <= j < |order| && BothOpen(chain, order[i], order[j]) ==>
      order[i].0.blockId.hash == order[j].0.blockId.hash
  }

  /** Whatever the order in which anchors that name one block for each open height are spliced in, the
      reported list is the same. */
  lemma OrderIrrelevant(chain: (seq<BlockId>, Blocks), order: Reconcile.Anchors, other: Reconcile.Anchors,
                        reported: seq<BlockId>, otherwise: seq<BlockId>)
    requires IsCheckPoint(chain.0) && SameAnchors(order, other) && Unambiguous(chain, order)
    requires Spliced(Some(chain), order, Some(reported)) && Spliced(Some(chain), other, Some(otherwise))
    ensures reported == otherwise
  {
    forall b: BlockId ensures Added(chain.0, chain.1, order, b) <==> Added(chain.0, chain.1, other, b) {
      if Anchored(order, b.height) && Anchored(other, b.height) && b.height <= Tip(chain.0).height
         && !HasHeight(chain.0, b.height)
      {
        SameSplicedHash(chain, order, other, b.height);
      } else {
        SameHeights(order, other, b.height);
      }
    }
    SameBlocksSameList(reported, otherwise);
  }

  lemma SameHeights(order: Reconcile.Anchors, other: Reconcile.Anchors, height: u32)
    requires SameAnchors(order, other)
    ensures Anchored(order, height) <==> Anchored(other, height)
  {
    if Anchored(order, height) {
      var i :| 0 <= i < |order| && HeightOf(order[i]) == height;
      assert order[i] in other;
    }
    if Anchored(other, height) {
      var i :| 0 <= i < |other| && HeightOf(other[i]) == height;
      assert other[i] in order;
    }
  }

  lemma SameSplicedHash(chain: (seq<BlockId>, Blocks), order: Reconcile.Anchors, other: Reconcile.Anchors,
                        height: u32)
    requires IsCheckPoint(chain.0) && SameAnchors(order, other) && Unambiguous(chain, order)
    requires Anchored(order, height) && Anchored(other, height)
    requires height <= Tip(chain.0).height && !HasHeight(chain.0, height)
    ensures SplicedHash(chain.1, order, height) == SplicedHash(chain.1, other, height)
  {
    SplicedHashSource(chain.1, order, height);
    SplicedHashSource(chain.1, other, height);
    if height !in chain.1 {
      var j :| 0 <= j < |other| && HeightOf(other[j]) == height
               && SplicedHash(chain.1, other, height) == other[j].0.blockId.hash;
      assert other[j] in order;
    }
  }

  /** And only then: otherwise two orders of the same anchors are reported differently. */
  lemma OrderMatters(chain: (seq<BlockId>, Blocks), order: Reconcile.Anchors)
    returns (first: Reconcile.Anchors, second: Reconcile.Anchors)
    requires IsCheckPoint(chain.0) && !Unambiguous(chain, order)
    ensures SameAnchors(order, first) && SameAnchors(order, second)
    ensures forall reported, otherwise ::
              Spliced(Some(chain), first, Some(reported)) && Spliced(Some(chain), second, Some(otherwise)) ==>
                reported != otherwise
  {
    var i, j :| 0 <= i < |order| && 0 <= j < |order| && BothOpen(chain, order[i], order[j])
                && order[i].0.blockId.hash != order[j].0.blockId.hash;
    first, second := [order[i]] + order, [order[j]] + order;
    var a, b := order[i].0.blockId, order[j].0.blockId;
    assert first[0] == order[i] && second[0] == order[j];
    assert Added(chain.0, chain.1, first, a) && Added(chain.0, chain.1, second, b);
    forall reported, otherwise |
      Spliced(Some(chain), first, Some(reported)) && Spliced(Some(chain), second, Some(otherwise))
      ensures reported != otherwise
    {
      assert a in reported && b in otherwise;
    }
  }

  /** In particular the world's anchors give one report. */
  lemma WorldOrderIrrelevant(hashing: Hashing, world: World, chain: (seq<BlockId>, Blocks), order: Reconcile.Anchors,
                             other: Reconcile.Anchors, reported: seq<BlockId>, otherwise: seq<BlockId>)
    requires IsCheckPoint(chain.0) && SameAnchors(order, other)
    requires forall i :: 0 <= i < |order| ==> order[i].0 == AnchorAt(hashing, world, HeightOf(order[i]))
    requires Spliced(Some(chain), order, Some(reported)) && Spliced(Some(chain), other, Some(otherwise))
    ensures reported == otherwise
  {
    OrderIrrelevant(chain, order, other, reported, otherwise);
  }

  lemma WorldOrder(hashing: Hashing, world: World, pending: seq<(Txid, u32)>,
                   anchors: set<(ConfirmationBlockTime, Txid)>, order: Reconcile.Anchors)
    requires anchors == WorldAnchors(hashing, world, pending) && forall a :: a in order <==> a in anchors
    ensures forall i :: 0 <= i < |order| ==> order[i].0 == AnchorAt(hashing, world, HeightOf(order[i]))
  {
    forall i | 0 <= i < |order| ensures order[i].0 == AnchorAt(hashing, world, HeightOf(order[i])) {
      assert order[i] in anchors;
    }
  }

  /** What the end of a sync says about an honest server: the reported list ends at its tip and lies on its
      chain, or the local chain collides with it. */
  ghost predicate HonestEnd(server: Server, hashing: Hashing, world: World, ideal: bool, ours: u32 -> Header,
                            chainTip: Option<seq<BlockId>>, pending: seq<(Txid, u32)>, r: Reply)
    requires r.Done? && r.chainUpdate.Some? ==> IsCheckPoint(r.chainUpdate.value)
  {
    r.Done? && chainTip.Some? && ideal && Anchors.OnWorld(world, pending)
    && HonestSetting(server, hashing, world, ours, chainTip) ==>
      r.chainUpdate.Some? && HonestReport(hashing, world, ours, r.chainUpdate.value)
  }

  lemma EndsHonestly(server: Server, hashing: Hashing, world: World, ideal: bool, ours: u32 -> Header, t: nat,
                     chainTip: Option<seq<BlockId>>, chain: ChainState, pending: seq<(Txid, u32)>,
                     anchors: set<(ConfirmationBlockTime, Txid)>, order: Reconcile.Anchors, r: Reply)
    requires chainTip.Some? ==> IsCheckPoint(chainTip.value)
    requires Wellformed(chain) && ChainStarted(hashing, server, t, chainTip, chain)
    requires ChainReported(anchors, chain, order, r)
    requires ideal && Anchors.OnWorld(world, pending) ==> anchors == WorldAnchors(hashing, world, pending)
    ensures HonestEnd(server, hashing, world, ideal, ours, chainTip, pending, r)
  {
    if r.Done? && chainTip.Some? && ideal && Anchors.OnWorld(world, pending)
       && HonestSetting(server, hashing, world, ours, chainTip)
    {
      WorldOrder(hashing, world, pending, anchors, order);
      ReportedOnChain(server, hashing, world, ours, t, chainTip.value, chain, order, r.chainUpdate.value);
    }
  }

  /** Finishes a sync that started from this chain. */
  method Conclude(client: BdkElectrumClient, update: TxUpdate, pending: PendingAnchors, batchSize: nat,
                  fetchPrevTxouts: bool, chain: ChainState, ghost chainTip: Option<seq<BlockId>>, ghost since: nat,
                  ghost ours: u32 -> Header)
    returns (r: Reply, ghost order: Reconcile.Anchors)
    requires client.Valid() && batchSize > 0 && Wellformed(chain) && since <= client.inner.now
    requires update.anchors == {} && update.txouts == map[] && Closed(client.vouch, Now(update, pending))
    requires chainTip.Some? ==> IsCheckPoint(chainTip.value)
    requires ChainStarted(client.hashing, client.inner.server, since, chainTip, chain)
    modifies client, client.inner, update
    ensures client.Valid() && client.Evolves()
    ensures Now(update, pending) == old(Now(update, pending))
    ensures r.Failed? ==> fetchPrevTxouts && Prevouts.SpentFailed(client.inner.server, since, update.txs)
    ensures !r.Failed? ==>
              && Ended(client, update, pending, since, fetchPrevTxouts, chain, order, r)
              && HonestEnd(client.inner.server, client.hashing, client.world, client.ideal, ours, chainTip,
                           pending.items, r)
  {
    r, order := Finish(client, update, pending, batchSize, fetchPrevTxouts, chain, since);
    if !r.Failed? {
      EndsHonestly(client.inner.server, client.hashing, client.world, client.ideal, ours, since, chainTip, chain,
                   pending.items, update.anchors, order, r);
    }
  }

  // ----- Full scan -----

  type Keychain = nat

  /** A keychain and the scripts derived from it, with their indices. */
  datatype KeychainSpks = KeychainSpks(keychain: Keychain, at: nat -> (u32, Script), len: Option<nat>)
  {
    /** The scripts of a keychain carry no expectations. */
    function Source(): SpkSource {
      SpkSource((i: nat) => SpkItem(at(i).0, at(i).1, {}), len)
    }
  }

  ghost predicate NoExpectations(source: SpkSource) {
    forall i: nat :: source.Item(i).expectedTxids == {}
  }

  lemma {:induction false} NoEvictions(source: SpkSource, answers: Answers, start: u64)
    requires NoExpectations(source)
    ensures Evictions(source, answers, start) == {}
    decreases |answers|
  {
    if answers != [] {
      NoEvictions(source, answers[..|answers| - 1], start);
    }
  }

  /** All entries recorded, keychain by keychain. */
  ghost function AllEntries(scanned: seq<Answers>, gap: nat): History {
    if scanned == [] then []
    else AllEntries(scanned[..|scanned| - 1], gap) + Flatten(Processed(scanned[|scanned| - 1], gap))
  }

  /** Each keychain was scanned to its stop gap, and its last active index is reported if it has one. */
  ghost predicate KeychainsScanned(server: Server, keychains: seq<KeychainSpks>, scanned: seq<Answers>, gap: nat,
                                   lastActive: map<Keychain, u32>) {
    && |scanned| == |keychains|
    && (forall i :: 0 <= i < |keychains| ==> KeychainScanned(server, keychains[i], scanned[i], gap, lastActive))
    && KnownKeys(keychains, lastActive)
  }

  ghost predicate KnownKeys(keychains: seq<KeychainSpks>, lastActive: map<Keychain, u32>) {
    forall key :: key in lastActive ==> exists i :: 0 <= i < |keychains| && keychains[i].keychain == key
  }

  lemma KnownKeysNext(keychains: seq<KeychainSpks>, i: nat, lastActive: map<Keychain, u32>, index: u32)
    requires i < |keychains| && KnownKeys(keychains[..i], lastActive)
    ensures KnownKeys(keychains[..i + 1], lastActive)
    ensures KnownKeys(keychains[..i + 1], lastActive[keychains[i].keychain := index])
  {
    assert keychains[..i + 1][i].keychain == keychains[i].keychain;
    assert forall j :: 0 <= j < i ==> keychains[..i + 1][j] == keychains[..i][j];
  }

  ghost predicate KeychainScanned(server: Server, keychain: KeychainSpks, answers: Answers, gap: nat,
                                  lastActive: map<Keychain, u32>) {
    && Examined(keychain.Source(), answers, gap) && Given(server, keychain.Source(), answers)
    && Reported(keychain.keychain, LastActive(keychain.Source(), answers), lastActive)
  }

  predicate Reported(key: Keychain, last: Option<u32>, lastActive: map<Keychain, u32>) {
    if last.Some? then key in lastActive && lastActive[key] == last.value else key !in lastActive
  }

  ghost predicate SomeScanFailed(server: Server, since: nat, keychains: seq<KeychainSpks>) {
    exists i :: 0 <= i < |keychains| && ScanFailed(server, since, keychains[i].Source())
  }

  ghost predicate Distinct(keychains: seq<KeychainSpks>) {
    forall i, j :: 0 <= i < j < |keychains| ==> keychains[i].keychain != keychains[j].keychain
  }

  lemma KeychainKept(server: Server, keychain: KeychainSpks, answers: Answers, gap: nat,
                     lastActive: map<Keychain, u32>, key: Keychain, index: u32)
    requires KeychainScanned(server, keychain, answers, gap, lastActive) && keychain.keychain != key
    ensures KeychainScanned(server, keychain, answers, gap, lastActive[key := index])
  {
  }

  lemma ScannedNext(server: Server, keychains: seq<KeychainSpks>, i: nat, scanned: seq<Answers>, gap: nat,
                    lastActive: map<Keychain, u32>, answers: Answers, last: Option<u32>)
    requires i < |keychains| && Distinct(keychains)
    requires KeychainsScanned(server, keychains[..i], scanned, gap, lastActive)
    requires Examined(keychains[i].Source(), answers, gap) && Given(server, keychains[i].Source(), answers)
    requires last == LastActive(keychains[i].Source(), answers)
    ensures KeychainsScanned(server, keychains[..i + 1], scanned + [answers], gap,
                             if last.Some? then lastActive[keychains[i].keychain := last.value] else lastActive)
  {
    var key := keychains[i].keychain;
    var next := if last.Some? then lastActive[key := last.value] else lastActive;
    var before, after := keychains[..i], keychains[..i + 1];
    assert key !in lastActive;
    forall j | 0 <= j < |after|
      ensures KeychainScanned(server, after[j], (scanned + [answers])[j], gap, next)
    {
      if j < i {
        assert after[j] == before[j] && (scanned + [answers])[j] == scanned[j];
        if last.Some? {
          KeychainKept(server, before[j], scanned[j], gap, lastActive, key, last.value);
        }
      }
    }
    KnownKeysNext(keychains, i, lastActive, if last.Some? then last.value else 0);
  }

  lemma KeychainGrown(vouch: Vouch, start: u64, before: Gathered, mid: Gathered, now: Gathered, source: SpkSource,
                      gap: nat, scanned: seq<Answers>, got: seq<Tx>, answers: Answers, more: seq<Tx>, last: Option<u32>)
    requires NoExpectations(source) && Outcome(source, gap, vouch, start, mid, now, answers, more, last)
    requires Grown(vouch, start, before, mid, AllEntries(scanned, gap), got, {})
    ensures Grown(vouch, start, before, now, AllEntries(scanned + [answers], gap), got + more, {})
  {
    NoEvictions(source, Processed(answers, gap), start);
    GrownTwice(vouch, start, before, mid, now, AllEntries(scanned, gap), got, {},
               Flatten(Processed(answers, gap)), more, {});
    assert before.evicted + {} == now.evicted;
    assert (scanned + [answers])[..|scanned|] == scanned;
  }

  method ScanKeychains(client: BdkElectrumClient, start: u64, update: TxUpdate, pending: PendingAnchors,
                       keychains: seq<KeychainSpks>, stopGap: nat, batchSize: nat, ghost bounds: seq<nat>)
    returns (ok: bool, lastActive: map<Keychain, u32>, ghost scanned: seq<Answers>, ghost got: seq<Tx>)
    requires client.Valid() && 0 < stopGap <= USIZE_MAX && batchSize > 0
    requires Distinct(keychains) && |bounds| == |keychains|
    requires forall i :: 0 <= i < |keychains| ==>
               QuietFrom(client.inner.server, keychains[i].Source(), bounds[i])
    modifies client, client.inner, update, pending
    ensures client.Valid() && client.Evolves()
    ensures update.txouts == old(update.txouts) && update.anchors == old(update.anchors)
    ensures !ok ==> SomeScanFailed(client.inner.server, old(client.inner.now), keychains)
    ensures ok ==> KeychainsScanned(client.inner.server, keychains, scanned, stopGap, lastActive)
    ensures ok ==> Grown(client.vouch, start, old(Now(update, pending)), Now(update, pending),
                         AllEntries(scanned, stopGap), got, {})
  {
    ghost var before := Now(update, pending);
    lastActive, scanned, got := map[], [], [];
    for i := 0 to |keychains|
      invariant client.Valid() && client.Evolves()
      invariant update.txouts == old(update.txouts) && update.anchors == old(update.anchors)
      invariant KeychainsScanned(client.inner.server, keychains[..i], scanned, stopGap, lastActive)
      invariant Grown(client.vouch, start, before, Now(update, pending), AllEntries(scanned, stopGap), got, {})
    {
      ghost var mid := Now(update, pending);
      var it := new SpkIter(keychains[i].Source());
      var r;
      ghost var answers, more;
      r, answers, more := PopulateWithSpks(client, start, update, it, stopGap, batchSize, pending, bounds[i]);
      if r.Err? {
        return false, lastActive, scanned, got;
      }
      ScannedNext(client.inner.server, keychains, i, scanned, stopGap, lastActive, answers, r.value);
      KeychainGrown(client.vouch, start, before, mid, Now(update, pending), keychains[i].Source(), stopGap,
                    scanned, got, answers, more, r.value);
      if r.value.Some? {
        lastActive := lastActive[keychains[i].keychain := r.value.value];
      }
      scanned, got := scanned + [answers], got + more;
    }
    assert keychains[..|keychains|] == keychains;
    ok := true;
  }

  method FullScan(client: BdkElectrumClient, start: u64, chainTip: Option<seq<BlockId>>, keychains: seq<KeychainSpks>,
                  stopGap: nat, batchSize: nat, fetchPrevTxouts: bool, ghost bounds: seq<nat>,
                  ghost ours: u32 -> Header)
    returns (r: Reply, update: TxUpdate, pending: PendingAnchors, lastActive: map<Keychain, u32>,
             ghost scanned: seq<Answers>, ghost got: seq<Tx>, ghost chain: ChainState, ghost order: Reconcile.Anchors)
    requires client.Valid() && 0 < stopGap <= USIZE_MAX && batchSize > 0
    requires chainTip.Some? ==> IsCheckPoint(chainTip.value)
    requires Distinct(keychains) && |bounds| == |keychains|
    requires forall i :: 0 <= i < |keychains| ==>
               QuietFrom(client.inner.server, keychains[i].Source(), bounds[i])
    modifies client, client.inner
    ensures client.Valid() && client.Evolves() && fresh(update) && fresh(pending)
    // What was scanned and recorded.
    ensures !r.Failed? ==>
              && KeychainsScanned(client.inner.server, keychains, scanned, stopGap, lastActive)
              && Grown(client.vouch, start, Gathered([], [], {}, {}), Now(update, pending),
                       AllEntries(scanned, stopGap), got, {})
    // Everything recorded has its transaction.
    ensures !r.Failed? ==> Closed(client.vouch, Now(update, pending))
    ensures r.Failed? ==>
              || (chainTip.Some? && SomeRequestFailed(client.inner.server, old(client.inner.now), chainTip.value))
              || SomeScanFailed(client.inner.server, old(client.inner.now), keychains)
              || (fetchPrevTxouts
                  && Prevouts.SpentFailed(client.inner.server, old(client.inner.now), update.txs))
    // Anchors, previous outputs, and the reported chain.
    ensures !r.Failed? ==>
              && Wellformed(chain)
              && ChainStarted(client.hashing, client.inner.server, old(client.inner.now), chainTip, chain)
              && Ended(client, update, pending, old(client.inner.now), fetchPrevTxouts, chain, order, r)
              && HonestEnd(client.inner.server, client.hashing, client.world, client.ideal, ours, chainTip,
                           pending.items, r)
    ensures r.Panicked? ==> chainTip.Some? && chainTip.value[0].height > 0
  {
    update := new TxUpdate();
    pending := new PendingAnchors();
    lastActive, scanned, got, order, chain := map[], [], [], [], None;
    var ok, started := StartChain(client, chainTip);
    if !ok {
      return Reply.Failed, update, pending, lastActive, scanned, got, chain, order;
    }
    chain := started;
    ok, lastActive, scanned, got := ScanKeychains(client, start, update, pending, keychains, stopGap, batchSize,
                                                  bounds);
    if !ok {
      return Reply.Failed, update, pending, lastActive, scanned, got, chain, order;
    }
    GrownClosed(client.vouch, start, Gathered([], [], {}, {}), Now(update, pending), AllEntries(scanned, stopGap),
                got, {});
    r, order := Conclude(client, update, pending, batchSize, fetchPrevTxouts, started, chainTip,
                         old(client.inner.now), ours);
  }

  /** Two full scans of the same keychains, by servers that tell of the same world, see the same histories and
      report the same last active indices. */
  lemma KeychainsDetermined(world: World, keychains: seq<KeychainSpks>, gap: nat,
                            server1: Server, scanned1: seq<Answers>, lastActive1: map<Keychain, u32>,
                            server2: Server, scanned2: seq<Answers>, lastActive2: map<Keychain, u32>)
    requires KeychainsScanned(server1, keychains, scanned1, gap, lastActive1) && AnswersWorld(server1, world)
    requires KeychainsScanned(server2, keychains, scanned2, gap, lastActive2) && AnswersWorld(server2, world)
    ensures scanned1 == scanned2 && lastActive1 == lastActive2
  {
    forall i | 0 <= i < |keychains| ensures scanned1[i] == scanned2[i] {
      assert KeychainScanned(server1, keychains[i], scanned1[i], gap, lastActive1);
      assert KeychainScanned(server2, keychains[i], scanned2[i], gap, lastActive2);
      SameAnswers(world, keychains[i].Source(), gap, server1, scanned1[i], server2, scanned2[i]);
    }
    assert scanned1 == scanned2;
    SameKeys(keychains, gap, server1, server2, scanned1, lastActive1, lastActive2);
    SameKeys(keychains, gap, server2, server1, scanned1, lastActive2, lastActive1);
    assert lastActive1 == lastActive2;
  }

  lemma SameKeys(keychains: seq<KeychainSpks>, gap: nat, server: Server, other: Server, scanned: seq<Answers>,
                 lastActive: map<Keychain, u32>, otherwise: map<Keychain, u32>)
    requires KeychainsScanned(server, keychains, scanned, gap, lastActive)
    requires KeychainsScanned(other, keychains, scanned, gap, otherwise)
    ensures forall key :: key in lastActive ==> key in otherwise && otherwise[key] == lastActive[key]
  {
    forall key | key in lastActive ensures key in otherwise && otherwise[key] == lastActive[key] {
      var i :| 0 <= i < |keychains| && keychains[i].keychain == key;
      assert KeychainScanned(server, keychains[i], scanned[i], gap, lastActive);
      assert KeychainScanned(other, keychains[i], scanned[i], gap, otherwise);
    }
  }

  lemma ScansAgree(world: World, start: u64, keychains: seq<KeychainSpks>, gap: nat,
                   server1: Server, vouch1: Vouch, scanned1: seq<Answers>, lastActive1: map<Keychain, u32>,
                   after1: Gathered, got1: seq<Tx>,
                   server2: Server, vouch2: Vouch, scanned2: seq<Answers>, lastActive2: map<Keychain, u32>,
                   after2: Gathered, got2: seq<Tx>)
    requires KeychainsScanned(server1, keychains, scanned1, gap, lastActive1) && AnswersWorld(server1, world)
    requires KeychainsScanned(server2, keychains, scanned2, gap, lastActive2) && AnswersWorld(server2, world)
    requires Grown(vouch1, start, Gathered([], [], {}, {}), after1, AllEntries(scanned1, gap), got1, {})
    requires Grown(vouch2, start, Gathered([], [], {}, {}), after2, AllEntries(scanned2, gap), got2, {})
    requires Pins(vouch1, world) && Pins(vouch2, world)
    ensures lastActive1 == lastActive2 && after1 == after2
  {
    KeychainsDetermined(world, keychains, gap, server1, scanned1, lastActive1, server2, scanned2, lastActive2);
    GrownDetermined(world, start, Gathered([], [], {}, {}), AllEntries(scanned1, gap), {},
                    vouch1, after1, got1, vouch2, after2, got2);
  }

  /** So whatever the batch sizes, the caches and the failures on the way, two full scans that end record the
      same, add the same previous outputs and, with honest servers, return the same anchors. */
  method FullScanTwice(client1: BdkElectrumClient, client2: BdkElectrumClient, start: u64,
                       chainTip: Option<seq<BlockId>>, keychains: seq<KeychainSpks>, stopGap: nat,
                       batchSize1: nat, batchSize2: nat, fetchPrevTxouts: bool,
                       ghost bounds1: seq<nat>, ghost bounds2: seq<nat>, ghost world: World)
    returns (r1: Reply, update1: TxUpdate, pending1: PendingAnchors, lastActive1: map<Keychain, u32>,
             r2: Reply, update2: TxUpdate, pending2: PendingAnchors, lastActive2: map<Keychain, u32>)
    requires client1.Valid() && AnswersWorld(client1.inner.server, world) && Pins(client1.vouch, world)
    requires client2.Valid() && AnswersWorld(client2.inner.server, world) && Pins(client2.vouch, world)
    requires chainTip.Some? ==> IsCheckPoint(chainTip.value)
    requires 0 < stopGap <= USIZE_MAX && batchSize1 > 0 && batchSize2 > 0
    requires Distinct(keychains) && |bounds1| == |bounds2| == |keychains|
    requires forall i :: 0 <= i < |keychains| ==>
               && QuietFrom(client1.inner.server, keychains[i].Source(), bounds1[i])
               && QuietFrom(client2.inner.server, keychains[i].Source(), bounds2[i])
    modifies client1, client1.inner, client2, client2.inner
    ensures !r1.Failed? && !r2.Failed? ==>
              lastActive1 == lastActive2 && Now(update1, pending1) == Now(update2, pending2)
    ensures !r1.Failed? && !r2.Failed? && client1.ideal && client2.ideal && client1.world == client2.world == world
            && client1.hashing == client2.hashing && Anchors.OnWorld(world, pending1.items) ==>
              update1.anchors == update2.anchors
    ensures !r1.Failed? && !r2.Failed? && client1.world == client2.world == world
            && client1.hashing == client2.hashing && Prevouts.CommitsToInputs(client1.hashing, update1.txs) ==>
              update1.txouts == update2.txouts
  {
    ghost var scanned1, got1, chain1, order1, scanned2, got2, chain2, order2;
    r1, update1, pending1, lastActive1, scanned1, got1, chain1, order1 :=
      FullScan(client1, start, chainTip, keychains, stopGap, batchSize1, fetchPrevTxouts, bounds1, world.header);
    ghost var after1, anchors1, txouts1 := Now(update1, pending1), update1.anchors, update1.txouts;
    r2, update2, pending2, lastActive2, scanned2, got2, chain2, order2 :=
      FullScan(client2, start, chainTip, keychains, stopGap, batchSize2, fetchPrevTxouts, bounds2, world.header);
    assert update1.anchors == anchors1 && update1.txouts == txouts1 && Now(update1, pending1) == after1;
    if !r1.Failed? && !r2.Failed? {
      ScansAgree(world, start, keychains, stopGap,
                 client1.inner.server, client1.vouch, scanned1, lastActive1, after1, got1,
                 client2.inner.server, client2.vouch, scanned2, lastActive2, Now(update2, pending2), got2);
    }
  }

  // ----- Sync -----

  type WatchedSpks = seq<(Script, set<Txid>)>

  /** The watched scripts, numbered from zero; the number is cut to 32 bits. */
  function Numbered(spks: WatchedSpks): SpkSource {
    SpkSource((i: nat) => if i < |spks| then SpkItem(i % U32_LIMIT, spks[i].0, spks[i].1)
                          else SpkItem(0, Script([]), {}),
              Some(|spks|))
  }

  /** With a stop gap larger than the number of scripts, every script is looked at and recorded. */
  lemma AllScanned(source: SpkSource, answers: Answers, gap: nat)
    requires source.len.Some? && source.len.value < gap && Examined(source, answers, gap)
    ensures |answers| == source.len.value && Processed(answers, gap) == answers
  {
    if |answers| > 0 {
      assert source.Has(|answers| - 1);
    }
  }

  /** What the three lookups of a sync saw, and the update between them. */
  datatype Trace = Trace(
    answers: Answers, got: seq<Tx>, last: Option<u32>, afterSpks: Gathered,
    txs: seq<Tx>, kept: Histories.Kept, histories: seq<History>, afterTxids: Gathered,
    replies: seq<Option<Tx>>, spkMap: Outpoints.SpkMap, picks: seq<History>, spenders: seq<Tx>)

  /** The update is what the scripts, then the txids, then the outpoints added, starting from nothing. */
  ghost predicate Polled(client: BdkElectrumClient, since: nat, start: u64, spks: WatchedSpks, txids: seq<Txid>,
                         ops: seq<OutPoint>, trace: Trace, final: Gathered) {
    var server, vouch := client.inner.server, client.vouch;
    && Outcome(Numbered(spks), USIZE_MAX, vouch, start, Gathered([], [], {}, {}), trace.afterSpks,
               trace.answers, trace.got, trace.last)
    && Given(server, Numbered(spks), trace.answers)
    && |trace.txs| == |txids| && trace.kept == Histories.WithOutputs(txids, trace.txs)
    && (forall i :: 0 <= i < |txids| ==> Vouches(vouch, txids[i], trace.txs[i]))
    && Histories.AllVouched(vouch, trace.kept)
    && Histories.GivenFor(server, Histories.FirstScripts(trace.kept), trace.histories)
    && Histories.LookedUp(start, trace.afterSpks, trace.afterTxids, trace.kept, trace.histories)
    && |trace.replies| == |ops|
    && (forall i :: 0 <= i < |ops| ==> Outpoints.Fetched(client, since, ops[i], trace.replies[i]))
    && Outpoints.MapGiven(server, trace.spkMap)
    && Outpoints.AllPicked(vouch, Outpoints.Locate(ops, trace.replies), trace.spkMap, trace.picks)
    && Grown(vouch, start, trace.afterTxids, final, Flatten(trace.picks), trace.spenders, {})
  }

  /** Everything a poll records has its transaction in the update. */
  lemma PolledClosed(client: BdkElectrumClient, since: nat, start: u64, spks: WatchedSpks, txids: seq<Txid>,
                     ops: seq<OutPoint>, trace: Trace, final: Gathered)
    requires Polled(client, since, start, spks, txids, ops, trace, final)
    ensures Closed(client.vouch, final)
  {
    var recorded := Processed(trace.answers, USIZE_MAX);
    GrownClosed(client.vouch, start, Gathered([], [], {}, {}), trace.afterSpks, Flatten(recorded), trace.got,
                Evictions(Numbered(spks), recorded, start));
    Histories.LookedUpClosed(client.vouch, start, trace.afterSpks, trace.afterTxids, trace.kept, trace.histories);
    GrownClosed(client.vouch, start, trace.afterTxids, final, Flatten(trace.picks), trace.spenders, {});
  }

  /** Exactly the expected txids that are missing from the history of their own script are evicted. */
  lemma PolledEvictions(client: BdkElectrumClient, since: nat, start: u64, spks: WatchedSpks, txids: seq<Txid>,
                        ops: seq<OutPoint>, trace: Trace, final: Gathered)
    requires Polled(client, since, start, spks, txids, ops, trace, final) && |spks| < USIZE_MAX
    ensures |trace.answers| == |spks|
    ensures forall p :: p in final.evicted <==>
              exists i: nat ::
                i < |spks| && p in Missing(SpkItem(i % U32_LIMIT, spks[i].0, spks[i].1), trace.answers[i], start)
  {
    var source := Numbered(spks);
    AllScanned(source, trace.answers, USIZE_MAX);
    EvictionsMean(source, trace.answers, start);
    assert final.evicted == Evictions(source, trace.answers, start);
    forall i: nat | i < |spks|
      ensures source.Item(i) == SpkItem(i % U32_LIMIT, spks[i].0, spks[i].1)
    {
    }
  }

  method Poll(client: BdkElectrumClient, start: u64, update: TxUpdate, pending: PendingAnchors, spks: WatchedSpks,
              txids: seq<Txid>, ops: seq<OutPoint>, batchSize: nat) returns (ok: bool, ghost trace: Trace)
    requires client.Valid() && batchSize > 0 && Now(update, pending) == Gathered([], [], {}, {})
    modifies client, client.inner, update, pending
    ensures client.Valid() && client.Evolves()
    ensures update.txouts == old(update.txouts) && update.anchors == old(update.anchors)
    ensures ok ==> Polled(client, old(client.inner.now), start, spks, txids, ops, trace, Now(update, pending))
    ensures !ok ==> ScanFailed(client.inner.server, old(client.inner.now), Numbered(spks))
                    || Histories.LookupFailed(client.inner.server, old(client.inner.now), client.vouch, txids)
                    || Outpoints.OutpointsFailed(client.inner.server, old(client.inner.now), client.vouch, ops)
  {
    trace := Trace([], [], None, Now(update, pending), [], [], [], Now(update, pending), [], map[], [], []);
    var it := new SpkIter(Numbered(spks));
    var r;
    ghost var answers, got;
    r, answers, got := PopulateWithSpks(client, start, update, it, USIZE_MAX, batchSize, pending, |spks|);
    if r.Err? {
      return false, trace;
    }
    ghost var afterSpks := Now(update, pending);
    ghost var txs, kept, histories;
    ok, txs, kept, histories := Histories.PopulateWithTxids(client, start, update, txids, pending);
    if !ok {
      return;
    }
    ghost var afterTxids := Now(update, pending);
    ghost var replies, spkMap, picks, spenders;
    ok, replies, spkMap, picks, spenders := Outpoints.PopulateWithOutpoints(client, start, update, ops, pending);
    trace := Trace(answers, got, r.value, afterSpks, txs, kept, histories, afterTxids, replies, spkMap, picks,
                   spenders);
  }

  method SyncRequest(client: BdkElectrumClient, start: u64, chainTip: Option<seq<BlockId>>, spks: WatchedSpks,
                     txids: seq<Txid>, ops: seq<OutPoint>, batchSize: nat, fetchPrevTxouts: bool,
                     ghost ours: u32 -> Header)
    returns (r: Reply, update: TxUpdate, pending: PendingAnchors, ghost trace: Trace, ghost chain: ChainState,
             ghost order: Reconcile.Anchors)
    requires client.Valid() && batchSize > 0
    requires chainTip.Some? ==> IsCheckPoint(chainTip.value)
    modifies client, client.inner
    ensures client.Valid() && client.Evolves() && fresh(update) && fresh(pending)
    // What was looked up and recorded.
    ensures !r.Failed? ==> Polled(client, old(client.inner.now), start, spks, txids, ops, trace, Now(update, pending))
    // Everything recorded has its transaction.
    ensures !r.Failed? ==> Closed(client.vouch, Now(update, pending))
    ensures r.Failed? ==>
              || (chainTip.Some? && SomeRequestFailed(client.inner.server, old(client.inner.now), chainTip.value))
              || ScanFailed(client.inner.server, old(client.inner.now), Numbered(spks))
              || Histories.LookupFailed(client.inner.server, old(client.inner.now), client.vouch, txids)
              || Outpoints.OutpointsFailed(client.inner.server, old(client.inner.now), client.vouch, ops)
              || (fetchPrevTxouts
                  && Prevouts.SpentFailed(client.inner.server, old(client.inner.now), update.txs))
    // Anchors, previous outputs, and the reported chain.
    ensures !r.Failed? ==>
              && Wellformed(chain)
              && ChainStarted(client.hashing, client.inner.server, old(client.inner.now), chainTip, chain)
              && Ended(client, update, pending, old(client.inner.now), fetchPrevTxouts, chain, order, r)
              && HonestEnd(client.inner.server, client.hashing, client.world, client.ideal, ours, chainTip,
                           pending.items, r)
    ensures r.Panicked? ==> chainTip.Some? && chainTip.value[0].height > 0
  {
    update := new TxUpdate();
    pending := new PendingAnchors();
    order, chain := [], None;
    trace := Trace([], [], None, Now(update, pending), [], [], [], Now(update, pending), [], map[], [], []);
    var ok, started := StartChain(client, chainTip);
    if !ok {
      return Reply.Failed, update, pending, trace, chain, order;
    }
    chain := started;
    ok, trace := Poll(client, start, update, pending, spks, txids, ops, batchSize);
    if !ok {
      return Reply.Failed, update, pending, trace, chain, order;
    }
    PolledClosed(client, old(client.inner.now), start, spks, txids, ops, trace, Now(update, pending));
    r, order := Conclude(client, update, pending, batchSize, fetchPrevTxouts, started, chainTip,
                         old(client.inner.now), ours);
  }
}
