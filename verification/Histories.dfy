/** Looking up single transactions and outpoints, and the previous outputs of what was found. */
module Histories {
  import opened Types
  import opened Server
  import opened Client
  import opened Updates
  import opened Scan

  // ----- Transactions by id -----

  /** The first entry of a history that is about this txid, if any. */
  function FirstMatch(history: History, txid: Txid): History {
    if history == [] then []
    else if history[0].txid == txid then [history[0]]
    else FirstMatch(history[1..], txid)
  }

  type Kept = seq<(Txid, Tx)>

  /** The transactions that have an output at all, with the ids they were asked by. */
  function WithOutputs(txids: seq<Txid>, txs: seq<Tx>): Kept
    requires |txids| == |txs|
  {
    if txids == [] then []
    else
      var last := |txids| - 1;
      WithOutputs(txids[..last], txs[..last]) + if txs[last].outputs != [] then [(txids[last], txs[last])] else []
  }

  function TxsOf(kept: Kept): seq<Tx> {
    seq(|kept|, i requires 0 <= i < |kept| => kept[i].1)
  }

  function Matches(kept: Kept, histories: seq<History>): History
    requires |kept| == |histories|
  {
    if kept == [] then []
    else
      var last := |kept| - 1;
      Matches(kept[..last], histories[..last]) + FirstMatch(histories[last], kept[last].0)
  }

  ghost predicate AllVouched(vouch: Vouch, kept: Kept) {
    forall i :: 0 <= i < |kept| ==> Vouches(vouch, kept[i].0, kept[i].1) && kept[i].1.outputs != []
  }

  /** Fetches every transaction and keeps those with outputs. */
  method FetchKept(client: BdkElectrumClient, txids: seq<Txid>) returns (ok: bool, kept: Kept, ghost txs: seq<Tx>)
    requires client.Valid()
    modifies client, client.inner
    ensures client.Valid() && client.Evolves()
    ensures !ok ==> exists i :: 0 <= i < |txids| && TxFailed(client.inner.server, old(client.inner.now), txids[i])
    ensures ok ==> |txs| == |txids| && kept == WithOutputs(txids, txs) && AllVouched(client.vouch, kept)
                   && forall i :: 0 <= i < |txids| ==> Vouches(client.vouch, txids[i], txs[i])
  {
    kept, txs := [], [];
    for i := 0 to |txids|
      invariant client.Valid() && client.Evolves()
      invariant |txs| == i && kept == WithOutputs(txids[..i], txs) && AllVouched(client.vouch, kept)
      invariant forall j :: 0 <= j < i ==> Vouches(client.vouch, txids[j], txs[j])
    {
      var tx := client.FetchTx(txids[i]);
      if tx.None? {
        return false, kept, txs;
      }
      assert txids[..i + 1][..i] == txids[..i] && (txs + [tx.value])[..i] == txs;
      if tx.value.outputs != [] {
        kept := kept + [(txids[i], tx.value)];
      }
      txs := txs + [tx.value];
    }
    assert txids[..|txids|] == txids;
    ok := true;
  }

  /** What looking up transactions by id adds: each kept transaction, and the first entry about it. */
  ghost predicate LookedUp(start: u64, before: Gathered, after: Gathered, kept: Kept, histories: seq<History>)
    requires |kept| == |histories|
  {
    && after.txs == before.txs + TxsOf(kept)
    && after.pending == before.pending + Confirmed(Matches(kept, histories))
    && after.seen == before.seen + Unconfirmed(Matches(kept, histories), start)
    && after.evicted == before.evicted
  }

  lemma LookedUpNext(start: u64, before: Gathered, mid: Gathered, after: Gathered, kept: Kept,
                     histories: seq<History>, n: nat)
    requires n < |kept| == |histories|
    requires LookedUp(start, before, mid, kept[..n], histories[..n])
    requires var hit := FirstMatch(histories[n], kept[n].0);
             && after.txs == mid.txs + [kept[n].1] && after.evicted == mid.evicted
             && after.pending == mid.pending + Confirmed(hit)
             && after.seen == mid.seen + Unconfirmed(hit, start)
    ensures LookedUp(start, before, after, kept[..n + 1], histories[..n + 1])
  {
    var hit, hits := FirstMatch(histories[n], kept[n].0), Matches(kept[..n], histories[..n]);
    assert kept[..n + 1][..n] == kept[..n] && histories[..n + 1][..n] == histories[..n];
    assert Matches(kept[..n + 1], histories[..n + 1]) == hits + hit;
    ConfirmedConcat(hits, hit);
    assert Unconfirmed(hits + hit, start) == Unconfirmed(hits, start) + Unconfirmed(hit, start);
    assert TxsOf(kept[..n + 1]) == TxsOf(kept[..n]) + [kept[n].1];
    assert (before.txs + TxsOf(kept[..n])) + [kept[n].1] == before.txs + TxsOf(kept[..n + 1]);
  }

  lemma FirstMatchIs(history: History, txid: Txid)
    ensures |FirstMatch(history, txid)| <= 1
    ensures forall e :: e in FirstMatch(history, txid) ==> e.txid == txid && e in history
  {
  }

  /** Looking up keeps the update closed: each matching entry's transaction is added with it. */
  lemma {:induction false} LookedUpClosed(vouch: Vouch, start: u64, before: Gathered, after: Gathered, kept: Kept,
                                          histories: seq<History>)
    requires |kept| == |histories| && LookedUp(start, before, after, kept, histories)
    requires AllVouched(vouch, kept) && Closed(vouch, before)
    ensures Closed(vouch, after)
  {
    EntriesSplit(Matches(kept, histories), start);
    forall e | e in Matches(kept, histories) ensures Covered(vouch, after.txs, e.txid) {
      var i := MatchOf(kept, histories, e);
      assert after.txs[|before.txs| + i] == kept[i].1;
    }
    forall txid | Covered(vouch, before.txs, txid) ensures Covered(vouch, after.txs, txid) {
      CoveredStays(vouch, before.txs, TxsOf(kept), txid);
    }
  }

  lemma {:induction false} MatchOf(kept: Kept, histories: seq<History>, e: HistoryEntry) returns (i: nat)
    requires |kept| == |histories| && e in Matches(kept, histories)
    ensures i < |kept| && e.txid == kept[i].0
    decreases |kept|
  {
    var last := |kept| - 1;
    if e in FirstMatch(histories[last], kept[last].0) {
      FirstMatchIs(histories[last], kept[last].0);
      i := last;
    } else {
      i := MatchOf(kept[..last], histories[..last], e);
      assert kept[..last][i] == kept[i];
    }
  }

  ghost predicate GivenFor(server: Server, scripts: seq<Script>, histories: seq<History>) {
    |scripts| == |histories| && forall i :: 0 <= i < |scripts| ==> AnsweredHistory(server, scripts[i], histories[i])
  }

  lemma BatchGivenFor(server: Server, since: nat, scripts: seq<Script>, t: nat)
    requires t >= since
    ensures Batch(server, server.history, t, scripts).Some? ==>
              GivenFor(server, scripts, Batch(server, server.history, t, scripts).value)
    ensures Batch(server, server.history, t, scripts).None? ==>
              SomeBatchLost(server, since) || exists i :: 0 <= i < |scripts| && HistoryFailed(server, since, scripts[i])
  {
    var r := Batch(server, server.history, t, scripts);
    if r.Some? {
      forall i | 0 <= i < |scripts| ensures AnsweredHistory(server, scripts[i], r.value[i]) {
        assert server.HistoryAt(t + i, scripts[i]) == Some(r.value[i]);
      }
    } else if !server.Lost(t) {
      var i :| 0 <= i < |scripts| && server.HistoryAt(t + i, scripts[i]).None?;
    }
  }

  function FirstScripts(kept: Kept): seq<Script>
    requires forall i :: 0 <= i < |kept| ==> kept[i].1.outputs != []
  {
    seq(|kept|, i requires 0 <= i < |kept| => kept[i].1.outputs[0].scriptPubkey)
  }

  /** A transaction the server gave for this txid whose first output's script has no history. */
  ghost predicate FirstScriptFailed(server: Server, since: nat, vouch: Vouch, txid: Txid) {
    exists tx ::
      Vouches(vouch, txid, tx) && tx.outputs != [] && HistoryFailed(server, since, tx.outputs[0].scriptPubkey)
  }

  ghost predicate LookupFailed(server: Server, since: nat, vouch: Vouch, txids: seq<Txid>) {
    || SomeBatchLost(server, since)
    || (exists i :: 0 <= i < |txids|
                    && (TxFailed(server, since, txids[i]) || FirstScriptFailed(server, since, vouch, txids[i])))
  }

  lemma {:induction false} KeptFrom(txids: seq<Txid>, txs: seq<Tx>, k: nat) returns (i: nat)
    requires |txids| == |txs| && k < |WithOutputs(txids, txs)|
    ensures i < |txids| && WithOutputs(txids, txs)[k] == (txids[i], txs[i]) && txs[i].outputs != []
    decreases |txids|
  {
    var last := |txids| - 1;
    if k < |WithOutputs(txids[..last], txs[..last])| {
      i := KeptFrom(txids[..last], txs[..last], k);
    } else {
      i := last;
    }
  }

  lemma ScriptsFailed(server: Server, since: nat, vouch: Vouch, txids: seq<Txid>, txs: seq<Tx>)
    requires |txids| == |txs| && (forall i :: 0 <= i < |txids| ==> Vouches(vouch, txids[i], txs[i]))
    requires forall k :: 0 <= k < |WithOutputs(txids, txs)| ==> WithOutputs(txids, txs)[k].1.outputs != []
    requires var scripts := FirstScripts(WithOutputs(txids, txs));
             exists k :: 0 <= k < |scripts| && HistoryFailed(server, since, scripts[k])
    ensures LookupFailed(server, since, vouch, txids)
  {
    var scripts := FirstScripts(WithOutputs(txids, txs));
    var k :| 0 <= k < |scripts| && HistoryFailed(server, since, scripts[k]);
    var i := KeptFrom(txids, txs, k);
    assert FirstScriptFailed(server, since, vouch, txids[i]);
  }

  /** Records the first entry about a txid, and the transaction in any case. */
  method RecordLookup(update: TxUpdate, pending: PendingAnchors, txid: Txid, tx: Tx, history: History, start: u64)
    modifies update, pending
    ensures update.txouts == old(update.txouts) && update.anchors == old(update.anchors)
    ensures update.txs == old(update.txs) + [tx] && update.evictedAts == old(update.evictedAts)
    ensures pending.items == old(pending.items) + Confirmed(FirstMatch(history, txid))
    ensures update.seenAts == old(update.seenAts) + Unconfirmed(FirstMatch(history, txid), start)
  {
    var hit := FirstMatch(history, txid);
    FirstMatchIs(history, txid);
    RecordedOne(hit, start);
    if hit != [] {
      ApplyHistoryHeight(update, pending, hit[0], start);
    }
    update.txs := update.txs + [tx];
  }

  method PopulateWithTxids(client: BdkElectrumClient, start: u64, update: TxUpdate, txids: seq<Txid>,
                           pending: PendingAnchors)
    returns (ok: bool, ghost txs: seq<Tx>, ghost kept: Kept, ghost histories: seq<History>)
    requires client.Valid()
    modifies client, client.inner, update, pending
    ensures client.Valid() && client.Evolves()
    ensures update.txouts == old(update.txouts) && update.anchors == old(update.anchors)
    ensures !ok ==> LookupFailed(client.inner.server, old(client.inner.now), client.vouch, txids)
    ensures ok ==>
              && |txs| == |txids| && kept == WithOutputs(txids, txs) && AllVouched(client.vouch, kept)
              && (forall i :: 0 <= i < |txids| ==> Vouches(client.vouch, txids[i], txs[i]))
              && GivenFor(client.inner.server, FirstScripts(kept), histories)
              && LookedUp(start, old(Now(update, pending)), Now(update, pending), kept, histories)
  {
    ghost var before := Now(update, pending);
    histories := [];
    var fetched;
    ok, fetched, txs := FetchKept(client, txids);
    kept := fetched;
    if !ok {
      return;
    }
    ghost var t := client.inner.now;
    var replies := client.inner.BatchScriptGetHistory(FirstScripts(fetched));
    BatchGivenFor(client.inner.server, old(client.inner.now), FirstScripts(fetched), t);
    if replies.None? {
      if !SomeBatchLost(client.inner.server, old(client.inner.now)) {
        ScriptsFailed(client.inner.server, old(client.inner.now), client.vouch, txids, txs);
      }
      ok := false;
      return;
    }
    histories := replies.value;
    for i := 0 to |fetched|
      invariant client.Valid() && client.Evolves()
      invariant update.txouts == old(update.txouts) && update.anchors == old(update.anchors)
      invariant LookedUp(start, before, Now(update, pending), fetched[..i], replies.value[..i])
    {
      ghost var mid := Now(update, pending);
      RecordLookup(update, pending, fetched[i].0, fetched[i].1, replies.value[i], start);
      LookedUpNext(start, before, mid, Now(update, pending), fetched, replies.value, i);
    }
    assert fetched[..|fetched|] == fetched && replies.value[..|fetched|] == replies.value;
  }

  lemma RecordedOne(hit: History, start: u64)
    requires |hit| <= 1
    ensures Confirmed(hit) == if hit != [] && IsConfirmed(hit[0]) then [(hit[0].txid, hit[0].height)] else []
    ensures Unconfirmed(hit, start) == if hit != [] && !IsConfirmed(hit[0]) then {(hit[0].txid, start)} else {}
  {
    if hit != [] {
      assert hit == [hit[0]] && hit[..0] == [];
    }
  }

  // ----- Outpoints -----

  predicate Spends(tx: Tx, op: OutPoint) {
    op in tx.inputs
  }

  /** The entry is the transaction that holds the outpoint. */
  predicate Residing(op: OutPoint, e: HistoryEntry) {
    e.txid == op.txid
  }

  /** The entry is another transaction, and the one fetched for it spends the outpoint. */
  predicate Spending(op: OutPoint, e: HistoryEntry, tx: Tx) {
    e.txid != op.txid && Spends(tx, op)
  }

  predicate FoundResiding(op: OutPoint, history: History, n: nat)
    requires n <= |history|
  {
    exists j :: 0 <= j < n && Residing(op, history[j])
  }

  predicate FoundSpending(op: OutPoint, history: History, txs: seq<Tx>, n: nat)
    requires n <= |history| && n <= |txs|
  {
    exists j :: 0 <= j < n && Spending(op, history[j], txs[j])
  }

  /** The first residing entry and the first spending entry are the ones to record. */
  predicate Pick(op: OutPoint, history: History, txs: seq<Tx>, i: nat)
    requires i < |history| && i < |txs|
  {
    || (Residing(op, history[i]) && !FoundResiding(op, history, i))
    || (Spending(op, history[i], txs[i]) && !FoundSpending(op, history, txs, i))
  }

  function Picks(op: OutPoint, history: History, txs: seq<Tx>, n: nat): History
    requires n <= |history| && n <= |txs|
  {
    if n == 0 then []
    else Picks(op, history, txs, n - 1) + if Pick(op, history, txs, n - 1) then [history[n - 1]] else []
  }

  /** The transactions looked at: one was fetched for each other entry up to the first that spends. */
  ghost predicate Looked(vouch: Vouch, op: OutPoint, history: History, txs: seq<Tx>, n: nat)
    requires n <= |history| && n <= |txs|
  {
    forall i :: 0 <= i < n && !Residing(op, history[i]) && !FoundSpending(op, history, txs, i) ==>
      Vouches(vouch, history[i].txid, txs[i])
  }

  lemma PicksStable(op: OutPoint, history: History, txs: seq<Tx>, more: seq<Tx>, n: nat)
    requires n <= |history| && n <= |txs|
    ensures Picks(op, history, txs + more, n) == Picks(op, history, txs, n)
    ensures forall k :: 0 <= k <= n ==> FoundSpending(op, history, txs + more, k) == FoundSpending(op, history, txs, k)
    decreases n
  {
    assert forall i :: 0 <= i < n ==> (txs + more)[i] == txs[i];
    forall k | 0 <= k <= n ensures FoundSpending(op, history, txs + more, k) == FoundSpending(op, history, txs, k) {
      if FoundSpending(op, history, txs, k) {
        var j :| 0 <= j < k && Spending(op, history[j], txs[j]);
        assert Spending(op, history[j], (txs + more)[j]);
      }
    }
    if n > 0 {
      PicksStable(op, history, txs, more, n - 1);
    }
  }

  /** Once both have been found nothing further is picked. */
  lemma {:induction false} NothingLeft(op: OutPoint, history: History, txs: seq<Tx>, n: nat, end: nat)
    requires n <= end <= |history| && end <= |txs|
    requires FoundResiding(op, history, n) && FoundSpending(op, history, txs, n)
    ensures Picks(op, history, txs, end) == Picks(op, history, txs, n)
    decreases end
  {
    if n < end {
      NothingLeft(op, history, txs, n, end - 1);
    }
  }

  /** How far the walk over one history has come. */
  ghost predicate Walked(vouch: Vouch, start: u64, before: Gathered, now: Gathered, op: OutPoint, history: History,
                         txs: seq<Tx>, n: nat, got: seq<Tx>) {
    && n <= |history| && n <= |txs|
    && Looked(vouch, op, history, txs, n)
    && Grown(vouch, start, before, now, Picks(op, history, txs, n), got, {})
  }

  /** One more entry: `tx` is what was fetched for it, or anything if nothing was. */
  lemma WalkOne(vouch: Vouch, start: u64, before: Gathered, mid: Gathered, now: Gathered, op: OutPoint,
                history: History, txs: seq<Tx>, tx: Tx, pushed: Tx, got: seq<Tx>)
    requires |txs| < |history| && Walked(vouch, start, before, mid, op, history, txs, |txs|, got)
    requires !Residing(op, history[|txs|]) && !FoundSpending(op, history, txs, |txs|) ==>
               Vouches(vouch, history[|txs|].txid, tx)
    requires if Pick(op, history, txs + [tx], |txs|) then
               Grown(vouch, start, mid, now, [history[|txs|]], [pushed], {})
             else now == mid
    ensures Walked(vouch, start, before, now, op, history, txs + [tx], |txs| + 1,
                   if Pick(op, history, txs + [tx], |txs|) then got + [pushed] else got)
  {
    var n, txs' := |txs|, txs + [tx];
    PicksStable(op, history, txs, [tx], n);
    LookedNext(vouch, op, history, txs, tx);
    var picks := Picks(op, history, txs, n);
    if Pick(op, history, txs', n) {
      GrownTwice(vouch, start, before, mid, now, picks, got, {}, [history[n]], [pushed], {});
      assert Picks(op, history, txs', n + 1) == picks + [history[n]];
      assert before.evicted + {} == now.evicted;
    } else {
      assert Picks(op, history, txs', n + 1) == picks;
    }
  }

  lemma LookedNext(vouch: Vouch, op: OutPoint, history: History, txs: seq<Tx>, tx: Tx)
    requires |txs| < |history| && Looked(vouch, op, history, txs, |txs|)
    requires !Residing(op, history[|txs|]) && !FoundSpending(op, history, txs, |txs|) ==>
               Vouches(vouch, history[|txs|].txid, tx)
    ensures Looked(vouch, op, history, txs + [tx], |txs| + 1)
  {
    var n, txs' := |txs|, txs + [tx];
    PicksStable(op, history, txs, [tx], n);
    forall i | 0 <= i < n + 1 && !Residing(op, history[i]) && !FoundSpending(op, history, txs', i)
      ensures Vouches(vouch, history[i].txid, txs'[i])
    {
      if i < n {
        assert txs'[i] == txs[i] && !FoundSpending(op, history, txs, i);
      }
    }
  }

  /** Pads the record of fetched transactions after an early end of the walk. */
  lemma WalkEnds(vouch: Vouch, start: u64, before: Gathered, now: Gathered, op: OutPoint, history: History,
                 txs: seq<Tx>, got: seq<Tx>, filler: seq<Tx>)
    requires Walked(vouch, start, before, now, op, history, txs, |txs|, got)
    requires |txs| + |filler| == |history|
    requires filler == [] || (FoundResiding(op, history, |txs|) && FoundSpending(op, history, txs, |txs|))
    ensures Walked(vouch, start, before, now, op, history, txs + filler, |history|, got)
  {
    var n := |txs|;
    PicksStable(op, history, txs, filler, n);
    if filler != [] {
      assert FoundSpending(op, history, txs + filler, n);
      NothingLeft(op, history, txs + filler, n, |history|);
      assert forall i :: n <= i < |history| ==> FoundSpending(op, history, txs + filler, i);
      forall i | 0 <= i < |history| && !Residing(op, history[i]) && !FoundSpending(op, history, txs + filler, i)
        ensures Vouches(vouch, history[i].txid, (txs + filler)[i])
      {
        assert (txs + filler)[i] == txs[i] && !FoundSpending(op, history, txs, i);
      }
    } else {
      assert txs + filler == txs;
    }
  }

  const NOT_FETCHED: Tx := Tx([], [], 0)

  lemma FoundNext(op: OutPoint, history: History, txs: seq<Tx>, tx: Tx)
    requires |txs| < |history|
    ensures var n := |txs|;
            && FoundResiding(op, history, n + 1) == (FoundResiding(op, history, n) || Residing(op, history[n]))
            && FoundSpending(op, history, txs + [tx], n + 1)
               == (FoundSpending(op, history, txs, n) || Spending(op, history[n], tx))
            && Pick(op, history, txs + [tx], n)
               == ((Residing(op, history[n]) && !FoundResiding(op, history, n))
                   || (Spending(op, history[n], tx) && !FoundSpending(op, history, txs, n)))
  {
    var n, txs' := |txs|, txs + [tx];
    PicksStable(op, history, txs, [tx], n);
    assert txs'[n] == tx;
    assert FoundSpending(op, history, txs', n + 1)
           == (FoundSpending(op, history, txs', n) || Spending(op, history[n], tx));
  }

  /** The two flags after one more entry, and what the walk recorded for it. */
  lemma EntryWalked(vouch: Vouch, start: u64, before: Gathered, mid: Gathered, now: Gathered, op: OutPoint,
                    history: History, residing: bool, spending: bool, txs: seq<Tx>, looked: Tx, pushed: Tx,
                    got: seq<Tx>)
    returns (got': seq<Tx>)
    requires |txs| < |history| && Walked(vouch, start, before, mid, op, history, txs, |txs|, got)
    requires residing == FoundResiding(op, history, |txs|) && spending == FoundSpending(op, history, txs, |txs|)
    requires var e := history[|txs|];
      && (!Residing(op, e) && !spending ==> Vouches(vouch, e.txid, looked))
      && if (Residing(op, e) && !residing) || (Spending(op, e, looked) && !spending) then
           Grown(vouch, start, mid, now, [e], [pushed], {})
         else now == mid
    ensures Walked(vouch, start, before, now, op, history, txs + [looked], |txs| + 1, got')
    ensures FoundResiding(op, history, |txs| + 1) == (residing || Residing(op, history[|txs|]))
    ensures FoundSpending(op, history, txs + [looked], |txs| + 1) == (spending || Spending(op, history[|txs|], looked))
  {
    FoundNext(op, history, txs, looked);
    WalkOne(vouch, start, before, mid, now, op, history, txs, looked, pushed, got);
    got' := if Pick(op, history, txs + [looked], |txs|) then got + [pushed] else got;
  }

  /** Walks over one entry: records it if it is the residing or the first spending transaction. */
  method RecordEntry(client: BdkElectrumClient, update: TxUpdate, pending: PendingAnchors, op: OutPoint, tx: Tx,
                     ghost history: History, entry: HistoryEntry, start: u64, residing: bool, spending: bool,
                     ghost before: Gathered, ghost txs: seq<Tx>, ghost got: seq<Tx>)
    returns (ok: bool, hasResiding: bool, hasSpending: bool, ghost txs': seq<Tx>, ghost got': seq<Tx>)
    requires client.Valid() && Vouches(client.vouch, op.txid, tx)
    requires |txs| < |history| && entry == history[|txs|]
    requires Walked(client.vouch, start, before, Now(update, pending), op, history, txs, |txs|, got)
    requires residing == FoundResiding(op, history, |txs|) && spending == FoundSpending(op, history, txs, |txs|)
    modifies client, client.inner, update, pending
    ensures client.Valid() && client.Evolves()
    ensures update.txouts == old(update.txouts) && update.anchors == old(update.anchors)
    ensures !ok ==> TxFailed(client.inner.server, old(client.inner.now), entry.txid)
    ensures ok ==>
              && |txs'| == |txs| + 1
              && Walked(client.vouch, start, before, Now(update, pending), op, history, txs', |txs'|, got')
              && hasResiding == FoundResiding(op, history, |txs'|)
              && hasSpending == FoundSpending(op, history, txs', |txs'|)
  {
    ok, hasResiding, hasSpending, txs', got' := true, residing, spending, txs, got;
    ghost var mid := Now(update, pending);
    ghost var looked, pushed := NOT_FETCHED, tx;
    if !hasResiding && entry.txid == op.txid {
      hasResiding := true;
      Record(client.vouch, update, pending, entry, tx, start);
    }
    if !hasSpending && entry.txid != op.txid {
      var resTx := client.FetchTx(entry.txid);
      if resTx.None? {
        ok := false;
        return;
      }
      looked := resTx.value;
      hasSpending := Spends(resTx.value, op);
      if hasSpending {
        pushed := resTx.value;
        Record(client.vouch, update, pending, entry, resTx.value, start);
      }
    }
    txs' := txs + [looked];
    got' := EntryWalked(client.vouch, start, before, mid, Now(update, pending), op, history, residing, spending,
                        txs, looked, pushed, got);
  }

  /** Walks over the history of an outpoint's script until both transactions have been found. */
  method RecordOutpoint(client: BdkElectrumClient, update: TxUpdate, pending: PendingAnchors, op: OutPoint, tx: Tx,
                        history: History, start: u64)
    returns (ok: bool, ghost txs: seq<Tx>, ghost got: seq<Tx>)
    requires client.Valid() && Vouches(client.vouch, op.txid, tx)
    modifies client, client.inner, update, pending
    ensures client.Valid() && client.Evolves()
    ensures update.txouts == old(update.txouts) && update.anchors == old(update.anchors)
    ensures !ok ==> EntryFailed(client.inner.server, old(client.inner.now), history)
    ensures ok ==> Walked(client.vouch, start, old(Now(update, pending)), Now(update, pending), op, history,
                          txs, |history|, got)
  {
    ghost var before := Now(update, pending);
    var hasResiding, hasSpending := false, false;
    ok, txs, got := true, [], [];
    for i := 0 to |history|
      invariant client.Valid() && client.Evolves()
      invariant update.txouts == old(update.txouts) && update.anchors == old(update.anchors)
      invariant ok && |txs| == i
      invariant Walked(client.vouch, start, before, Now(update, pending), op, history, txs, i, got)
      invariant hasResiding == FoundResiding(op, history, i) && hasSpending == FoundSpending(op, history, txs, i)
    {
      if hasResiding && hasSpending {
        break;
      }
      ok, hasResiding, hasSpending, txs, got :=
        RecordEntry(client, update, pending, op, tx, history, history[i], start, hasResiding, hasSpending,
                    before, txs, got);
      if !ok {
        return;
      }
    }
    ghost var filler := seq(|history| - |txs|, _ => NOT_FETCHED);
    WalkEnds(client.vouch, start, before, Now(update, pending), op, history, txs, got, filler);
    txs := txs + filler;
  }

  /** With the world's transactions, the picks are the first entry for the outpoint's own transaction
      and the first other entry whose transaction spends it. */
  lemma {:induction false} PicksInWorld(world: World, vouch: Vouch, op: OutPoint, history: History, txs: seq<Tx>,
                                        n: nat)
    requires Pins(vouch, world) && n <= |history| == |txs| && Looked(vouch, op, history, txs, |history|)
    ensures Picks(op, history, txs, n) == Picks(op, history, WorldTxs(world, history), n)
    decreases n
  {
    WorldFound(world, vouch, op, history, txs, n);
    if n > 0 {
      PicksInWorld(world, vouch, op, history, txs, n - 1);
      WorldFound(world, vouch, op, history, txs, n - 1);
    }
  }

  function WorldTxs(world: World, history: History): seq<Tx> {
    seq(|history|, i requires 0 <= i < |history| => world.TxOf(history[i].txid))
  }

  lemma {:induction false} WorldFound(world: World, vouch: Vouch, op: OutPoint, history: History, txs: seq<Tx>, n: nat)
    requires Pins(vouch, world) && n <= |history| == |txs| && Looked(vouch, op, history, txs, |history|)
    ensures FoundSpending(op, history, txs, n) == FoundSpending(op, history, WorldTxs(world, history), n)
    decreases n
  {
    if n > 0 {
      WorldFound(world, vouch, op, history, txs, n - 1);
    }
  }
}
