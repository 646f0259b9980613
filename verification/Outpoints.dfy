/** Looking up watched outpoints, and the previous outputs of every transaction that was found. */
module Outpoints {
  import opened Types
  import opened Server
  import opened Client
  import opened Updates
  import opened Scan
  import opened Histories

  /** An outpoint with the script of its output and the transaction that holds it. */
  datatype Located = Located(op: OutPoint, spk: Script, tx: Tx)

  predicate HasOutput(op: OutPoint, reply: Option<Tx>) {
    reply.Some? && op.vout < |reply.value.outputs|
  }

  /** The outpoints whose transaction was found and has that output; the others are passed over. */
  function Locate(ops: seq<OutPoint>, replies: seq<Option<Tx>>): seq<Located>
    requires |ops| == |replies|
  {
    if ops == [] then []
    else
      var last := |ops| - 1;
      var op := ops[last];
      Locate(ops[..last], replies[..last])
      + if HasOutput(op, replies[last])
        then [Located(op, replies[last].value.outputs[op.vout].scriptPubkey, replies[last].value)]
        else []
  }

  /** What fetching the transaction of an outpoint gave, from request number `since` on. */
  ghost predicate Fetched(client: BdkElectrumClient, since: nat, op: OutPoint, reply: Option<Tx>) {
    if reply.Some? then Vouches(client.vouch, op.txid, reply.value)
    else TxFailed(client.inner.server, since, op.txid)
  }

  ghost predicate LocatedVouched(vouch: Vouch, valid: seq<Located>) {
    forall i :: 0 <= i < |valid| ==> Vouches(vouch, valid[i].op.txid, valid[i].tx)
  }

  method LocateOutpoints(client: BdkElectrumClient, ops: seq<OutPoint>)
    returns (valid: seq<Located>, ghost replies: seq<Option<Tx>>)
    requires client.Valid()
    modifies client, client.inner
    ensures client.Valid() && client.Evolves()
    ensures |replies| == |ops| && valid == Locate(ops, replies) && LocatedVouched(client.vouch, valid)
    ensures forall i :: 0 <= i < |ops| ==> Fetched(client, old(client.inner.now), ops[i], replies[i])
  {
    valid, replies := [], [];
    for i := 0 to |ops|
      invariant client.Valid() && client.Evolves()
      invariant |replies| == i && valid == Locate(ops[..i], replies) && LocatedVouched(client.vouch, valid)
      invariant forall j :: 0 <= j < i ==> Fetched(client, old(client.inner.now), ops[j], replies[j])
    {
      var op := ops[i];
      var tx := client.FetchTx(op.txid);
      assert ops[..i + 1][..i] == ops[..i] && (replies + [tx])[..i] == replies;
      if tx.Some? && op.vout < |tx.value.outputs| {
        valid := valid + [Located(op, tx.value.outputs[op.vout].scriptPubkey, tx.value)];
      }
      replies := replies + [tx];
    }
    assert ops[..|ops|] == ops;
  }

  /** The distinct scripts, in whatever order a hash set yields them. */
  method Distinct(scripts: set<Script>) returns (r: seq<Script>)
    ensures forall s :: s in r <==> s in scripts
  {
    r := [];
    var rest := scripts;
    while rest != {}
      invariant rest <= scripts
      invariant forall s :: s in r <==> s in scripts && s !in rest
      decreases rest
    {
      var s :| s in rest;
      r := r + [s];
      rest := rest - {s};
    }
  }

  type SpkMap = map<Script, History>

  ghost predicate MapGiven(server: Server, m: SpkMap) {
    forall s :: s in m ==> AnsweredHistory(server, s, m[s])
  }

  function Zip(scripts: seq<Script>, histories: seq<History>): (m: SpkMap)
    requires |scripts| == |histories|
    ensures forall s :: s in m <==> s in scripts
    ensures forall s :: s in m ==> exists i :: 0 <= i < |scripts| && scripts[i] == s && m[s] == histories[i]
  {
    if scripts == [] then map[]
    else
      var last := |scripts| - 1;
      assert scripts == scripts[..last] + [scripts[last]];
      Zip(scripts[..last], histories[..last])[scripts[last] := histories[last]]
  }

  /** The picks of one outpoint from a history of its script. */
  ghost predicate PickedFrom(vouch: Vouch, op: OutPoint, history: History, picks: History) {
    exists txs: seq<Tx> :: |txs| == |history| && Looked(vouch, op, history, txs, |history|)
                           && picks == Picks(op, history, txs, |history|)
  }

  ghost predicate AllPicked(vouch: Vouch, valid: seq<Located>, m: SpkMap, picks: seq<History>) {
    |picks| == |valid| && forall i :: 0 <= i < |valid| ==> PickedAt(vouch, valid[i], m, picks[i])
  }

  ghost predicate PickedAt(vouch: Vouch, located: Located, m: SpkMap, pick: History) {
    located.spk in m && PickedFrom(vouch, located.op, m[located.spk], pick)
  }

  /** A transaction the server gave for this outpoint has the output, and the history of its script, or a
      transaction in it, could not be fetched. */
  ghost predicate OutpointFailed(server: Server, since: nat, vouch: Vouch, op: OutPoint) {
    exists tx :: Vouches(vouch, op.txid, tx) && op.vout < |tx.outputs|
                 && ScriptFailed(server, since, tx.outputs[op.vout].scriptPubkey)
  }

  ghost predicate ScriptFailed(server: Server, since: nat, script: Script) {
    HistoryFailed(server, since, script) || HistoryTxFailed(server, since, script)
  }

  ghost predicate OutpointsFailed(server: Server, since: nat, vouch: Vouch, ops: seq<OutPoint>) {
    SomeBatchLost(server, since) || exists i :: 0 <= i < |ops| && OutpointFailed(server, since, vouch, ops[i])
  }

  lemma {:induction false} LocatedFrom(ops: seq<OutPoint>, replies: seq<Option<Tx>>, k: nat) returns (i: nat)
    requires |ops| == |replies| && k < |Locate(ops, replies)|
    ensures i < |ops| && HasOutput(ops[i], replies[i])
    ensures Locate(ops, replies)[k]
            == Located(ops[i], replies[i].value.outputs[ops[i].vout].scriptPubkey, replies[i].value)
    decreases |ops|
  {
    var last := |ops| - 1;
    if k < |Locate(ops[..last], replies[..last])| {
      i := LocatedFrom(ops[..last], replies[..last], k);
    } else {
      i := last;
    }
  }

  lemma LocatedFailed(server: Server, since: nat, vouch: Vouch, ops: seq<OutPoint>, replies: seq<Option<Tx>>, k: nat)
    requires |ops| == |replies| && LocatedVouched(vouch, Locate(ops, replies))
    requires k < |Locate(ops, replies)| && ScriptFailed(server, since, Locate(ops, replies)[k].spk)
    ensures OutpointsFailed(server, since, vouch, ops)
  {
    var i := LocatedFrom(ops, replies, k);
    assert Vouches(vouch, Locate(ops, replies)[k].op.txid, Locate(ops, replies)[k].tx);
    assert OutpointFailed(server, since, vouch, ops[i]);
  }

  ghost predicate SomeHistoryFailed(server: Server, since: nat, valid: seq<Located>) {
    exists k :: 0 <= k < |valid| && HistoryFailed(server, since, valid[k].spk)
  }

  lemma PickTxFailed(server: Server, since: nat, script: Script, history: History)
    requires AnsweredHistory(server, script, history)
    requires exists i :: 0 <= i < |history| && TxFailed(server, since, history[i].txid)
    ensures HistoryTxFailed(server, since, script)
  {
    var t: nat :| server.HistoryAt(t, script) == Some(history);
    var i :| 0 <= i < |history| && TxFailed(server, since, history[i].txid);
    assert TxFailed(server, since, server.HistoryAt(t, script).value[i].txid);
  }

  method FetchSpkMap(client: BdkElectrumClient, valid: seq<Located>) returns (r: Option<SpkMap>)
    requires client.Valid()
    modifies client.inner
    ensures client.Valid() && client.Evolves()
    ensures r.None? ==>
              || SomeBatchLost(client.inner.server, old(client.inner.now))
              || SomeHistoryFailed(client.inner.server, old(client.inner.now), valid)
    ensures r.Some? ==> MapGiven(client.inner.server, r.value)
                        && forall i :: 0 <= i < |valid| ==> valid[i].spk in r.value
  {
    var unique := Distinct(set v | v in valid :: v.spk);
    ghost var t := client.inner.now;
    var histories := client.inner.BatchScriptGetHistory(unique);
    BatchGivenFor(client.inner.server, old(client.inner.now), unique, t);
    if histories.None? {
      if !SomeBatchLost(client.inner.server, old(client.inner.now)) {
        ghost var i :| 0 <= i < |unique| && HistoryFailed(client.inner.server, old(client.inner.now), unique[i]);
        assert unique[i] in unique;
        ghost var v :| v in valid && v.spk == unique[i];
      }
      return None;
    }
    r := Some(Zip(unique, histories.value));
  }

  /** Records, for each outpoint with a valid output, the transaction it resides in if that is in its
      script's history, and the first other one there that spends it. */
  method PopulateWithOutpoints(client: BdkElectrumClient, start: u64, update: TxUpdate, ops: seq<OutPoint>,
                               pending: PendingAnchors)
    returns (ok: bool, ghost replies: seq<Option<Tx>>, ghost spkMap: SpkMap, ghost picks: seq<History>,
             ghost got: seq<Tx>)
    requires client.Valid()
    modifies client, client.inner, update, pending
    ensures client.Valid() && client.Evolves()
    ensures update.txouts == old(update.txouts) && update.anchors == old(update.anchors)
    ensures !ok ==> OutpointsFailed(client.inner.server, old(client.inner.now), client.vouch, ops)
    ensures ok ==>
              && |replies| == |ops| && (forall i :: 0 <= i < |ops| ==>
                    Fetched(client, old(client.inner.now), ops[i], replies[i]))
              && MapGiven(client.inner.server, spkMap)
              && AllPicked(client.vouch, Locate(ops, replies), spkMap, picks)
              && Grown(client.vouch, start, old(Now(update, pending)), Now(update, pending), Flatten(picks), got, {})
  {
    ghost var before := Now(update, pending);
    ok, spkMap, picks, got := true, map[], [], [];
    var valid;
    valid, replies := LocateOutpoints(client, ops);
    var fetched := FetchSpkMap(client, valid);
    if fetched.None? {
      if !SomeBatchLost(client.inner.server, old(client.inner.now)) {
        ghost var k :| 0 <= k < |valid| && HistoryFailed(client.inner.server, old(client.inner.now), valid[k].spk);
        LocatedFailed(client.inner.server, old(client.inner.now), client.vouch, ops, replies, k);
      }
      ok := false;
      return;
    }
    var m := fetched.value;
    spkMap := m;
    for i := 0 to |valid|
      invariant client.Valid() && client.Evolves()
      invariant update.txouts == old(update.txouts) && update.anchors == old(update.anchors)
      invariant AllPicked(client.vouch, valid[..i], m, picks)
      invariant Grown(client.vouch, start, before, Now(update, pending), Flatten(picks), got, {})
    {
      ghost var mid := Now(update, pending);
      ghost var txs, more;
      ok, txs, more := RecordOutpoint(client, update, pending, valid[i].op, valid[i].tx, m[valid[i].spk], start);
      if !ok {
        PickTxFailed(client.inner.server, old(client.inner.now), valid[i].spk, m[valid[i].spk]);
        LocatedFailed(client.inner.server, old(client.inner.now), client.vouch, ops, replies, i);
        return;
      }
      ghost var history := m[valid[i].spk];
      ghost var pick := Picks(valid[i].op, history, txs, |history|);
      picks, got := AnotherPick(client.vouch, start, before, mid, Now(update, pending), valid, m, picks, got,
                                i, txs, pick, more);
    }
    assert valid[..|valid|] == valid;
  }

  lemma WalkPicks(vouch: Vouch, start: u64, before: Gathered, now: Gathered, op: OutPoint, history: History,
                  txs: seq<Tx>, got: seq<Tx>)
    requires |txs| >= |history| && Walked(vouch, start, before, now, op, history, txs, |history|, got)
    ensures PickedFrom(vouch, op, history, Picks(op, history, txs, |history|))
  {
    var seen := txs[..|history|];
    PicksStable(op, history, seen, txs[|history|..], |history|);
    assert seen + txs[|history|..] == txs;
    forall k | 0 <= k < |history| && !Residing(op, history[k]) && !FoundSpending(op, history, seen, k)
      ensures Vouches(vouch, history[k].txid, seen[k])
    {
      assert !FoundSpending(op, history, txs, k);
    }
    assert Looked(vouch, op, history, seen, |history|);
  }

  lemma AllPickedNext(vouch: Vouch, valid: seq<Located>, m: SpkMap, picks: seq<History>, i: nat, pick: History)
    requires i < |valid| && AllPicked(vouch, valid[..i], m, picks) && PickedAt(vouch, valid[i], m, pick)
    ensures AllPicked(vouch, valid[..i + 1], m, picks + [pick])
  {
    forall k | 0 <= k < i + 1
      ensures PickedAt(vouch, valid[..i + 1][k], m, (picks + [pick])[k])
    {
      if k < i {
        assert valid[..i][k] == valid[..i + 1][k] && (picks + [pick])[k] == picks[k];
      }
    }
  }

  lemma AnotherPick(vouch: Vouch, start: u64, before: Gathered, mid: Gathered, now: Gathered, valid: seq<Located>,
                    m: SpkMap, picks: seq<History>, got: seq<Tx>, i: nat, txs: seq<Tx>, pick: History, more: seq<Tx>)
    returns (picks': seq<History>, got': seq<Tx>)
    requires i < |valid| && valid[i].spk in m
    requires AllPicked(vouch, valid[..i], m, picks) && Grown(vouch, start, before, mid, Flatten(picks), got, {})
    requires var history := m[valid[i].spk];
             |txs| >= |history| && pick == Picks(valid[i].op, history, txs, |history|)
             && Walked(vouch, start, mid, now, valid[i].op, history, txs, |history|, more)
    ensures AllPicked(vouch, valid[..i + 1], m, picks')
    ensures Grown(vouch, start, before, now, Flatten(picks'), got', {})
  {
    picks', got' := picks + [pick], got + more;
    WalkPicks(vouch, start, mid, now, valid[i].op, m[valid[i].spk], txs, more);
    AllPickedNext(vouch, valid, m, picks, i, pick);
    GrownTwice(vouch, start, before, mid, now, Flatten(picks), got, {}, pick, more, {});
    assert picks'[..|picks|] == picks;
    assert before.evicted + {} == now.evicted;
  }

  /** With the world's transactions the picks do not depend on what was fetched along the way. */
  lemma PickedInWorld(world: World, vouch: Vouch, op: OutPoint, history: History, picks: History)
    requires Pins(vouch, world) && PickedFrom(vouch, op, history, picks)
    ensures picks == Picks(op, history, WorldTxs(world, history), |history|)
  {
    var txs: seq<Tx> :| |txs| == |history| && Looked(vouch, op, history, txs, |history|)
                        && picks == Picks(op, history, txs, |history|);
    PicksInWorld(world, vouch, op, history, txs, |history|);
  }
}
