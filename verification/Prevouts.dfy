/** Previous outputs of the gathered transactions, for fee calculation. */
module Prevouts {
  import opened Types
  import opened Server
  import opened Client
  import opened Updates
  import opened Scan

  function AsSet(ops: seq<OutPoint>): set<OutPoint> {
    set op | op in ops
  }

  lemma AsSetNext(ops: seq<OutPoint>, i: nat)
    requires i < |ops|
    ensures AsSet(ops[..i + 1]) == AsSet(ops[..i]) + {ops[i]}
  {
    assert ops[..i + 1] == ops[..i] + [ops[i]];
  }

  /** What each of these outpoints refers to, for those whose output exists. */
  function OutputsAt(world: World, ops: set<OutPoint>): map<OutPoint, TxOut> {
    map op | op in ops && op.vout < |world.TxOf(op.txid).outputs| :: world.TxOf(op.txid).outputs[op.vout]
  }

  /** Everything the transactions spend, coinbase inputs aside. */
  function Spent(txs: seq<Tx>): set<OutPoint> {
    if txs == [] then {}
    else
      var last := txs[|txs| - 1];
      Spent(txs[..|txs| - 1]) + if last.IsCoinbase() then {} else AsSet(last.inputs)
  }

  /** This is the output of a transaction that the server stands for under the outpoint's txid. */
  ghost predicate OutputOf(vouch: Vouch, op: OutPoint, output: TxOut) {
    exists tx :: Vouches(vouch, op.txid, tx) && op.vout < |tx.outputs| && tx.outputs[op.vout] == output
  }

  ghost predicate OutOfRange(vouch: Vouch, op: OutPoint) {
    exists tx :: Vouches(vouch, op.txid, tx) && op.vout >= |tx.outputs|
  }

  type Outputs = map<OutPoint, TxOut>

  /** Nothing but outputs of these outpoints was added, and nothing was removed. */
  ghost predicate OnlyAdded(vouch: Vouch, ops: set<OutPoint>, before: Outputs, after: Outputs) {
    && before.Keys <= after.Keys
    && forall op :: op in after ==>
         (op in before && after[op] == before[op]) || (op in ops && OutputOf(vouch, op, after[op]))
  }

  /** Each of these outpoints has its output, or points past the end of its transaction. */
  ghost predicate AllThere(vouch: Vouch, ops: set<OutPoint>, after: Outputs) {
    forall op :: op in ops ==> op in after || OutOfRange(vouch, op)
  }

  /** Starting from nothing, exactly outputs of what the transactions spend were added, and all of them if
      txids commit to inputs. */
  ghost predicate SpentAdded(hashing: Hashing, vouch: Vouch, txs: seq<Tx>, after: Outputs) {
    && OnlyAdded(vouch, Spent(txs), map[], after)
    && (CommitsToInputs(hashing, txs) ==> AllThere(vouch, Spent(txs), after))
  }

  lemma AddedTwice(vouch: Vouch, a: set<OutPoint>, b: set<OutPoint>, m0: Outputs, m1: Outputs, m2: Outputs)
    requires OnlyAdded(vouch, a, m0, m1) && OnlyAdded(vouch, b, m1, m2)
    ensures OnlyAdded(vouch, a + b, m0, m2)
    ensures AllThere(vouch, a, m1) && AllThere(vouch, b, m2) ==> AllThere(vouch, a + b, m2)
  {
  }

  lemma AddedOne(vouch: Vouch, op: OutPoint, tx: Tx, m: Outputs)
    requires Vouches(vouch, op.txid, tx)
    ensures var next := if op.vout < |tx.outputs| then m[op := tx.outputs[op.vout]] else m;
            OnlyAdded(vouch, {op}, m, next) && AllThere(vouch, {op}, next)
  {
    if op.vout < |tx.outputs| {
      assert OutputOf(vouch, op, tx.outputs[op.vout]);
    }
  }

  lemma SpentGrows(txs: seq<Tx>, i: nat)
    requires i < |txs|
    ensures Spent(txs[..i + 1]) == Spent(txs[..i]) + if txs[i].IsCoinbase() then {} else AsSet(txs[i].inputs)
  {
    assert txs[..i + 1][..i] == txs[..i];
  }

  /** The id of a transaction commits to its inputs. */
  ghost predicate CommitsToInputs(hashing: Hashing, txs: seq<Tx>) {
    forall i, j :: 0 <= i < |txs| && 0 <= j < |txs| && hashing.ComputeTxid(txs[i]) == hashing.ComputeTxid(txs[j])
      ==> txs[i].inputs == txs[j].inputs
  }

  ghost predicate SpentFailed(server: Server, since: nat, txs: seq<Tx>) {
    exists op :: op in Spent(txs) && TxFailed(server, since, op.txid)
  }

  /** Ids already handled: the inputs of the transactions carrying them are covered. */
  ghost predicate SeenCovered(hashing: Hashing, txs: seq<Tx>, n: nat, seen: set<Txid>)
    requires n <= |txs|
  {
    forall id :: id in seen ==>
      exists i :: 0 <= i < n && hashing.ComputeTxid(txs[i]) == id && !txs[i].IsCoinbase()
  }

  lemma {:induction false} SpentHas(txs: seq<Tx>, i: nat)
    requires i < |txs| && !txs[i].IsCoinbase()
    ensures AsSet(txs[i].inputs) <= Spent(txs)
    decreases |txs|
  {
    if i < |txs| - 1 {
      SpentHas(txs[..|txs| - 1], i);
    }
  }

  lemma {:induction false} SpentOfPrefix(txs: seq<Tx>, n: nat)
    requires n <= |txs|
    ensures Spent(txs[..n]) <= Spent(txs)
    decreases |txs|
  {
    if n == |txs| {
      assert txs[..n] == txs;
    } else {
      assert txs[..|txs| - 1][..n] == txs[..n];
      SpentOfPrefix(txs[..|txs| - 1], n);
    }
  }

  lemma SeenNext(hashing: Hashing, txs: seq<Tx>, n: nat, seen: set<Txid>)
    requires n < |txs| && SeenCovered(hashing, txs, n, seen)
    ensures SeenCovered(hashing, txs, n + 1, seen)
    ensures !txs[n].IsCoinbase() ==> SeenCovered(hashing, txs, n + 1, seen + {hashing.ComputeTxid(txs[n])})
  {
    forall id | id in seen
      ensures exists i :: 0 <= i < n + 1 && hashing.ComputeTxid(txs[i]) == id && !txs[i].IsCoinbase()
    {
      var i :| 0 <= i < n && hashing.ComputeTxid(txs[i]) == id && !txs[i].IsCoinbase();
    }
  }

  /** Skipping a transaction whose id was seen loses nothing. */
  lemma SkipSeen(hashing: Hashing, txs: seq<Tx>, n: nat, seen: set<Txid>)
    requires n < |txs| && CommitsToInputs(hashing, txs) && SeenCovered(hashing, txs, n, seen)
    requires txs[n].IsCoinbase() || hashing.ComputeTxid(txs[n]) in seen
    ensures Spent(txs[..n + 1]) == Spent(txs[..n])
  {
    assert txs[..n + 1][..n] == txs[..n];
    if !txs[n].IsCoinbase() {
      var i :| 0 <= i < n && hashing.ComputeTxid(txs[i]) == hashing.ComputeTxid(txs[n]) && !txs[i].IsCoinbase();
      assert txs[..n][i] == txs[i];
      SpentHas(txs[..n], i);
    }
  }

  lemma OutputsUnion(world: World, base: map<OutPoint, TxOut>, a: set<OutPoint>, b: set<OutPoint>)
    ensures (base + OutputsAt(world, a)) + OutputsAt(world, b) == base + OutputsAt(world, a + b)
  {
  }

  lemma OutputsNext(world: World, base: map<OutPoint, TxOut>, ops: set<OutPoint>, op: OutPoint)
    ensures base + OutputsAt(world, ops + {op})
            == if op.vout < |world.TxOf(op.txid).outputs|
               then (base + OutputsAt(world, ops))[op := world.TxOf(op.txid).outputs[op.vout]]
               else base + OutputsAt(world, ops)
  {
    OutputsUnion(world, base, ops, {op});
  }

  /** Fetches the output behind one outpoint. */
  method FetchOutput(client: BdkElectrumClient, update: TxUpdate, outpoint: OutPoint) returns (ok: bool)
    requires client.Valid()
    modifies client, client.inner, update`txouts
    ensures client.Valid() && client.Evolves()
    ensures if ok then OnlyAdded(client.vouch, {outpoint}, old(update.txouts), update.txouts)
            else update.txouts == old(update.txouts)
    ensures !ok ==> TxFailed(client.inner.server, old(client.inner.now), outpoint.txid)
    ensures ok ==> AllThere(client.vouch, {outpoint}, update.txouts)
    ensures ok && Pins(client.vouch, client.world) ==>
              update.txouts == old(update.txouts) + OutputsAt(client.world, {outpoint})
  {
    var prevTx := client.FetchTx(outpoint.txid);
    if prevTx.None? {
      return false;
    }
    AddedOne(client.vouch, outpoint, prevTx.value, update.txouts);
    OutputsNext(client.world, update.txouts, {}, outpoint);
    assert update.txouts + OutputsAt(client.world, {}) == update.txouts && {} + {outpoint} == {outpoint};
    assert Pins(client.vouch, client.world) ==> prevTx.value == client.world.TxOf(outpoint.txid);
    if outpoint.vout < |prevTx.value.outputs| {
      update.txouts := update.txouts[outpoint := prevTx.value.outputs[outpoint.vout]];
    }
    ok := true;
  }

  /** Fetches what one transaction spends. */
  method FetchSpent(client: BdkElectrumClient, update: TxUpdate, tx: Tx) returns (ok: bool)
    requires client.Valid()
    modifies client, client.inner, update`txouts
    ensures client.Valid() && client.Evolves()
    ensures !ok ==> exists i :: 0 <= i < |tx.inputs|
                                && TxFailed(client.inner.server, old(client.inner.now), tx.inputs[i].txid)
    ensures OnlyAdded(client.vouch, AsSet(tx.inputs), old(update.txouts), update.txouts)
    ensures ok ==> AllThere(client.vouch, AsSet(tx.inputs), update.txouts)
    ensures ok && Pins(client.vouch, client.world) ==>
              update.txouts == old(update.txouts) + OutputsAt(client.world, AsSet(tx.inputs))
  {
    for i := 0 to |tx.inputs|
      invariant client.Valid() && client.Evolves()
      invariant OnlyAdded(client.vouch, AsSet(tx.inputs[..i]), old(update.txouts), update.txouts)
      invariant AllThere(client.vouch, AsSet(tx.inputs[..i]), update.txouts)
      invariant Pins(client.vouch, client.world) ==>
                  update.txouts == old(update.txouts) + OutputsAt(client.world, AsSet(tx.inputs[..i]))
    {
      AsSetNext(tx.inputs, i);
      OutputsUnion(client.world, old(update.txouts), AsSet(tx.inputs[..i]), {tx.inputs[i]});
      ghost var mid := update.txouts;
      ok := FetchOutput(client, update, tx.inputs[i]);
      if !ok {
        assert AsSet(tx.inputs[..i]) <= AsSet(tx.inputs);
        return;
      }
      AddedTwice(client.vouch, AsSet(tx.inputs[..i]), {tx.inputs[i]}, old(update.txouts), mid, update.txouts);
    }
    assert tx.inputs[..|tx.inputs|] == tx.inputs;
    ok := true;
  }

  lemma SpentNext(world: World, base: map<OutPoint, TxOut>, txs: seq<Tx>, i: nat)
    requires i < |txs| && !txs[i].IsCoinbase()
    ensures base + OutputsAt(world, Spent(txs[..i + 1]))
            == (base + OutputsAt(world, Spent(txs[..i]))) + OutputsAt(world, AsSet(txs[i].inputs))
  {
    assert txs[..i + 1][..i] == txs[..i];
    OutputsUnion(world, base, Spent(txs[..i]), AsSet(txs[i].inputs));
  }

  /** The outputs after the first `n` transactions, compared with those at the start: only outputs of what
      they spend were added; all of them, if ids commit to inputs; and exactly the world's, if no other
      transaction is ever delivered. */
  ghost predicate Filled(hashing: Hashing, vouch: Vouch, world: World, txs: seq<Tx>, n: nat, base: Outputs,
                         now: Outputs)
    requires n <= |txs|
  {
    && OnlyAdded(vouch, Spent(txs[..n]), base, now)
    && (CommitsToInputs(hashing, txs) ==> AllThere(vouch, Spent(txs[..n]), now))
    && (CommitsToInputs(hashing, txs) && Pins(vouch, world) ==> now == base + OutputsAt(world, Spent(txs[..n])))
  }

  lemma FilledSkip(hashing: Hashing, vouch: Vouch, world: World, txs: seq<Tx>, n: nat, base: Outputs, now: Outputs,
                   seen: set<Txid>)
    requires n < |txs| && Filled(hashing, vouch, world, txs, n, base, now) && SeenCovered(hashing, txs, n, seen)
    requires txs[n].IsCoinbase() || hashing.ComputeTxid(txs[n]) in seen
    ensures Filled(hashing, vouch, world, txs, n + 1, base, now)
  {
    SpentGrows(txs, n);
    if CommitsToInputs(hashing, txs) {
      SkipSeen(hashing, txs, n, seen);
    }
  }

  lemma FilledNext(hashing: Hashing, vouch: Vouch, world: World, txs: seq<Tx>, n: nat, base: Outputs, mid: Outputs,
                   now: Outputs)
    requires n < |txs| && !txs[n].IsCoinbase() && Filled(hashing, vouch, world, txs, n, base, mid)
    requires var ops := AsSet(txs[n].inputs);
             && OnlyAdded(vouch, ops, mid, now) && AllThere(vouch, ops, now)
             && (Pins(vouch, world) ==> now == mid + OutputsAt(world, ops))
    ensures Filled(hashing, vouch, world, txs, n + 1, base, now)
  {
    SpentGrows(txs, n);
    SpentNext(world, base, txs, n);
    AddedTwice(vouch, Spent(txs[..n]), AsSet(txs[n].inputs), base, mid, now);
  }

  lemma FilledPart(vouch: Vouch, txs: seq<Tx>, n: nat, base: Outputs, mid: Outputs, now: Outputs)
    requires n < |txs| && !txs[n].IsCoinbase()
    requires OnlyAdded(vouch, Spent(txs[..n]), base, mid) && OnlyAdded(vouch, AsSet(txs[n].inputs), mid, now)
    ensures OnlyAdded(vouch, Spent(txs), base, now)
  {
    AddedTwice(vouch, Spent(txs[..n]), AsSet(txs[n].inputs), base, mid, now);
    SpentHas(txs, n);
    SpentOfPrefix(txs, n);
  }

  lemma SomeSpentFailed(server: Server, since: nat, txs: seq<Tx>, n: nat)
    requires n < |txs| && !txs[n].IsCoinbase()
    requires exists i :: 0 <= i < |txs[n].inputs| && TxFailed(server, since, txs[n].inputs[i].txid)
    ensures SpentFailed(server, since, txs)
  {
    SpentHas(txs, n);
    var i :| 0 <= i < |txs[n].inputs| && TxFailed(server, since, txs[n].inputs[i].txid);
    assert txs[n].inputs[i] in AsSet(txs[n].inputs);
  }

  /** Works through one transaction, unless it is a coinbase or its txid has been seen. */
  method FetchUnseen(client: BdkElectrumClient, update: TxUpdate, txs: seq<Tx>, n: nat, seen: set<Txid>,
                     ghost base: Outputs) returns (ok: bool, seen': set<Txid>)
    requires client.Valid() && n < |txs| && SeenCovered(client.hashing, txs, n, seen)
    requires Filled(client.hashing, client.vouch, client.world, txs, n, base, update.txouts)
    modifies client, client.inner, update`txouts
    ensures client.Valid() && client.Evolves()
    ensures ok ==> SeenCovered(client.hashing, txs, n + 1, seen')
                   && Filled(client.hashing, client.vouch, client.world, txs, n + 1, base, update.txouts)
    ensures !ok ==> SpentFailed(client.inner.server, old(client.inner.now), txs)
                    && OnlyAdded(client.vouch, Spent(txs), base, update.txouts)
  {
    var txid := client.hashing.ComputeTxid(txs[n]);
    SeenNext(client.hashing, txs, n, seen);
    if txs[n].IsCoinbase() || txid in seen {
      FilledSkip(client.hashing, client.vouch, client.world, txs, n, base, update.txouts, seen);
      return true, seen;
    }
    seen' := seen + {txid};
    ghost var mid := update.txouts;
    ok := FetchSpent(client, update, txs[n]);
    if ok {
      FilledNext(client.hashing, client.vouch, client.world, txs, n, base, mid, update.txouts);
    } else {
      SomeSpentFailed(client.inner.server, old(client.inner.now), txs, n);
      FilledPart(client.vouch, txs, n, base, mid, update.txouts);
    }
  }

  /** Adds the output behind every in-range input of every non-coinbase transaction, though each txid is
      worked through only once. */
  method FetchPrevTxout(client: BdkElectrumClient, update: TxUpdate) returns (ok: bool)
    requires client.Valid()
    modifies client, client.inner, update`txouts
    ensures client.Valid() && client.Evolves()
    ensures !ok ==> SpentFailed(client.inner.server, old(client.inner.now), update.txs)
    ensures OnlyAdded(client.vouch, Spent(update.txs), old(update.txouts), update.txouts)
    ensures ok && CommitsToInputs(client.hashing, update.txs) ==>
              AllThere(client.vouch, Spent(update.txs), update.txouts)
    ensures ok && Pins(client.vouch, client.world) && CommitsToInputs(client.hashing, update.txs) ==>
              update.txouts == old(update.txouts) + OutputsAt(client.world, Spent(update.txs))
  {
    var txs := update.txs;
    ghost var base := update.txouts;
    var seen: set<Txid> := {};
    for i := 0 to |txs|
      invariant client.Valid() && client.Evolves()
      invariant SeenCovered(client.hashing, txs, i, seen)
      invariant Filled(client.hashing, client.vouch, client.world, txs, i, base, update.txouts)
    {
      ok, seen := FetchUnseen(client, update, txs, i, seen, base);
      if !ok {
        return;
      }
    }
    assert txs[..|txs|] == txs;
    ok := true;
  }
}
