/** The update being gathered during a sync, and how history entries are recorded in it. */
module Updates {
  import opened Types
  import opened Client

  class TxUpdate {
    var txs: seq<Tx>
    var txouts: map<OutPoint, TxOut>
    var anchors: set<(ConfirmationBlockTime, Txid)>
    var seenAts: set<(Txid, u64)>
    var evictedAts: set<(Txid, u64)>

    constructor ()
      ensures txs == [] && txouts == map[] && anchors == {} && seenAts == {} && evictedAts == {}
    {
      txs, txouts, anchors, seenAts, evictedAts := [], map[], {}, {}, {};
    }
  }

  /** The confirmations still to be proved: a txid and its claimed height. */
  class PendingAnchors {
    var items: seq<(Txid, u32)>

    constructor ()
      ensures items == []
    {
      items := [];
    }
  }

  /** The parts of an update that history entries touch. */
  datatype Gathered = Gathered(
    txs: seq<Tx>,
    pending: seq<(Txid, u32)>,
    seen: set<(Txid, u64)>,
    evicted: set<(Txid, u64)>)

  ghost function Now(update: TxUpdate, pending: PendingAnchors): Gathered
    reads update, pending
  {
    Gathered(update.txs, pending.items, update.seenAts, update.evictedAts)
  }

  /** Heights 0 and -1 mark unconfirmed entries; a height must also fit 32 bits. */
  predicate IsConfirmed(e: HistoryEntry) {
    0 < e.height < U32_LIMIT
  }

  function Confirmed(entries: History): (r: seq<(Txid, u32)>) {
    if entries == [] then []
    else
      var last := entries[|entries| - 1];
      Confirmed(entries[..|entries| - 1]) + if IsConfirmed(last) then [(last.txid, last.height)] else []
  }

  function Unconfirmed(entries: History, start: u64): set<(Txid, u64)> {
    set e | e in entries && !IsConfirmed(e) :: (e.txid, start)
  }

  lemma {:induction false} ConfirmedConcat(a: History, b: History)
    ensures Confirmed(a + b) == Confirmed(a) + Confirmed(b)
    decreases |b|
  {
    if b == [] {
      assert a + b == a;
    } else {
      var init := b[..|b| - 1];
      assert (a + b)[..|a + b| - 1] == a + init;
      ConfirmedConcat(a, init);
    }
  }

  /** Every entry is recorded as pending or as seen, by its height, and nothing else is. */
  lemma {:induction false} EntriesSplit(entries: History, start: u64)
    ensures forall p :: p in Confirmed(entries) <==>
              exists e :: e in entries && IsConfirmed(e) && p == (e.txid, e.height)
    ensures forall p :: p in Unconfirmed(entries, start) <==>
              p.1 == start && exists e :: e in entries && !IsConfirmed(e) && p.0 == e.txid
    decreases |entries|
  {
    if entries != [] {
      var init, last := entries[..|entries| - 1], entries[|entries| - 1];
      assert entries == init + [last];
      EntriesSplit(init, start);
      forall p | p in Confirmed(entries)
        ensures exists e :: e in entries && IsConfirmed(e) && p == (e.txid, e.height)
      {
        if p in Confirmed(init) {
          var e :| e in init && IsConfirmed(e) && p == (e.txid, e.height);
          assert e in entries;
        } else {
          assert last in entries;
        }
      }
    }
  }

  /** ... and as often as it occurs: each pending confirmation stands for as many entries. */
  lemma {:induction false} EntriesCounted(entries: History, txid: Txid, height: u32)
    ensures multiset(Confirmed(entries))[(txid, height)]
            == if height > 0 then multiset(entries)[HistoryEntry(txid, height)] else 0
    ensures |Confirmed(entries)| + |Others(entries)| == |entries|
    decreases |entries|
  {
    if entries != [] {
      var init, last := entries[..|entries| - 1], entries[|entries| - 1];
      assert entries == init + [last];
      EntriesCounted(init, txid, height);
    }
  }

  /** The entries that wait for no anchor, in order. */
  function Others(entries: History): (r: History)
    ensures forall e :: e in r ==> e in entries && !IsConfirmed(e)
  {
    if entries == [] then []
    else
      var last := entries[|entries| - 1];
      Others(entries[..|entries| - 1]) + if IsConfirmed(last) then [] else [last]
  }

  /** A transaction for each entry, the one that was asked for as far as `vouch` can tell. */
  predicate Delivered(vouch: Vouch, entries: History, got: seq<Tx>) {
    |got| == |entries| && forall i :: 0 <= i < |entries| ==> Vouches(vouch, entries[i].txid, got[i])
  }

  /** From `before` to `after`, exactly these entries, transactions and evictions were recorded. */
  ghost predicate Grown(vouch: Vouch, start: u64, before: Gathered, after: Gathered,
                        entries: History, got: seq<Tx>, evicted: set<(Txid, u64)>) {
    && Delivered(vouch, entries, got)
    && after.txs == before.txs + got
    && after.pending == before.pending + Confirmed(entries)
    && after.seen == before.seen + Unconfirmed(entries, start)
    && after.evicted == before.evicted + evicted
  }

  lemma GrownTwice(vouch: Vouch, start: u64, a: Gathered, b: Gathered, c: Gathered, e1: History, got1: seq<Tx>,
                   x1: set<(Txid, u64)>, e2: History, got2: seq<Tx>, x2: set<(Txid, u64)>)
    requires Grown(vouch, start, a, b, e1, got1, x1) && Grown(vouch, start, b, c, e2, got2, x2)
    ensures Grown(vouch, start, a, c, e1 + e2, got1 + got2, x1 + x2)
  {
    ConfirmedConcat(e1, e2);
    assert (a.txs + got1) + got2 == a.txs + (got1 + got2);
    assert Unconfirmed(e1 + e2, start) == Unconfirmed(e1, start) + Unconfirmed(e2, start);
  }

  /** Some delivered transaction stands for this txid. */
  predicate Covered(vouch: Vouch, txs: seq<Tx>, txid: Txid) {
    exists i :: 0 <= i < |txs| && Vouches(vouch, txid, txs[i])
  }

  /** Every txid that is pending or seen has its transaction in the update. */
  ghost predicate Closed(vouch: Vouch, g: Gathered) {
    && (forall p :: p in g.pending ==> Covered(vouch, g.txs, p.0))
    && (forall p :: p in g.seen ==> Covered(vouch, g.txs, p.0))
  }

  lemma CoveredStays(vouch: Vouch, txs: seq<Tx>, more: seq<Tx>, txid: Txid)
    requires Covered(vouch, txs, txid)
    ensures Covered(vouch, txs + more, txid)
  {
    var i :| 0 <= i < |txs| && Vouches(vouch, txid, txs[i]);
    assert (txs + more)[i] == txs[i];
  }

  /** Recording entries with their transactions keeps the update closed. */
  lemma GrownClosed(vouch: Vouch, start: u64, before: Gathered, after: Gathered,
                    entries: History, got: seq<Tx>, evicted: set<(Txid, u64)>)
    requires Grown(vouch, start, before, after, entries, got, evicted) && Closed(vouch, before)
    ensures Closed(vouch, after)
  {
    EntriesSplit(entries, start);
    forall e | e in entries ensures Covered(vouch, after.txs, e.txid) {
      var i :| 0 <= i < |entries| && entries[i] == e;
      assert after.txs[|before.txs| + i] == got[i];
    }
    forall txid | Covered(vouch, before.txs, txid) ensures Covered(vouch, after.txs, txid) {
      CoveredStays(vouch, before.txs, got, txid);
    }
  }

  /** Records one entry: a confirmed height waits for its anchor, anything else was seen now. */
  method ApplyHistoryHeight(update: TxUpdate, pending: PendingAnchors, e: HistoryEntry, start: u64)
    modifies update, pending
    ensures pending.items == old(pending.items) + if IsConfirmed(e) then [(e.txid, e.height)] else []
    ensures update.seenAts == old(update.seenAts) + if IsConfirmed(e) then {} else {(e.txid, start)}
    ensures update.txs == old(update.txs) && update.evictedAts == old(update.evictedAts)
    ensures update.txouts == old(update.txouts) && update.anchors == old(update.anchors)
  {
    if 0 <= e.height < U32_LIMIT && e.height > 0 {
      pending.items := pending.items + [(e.txid, e.height)];
    } else {
      update.seenAts := update.seenAts + {(e.txid, start)};
    }
  }
}
