/** The stop-gap scan over scripts, in batches. */
module Scan {
  import opened Types
  import opened Server
  import opened Client
  import opened Updates

  /** A script to look up, its derivation index, and the txids expected in its history. */
  datatype SpkItem = SpkItem(index: u32, spk: Script, expectedTxids: set<Txid>)

  /** The scripts an iterator yields: finitely many, or an endless sequence. */
  datatype SpkSource = SpkSource(at: nat -> SpkItem, len: Option<nat>)
  {
    function Item(i: nat): SpkItem { at(i) }
    predicate Has(i: nat) { len.None? || i < len.value }

    /** These items come from position `from` on. */
    predicate Yields(from: nat, spks: seq<SpkItem>) {
      forall j: nat :: from <= j < from + |spks| ==> Has(j) && spks[j - from] == Item(j)
    }
  }

  class SpkIter {
    const source: SpkSource
    var pos: nat

    constructor (source: SpkSource)
      ensures this.source == source && pos == 0
    {
      this.source, pos := source, 0;
    }

    method Next() returns (r: Option<SpkItem>)
      modifies this
      ensures r == if source.Has(old(pos)) then Some(source.Item(old(pos))) else None
      ensures pos == if source.Has(old(pos)) then old(pos) + 1 else old(pos)
    {
      if source.Has(pos) {
        r := Some(source.Item(pos));
        pos := pos + 1;
      } else {
        r := None;
      }
    }

    /** The next `n` items, or fewer when the sequence ends. */
    method Take(n: nat) returns (spks: seq<SpkItem>)
      modifies this
      ensures |spks| <= n && pos == old(pos) + |spks|
      ensures source.Yields(old(pos), spks)
      ensures |spks| < n ==> !source.Has(pos)
    {
      spks := [];
      while |spks| < n
        invariant |spks| <= n && pos == old(pos) + |spks|
        invariant source.Yields(old(pos), spks)
      {
        var next := Next();
        if next.None? {
          break;
        }
        spks := spks + [next.value];
      }
    }
  }

  // ----- What a scan is -----

  type Answers = seq<History>

  /** The histories up to here end in a run of `gap` empty ones. */
  ghost predicate RunEndsAt(answers: Answers, n: nat, gap: nat)
    requires n <= |answers|
  {
    n >= gap && forall i :: n - gap <= i < n ==> answers[i] == []
  }

  /** The scan looked at the shortest prefix that ends in `gap` empty histories, or else at all scripts. */
  ghost predicate Examined(source: SpkSource, answers: Answers, gap: nat) {
    && (forall i :: 0 <= i < |answers| ==> source.Has(i))
    && (forall n :: 0 <= n < |answers| ==> !RunEndsAt(answers, n, gap))
    && (RunEndsAt(answers, |answers|, gap) || !source.Has(|answers|))
  }

  /** The histories that are recorded: the one that completes the run is not. */
  ghost function Processed(answers: Answers, gap: nat): Answers {
    if gap > 0 && RunEndsAt(answers, |answers|, gap) then answers[..|answers| - 1] else answers
  }

  /** The index of the last script with a history. */
  function LastActive(source: SpkSource, answers: Answers): Option<u32> {
    if answers == [] then None
    else
      var last := |answers| - 1;
      if answers[last] != [] then Some(source.Item(last).index) else LastActive(source, answers[..last])
  }

  function Flatten(answers: Answers): History {
    if answers == [] then [] else Flatten(answers[..|answers| - 1]) + answers[|answers| - 1]
  }

  function Missing(item: SpkItem, history: History, start: u64): set<(Txid, u64)> {
    set txid |
      txid in item.expectedTxids && (forall i :: 0 <= i < |history| ==> history[i].txid != txid) :: (txid, start)
  }

  /** The expected txids that are missing from their script's history. */
  function Evictions(source: SpkSource, answers: Answers, start: u64): set<(Txid, u64)> {
    if answers == [] then {}
    else
      var last := |answers| - 1;
      Evictions(source, answers[..last], start) + Missing(source.Item(last), answers[last], start)
  }

  /** The length of the run of empty histories at the end. */
  function Trailing(answers: Answers): (n: nat)
    ensures n <= |answers|
    ensures forall i :: |answers| - n <= i < |answers| ==> answers[i] == []
    ensures n < |answers| ==> answers[|answers| - n - 1] != []
  {
    if answers == [] || answers[|answers| - 1] != [] then 0
    else 1 + Trailing(answers[..|answers| - 1])
  }

  lemma TrailingIsRun(answers: Answers, gap: nat)
    ensures RunEndsAt(answers, |answers|, gap) <==> Trailing(answers) >= gap
  {
    var n := Trailing(answers);
    if n < gap <= |answers| {
      assert answers[|answers| - n - 1] != [];
    }
  }

  /** What a scan leaves behind, compared with the update it started from. */
  ghost predicate Outcome(source: SpkSource, gap: nat, vouch: Vouch, start: u64, before: Gathered, after: Gathered,
                          answers: Answers, got: seq<Tx>, last: Option<u32>) {
    && Examined(source, answers, gap)
    && last == LastActive(source, answers)
    && var recorded := Processed(answers, gap);
       Grown(vouch, start, before, after, Flatten(recorded), got, Evictions(source, recorded, start))
  }

  // ----- The failures a scan can run into, from request number `since` on -----

  ghost predicate HistoryFailed(server: Server, since: nat, script: Script) {
    exists t: nat :: t >= since && server.HistoryAt(t, script).None?
  }

  ghost predicate TxFailed(server: Server, since: nat, txid: Txid) {
    exists t: nat :: t >= since && server.TxAt(t, txid).None?
  }

  ghost predicate EntryFailed(server: Server, since: nat, history: History) {
    exists i :: 0 <= i < |history| && TxFailed(server, since, history[i].txid)
  }

  /** Some transaction of a history the server gave could not be fetched. */
  ghost predicate HistoryTxFailed(server: Server, since: nat, script: Script) {
    exists t: nat, i: nat :: server.HistoryAt(t, script).Some? && i < |server.HistoryAt(t, script).value|
                             && TxFailed(server, since, server.HistoryAt(t, script).value[i].txid)
  }

  ghost predicate SomeFetchFailed(server: Server, since: nat, histories: seq<History>) {
    exists i, j :: 0 <= i < |histories| && 0 <= j < |histories[i]| && TxFailed(server, since, histories[i][j].txid)
  }

  ghost predicate SomeBatchLost(server: Server, since: nat) {
    exists t: nat :: t >= since && server.Lost(t)
  }

  ghost predicate ScanFailed(server: Server, since: nat, source: SpkSource) {
    || SomeBatchLost(server, since)
    || (exists i: nat :: source.Has(i) && (HistoryFailed(server, since, source.Item(i).spk)
                                            || HistoryTxFailed(server, since, source.Item(i).spk)))
  }

  ghost predicate AnsweredHistory(server: Server, script: Script, history: History) {
    exists t: nat :: server.HistoryAt(t, script) == Some(history)
  }

  /** From `bound` on, the sequence has ended or no script is ever used. */
  ghost predicate QuietFrom(server: Server, source: SpkSource, bound: nat) {
    forall i: nat, history :: i >= bound && source.Has(i) && AnsweredHistory(server, source.Item(i).spk, history)
      ==> history == []
  }

  // ----- The scan -----

  /** Records one script's evictions, then each entry of its history with its transaction. */
  method ProcessSpk(client: BdkElectrumClient, update: TxUpdate, pending: PendingAnchors,
                    item: SpkItem, history: History, start: u64) returns (ok: bool, ghost got: seq<Tx>)
    requires client.Valid()
    modifies client, client.inner, update, pending
    ensures client.Valid() && client.Evolves()
    ensures update.txouts == old(update.txouts) && update.anchors == old(update.anchors)
    ensures !ok ==> EntryFailed(client.inner.server, old(client.inner.now), history)
    ensures ok ==> Grown(client.vouch, start, old(Now(update, pending)), Now(update, pending),
                         history, got, Missing(item, history, start))
  {
    ghost var before := Now(update, pending);
    update.evictedAts := update.evictedAts + Missing(item, history, start);
    got := [];
    ghost var missing := Missing(item, history, start);
    for i := 0 to |history|
      invariant client.Valid() && client.Evolves()
      invariant update.txouts == old(update.txouts) && update.anchors == old(update.anchors)
      invariant Grown(client.vouch, start, before, Now(update, pending), history[..i], got, missing)
    {
      var entry := history[i];
      assert history[..i + 1] == history[..i] + [entry];
      var tx := client.FetchTx(entry.txid);
      if tx.None? {
        return false, got;
      }
      ghost var mid := Now(update, pending);
      Record(client.vouch, update, pending, entry, tx.value, start);
      GrownTwice(client.vouch, start, before, mid, Now(update, pending), history[..i], got, missing,
                 [entry], [tx.value], {});
      got := got + [tx.value];
    }
    assert history[..|history|] == history;
    ok := true;
  }

  /** Adds a transaction and records the history entry it was fetched for. */
  method Record(ghost vouch: Vouch, update: TxUpdate, pending: PendingAnchors, entry: HistoryEntry, tx: Tx, start: u64)
    requires Vouches(vouch, entry.txid, tx)
    modifies update, pending
    ensures Grown(vouch, start, old(Now(update, pending)), Now(update, pending), [entry], [tx], {})
    ensures update.txouts == old(update.txouts) && update.anchors == old(update.anchors)
  {
    update.txs := update.txs + [tx];
    ApplyHistoryHeight(update, pending, entry, start);
    OneEntry(vouch, start, old(Now(update, pending)), Now(update, pending), entry, tx);
  }

  lemma OneEntry(vouch: Vouch, start: u64, before: Gathered, after: Gathered, e: HistoryEntry, tx: Tx)
    requires Vouches(vouch, e.txid, tx)
    requires after.txs == before.txs + [tx] && after.evicted == before.evicted
    requires after.pending == before.pending + if IsConfirmed(e) then [(e.txid, e.height)] else []
    requires after.seen == before.seen + if IsConfirmed(e) then {} else {(e.txid, start)}
    ensures Grown(vouch, start, before, after, [e], [tx], {})
  {
    assert Confirmed([e]) == Confirmed([]) + if IsConfirmed(e) then [(e.txid, e.height)] else [];
  }

  lemma OneMore(source: SpkSource, answers: Answers, history: History, start: u64)
    ensures Flatten(answers + [history]) == Flatten(answers) + history
    ensures LastActive(source, answers + [history])
            == if history != [] then Some(source.Item(|answers|).index) else LastActive(source, answers)
    ensures Trailing(answers + [history]) == if history != [] then 0 else Trailing(answers) + 1
    ensures Evictions(source, answers + [history], start)
            == Evictions(source, answers, start) + Missing(source.Item(|answers|), history, start)
  {
    assert (answers + [history])[..|answers|] == answers;
  }

  /** Where a running scan stands after some answers: no run is complete yet. */
  ghost predicate Standing(source: SpkSource, gap: nat, answers: Answers, last: Option<u32>, unused: nat) {
    && (forall i :: 0 <= i < |answers| ==> source.Has(i))
    && (forall n :: 0 <= n <= |answers| ==> !RunEndsAt(answers, n, gap))
    && last == LastActive(source, answers)
    && unused == Trailing(answers) < gap
  }

  lemma StandingNext(source: SpkSource, gap: nat, answers: Answers, last: Option<u32>, unused: nat, history: History)
    requires Standing(source, gap, answers, last, unused) && source.Has(|answers|)
    ensures history != [] ==>
              Standing(source, gap, answers + [history], Some(source.Item(|answers|).index), 0)
    ensures history == [] && unused + 1 < gap ==> Standing(source, gap, answers + [history], last, unused + 1)
    ensures history == [] && unused + 1 >= gap ==>
              Examined(source, answers + [history], gap) && Processed(answers + [history], gap) == answers
              && LastActive(source, answers + [history]) == last
  {
    var next := answers + [history];
    OneMore(source, answers, history, 0);
    assert next[..|answers|] == answers;
    forall n | 0 <= n <= |answers| ensures !RunEndsAt(next, n, gap) {
      if RunEndsAt(next, n, gap) {
        assert forall i :: n - gap <= i < n ==> answers[i] == next[i];
        assert RunEndsAt(answers, n, gap);
        assert false;
      }
    }
    TrailingIsRun(next, gap);
  }

  /** Counting one more unused script, as `checked_add` does. */
  function CheckedIncrement(n: nat): Option<nat> {
    if n < USIZE_MAX then Some(n + 1) else None
  }

  /** Where a running scan stands, together with all it has recorded. */
  ghost predicate Progress(source: SpkSource, gap: nat, vouch: Vouch, start: u64, before: Gathered, now: Gathered,
                           answers: Answers, got: seq<Tx>, last: Option<u32>, unused: nat) {
    && Standing(source, gap, answers, last, unused)
    && Grown(vouch, start, before, now, Flatten(answers), got, Evictions(source, answers, start))
  }

  lemma ProgressNext(source: SpkSource, gap: nat, vouch: Vouch, start: u64, before: Gathered, mid: Gathered,
                     now: Gathered, answers: Answers, got: seq<Tx>, last: Option<u32>, unused: nat,
                     history: History, more: seq<Tx>)
    requires Progress(source, gap, vouch, start, before, mid, answers, got, last, unused)
    requires source.Has(|answers|) && (history == [] ==> unused + 1 < gap)
    requires Grown(vouch, start, mid, now, history, more, Missing(source.Item(|answers|), history, start))
    ensures Progress(source, gap, vouch, start, before, now, answers + [history], got + more,
                     if history == [] then last else Some(source.Item(|answers|).index),
                     if history == [] then unused + 1 else 0)
  {
    StandingNext(source, gap, answers, last, unused, history);
    OneMore(source, answers, history, start);
    GrownTwice(vouch, start, before, mid, now, Flatten(answers), got, Evictions(source, answers, start),
               history, more, Missing(source.Item(|answers|), history, start));
  }

  lemma ProgressEnds(source: SpkSource, gap: nat, vouch: Vouch, start: u64, before: Gathered, now: Gathered,
                     answers: Answers, got: seq<Tx>, last: Option<u32>, unused: nat)
    requires Progress(source, gap, vouch, start, before, now, answers, got, last, unused)
    requires source.Has(|answers|) && unused + 1 >= gap
    ensures RunEndsAt(answers + [[]], |answers| + 1, gap)
    ensures Outcome(source, gap, vouch, start, before, now, answers + [[]], got, last)
  {
    StandingNext(source, gap, answers, last, unused, []);
    OneMore(source, answers, [], start);
    TrailingIsRun(answers + [[]], gap);
  }

  /** Takes in one script's history: `Ok(true)` when it completes the run of unused scripts. */
  method ScanOne(client: BdkElectrumClient, update: TxUpdate, pending: PendingAnchors, ghost source: SpkSource,
                 item: SpkItem, history: History, stopGap: nat, start: u64, lastActive: Option<u32>, unusedCount: nat,
                 ghost before: Gathered, ghost answers: Answers, ghost got: seq<Tx>)
    returns (r: Result<bool>, last: Option<u32>, unused: nat, ghost got': seq<Tx>)
    requires client.Valid() && stopGap <= USIZE_MAX
    requires source.Has(|answers|) && item == source.Item(|answers|)
    requires Progress(source, stopGap, client.vouch, start, before, Now(update, pending), answers, got,
                      lastActive, unusedCount)
    modifies client, client.inner, update, pending
    ensures client.Valid() && client.Evolves()
    ensures update.txouts == old(update.txouts) && update.anchors == old(update.anchors)
    ensures r.Err? ==> EntryFailed(client.inner.server, old(client.inner.now), history)
    ensures r == Ok(false) ==> Progress(source, stopGap, client.vouch, start, before, Now(update, pending),
                                        answers + [history], got', last, unused)
    ensures r == Ok(true) ==>
              RunEndsAt(answers + [history], |answers| + 1, stopGap)
              && Outcome(source, stopGap, client.vouch, start, before, Now(update, pending),
                         answers + [history], got', last)
  {
    last, unused, got' := lastActive, unusedCount, got;
    if history == [] {
      var counted := CheckedIncrement(unused);
      if counted.Some? && counted.value < stopGap {
        unused := counted.value;
      } else {
        ProgressEnds(source, stopGap, client.vouch, start, before, Now(update, pending), answers, got, last, unused);
        return Ok(true), last, unused, got';
      }
    } else {
      last := Some(item.index);
      unused := 0;
    }
    ghost var mid := Now(update, pending);
    var ok, more := ProcessSpk(client, update, pending, item, history, start);
    if !ok {
      return Err, last, unused, got';
    }
    ProgressNext(source, stopGap, client.vouch, start, before, mid, Now(update, pending), answers, got,
                 lastActive, unusedCount, history, more);
    got' := got + more;
    r := Ok(false);
  }

  lemma SeenNext(answers: Answers, histories: seq<History>, i: nat)
    requires i < |histories|
    ensures answers + histories[..i + 1] == (answers + histories[..i]) + [histories[i]]
  {
  }

  /** Works through one batch of answers; stops as soon as the run of empty histories is long enough. */
  method ScanBatch(client: BdkElectrumClient, update: TxUpdate, pending: PendingAnchors, ghost source: SpkSource,
                   spks: seq<SpkItem>, histories: seq<History>, stopGap: nat, start: u64,
                   lastActive: Option<u32>, unusedCount: nat,
                   ghost before: Gathered, ghost answers: Answers, ghost got: seq<Tx>)
    returns (r: Result<bool>, last: Option<u32>, unused: nat, ghost n: nat, ghost got': seq<Tx>)
    requires client.Valid() && |spks| == |histories| && stopGap <= USIZE_MAX
    requires source.Yields(|answers|, spks)
    requires Progress(source, stopGap, client.vouch, start, before, Now(update, pending), answers, got,
                      lastActive, unusedCount)
    modifies client, client.inner, update, pending
    ensures client.Valid() && client.Evolves()
    ensures update.txouts == old(update.txouts) && update.anchors == old(update.anchors)
    ensures r.Err? ==> SomeFetchFailed(client.inner.server, old(client.inner.now), histories)
    ensures r == Ok(false) ==> Progress(source, stopGap, client.vouch, start, before, Now(update, pending),
                                        answers + histories, got', last, unused)
    ensures r == Ok(true) ==>
              0 < n <= |spks|
              && RunEndsAt(answers + histories[..n], |answers| + n, stopGap)
              && Outcome(source, stopGap, client.vouch, start, before, Now(update, pending),
                         answers + histories[..n], got', last)
  {
    last, unused, n, got', r := lastActive, unusedCount, 0, got, Ok(false);
    ghost var seen := answers;
    assert answers + histories[..0] == answers;
    for i := 0 to |spks|
      invariant client.Valid() && client.Evolves()
      invariant update.txouts == old(update.txouts) && update.anchors == old(update.anchors)
      invariant seen == answers + histories[..i]
      invariant Progress(source, stopGap, client.vouch, start, before, Now(update, pending), seen, got', last, unused)
    {
      SeenNext(answers, histories, i);
      assert spks[i] == source.Item(|answers| + i);
      r, last, unused, got' := ScanOne(client, update, pending, source, spks[i], histories[i], stopGap, start,
                                       last, unused, before, seen, got');
      if r != Ok(false) {
        n := i + 1;
        return;
      }
      seen := seen + [histories[i]];
    }
    assert histories[..|spks|] == histories;
    r := Ok(false);
  }

  /** The server gave each of these histories for its script. */
  ghost predicate Given(server: Server, source: SpkSource, answers: Answers) {
    forall i: nat :: i < |answers| ==> AnsweredHistory(server, source.Item(i).spk, answers[i])
  }

  lemma {:induction false} QuietTrailing(answers: Answers, bound: nat)
    requires forall i :: bound <= i < |answers| ==> answers[i] == []
    ensures Trailing(answers) >= |answers| - bound
    decreases |answers|
  {
    if bound < |answers| {
      QuietTrailing(answers[..|answers| - 1], bound);
    }
  }

  method ScriptsOf(spks: seq<SpkItem>) returns (scripts: seq<Script>)
    ensures |scripts| == |spks| && forall i :: 0 <= i < |spks| ==> scripts[i] == spks[i].spk
  {
    scripts := seq(|spks|, i requires 0 <= i < |spks| => spks[i].spk);
  }

  lemma BatchGiven(server: Server, source: SpkSource, answers: Answers, spks: seq<SpkItem>, scripts: seq<Script>,
                   t: nat, histories: seq<History>)
    requires Given(server, source, answers) && source.Yields(|answers|, spks)
    requires |scripts| == |spks| && forall i :: 0 <= i < |spks| ==> scripts[i] == spks[i].spk
    requires Batch(server, server.history, t, scripts) == Some(histories)
    ensures Given(server, source, answers + histories)
    ensures forall i :: 0 <= i < |spks| ==> AnsweredHistory(server, source.Item(|answers| + i).spk, histories[i])
  {
    forall i | 0 <= i < |spks| ensures AnsweredHistory(server, source.Item(|answers| + i).spk, histories[i]) {
      assert spks[i] == source.Item(|answers| + i);
      assert server.HistoryAt(t + i, scripts[i]) == Some(histories[i]);
    }
    forall i: nat | i < |answers + histories|
      ensures AnsweredHistory(server, source.Item(i).spk, (answers + histories)[i])
    {
      if i >= |answers| {
        assert (answers + histories)[i] == histories[i - |answers|];
        assert AnsweredHistory(server, source.Item(|answers| + (i - |answers|)).spk, histories[i - |answers|]);
      }
    }
  }

  lemma BatchFailed(server: Server, since: nat, source: SpkSource, from: nat, spks: seq<SpkItem>,
                    scripts: seq<Script>, t: nat)
    requires source.Yields(from, spks) && t >= since
    requires |scripts| == |spks| && forall i :: 0 <= i < |spks| ==> scripts[i] == spks[i].spk
    requires Batch(server, server.history, t, scripts).None?
    ensures ScanFailed(server, since, source)
  {
    if !server.Lost(t) {
      var i :| 0 <= i < |scripts| && server.HistoryAt(t + i, scripts[i]).None?;
      assert spks[i] == source.Item(from + i) && source.Has(from + i);
      assert HistoryFailed(server, since, source.Item(from + i).spk);
    }
  }

  lemma TxFetchFailed(server: Server, since: nat, source: SpkSource, from: nat, spks: seq<SpkItem>,
                      histories: seq<History>, i: nat, j: nat)
    requires source.Yields(from, spks) && i < |spks| == |histories| && j < |histories[i]|
    requires AnsweredHistory(server, source.Item(from + i).spk, histories[i])
    requires TxFailed(server, since, histories[i][j].txid)
    ensures ScanFailed(server, since, source)
  {
    var script := source.Item(from + i).spk;
    var t: nat :| server.HistoryAt(t, script) == Some(histories[i]);
    assert source.Has(from + i) && HistoryTxFailed(server, since, script);
  }

  /** How a round of the scan ends. */
  datatype Round = Continue | Finished | Failed

  /** Pulls the next scripts and asks for their histories in one call. */
  method NextBatch(client: BdkElectrumClient, it: SpkIter, batchSize: nat, ghost answers: Answers)
    returns (spks: seq<SpkItem>, histories: Option<seq<History>>)
    requires client.Valid() && it.pos == |answers| && Given(client.inner.server, it.source, answers)
    modifies client.inner, it
    ensures client.Valid() && client.Evolves()
    ensures it.pos == |answers| + |spks| && |spks| <= batchSize && it.source.Yields(|answers|, spks)
    ensures |spks| < batchSize ==> !it.source.Has(it.pos)
    ensures histories.None? && spks != [] ==> ScanFailed(client.inner.server, old(client.inner.now), it.source)
    ensures histories.Some? ==>
              |histories.value| == |spks| && Given(client.inner.server, it.source, answers + histories.value)
  {
    ghost var server, source := client.inner.server, it.source;
    spks := it.Take(batchSize);
    if spks == [] {
      return spks, None;
    }
    var scripts := ScriptsOf(spks);
    ghost var t := client.inner.now;
    histories := client.inner.BatchScriptGetHistory(scripts);
    if histories.None? {
      BatchFailed(server, old(client.inner.now), source, |answers|, spks, scripts, t);
    } else {
      BatchGiven(server, source, answers, spks, scripts, t, histories.value);
    }
  }

  /** Takes in the answers to one batch. */
  method TakeIn(client: BdkElectrumClient, start: u64, update: TxUpdate, ghost source: SpkSource, stopGap: nat,
                pending: PendingAnchors, spks: seq<SpkItem>, histories: seq<History>,
                lastActive: Option<u32>, unusedCount: nat,
                ghost before: Gathered, ghost answers: Answers, ghost got: seq<Tx>)
    returns (r: Round, last: Option<u32>, unused: nat, ghost answers': Answers, ghost got': seq<Tx>)
    requires client.Valid() && stopGap <= USIZE_MAX
    requires |spks| == |histories| && source.Yields(|answers|, spks)
    requires Given(client.inner.server, source, answers + histories)
    requires Progress(source, stopGap, client.vouch, start, before, Now(update, pending), answers, got,
                      lastActive, unusedCount)
    modifies client, client.inner, update, pending
    ensures client.Valid() && client.Evolves()
    ensures update.txouts == old(update.txouts) && update.anchors == old(update.anchors)
    ensures r.Failed? ==> ScanFailed(client.inner.server, old(client.inner.now), source)
    ensures r.Continue? ==> answers' == answers + histories
                            && Progress(source, stopGap, client.vouch, start, before, Now(update, pending),
                                        answers', got', last, unused)
    ensures r.Finished? ==> |answers| < |answers'| <= |answers| + |spks|
                            && Given(client.inner.server, source, answers')
                            && Outcome(source, stopGap, client.vouch, start, before, Now(update, pending),
                                       answers', got', last)
  {
    ghost var server := client.inner.server;
    var step;
    ghost var n;
    step, last, unused, n, got' := ScanBatch(client, update, pending, source, spks, histories, stopGap, start,
                                             lastActive, unusedCount, before, answers, got);
    answers' := answers + histories;
    if step.Err? {
      SomeTxFetchFailed(server, old(client.inner.now), source, answers, spks, histories);
      r := Failed;
    } else if step.value {
      answers' := answers + histories[..n];
      GivenPrefix(server, source, answers, histories, n);
      r := Finished;
    } else {
      r := Continue;
    }
  }

  /** One round: pulls a batch, asks for its histories in one call, and takes them in. */
  method ScanRound(client: BdkElectrumClient, start: u64, update: TxUpdate, it: SpkIter, stopGap: nat, batchSize: nat,
                   pending: PendingAnchors, lastActive: Option<u32>, unusedCount: nat,
                   ghost before: Gathered, ghost answers: Answers, ghost got: seq<Tx>)
    returns (r: Round, last: Option<u32>, unused: nat, ghost answers': Answers, ghost got': seq<Tx>)
    requires client.Valid() && stopGap <= USIZE_MAX && batchSize > 0
    requires it.pos == |answers| && Given(client.inner.server, it.source, answers)
    requires Progress(it.source, stopGap, client.vouch, start, before, Now(update, pending), answers, got,
                      lastActive, unusedCount)
    modifies client, client.inner, update, it, pending
    ensures client.Valid() && client.Evolves()
    ensures update.txouts == old(update.txouts) && update.anchors == old(update.anchors)
    ensures r.Failed? ==> ScanFailed(client.inner.server, old(client.inner.now), it.source)
    ensures !r.Failed? ==> Given(client.inner.server, it.source, answers')
                           && |answers'| <= it.pos < |answers'| + batchSize
    ensures r.Continue? ==> it.pos == |answers'| > |answers|
                            && Progress(it.source, stopGap, client.vouch, start, before, Now(update, pending),
                                        answers', got', last, unused)
    ensures r.Finished? ==> Outcome(it.source, stopGap, client.vouch, start, before, Now(update, pending),
                                    answers', got', last)
  {
    ghost var server, source := client.inner.server, it.source;
    last, unused, answers', got' := lastActive, unusedCount, answers, got;
    var spks, histories := NextBatch(client, it, batchSize, answers);
    if spks == [] {
      AllExamined(source, stopGap, client.vouch, start, before, Now(update, pending), answers, got, last, unused);
      return Finished, last, unused, answers', got';
    }
    if histories.None? {
      return Failed, last, unused, answers', got';
    }
    r, last, unused, answers', got' := TakeIn(client, start, update, source, stopGap, pending, spks, histories.value,
                                              last, unused, before, answers, got);
  }

  /** Scans the scripts of an iterator in batches. `bound` says from where on no script is used, which
      is what makes an endless iterator stop. What is recorded does not depend on the batch size. */
  method PopulateWithSpks(client: BdkElectrumClient, start: u64, update: TxUpdate, it: SpkIter,
                          stopGap: nat, batchSize: nat, pending: PendingAnchors, ghost bound: nat)
    returns (r: Result<Option<u32>>, ghost answers: Answers, ghost got: seq<Tx>)
    requires client.Valid() && it.pos == 0 && 0 < stopGap <= USIZE_MAX && batchSize > 0
    requires QuietFrom(client.inner.server, it.source, bound)
    modifies client, client.inner, update, it, pending
    ensures client.Valid() && client.Evolves()
    ensures update.txouts == old(update.txouts) && update.anchors == old(update.anchors)
    ensures r.Err? ==> ScanFailed(client.inner.server, old(client.inner.now), it.source)
    ensures r.Ok? ==> Outcome(it.source, stopGap, client.vouch, start, old(Now(update, pending)), Now(update, pending),
                              answers, got, r.value)
    ensures r.Ok? ==> Given(client.inner.server, it.source, answers)
    ensures r.Ok? ==> |answers| <= it.pos < |answers| + batchSize
  {
    ghost var before := Now(update, pending);
    var last: Option<u32> := None;
    var unused := 0;
    answers, got := [], [];
    while true
      invariant client.Valid() && client.Evolves()
      invariant update.txouts == old(update.txouts) && update.anchors == old(update.anchors)
      invariant it.pos == |answers| && Given(client.inner.server, it.source, answers)
      invariant Progress(it.source, stopGap, client.vouch, start, before, Now(update, pending), answers, got,
                         last, unused)
      decreases bound + stopGap - it.pos
    {
      NotYetDone(client.inner.server, it.source, stopGap, answers, last, unused, bound);
      var round;
      round, last, unused, answers, got := ScanRound(client, start, update, it, stopGap, batchSize, pending,
                                                     last, unused, before, answers, got);
      match round
      case Failed => return Err, answers, got;
      case Finished => return Ok(last), answers, got;
      case Continue =>
    }
  }

  lemma NotYetDone(server: Server, source: SpkSource, gap: nat, answers: Answers, last: Option<u32>, unused: nat,
                   bound: nat)
    requires Given(server, source, answers) && QuietFrom(server, source, bound)
    requires Standing(source, gap, answers, last, unused)
    ensures |answers| < bound + gap
  {
    forall i | bound <= i < |answers| ensures answers[i] == [] {
      assert AnsweredHistory(server, source.Item(i).spk, answers[i]);
    }
    QuietTrailing(answers, bound);
  }

  lemma SomeTxFetchFailed(server: Server, since: nat, source: SpkSource, answers: Answers, spks: seq<SpkItem>,
                          histories: seq<History>)
    requires source.Yields(|answers|, spks) && |spks| == |histories|
    requires Given(server, source, answers + histories) && SomeFetchFailed(server, since, histories)
    ensures ScanFailed(server, since, source)
  {
    var i, j :| 0 <= i < |histories| && 0 <= j < |histories[i]| && TxFailed(server, since, histories[i][j].txid);
    assert (answers + histories)[|answers| + i] == histories[i];
    TxFetchFailed(server, since, source, |answers|, spks, histories, i, j);
  }

  lemma GivenPrefix(server: Server, source: SpkSource, answers: Answers, histories: seq<History>, n: nat)
    requires Given(server, source, answers + histories) && n <= |histories|
    ensures Given(server, source, answers + histories[..n])
  {
    assert forall i :: 0 <= i < |answers| + n ==> (answers + histories[..n])[i] == (answers + histories)[i];
  }

  lemma AllExamined(source: SpkSource, gap: nat, vouch: Vouch, start: u64, before: Gathered, now: Gathered,
                    answers: Answers, got: seq<Tx>, last: Option<u32>, unused: nat)
    requires Progress(source, gap, vouch, start, before, now, answers, got, last, unused)
    requires !source.Has(|answers|)
    ensures Outcome(source, gap, vouch, start, before, now, answers, got, last)
  {
  }

  // ----- What a scan guarantees -----

  /** Whenever the server gives a history it is the world's; it may fail at any time. */
  ghost predicate AnswersWorld(server: Server, world: World) {
    forall t: nat, script :: WorldHistory(world, script, server.HistoryAt(t, script))
  }

  predicate WorldHistory(world: World, script: Script, reply: Option<History>) {
    reply.Some? ==> reply.value == world.HistoryOf(script)
  }

  /** Only the world's own transaction is vouched for. */
  ghost predicate Pins(vouch: Vouch, world: World) {
    forall txid, tx :: Vouches(vouch, txid, tx) ==> tx == world.TxOf(txid)
  }

  lemma SameLength(source: SpkSource, gap: nat, a: Answers, b: Answers)
    requires Examined(source, a, gap) && Examined(source, b, gap)
    requires forall i :: 0 <= i < |a| && i < |b| ==> a[i] == b[i]
    ensures |a| <= |b|
  {
    if |b| < |a| {
      assert RunEndsAt(b, |b|, gap) ==> RunEndsAt(a, |b|, gap);
      assert false;
    }
  }

  lemma GivenWorld(server: Server, world: World, source: SpkSource, answers: Answers)
    requires Given(server, source, answers) && AnswersWorld(server, world)
    ensures forall i: nat :: i < |answers| ==> answers[i] == world.HistoryOf(source.Item(i).spk)
  {
    forall i: nat | i < |answers| ensures answers[i] == world.HistoryOf(source.Item(i).spk) {
      var t: nat :| server.HistoryAt(t, source.Item(i).spk) == Some(answers[i]);
      assert WorldHistory(world, source.Item(i).spk, server.HistoryAt(t, source.Item(i).spk));
    }
  }

  /** Two scans look at the same scripts and see the same histories. */
  lemma SameAnswers(world: World, source: SpkSource, gap: nat, server1: Server, answers1: Answers,
                    server2: Server, answers2: Answers)
    requires Examined(source, answers1, gap) && Examined(source, answers2, gap)
    requires Given(server1, source, answers1) && AnswersWorld(server1, world)
    requires Given(server2, source, answers2) && AnswersWorld(server2, world)
    ensures answers1 == answers2
  {
    GivenWorld(server1, world, source, answers1);
    GivenWorld(server2, world, source, answers2);
    SameLength(source, gap, answers1, answers2);
    SameLength(source, gap, answers2, answers1);
  }

  lemma GrownDetermined(world: World, start: u64, before: Gathered, entries: History, evicted: set<(Txid, u64)>,
                        vouch1: Vouch, after1: Gathered, got1: seq<Tx>,
                        vouch2: Vouch, after2: Gathered, got2: seq<Tx>)
    requires Grown(vouch1, start, before, after1, entries, got1, evicted) && Pins(vouch1, world)
    requires Grown(vouch2, start, before, after2, entries, got2, evicted) && Pins(vouch2, world)
    ensures after1 == after2
  {
    forall i | 0 <= i < |entries| ensures got1[i] == got2[i] {
      assert Vouches(vouch1, entries[i].txid, got1[i]) && Vouches(vouch2, entries[i].txid, got2[i]);
    }
    assert got1 == got2;
  }

  /** A scan by a server that tells of this world. */
  ghost predicate ScanOfWorld(world: World, source: SpkSource, gap: nat, start: u64, before: Gathered, server: Server,
                              vouch: Vouch, after: Gathered, answers: Answers, got: seq<Tx>, last: Option<u32>) {
    && Outcome(source, gap, vouch, start, before, after, answers, got, last)
    && Given(server, source, answers) && AnswersWorld(server, world) && Pins(vouch, world)
  }

  /** Two scans of the same scripts, by servers that tell of the same world, agree on everything they
      record. */
  lemma ScanDetermined(world: World, source: SpkSource, gap: nat, start: u64, before: Gathered,
                       server1: Server, vouch1: Vouch, after1: Gathered, answers1: Answers, got1: seq<Tx>,
                       last1: Option<u32>,
                       server2: Server, vouch2: Vouch, after2: Gathered, answers2: Answers, got2: seq<Tx>,
                       last2: Option<u32>)
    requires ScanOfWorld(world, source, gap, start, before, server1, vouch1, after1, answers1, got1, last1)
    requires ScanOfWorld(world, source, gap, start, before, server2, vouch2, after2, answers2, got2, last2)
    ensures answers1 == answers2 && last1 == last2 && after1 == after2
  {
    SameAnswers(world, source, gap, server1, answers1, server2, answers2);
    var recorded := Processed(answers1, gap);
    GrownDetermined(world, start, before, Flatten(recorded), Evictions(source, recorded, start),
                    vouch1, after1, got1, vouch2, after2, got2);
  }

  /** Neither the batch size nor the caches nor the requests that failed on the way matter: two scans that
      succeed leave the same behind. */
  method ScanTwice(client1: BdkElectrumClient, update1: TxUpdate, it1: SpkIter, batchSize1: nat,
                   pending1: PendingAnchors, client2: BdkElectrumClient, update2: TxUpdate, it2: SpkIter,
                   batchSize2: nat, pending2: PendingAnchors, start: u64, stopGap: nat,
                   ghost bound1: nat, ghost bound2: nat, ghost world: World)
    returns (r1: Result<Option<u32>>, r2: Result<Option<u32>>)
    requires client1.Valid() && AnswersWorld(client1.inner.server, world) && Pins(client1.vouch, world)
    requires client2.Valid() && AnswersWorld(client2.inner.server, world) && Pins(client2.vouch, world)
    requires it1 != it2 && it1.pos == it2.pos == 0 && it1.source == it2.source
    requires update1 != update2 && pending1 != pending2 && Now(update1, pending1) == Now(update2, pending2)
    requires 0 < stopGap <= USIZE_MAX && batchSize1 > 0 && batchSize2 > 0
    requires QuietFrom(client1.inner.server, it1.source, bound1)
    requires QuietFrom(client2.inner.server, it2.source, bound2)
    modifies client1, client1.inner, update1, it1, pending1, client2, client2.inner, update2, it2, pending2
    ensures r1.Ok? && r2.Ok? ==> r1 == r2 && Now(update1, pending1) == Now(update2, pending2)
  {
    ghost var before := Now(update1, pending1);
    ghost var answers1, got1, answers2, got2;
    r1, answers1, got1 := PopulateWithSpks(client1, start, update1, it1, stopGap, batchSize1, pending1, bound1);
    ghost var after1 := Now(update1, pending1);
    r2, answers2, got2 := PopulateWithSpks(client2, start, update2, it2, stopGap, batchSize2, pending2, bound2);
    if r1.Ok? && r2.Ok? {
      ScanDetermined(world, it1.source, stopGap, start, before,
                     client1.inner.server, client1.vouch, after1, answers1, got1, r1.value,
                     client2.inner.server, client2.vouch, Now(update2, pending2), answers2, got2, r2.value);
    }
  }

  /** At most `gap` scripts are examined past the last used one. */
  lemma StopGapBound(source: SpkSource, gap: nat, answers: Answers, used: nat)
    requires Examined(source, answers, gap)
    requires forall i :: used <= i < |answers| ==> answers[i] == []
    ensures |answers| <= used + gap
  {
    if |answers| > used + gap {
      assert RunEndsAt(answers, used + gap, gap);
      assert false;
    }
  }

  /** The last script with a history. */
  predicate LastUsedAt(answers: Answers, i: nat) {
    i < |answers| && answers[i] != [] && forall j :: i < j < |answers| ==> answers[j] == []
  }

  /** The active index is that of the last examined script with a history, if there is any. */
  lemma LastActiveMeans(source: SpkSource, answers: Answers)
    ensures LastActive(source, answers).None? <==> forall i :: 0 <= i < |answers| ==> answers[i] == []
    ensures forall i: nat :: LastUsedAt(answers, i) ==> LastActive(source, answers) == Some(source.Item(i).index)
  {
    var n := Trailing(answers);
    LastActiveAt(source, answers);
    assert n < |answers| ==> answers[|answers| - n - 1] != [];
    forall i: nat | LastUsedAt(answers, i) ensures i == |answers| - n - 1 {
    }
  }

  lemma {:induction false} LastActiveAt(source: SpkSource, answers: Answers)
    ensures var n := Trailing(answers);
            LastActive(source, answers)
            == if n == |answers| then None else Some(source.Item(|answers| - n - 1).index)
    decreases |answers|
  {
    if answers != [] && answers[|answers| - 1] == [] {
      LastActiveAt(source, answers[..|answers| - 1]);
    }
  }

  /** Exactly the expected txids missing from the history of their own script are evicted. */
  lemma {:induction false} EvictionsMean(source: SpkSource, answers: Answers, start: u64)
    ensures forall p :: p in Evictions(source, answers, start) <==>
              exists i: nat :: i < |answers| && p in Missing(source.Item(i), answers[i], start)
    decreases |answers|
  {
    if answers != [] {
      var last := |answers| - 1;
      var init := answers[..last];
      EvictionsMean(source, init, start);
      assert forall i :: 0 <= i < last ==> init[i] == answers[i];
      forall p | exists i: nat :: i < |answers| && p in Missing(source.Item(i), answers[i], start)
        ensures p in Evictions(source, answers, start)
      {
        var i: nat :| i < |answers| && p in Missing(source.Item(i), answers[i], start);
        if i < last {
          assert p in Missing(source.Item(i), init[i], start);
        }
      }
    }
  }
}
