# Wallet sync engine: verification model

A Dafny model of the Electrum wallet sync engine in `bdk-tokio-electrum`, and of three parts of the client
below it in `tokio-electrum`: the connection loop, its numeric policies, and the server address format.

Verify with `dafny verify dfyconfig.toml`.

## What is modelled

| module | models |
|---|---|
| `Types` | machine integers, digests, headers, blocks, transactions, history entries; the hash functions as parameters |
| `Merkle` | the Merkle proof check, against the Bitcoin tree that repeats the last node of an odd level |
| `Server` | the server as an oracle, and the client's batch requests |
| `Checkpoints` | the checkpoint list of `bdk_core` (an assumption, see below) |
| `Reconcile` | the point of agreement with the server's chain, the rebuilt chain, the splicing of anchor blocks |
| `Client` | the client object with its three shared caches, and what its clones may do to one another |
| `Anchors` | the anchor fetcher: header lookup, cache lookup, chunked proofs with fallback, stale-header retry |
| `Updates` | the update under construction, and how a history entry is recorded |
| `Scan` | the batched stop-gap scan of scripts |
| `Histories`, `Outpoints`, `Prevouts` | lookup by txid, lookup by outpoint, previous outputs |
| `Sync` | `full_scan` and `sync` as a whole |
| `Soundness` | what the evidence behind an anchor says about its height, an anchor with a wrong one, and a server that fails but does not lie |
| `Connection` | the connection loop and `connect`, `disconnect`, `shutdown` as interleaved atomic steps, and what every step keeps |
| `Stops`, `Retries`, `Attempts`, `Connects` | when a stop holds, when a loop gives up retrying, when a disconnected status is followed by another attempt, when a `connect()` leads to one |
| `Witnesses` | reachable states in which a completed call was lost |
| `Policy` | the ping-timeout counter and the reconnection delays |
| `Address` | reading and printing server addresses |

**The server** answers request number `t` by functions of `t` and the request, each of which may fail. So it
may be dishonest, change its answers at any time, fail whenever it likes, and adapt to everything that
happened before. Unless a statement names a `World` (a fixed chain and transaction set), it holds for every
such server. The statements that compare with a `World` say what they need: `ideal` means that the server
answers every header and proof request about that world's chain truthfully and that no cache entry contradicts
it; `HonestSetting` adds a truthful tip and header ranges and a linked chain; `Truthful` allows any request to
fail but none to be answered wrongly; `Pins` means that no transaction other than the world's own is ever
delivered for its id.

**Clones.** Cloned clients share the caches, and locks are released between phases. Between two lock
acquisitions the methods call `Interfere`, of which they may use the contract only: validity is kept, cached
keys, seeds, evidence and the record of cached headers are never removed, and request numbers grow. Every method
proves the same contract (`Valid` and `Evolves`) about itself, so it holds in any interleaving of any number of
clones. `vouch` is an arbitrary property of (txid, transaction) pairs that the server's answers and the seeded
transactions have; results about it hold for every choice of it.

**Hashes** are uninterpreted. No injectivity is assumed: soundness statements end in "or here is a collision",
and compute it.

**The checkpoint library.** `bdk_core` is not part of this model. What is assumed of it: a checkpoint is a list
of blocks with strictly rising heights and at least one block. `insert` of a known block changes nothing; at an
absent height it keeps all other blocks; at a height with another hash it drops that block and everything above
and then adds the new one; below the base, or against the base itself, it panics.

**Loop bound.** A scan of an endless script sequence stops only because from some position on no script is used;
`PopulateWithSpks` takes that position as the ghost parameter `bound`.

## Where the code differs from what one would expect

- *Header fallback.* After a failed batch, heights are paired with the headers that arrived, first with first
  (`bdk-tokio-electrum/src/client.rs:484-506`). A height gets its own header exactly if the failures come last in
  the chunk: `Anchors.FallbackAlignment`, with the first misplaced header in `Anchors.FirstMisplaced`.
- *Branch length.* The Merkle check does not compare the branch length with the size of the block, so a shorter
  branch proves membership of an inner node and a longer one speaks about what lies below a leaf:
  `Merkle.ShorterBranchIsInnerNode`, `Merkle.LongerBranchEndsInLeaf`. With `Merkle.AcceptedIsLeaf` this settles
  acceptance for every length.
- *Base of the chain.* `chain_update` panics exactly when an anchor lies below the base of the reconciled list,
  which needs a local chain that does not start at height 0: `Reconcile.ChainUpdate`, `Sync.FullScan`,
  `Sync.SyncRequest`.
- *Lost stops.* A completed `disconnect()` or `shutdown()` need not hold. Whether it does can be read off any state:
  `Stops.StatusStaysIff`. During a connection attempt it depends on the wait (`Stops.StopWhileConnecting`), and
  the loop may connect again with the notification used up (`Witnesses.DisconnectLost`). A `shutdown()` that comes
  after a loop without reconnection has loaded the status ends as terminated, from where `connect()` is
  accepted (`Stops.ShutdownOverwritten`, `Witnesses.ShutdownLost`).
- *Lost connects.* A `connect()` can find a loop on its way out and give up, leaving the status pending for good
  (`Witnesses.ConnectLost`), or be ended by the permit of a `disconnect()` that had nothing to stop
  (`Witnesses.ConnectStopped`). It leads to an attempt that nothing earlier can end exactly if, at the call, the
  status allows it, no loop runs or is about to start, and no permit is left: `Connects.ConnectHonouredIff`.
- *Disconnected for good.* The status is documented to mean that another attempt will follow
  (`tokio-electrum/src/status.rs:56-57`). Exactly when one is bound to follow can be read off any state:
  `Attempts.AttemptFollowsIff`. With reconnection on and no `disconnect()` or `shutdown()` ever called it always is
  (`Connection.UnnotifiedRetries`). It need not be without reconnection (`Witnesses.DisconnectedAtTheEnd`), nor once
  a notification is there, even one not yet used up (`Witnesses.DisconnectedAndNotified`), and the loop may be gone
  altogether (`Witnesses.LeftDisconnected`). `Retries.MayGiveUpIff` says when a loop can leave with that status.
- *Heights of anchors.* An anchor from the cache can carry another height than the one asked for:
  `Soundness.AnsweredElsewhere` gets one, and `Soundness.WrongHeight` has a server that leads a new client there. It
  takes headers with one hash cached at both heights (`Soundness.HeightTied`). With a server that does not lie it
  cannot happen, however many requests fail: `Soundness.CheckedIsNaive`.
- *Order of anchors.* The reported list is the same for every order in which the anchors are spliced in
  (`Sync.OrderIrrelevant`) exactly unless two anchors name different blocks at one open height
  (`Sync.OrderMatters`).
- *Delays that shrink.* With a first delay below 22.25 ms the jitter can make a later delay shorter; the exact
  condition is in `Policy.NeverShrinksIff`.
- *Names that start with a bracket.* `tcp://[[x]:1` is accepted, but its printed form is not:
  `Address.BracketNameAccepted`; all other accepted addresses round-trip (`Address.NormalForm`).
- *Documentation.* The comment at `tokio-electrum/src/client.rs:1076-1077` says that failures of single requests are
  returned inline; the code (lines 1103-1105) gives up at the first one, and so does the model.

## Model

| member | source | states |
|---|---|---|
| Merkle.ValidateMerkleProof | bdk-tokio-electrum/src/util.rs:8-31 | the loop over the branch decides exactly whether the branch folds to the root; the lemmas below say what that means |
| Merkle.HonestProofAccepted | bdk-tokio-electrum/src/util.rs:13-30 | completeness: the honest branch of any position in any non-empty list of txids is accepted against the root of the Bitcoin tree |
| Merkle.BranchAccepted | bdk-tokio-electrum/src/util.rs:15-28 | completeness for all slots of the padded tree, duplicated ones included |
| Merkle.OnlyLowBitsMatter | bdk-tokio-electrum/src/util.rs:13-27 | acceptance depends on the position only modulo 2 to the branch length |
| Merkle.FindCollision | bdk-tokio-electrum/src/util.rs:15-28 | computes two different pairs of nodes with the same hash from any two different branches of one slot to one root |
| Merkle.Binding | bdk-tokio-electrum/src/util.rs:13-30 | two accepted proofs for one root, equally long and for one slot, are equal and for one txid, or a collision is exhibited |
| Merkle.AcceptedIsLeaf | bdk-tokio-electrum/src/util.rs:13-30 | soundness, both ways: with a branch as long as the tree is deep, exactly the leaf of its slot with that slot's branch is accepted, unless there is a collision |
| Merkle.ShorterBranchIsInnerNode | bdk-tokio-electrum/src/util.rs:15-30 | a branch `k` shorter than the tree is deep is accepted for the node of its slot `k` levels above the leaves, and for nothing else unless there is a collision |
| Merkle.LongerBranchEndsInLeaf | bdk-tokio-electrum/src/util.rs:15-30 | a branch `j` longer is accepted if its first `j` elements lead to the leaf of the slot the other position bits name and the rest is that leaf's branch, and otherwise only with a collision |
| Server.Collect | tokio-electrum/src/client.rs:832-842 | replies are kept in request order; the first failing one fails the call |
| Server.Batch | tokio-electrum/src/client.rs:813-843 | succeeds exactly if it is empty, or it is not lost and every member is answered; then with all answers in order |
| Checkpoints.Insert | bdk-tokio-electrum/src/client.rs:720-725 | the assumed library: panics exactly below or against the base, otherwise gives a well-formed list with the same base |
| Checkpoints.InsertNew | bdk-tokio-electrum/src/client.rs:739-745 | inserting at an absent height above the base loses nothing, and keeps the tip if below it |
| Reconcile.ByHeight | bdk-tokio-electrum/src/client.rs:681-691 | header hashes keyed by consecutive heights, none beyond 32 bits |
| Reconcile.FindAgreement | bdk-tokio-electrum/src/client.rs:693-710 | finds the highest checkpoint that agrees with the server; all checkpoints above it conflict with a known server block |
| Reconcile.FetchTipAndLatestBlocks | bdk-tokio-electrum/src/client.rs:668-729 | the old tip if the server is behind; otherwise the old list up to the agreement followed by exactly the known server blocks above it; fails only if a request fails that was made since the call began |
| Reconcile.ReconciledShape | bdk-tokio-electrum/src/client.rs:712-726 | heights rise strictly; everything up to the agreement is kept; above it only server blocks, and all known ones; every old checkpoint above it is replaced at its own height |
| Reconcile.ReconciledTip | bdk-tokio-electrum/src/client.rs:672-691 | with a full header range the new tip is the server's tip |
| Reconcile.BaseNotRaised | bdk-tokio-electrum/src/client.rs:712-726 | the result is well-formed and its base is not above the old base (the default of `unwrap_or` is never needed) |
| Reconcile.FindHeaderCollision | bdk-tokio-electrum/src/client.rs:706-709 | two linked chains that agree at a height but not below it exhibit a header collision |
| Reconcile.KnownOnChain | bdk-tokio-electrum/src/client.rs:681-704 | if every header the server sends, alone or in the range, is of one chain, so is every block the search knows |
| Reconcile.ReconciledOnServerChain | bdk-tokio-electrum/src/client.rs:693-726 | if the old checkpoints lie on one linked chain and the server answers from another, the result lies entirely on the server's chain, or a header collision is exhibited |
| Reconcile.ChainUpdate | bdk-tokio-electrum/src/client.rs:731-749 | keeps every checkpoint, the base and the tip; adds exactly the missing anchored heights not above the tip, with the server's hash when known; panics exactly if an anchor lies below the base |
| Client.BdkElectrumClient.constructor | bdk-tokio-electrum/src/client.rs:40-47 | a new client is valid and its caches are empty |
| Client.BdkElectrumClient.PopulateAnchorCache | bdk-tokio-electrum/src/client.rs:52-62 | every seeded anchor is recorded under its own block hash, nothing else is added, and the invariant holds |
| Client.BdkElectrumClient.FetchTx | bdk-tokio-electrum/src/client.rs:79-91 | whatever the server vouches for holds of the result, which is cached afterwards; fails only if not cached and the server fails a request made since the call began |
| Anchors.FetchHeaderChunk | bdk-tokio-electrum/src/client.rs:471-501 | the headers that arrived since the call began, in request order, whether from the batch or from single requests |
| Anchors.StoreHeaders | bdk-tokio-electrum/src/client.rs:503-506 | caches exactly the pairs of the first heights with the arrived headers |
| Anchors.FallbackAlignment | bdk-tokio-electrum/src/client.rs:484-506 | with distinct headers every stored height has its own header if and only if the failures form a suffix of the chunk |
| Anchors.FirstMisplaced | bdk-tokio-electrum/src/client.rs:486-504 | after a failure followed by a success, the failed height is stored with a later height's header |
| Anchors.HonestChunk | bdk-tokio-electrum/src/client.rs:470-506 | an honest server's headers meet their own heights, because requests beyond its tip come last |
| Anchors.UnpairedFailed | bdk-tokio-electrum/src/client.rs:484-506 | a height of a chunk goes without a header only if a request for it or for a lower one failed |
| Anchors.LookupHeaders | bdk-tokio-electrum/src/client.rs:449-509 | every hash found is that of a cached header; a height stays without one only if, since the call began, the header request for it or for a lower height asked for failed; with an honest server all heights up to its tip are found |
| Anchors.SplitComplete | bdk-tokio-electrum/src/client.rs:512-530 | cached answers and still open requests together make up one anchor per request, with multiplicity |
| Anchors.SplitIds | bdk-tokio-electrum/src/client.rs:512-530 | every request is dropped for want of a header, answered from the cache, or still open, with multiplicity |
| Anchors.HonestProofChecks | bdk-tokio-electrum/src/client.rs:587-588 | an honest proof passes the check against the world's header: Merkle completeness put to use |
| Anchors.FetchProofChunk | bdk-tokio-electrum/src/client.rs:535-571 | one reply per request in its own place, sent since the call began, a failed single request leaving a gap |
| Anchors.ValidateProof | bdk-tokio-electrum/src/client.rs:574-625 | an anchor is accepted only with a cached header and a sent proof that check, and carries the height asked for; it is refused only if the proof fails against a header sent since the call began, or that request fails; the cached header is always there, so the `expect` never fires |
| Anchors.CacheAnchor | bdk-tokio-electrum/src/client.rs:613-624 | the cached anchor carries the height, and its header's hash and time, and is stored under that hash, with the evidence on record |
| Anchors.FetchAnchors | bdk-tokio-electrum/src/client.rs:534-628 | every anchor it appends carries the very height asked for; each open request is answered or lost for a stated reason; with an honest server the open requests get exactly their anchors, in order, whatever the chunk size |
| Anchors.BatchFetchAnchors | bdk-tokio-electrum/src/client.rs:439-629 | soundness for every server and interleaving: each result is seeded or backed by a checked proof, its block's header was cached at a height asked for, and results that are not from the cache carry exactly the height asked for; results and lost requests make up the requests, txid by txid with multiplicity, and a request is lost only if, since the call began, the request for its header or that of a lower height asked for failed, its proof request failed, or its proof did not check against a fresh header or none could be had; with an honest server and agreeing caches the results are the naive ones with multiplicity, whatever is cached and whatever the batch size |
| Soundness.HeightTied | bdk-tokio-electrum/src/client.rs:515-528 | a checked result carries a height asked for, unless headers with its block's hash were cached both there and at another height asked for |
| Soundness.AnsweredElsewhere | bdk-tokio-electrum/src/client.rs:515-528 | the other half: with one header cached at two heights, an anchor fetched for the one is what the cache answers for the other, and its height was not asked for |
| Soundness.WrongHeight | bdk-tokio-electrum/src/client.rs:497-506 | a server that sends one header for every height leads a new client to such an answer |
| Soundness.CheckedIsTrue | bdk-tokio-electrum/src/client.rs:484-506 | with a server that fails at any time but does not lie, and distinct Merkle roots, every checked anchor is the true one of a block that holds the transaction, although headers may be cached at wrong heights |
| Soundness.CheckedIsNaive | bdk-tokio-electrum/src/client.rs:439-629 | then, for transactions in one block each, every checked result is exactly the anchor asked for |
| Updates.ApplyHistoryHeight | bdk-tokio-electrum/src/client.rs:419-436 | an entry goes to the pending anchors if its height is positive and fits 32 bits, else to the seen txids at the start time, and nothing else changes |
| Updates.EntriesSplit | bdk-tokio-electrum/src/client.rs:427-435 | what is recorded are exactly the entries, pending or seen by their height, and nothing is recorded without an entry |
| Updates.EntriesCounted | bdk-tokio-electrum/src/client.rs:427-430 | a pending confirmation is recorded as often as its entry occurs, and every entry is either pending or not |
| Updates.GrownClosed | bdk-tokio-electrum/src/client.rs:272-292 | recording entries with their transactions keeps every pending or seen txid covered by a transaction of the update |
| Scan.ProcessSpk | bdk-tokio-electrum/src/client.rs:272-292 | one script: exactly its missing expected txids are evicted and exactly its entries recorded, each with its transaction |
| Scan.ScanBatch | bdk-tokio-electrum/src/client.rs:257-292 | a batch is worked through one script at a time, up to the script that completes the run of empty histories |
| Scan.PopulateWithSpks | bdk-tokio-electrum/src/client.rs:231-295 | terminates and refines the one-script-at-a-time specification: shortest prefix that ends in `stop_gap` empty histories, or all scripts; pulls less than one batch more; fails only if a request made since the call began fails |
| Scan.ScanDetermined | bdk-tokio-electrum/src/client.rs:246-294 | two scans, by servers that may fail but otherwise tell of one world, agree on histories, last active index, transactions, pending anchors, seen and evicted txids |
| Scan.ScanTwice | bdk-tokio-electrum/src/client.rs:231-295 | so two runs with any batch sizes, clients and caches that succeed return the same and leave equal updates behind |
| Scan.StopGapBound | bdk-tokio-electrum/src/client.rs:257-270 | at most `stop_gap` scripts are examined past the last used one |
| Scan.LastActiveMeans | bdk-tokio-electrum/src/client.rs:243-270 | the result is the index of the last examined script with a history, and none exactly if there is none |
| Scan.EvictionsMean | bdk-tokio-electrum/src/client.rs:272-279 | a txid is evicted exactly if it was expected of a recorded script and missing from its history |
| Histories.FetchKept | bdk-tokio-electrum/src/client.rs:388-398 | all transactions are fetched and exactly those with an output are kept |
| Histories.PopulateWithTxids | bdk-tokio-electrum/src/client.rs:381-417 | each kept transaction is added, and the first entry about it in the history of its first output's script is recorded |
| Histories.LookedUpClosed | bdk-tokio-electrum/src/client.rs:402-414 | lookup by txid keeps every recorded txid covered by a transaction |
| Histories.RecordOutpoint | bdk-tokio-electrum/src/client.rs:333-374 | the early-breaking walk records exactly the picks of the whole history |
| Histories.NothingLeft | bdk-tokio-electrum/src/client.rs:336-339 | after both transactions have been found nothing further would be picked |
| Histories.PicksInWorld | bdk-tokio-electrum/src/client.rs:341-373 | with the world's transactions the picks are the first entry of the outpoint's own transaction and the first other one that spends it |
| Outpoints.LocateOutpoints | bdk-tokio-electrum/src/client.rs:304-313 | exactly the outpoints whose transaction was fetched and has that output go on |
| Outpoints.FetchSpkMap | bdk-tokio-electrum/src/client.rs:315-329 | every script gets a history the server gave for it, in whatever order the scripts were asked |
| Outpoints.PopulateWithOutpoints | bdk-tokio-electrum/src/client.rs:297-379 | the update grows by exactly the picks of each located outpoint |
| Outpoints.PickedInWorld | bdk-tokio-electrum/src/client.rs:331-376 | the picks do not depend on which transactions were looked at on the way |
| Prevouts.FetchPrevTxout | bdk-tokio-electrum/src/client.rs:631-665 | for every server: each added entry is the output, at the outpoint's index, of a transaction delivered for its txid, its outpoint is spent by a non-coinbase transaction of the update, and nothing else changes; if txids commit to inputs every such outpoint is there unless its index is out of range; with the world's transactions the map is that of a pass without deduplication |
| Prevouts.SkipSeen | bdk-tokio-electrum/src/client.rs:635-642 | skipping a seen txid loses nothing when txids commit to inputs |
| Sync.SettleAnchors | bdk-tokio-electrum/src/client.rs:139-147 | every stored anchor is seeded or backed, belongs to a transaction of the update, and is of a block whose header was cached at a pending height; unless seeded it carries a pending height, or its block's hash was cached at two heights; every pending txid has an anchor unless a request about it failed or was refuted; with an honest server they are exactly the pending confirmations' anchors |
| Sync.Finish | bdk-tokio-electrum/src/client.rs:134-158 | the end of both entry points: previous outputs, anchors, chain update, and when it fails or panics |
| Sync.ScanKeychains | bdk-tokio-electrum/src/client.rs:113-132 | each keychain is scanned to its stop gap and reports its last active index if it has one |
| Sync.FullScan | bdk-tokio-electrum/src/client.rs:94-159 | the whole of `full_scan`: what is recorded, closure, anchor soundness and completeness, previous outputs, the reported chain, failures of requests made since the call began, and the panic condition; with an honest server and a local chain that is linked the reported list ends at the server's tip and lies on its chain, or the two chains collide |
| Sync.KeychainsDetermined | bdk-tokio-electrum/src/client.rs:113-132 | two full scans by servers that tell of one world see the same histories and report the same last active indices |
| Sync.FullScanTwice | bdk-tokio-electrum/src/client.rs:94-159 | so two runs of `full_scan` with any batch sizes and clients that do not fail record the same and add the same previous outputs, and with honest servers return the same anchors |
| Sync.PolledClosed | bdk-tokio-electrum/src/client.rs:176-203 | after the three lookups every pending or seen txid has its transaction in the update |
| Sync.PolledEvictions | bdk-tokio-electrum/src/client.rs:178-189 | with fewer than `usize::MAX` scripts, exactly the expected txids missing from their script's history are evicted at the start time |
| Sync.SyncRequest | bdk-tokio-electrum/src/client.rs:162-229 | the whole of `sync`, with the same guarantees as for `full_scan` |
| Sync.HonestSettingPossible | bdk-tokio-electrum/src/client.rs:672-691 | a server exists that meets the hypotheses of the two results below |
| Sync.StartedOnChain | bdk-tokio-electrum/src/client.rs:104-107 | with an honest server whose chain is no shorter than the local one, the reconciled list ends at its tip and lies on its chain, or the two chains collide |
| Sync.ReportedOnChain | bdk-tokio-electrum/src/client.rs:149-152 | and so does what is reported after the world's anchors have been spliced in |
| Sync.OrderIrrelevant | bdk-tokio-electrum/src/client.rs:731-749 | the reported list does not depend on the order of the anchors if those at one height that is missing, and unknown to the server, name one block |
| Sync.OrderMatters | bdk-tokio-electrum/src/client.rs:739-745 | and only then: otherwise two orders of the same anchors are reported differently |
| Sync.WorldOrderIrrelevant | bdk-tokio-electrum/src/client.rs:731-749 | in particular the world's anchors give one report |
| Checkpoints.SameBlocksSameList | bdk-tokio-electrum/src/client.rs:739-745 | ascending lists with the same blocks are the same list |
| Connection.InvStep | tokio-electrum/src/client.rs:286-389 | every step of every loop and every call keeps the invariant of the connection |
| Connection.EveryRun | tokio-electrum/src/client.rs:280-389 | over all interleavings: at most one loop is live; without one the status is neither connecting nor connected; the status says connected only after a successful attempt, connecting only during one or after a failed one, disconnected only outside both; until a notification has been used up it says disconnected only with a loop still going, and with reconnection and no notification at all only with another attempt bound to follow; a pending status has someone to take it up unless a loop was found running since it was set; completed waits never outnumber `terminate()` calls |
| Connection.UnnotifiedRetries | tokio-electrum/src/client.rs:318-344 | with reconnection on and no notification ever given, a disconnected status commits some loop to another attempt |
| Connection.NotifyKeeps | tokio-electrum/src/client.rs:212-214 | a notification adds at most one wake-up or permit, moves nobody, and never leaves a permit beside a queued wait |
| Stops.StopWhileServing | tokio-electrum/src/client.rs:411-452 | `disconnect()` or `shutdown()` whose two steps fall inside `post_connection`, before the next status load: the loop leaves within four steps of its own with that status, never stuck, whichever branches win |
| Stops.StatusStaysIff | tokio-electrum/src/client.rs:286-389 | from any state, a status other than connecting and connected is final, without further calls, if and only if every task is leaving or finished, or past its attempt and about to load a stopped status, or about to set this very status |
| Stops.StopWhileConnecting | tokio-electrum/src/client.rs:369-388 | during a connection attempt a completed stop holds from the next step on if and only if that step ends the wait and no other task is about to start |
| Stops.ShutdownOverwritten | tokio-electrum/src/client.rs:312-350 | a `shutdown()` that lands after a loop without reconnection has loaded the status does not hold: it ends as terminated |
| Retries.MayGiveUpIff | tokio-electrum/src/client.rs:318-344 | without further calls a live loop can leave with the status disconnected if and only if it is just doing so, or it may reconnect, a notification is there for it, and no stopped status is about to be loaded |
| Attempts.AttemptFollowsIff | tokio-electrum/src/client.rs:286-356 | with the status disconnected, some run of the tasks is over without another attempt if and only if no task is about to attempt, none that may reconnect is between attempts with no notification for it, and none is about to start unhindered |
| Attempts.CommittedRuns | tokio-electrum/src/client.rs:286-356 | otherwise every run without another attempt is bounded in length, is not over, and can go on: the attempt comes if tasks keep running |
| Connects.ConnectHonouredIff | tokio-electrum/src/client.rs:706-734 | in every run of the call and of connection tasks, `connect()` is on its way to an attempt of its own, makes it with the seventh step, and no earlier notification ends a wait, if and only if at the call the status allows it, no loop runs or is about to start, and no permit is left over |
| Witnesses.DisconnectLost | tokio-electrum/src/client.rs:369-388 | a reachable state: `disconnect()` has returned, its notification is used up, and the loop is connecting again |
| Witnesses.ShutdownLost | tokio-electrum/src/client.rs:343-350 | a reachable state: `shutdown()` has returned, the status is terminated, and a `connect()` would be accepted |
| Witnesses.LeftDisconnected | tokio-electrum/src/client.rs:339-344 | a reachable state: the status is disconnected, no loop is left, and every `connect()` is refused |
| Witnesses.DisconnectedAtTheEnd | tokio-electrum/src/client.rs:345-352 | a reachable state without reconnection and without any notification: the status is disconnected and no attempt need follow |
| Witnesses.DisconnectedAndNotified | tokio-electrum/src/client.rs:339-344 | a reachable state with reconnection and a notification not yet used up: the status is disconnected and no attempt need follow |
| Witnesses.ConnectLost | tokio-electrum/src/client.rs:706-734 | a reachable state: `connect()` has returned, the status is pending, and no loop is left or can be started |
| Witnesses.ConnectStopped | tokio-electrum/src/client.rs:737-751 | a reachable state: a `connect()` after a `disconnect()` that had nothing to stop was ended by its permit before any attempt was over |
| Policy.SenderMessageHandler | tokio-electrum/src/client.rs:454-511 | ends with the first event that ends it; the counter is the current run of timed-out pings, below the clamped limit while running, and Timeout is returned exactly when the run reaches it |
| Policy.NoLongRunBefore | tokio-electrum/src/client.rs:473-491 | while the loop runs, no window of as many pings as the limit is all timeouts, however many batches came between |
| Policy.NextReconnectInterval | tokio-electrum/src/client.rs:1307-1325 | despite checked and saturating arithmetic equals the unbounded formula, and lies between the sanitised first and longest delay |
| Policy.NeverShrinksIff | tokio-electrum/src/client.rs:1316-1324 | up to the tenth attempt delays never shrink if and only if the two drops of the jitter are covered by the first delay or hidden by the longest |
| Policy.UsualDelaysGrow | tokio-electrum/src/client.rs:1308-1324 | in particular if the first delay is 250 ms or more, or not configured |
| Address.ReadPortIff | tokio-electrum/src/address.rs:156-157 | a port is accepted exactly if it is, after an optional plus sign, a decimal number below 2^16 |
| Address.PortRoundTrip | tokio-electrum/src/address.rs:116-118 | every port is read back from its printed form |
| Address.SplitIff | tokio-electrum/src/address.rs:123-150 | host and port are separated exactly by brackets, or by the last colon of a text that starts with no bracket |
| Address.ParseIff | tokio-electrum/src/address.rs:182-195 | exactly the texts made of a scheme, the separator, a host in one of the two forms and a port are accepted, each as the address it denotes |
| Address.RoundTripIff | tokio-electrum/src/address.rs:170-195 | the printed form parses to the same address if and only if the host is an IP or a non-empty name that is no IP text and starts with no bracket |
| Address.NormalForm | tokio-electrum/src/address.rs:170-195 | printing an accepted address is a normal form if and only if its host is no name that starts with a bracket |
| Address.BracketNameAccepted | tokio-electrum/src/address.rs:123-139 | the exclusion is needed: a bracketed name with a second bracket is accepted, and its printed form refused |

## Left out

- Thin request wrappers, builder setters, logging, error conversions, notifications to subscribers, examples and the test environment: they hold no state and make no decision the rest depends on.
- Sockets, TLS, SOCKS, stream splitting, JSON-RPC framing and the streaming client's internals: each request is one call of the oracle, and joined futures keep their order.
- SHA-256d, serialisation and `compute_txid`: uninterpreted functions.
- Script hashes: a history is asked for by script, so two scripts with one script hash are not modelled.
- The concrete grammar of IP addresses: a parameter with stated laws (`IpText.Lawful`).
- Real time: sleeps and timeouts are steps that may happen at any time; only the arithmetic of delays is modelled.
- Cancellation or panics of the connection task, scheduler fairness, the receiver lock the loop takes, and dropping the client (which calls `shutdown`).
- The order in which `tokio::select!` prefers ready branches in the sender loop: the event sequence already fixes it.
- The overflow of `start_height..` (`bdk-tokio-electrum/src/client.rs:688`) when a server sends headers past the last 32-bit height: heights beyond it are cut off.
- `populate_tx_cache`: other clones may do it within the contract of `Interfere`.
- Hash sets and hash maps: iteration order is left open, and `needed_heights` is described by its result instead of sort and dedup.
- A claim that returned anchors are on the server's current chain: the caches may answer for a header seen before a reorganisation.
- Server.Batch: batch calls and the client's request methods are functions of the oracle and a request counter; sending and waiting are not modelled as steps.
- Client.BdkElectrumClient.Interfere: its body does nothing, since only its contract, the guarantee of the other clones, may be used.
- Scan.PopulateWithSpks: requires a position from which on no script is used, because the code does not stop on an endless sequence of used scripts.
- Connection.InvStep: the loop and the calls are steps of a state machine on values rather than methods, since the statements are about their interleavings.
- Connection.EveryRun: atomics are sequentially consistent steps, as the code's `SeqCst` orderings say; `turnedAway` is a history variable of the model.
