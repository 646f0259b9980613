/** The Electrum server as the client sees it: an answer for every request, chosen freely each time.
    The first argument of each function is the number of the request, so nothing here is assumed
    stable, honest or successful; a `None` is an error reply, a timeout or a disconnection. */
module Server {
  import opened Types
  import Merkle

  datatype Server = Server(
    lost: nat -> bool,                                   // the whole batch gets no reply
    tip: nat -> Option<u32>,
    header: (nat, u32) -> Option<Header>,
    headers: (nat, u32, nat) -> Option<seq<Header>>,     // may hold fewer or more than asked
    history: (nat, Script) -> Option<History>,
    tx: (nat, Txid) -> Option<Tx>,
    merkle: (nat, (Txid, u32)) -> Option<Merkle.Proof>)
  {
    predicate Lost(t: nat) { lost(t) }
    function Tip(t: nat): Option<u32> { tip(t) }
    function HeaderAt(t: nat, height: u32): Option<Header> { header(t, height) }
    function HeadersAt(t: nat, start: u32, count: nat): Option<seq<Header>> { headers(t, start, count) }
    function HistoryAt(t: nat, script: Script): Option<History> { history(t, script) }
    function TxAt(t: nat, txid: Txid): Option<Tx> { tx(t, txid) }
    function MerkleAt(t: nat, asked: (Txid, u32)): Option<Merkle.Proof> { merkle(t, asked) }
  }

  /** Replies to a run of requests, kept in request order and given up at the first error. */
  function Collect<Q(!new), A(!new)>(answer: (nat, Q) -> Option<A>, t: nat, asked: seq<Q>): (r: Option<seq<A>>)
    ensures r.Some? <==> forall i :: 0 <= i < |asked| ==> answer(t + i, asked[i]).Some?
    ensures r.Some? ==> |r.value| == |asked|
                        && forall i :: 0 <= i < |asked| ==> answer(t + i, asked[i]) == Some(r.value[i])
    decreases |asked|
  {
    if asked == [] then Some([])
    else
      var rest := Collect(answer, t + 1, asked[1..]);
      assert forall i :: 1 <= i < |asked| ==> asked[i] == asked[1..][i - 1] && t + i == t + 1 + (i - 1);
      assert forall i :: 0 <= i < |asked| - 1 ==> asked[1..][i] == asked[i + 1] && t + (i + 1) == t + 1 + i;
      match answer(t, asked[0])
      case None =>
        assert answer(t + 0, asked[0]).None?;
        None
      case Some(a) => if rest.None? then None else Some([a] + rest.value)
  }

  /** A batch call: nothing is sent for an empty batch, and any failing member fails the batch. */
  function Batch<Q(!new), A(!new)>(server: Server, answer: (nat, Q) -> Option<A>, t: nat, asked: seq<Q>)
    : (r: Option<seq<A>>)
    ensures r.Some? ==> |r.value| == |asked|
                        && forall i :: 0 <= i < |asked| ==> answer(t + i, asked[i]) == Some(r.value[i])
    ensures r.Some? <==>
              asked == [] || (!server.Lost(t) && forall i :: 0 <= i < |asked| ==> answer(t + i, asked[i]).Some?)
  {
    if asked == [] then Some([])
    else if server.Lost(t) then None
    else Collect(answer, t, asked)
  }

  /** The client's side of the connection; `now` numbers the requests sent so far. */
  class ElectrumClient {
    const server: Server
    var now: nat

    constructor (server: Server)
      ensures this.server == server
    {
      this.server := server;
      now := 0;
    }

    method GetTip() returns (r: Option<u32>)
      modifies this
      ensures r == server.Tip(old(now)) && now > old(now)
    {
      r := server.Tip(now);
      now := now + 1;
    }

    method BlockHeader(height: u32) returns (r: Option<Header>)
      modifies this
      ensures r == server.HeaderAt(old(now), height) && now == old(now) + 1
    {
      r := server.HeaderAt(now, height);
      now := now + 1;
    }

    method BlockHeaders(start: u32, count: nat) returns (r: Option<seq<Header>>)
      modifies this
      ensures r == server.HeadersAt(old(now), start, count) && now > old(now)
    {
      r := server.HeadersAt(now, start, count);
      now := now + 1;
    }

    method BatchBlockHeader(heights: seq<u32>) returns (r: Option<seq<Header>>)
      modifies this
      ensures r == Batch(server, server.header, old(now), heights) && now > old(now)
    {
      r := Batch(server, server.header, now, heights);
      now := now + |heights| + 1;
    }

    method BatchScriptGetHistory(scripts: seq<Script>) returns (r: Option<seq<History>>)
      modifies this
      ensures r == Batch(server, server.history, old(now), scripts) && now > old(now)
    {
      r := Batch(server, server.history, now, scripts);
      now := now + |scripts| + 1;
    }

    method TransactionGet(txid: Txid) returns (r: Option<Tx>)
      modifies this
      ensures r == server.TxAt(old(now), txid) && now > old(now)
    {
      r := server.TxAt(now, txid);
      now := now + 1;
    }

    method TransactionGetMerkle(asked: (Txid, u32)) returns (r: Option<Merkle.Proof>)
      modifies this
      ensures r == server.MerkleAt(old(now), asked) && now == old(now) + 1
    {
      r := server.MerkleAt(now, asked);
      now := now + 1;
    }

    method BatchTransactionGetMerkle(asked: seq<(Txid, u32)>) returns (r: Option<seq<Merkle.Proof>>)
      modifies this
      ensures r == Batch(server, server.merkle, old(now), asked) && now > old(now)
    {
      r := Batch(server, server.merkle, now, asked);
      now := now + |asked| + 1;
    }
  }
}
