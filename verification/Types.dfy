/** Values shared by the whole model: machine integers, digests, blocks and transactions. */
module Types {

  type u16 = x: int | 0 <= x < 0x1_0000
  type u32 = x: int | 0 <= x < 0x1_0000_0000
  type u64 = x: int | 0 <= x < 0x1_0000_0000_0000_0000
  type i64 = x: int | -0x8000_0000_0000_0000 <= x < 0x8000_0000_0000_0000

  const U32_LIMIT: int := 0x1_0000_0000
  const USIZE_MAX: int := 0xFFFF_FFFF_FFFF_FFFF

  function Pow2(n: nat): (p: nat)
    ensures p > 0
  {
    if n == 0 then 1 else 2 * Pow2(n - 1)
  }

  /** A 256-bit hash value. Nothing computes with it: it is only stored and compared. */
  newtype Digest = d: int |
    0 <= d < 0x1_0000_0000_0000_0000_0000_0000_0000_0000_0000_0000_0000_0000_0000_0000_0000_0000

  type Txid = Digest
  type BlockHash = Digest

  datatype Option<+T> = None | Some(value: T)

  datatype Result<+T> = Ok(value: T) | Err

  /** The fields of a block header this code reads; `rest` stands for the others. */
  datatype Header = Header(prevBlockHash: BlockHash, merkleRoot: Digest, time: u32, rest: int)

  datatype BlockId = BlockId(height: u32, hash: BlockHash)

  datatype ConfirmationBlockTime = ConfirmationBlockTime(blockId: BlockId, confirmationTime: u64)

  datatype Script = Script(bytes: seq<int>)

  datatype OutPoint = OutPoint(txid: Txid, vout: u32) {
    /** The outpoint a coinbase input carries. */
    predicate IsNull() {
      txid == 0 && vout == 0xFFFF_FFFF
    }
  }

  datatype TxOut = TxOut(value: u64, scriptPubkey: Script)

  /** A transaction; each input is represented by the outpoint it spends. */
  datatype Tx = Tx(inputs: seq<OutPoint>, outputs: seq<TxOut>, rest: int) {
    predicate IsCoinbase() {
      |inputs| == 1 && inputs[0].IsNull()
    }
  }

  /** One entry of a script history; unconfirmed entries carry height 0 or -1. */
  datatype HistoryEntry = HistoryEntry(txid: Txid, height: i64)

  type History = seq<HistoryEntry>

  /** The hash functions of the protocol, left uninterpreted: every result holds for all of them. */
  datatype Hashing = Hashing(
    node: (Digest, Digest) -> Digest,
    header: Header -> BlockHash,
    tx: Tx -> Txid)
  {
    function BlockHash(h: Header): BlockHash {
      header(h)
    }

    function ComputeTxid(t: Tx): Txid {
      tx(t)
    }
  }
}
