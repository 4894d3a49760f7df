/** The ledger data that the indexer replicates and serves (src/types.rs and the pallet types it re-exports). */
module Types {
  /** Number of Merkle shards; a shard index is a byte. */
  const FOREST_WIDTH: nat := 256

  type Shard = s: nat | s < 256
  type Bytes = seq<bv8>
  type Total = b: Bytes | |b| == 16 witness [0, 0, 0, 0, 0, 0, 0, 0, 0, 0, 0, 0, 0, 0, 0, 0]

  datatype Option<+T> = None | Some(value: T)

  datatype Error = BadUtxo | DecodeError | RowNotFound | NodeError | DbError

  datatype Result<+T> = Ok(value: T) | Err(error: Error)

  /** A UTXO together with the shard its item hash selects; `None` when the UTXO cannot be converted.
      The hash itself is not modelled: `tree` may be any function of the UTXO. */
  datatype Utxo = Utxo(raw: Bytes, tree: Option<Shard>)
  datatype Receiver = Receiver(utxo: Utxo, note: Bytes)
  datatype Sender = Sender(nullifier: Bytes, note: Bytes)

  /** Encoded values. Decoding undoes encoding, and fails on anything that is not an encoding of its type. */
  datatype Blob = ReceiverBlob(r: Receiver) | SenderBlob(s: Sender) | OtherBlob(raw: Bytes)

  function DecodeReceiver(b: Blob): Result<Receiver> {
    if b.ReceiverBlob? then Ok(b.r) else Err(DecodeError)
  }

  function DecodeSender(b: Blob): Result<Sender> {
    if b.SenderBlob? then Ok(b.s) else Err(DecodeError)
  }

  /** One cursor per shard. */
  type Cursors = c: seq<nat> | |c| == FOREST_WIDTH witness seq(FOREST_WIDTH, i => 0)
  datatype Checkpoint = Checkpoint(receiverIndex: Cursors, senderIndex: nat)

  datatype PullResponse = PullResponse(shouldContinue: bool, receivers: seq<Receiver>, senders: seq<Sender>,
                                       total: Total)

  /** A ledger: the receivers of each shard in order, and the senders in order. */
  datatype Ledger = Ledger(shards: seq<seq<Receiver>>, senders: seq<Sender>) {
    /** Every receiver is stored in the shard its UTXO hashes to. */
    ghost predicate Valid() {
      && |shards| == FOREST_WIDTH
      && forall s: Shard, i: nat :: i < |shards[s]| ==> shards[s][i].utxo.tree == Some(s)
    }

    /** `that` is a later state of this append-only ledger. */
    ghost predicate PrefixOf(that: Ledger) {
      && |shards| == |that.shards| == FOREST_WIDTH
      && (forall s: Shard :: shards[s] <= that.shards[s])
      && senders <= that.senders
    }
  }
}
