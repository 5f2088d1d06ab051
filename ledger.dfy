/**
 * The ledger (blockchain/blockchain.py): a map of sealed blocks keyed by a
 * `previous_hash`, the block currently being extended, the pending
 * transactions, and the batch capacity and mining difficulty.
 */
module Ledger {
  import opened Transactions
  import opened Blocks

  class Blockchain {
    /** The `blockchain` dict of the source. */
    var chain: map<Link, Block>
    var lastBlock: Block
    /** The pending pool. */
    var transactions: seq<Transaction>
    const capacity: nat
    const difficulty: nat

    /**
     * `Blockchain.__init__`: empty chain and pool, and a genesis block
     * `Block(0, 0, 1)` as the last block; `now` is the clock reading the
     * genesis block takes as its timestamp.
     */
    constructor (capacity: nat, difficulty: nat, now: real, blockHash: BlockHash)
      ensures chain == map[] && transactions == []
      ensures fresh(lastBlock) && lastBlock.Valid() && lastBlock.hashFn == blockHash
      ensures lastBlock.Content() == BlockContent(0, now, [], 0, Sentinel)
      ensures this.capacity == capacity && this.difficulty == difficulty
    {
      chain := map[];
      lastBlock := new Block(0, 0, Sentinel, now, blockHash);
      transactions := [];
      this.capacity := capacity;
      this.difficulty := difficulty;
    }

    /**
     * `add_new_block`: files the old last block under `b.previous_hash` and
     * makes `b` the last block. Nothing else changes; in particular no block
     * is inspected.
     */
    method AddNewBlock(b: Block) returns (r: Blockchain)
      modifies this`chain, this`lastBlock
      ensures r == this
      ensures chain == old(chain)[b.previousHash := old(lastBlock)]
      ensures lastBlock == b
      ensures forall key :: key in old(chain) && key != b.previousHash ==> key in chain && chain[key] == old(chain)[key]
      ensures transactions == old(transactions)
      ensures b.previousHash == Hash(old(lastBlock).hash) ==> chain[Hash(old(lastBlock).hash)] == old(lastBlock)
    {
      chain := chain[b.previousHash := lastBlock];
      lastBlock := b;
      r := this;
    }
  }
}
