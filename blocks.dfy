/**
 * A block of the ledger (blockchain/block.py): a mutable record that caches
 * the digest of its own content in `hash` and recomputes it on every
 * mutation. The digest is abstract (`hashFn`, fixed per block); transactions
 * enter it as object identities, because the source hashes their `str()`.
 */
module Blocks {
  import opened Common
  import opened Transactions

  /**
   * A `previous_hash` value: the integer sentinel `1` the genesis block is
   * built with, or the hex digest of the block before.
   */
  datatype Link = Sentinel | Hash(hex: Digest)

  /** The fields a block's `__my_hash` feeds to SHA-256. */
  datatype BlockContent = BlockContent(index: int, timestamp: real, transactions: seq<Transaction>,
                                       nonce: int, previousHash: Link)

  type BlockHash = BlockContent -> Digest

  /** The dictionary `Block.to_dict` builds. */
  datatype BlockDict = BlockDict(index: int, timestamp: real, listOfTransactions: seq<TransactionDict>,
                                 nonce: int, previousHash: Link, hash: Digest)

  /** The id a parsed transaction keeps: that of the placeholder `Transaction("", "", "", 0, [], "s")`. */
  function PlaceholderId(txHash: TxHash): Digest {
    txHash(TxContent("", "", 0, [], Text("s")))
  }

  /**
   * The placeholder `Transaction("", "", "", 0, [], "s")` that `Block.parser`
   * builds for each transaction before parsing into it: amount 0, no inputs,
   * the literal signature "s", and the id `PlaceholderId`.
   */
  method NewPlaceholder(txHash: TxHash, outputHash: OutputHash) returns (t: Transaction)
    ensures fresh(t)
    ensures t.senderAddress == "" && t.receiverAddress == "" && t.amount == 0
    ensures t.transactionInputs == [] && t.signature == Text("s")
    ensures t.transactionId == PlaceholderId(txHash)
    ensures t.transactionOutputs == GenerateOutputs(outputHash, PlaceholderId(txHash), "", "", 0, [])
  {
    t := new Transaction("", "", "", 0, [], "s", txHash, outputHash);
  }

  class Block {
    var index: int
    var timestamp: real
    var listOfTransactions: seq<Transaction>
    var nonce: int
    var previousHash: Link
    var hash: Digest
    const hashFn: BlockHash

    function Content(): BlockContent
      reads this
    {
      BlockContent(index, timestamp, listOfTransactions, nonce, previousHash)
    }

    /** The cached hash matches the current content. */
    predicate Valid()
      reads this
    {
      hash == hashFn(Content())
    }

    /** `Block.__init__`, with the reading of the clock passed in as `timestamp`. */
    constructor (index: int, nonce: int, previousHash: Link, timestamp: real, hashFn: BlockHash)
      ensures Valid()
      ensures this.index == index && this.nonce == nonce && this.previousHash == previousHash
      ensures this.timestamp == timestamp && listOfTransactions == []
      ensures this.hashFn == hashFn
    {
      this.index := index;
      this.timestamp := timestamp;
      listOfTransactions := [];
      this.nonce := nonce;
      this.previousHash := previousHash;
      this.hashFn := hashFn;
      new;
      hash := hashFn(Content());
    }

    /** `set_nonce`: only the nonce changes, and the hash follows it. */
    method SetNonce(n: int)
      modifies this
      ensures Content() == old(Content()).(nonce := n)
      ensures Valid()
    {
      nonce := n;
      hash := hashFn(Content());
    }

    /**
     * `add_transactions_to_block`: appends `ts` in order, one at a time, then
     * recomputes the hash; returns the block itself.
     */
    method AddTransactionsToBlock(ts: seq<Transaction>) returns (b: Block)
      modifies this
      ensures b == this
      ensures Content() == old(Content()).(transactions := old(listOfTransactions) + ts)
      ensures Valid()
    {
      var i := 0;
      while i < |ts|
        invariant 0 <= i <= |ts|
        invariant Content() == old(Content()).(transactions := old(listOfTransactions) + ts[..i])
      {
        listOfTransactions := listOfTransactions + [ts[i]];
        i := i + 1;
        assert ts[..i] == ts[..i - 1] + [ts[i - 1]];
      }
      assert ts[..i] == ts;
      hash := hashFn(Content());
      b := this;
    }

    predicate Serialisable()
      reads this, set t | t in listOfTransactions
    {
      forall t :: t in listOfTransactions ==> t.Serialisable()
    }

    /**
     * `Block.to_dict`: the fields, the cached hash as stored, and one
     * `to_dict` per transaction in order.
     */
    function ToDict(): (d: BlockDict)
      reads this, set t | t in listOfTransactions
      requires Serialisable()
      ensures d.index == index && d.timestamp == timestamp && d.nonce == nonce
      ensures d.previousHash == previousHash && d.hash == hash
      ensures |d.listOfTransactions| == |listOfTransactions|
      ensures forall k :: 0 <= k < |listOfTransactions| ==> d.listOfTransactions[k] == listOfTransactions[k].ToDict()
    {
      BlockDict(index, timestamp, TransactionDicts(listOfTransactions), nonce, previousHash, hash)
    }

    /**
     * `Block.parser`: every field comes from the dictionary, `hash` verbatim.
     * Each transaction is a new placeholder object run through
     * `Transaction.parser`, which leaves its amount 0 and its id the
     * placeholder's. The hash invariant holds afterwards only when the
     * dictionary's hash happens to match the new content.
     */
    method Parser(d: BlockDict, txHash: TxHash, outputHash: OutputHash)
      modifies this
      ensures index == d.index && timestamp == d.timestamp && nonce == d.nonce
      ensures previousHash == d.previousHash && hash == d.hash
      ensures |listOfTransactions| == |d.listOfTransactions|
      ensures forall k :: 0 <= k < |listOfTransactions| ==>
                && fresh(listOfTransactions[k])
                && listOfTransactions[k].amount == 0
                && listOfTransactions[k].transactionId == PlaceholderId(txHash)
                && listOfTransactions[k].Serialisable()
                && listOfTransactions[k].ToDict() == d.listOfTransactions[k].(amount := 0)
      ensures Valid() <==> d.hash == hashFn(Content())
    {
      var parsed: seq<Transaction> := [];
      var k := 0;
      while k < |d.listOfTransactions|
        invariant 0 <= k <= |d.listOfTransactions|
        invariant |parsed| == k
        invariant forall j :: 0 <= j < k ==>
                    && fresh(parsed[j])
                    && parsed[j].amount == 0
                    && parsed[j].transactionId == PlaceholderId(txHash)
                    && parsed[j].Serialisable()
                    && parsed[j].ToDict() == d.listOfTransactions[j].(amount := 0)
      {
        var t := NewPlaceholder(txHash, outputHash);
        t.Parser(d.listOfTransactions[k]);
        parsed := parsed + [t];
        k := k + 1;
      }
      index := d.index;
      timestamp := d.timestamp;
      listOfTransactions := parsed;
      nonce := d.nonce;
      previousHash := d.previousHash;
      hash := d.hash;
    }
  }

  /**
   * `parser(b.to_dict())` into a new block: index, timestamp, nonce,
   * previous hash and the hash itself come back unchanged, and the hash
   * invariant holds again exactly when the new transaction objects hash the
   * same as the old ones.
   */
  method ReparseBlock(b: Block, txHash: TxHash, outputHash: OutputHash) returns (c: Block)
    requires b.Serialisable()
    ensures c.index == b.index && c.timestamp == b.timestamp && c.nonce == b.nonce
    ensures c.previousHash == b.previousHash && c.hash == b.hash
    ensures |c.listOfTransactions| == |b.listOfTransactions|
    ensures c.Valid() <==> b.hash == b.hashFn(c.Content())
    ensures b.Valid() ==> (c.Valid() <==> b.hashFn(b.Content()) == b.hashFn(c.Content()))
  {
    var d := b.ToDict();
    c := new Block(0, 0, Sentinel, 0.0, b.hashFn);
    c.Parser(d, txHash, outputHash);
  }
}
