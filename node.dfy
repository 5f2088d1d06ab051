/**
 * One participant (blockchain/node.py): its ledger, its wallet, and the
 * ring of peers with the node's own mirror of each peer's unspent outputs.
 *
 * The cancellation event of the mining loop is an oracle: `cancelAt` is the
 * number of the first loop test at which the event is seen set.
 */
module Nodes {
  import opened Common
  import opened Transactions
  import opened Blocks
  import opened Ledger
  import opened Wallets

  /** A peer descriptor; only its mirrored outputs are ever reassigned. */
  class RingNode {
    const index: int
    const address: Address
    const publicKey: string
    var utxos: seq<TransactionOutput>

    /** `RingNode.__init__`: the outputs are copied into a list of its own. */
    constructor (index: int, address: Address, publicKey: string, utxos: seq<TransactionOutput>)
      ensures this.index == index && this.address == address && this.publicKey == publicKey
      ensures this.utxos == utxos
    {
      this.index := index;
      this.address := address;
      this.publicKey := publicKey;
      this.utxos := utxos;
    }
  }

  /**
   * The difficulty test of `mine_block`, `int(hash[:difficulty]) == 0`, read
   * as: the first `difficulty` characters of the hash (all of it when it is
   * shorter) are '0'. The `ValueError` that `int` raises on an empty prefix
   * or a hex letter is not modelled.
   */
  predicate HasLeadingZeros(hash: Digest, difficulty: nat): (r: bool)
    ensures r <==> hash[..Prefix(hash, difficulty)] == Zeros(Prefix(hash, difficulty))
  {
    forall i :: 0 <= i < |hash| && i < difficulty ==> hash[i] == '0'
  }

  /** The length of `hash[:difficulty]`. */
  function Prefix(hash: Digest, difficulty: nat): nat {
    if difficulty < |hash| then difficulty else |hash|
  }

  function Zeros(n: nat): (z: string)
    ensures |z| == n && forall i :: 0 <= i < n ==> z[i] == '0'
  {
    seq(n, _ => '0')
  }

  /** The block content `c` with nonce `n` passes the difficulty test. */
  predicate Solves(h: BlockHash, c: BlockContent, n: int, difficulty: nat) {
    HasLeadingZeros(h(c.(nonce := n)), difficulty)
  }

  /**
   * The loop of `create_transaction`: takes outputs from the front of
   * `utxos`, adding up their amounts, and stops right after the sum first
   * reaches `amount` or when the list runs out. The sum then falls short
   * exactly when no prefix covers `amount`; otherwise the outputs taken are
   * the shortest covering prefix.
   */
  method SelectInputs(utxos: seq<TransactionOutput>, amount: int) returns (transactionInputs: seq<TransactionOutput>, sum: int)
    requires |utxos| > 0 || amount > 0
    ensures |transactionInputs| <= |utxos| && transactionInputs == utxos[..|transactionInputs|]
    ensures sum == SumAmounts(transactionInputs)
    ensures sum < amount <==> ShortestCover(utxos, amount).None?
    ensures sum >= amount ==> ShortestCover(utxos, amount) == Some(|transactionInputs|)
  {
    sum := 0;
    transactionInputs := [];
    var i := 0;
    while i < |utxos|
      invariant 0 <= i <= |utxos|
      invariant transactionInputs == utxos[..i]
      invariant sum == SumAmounts(utxos[..i])
      invariant forall j :: 0 < j <= i ==> SumAmounts(utxos[..j]) < amount
    {
      SumPrefixStep(utxos, i);
      sum := sum + utxos[i].amount;
      transactionInputs := transactionInputs + [utxos[i]];
      i := i + 1;
      if sum >= amount {
        ShortestCoverIs(utxos, amount, i);
        return;
      }
    }
  }

  class Node {
    var blockchain: Blockchain
    const index: int
    const wallet: Wallet
    var ring: seq<RingNode>
    const outputHash: OutputHash
    const txHash: TxHash
    const blockHash: BlockHash
    /** `verify_transaction`: the PKCS#1 v1.5 check of the signature over the transaction's dictionary. */
    const verify: TransactionDict -> bool

    /**
     * `Node.__init__`: a fresh ledger, a wallet built from the generated
     * keys, and an empty ring. `now` is the genesis block's timestamp.
     */
    constructor (index: int, capacity: nat, difficulty: nat, keys: GeneratedKeys, now: real,
                 outputHash: OutputHash, txHash: TxHash, blockHash: BlockHash, verify: TransactionDict -> bool)
      ensures fresh(blockchain) && blockchain.chain == map[] && blockchain.transactions == []
      ensures blockchain.capacity == capacity && blockchain.difficulty == difficulty
      ensures fresh(blockchain.lastBlock) && blockchain.lastBlock.Valid() && blockchain.lastBlock.hashFn == blockHash
      ensures blockchain.lastBlock.Content() == BlockContent(0, now, [], 0, Sentinel)
      ensures this.index == index && wallet == NewWallet(keys) && ring == []
      ensures this.outputHash == outputHash && this.txHash == txHash
      ensures this.blockHash == blockHash && this.verify == verify
    {
      blockchain := new Blockchain(capacity, difficulty, now, blockHash);
      this.index := index;
      wallet := NewWallet(keys);
      ring := [];
      this.outputHash := outputHash;
      this.txHash := txHash;
      this.blockHash := blockHash;
      this.verify := verify;
    }

    /** `register_node_to_ring`: appends the peer, nothing else. */
    method RegisterNodeToRing(peer: RingNode)
      modifies this`ring
      ensures ring == old(ring) + [peer]
    {
      ring := ring + [peer];
    }

    /** Ring entry `j` is the first one with this address. */
    predicate FirstWithAddress(j: int, address: Address)
      reads this
    {
      0 <= j < |ring| && ring[j].address == address
      && forall i :: 0 <= i < j ==> ring[i].address != address
    }

    /**
     * `tx` is the transaction this node builds to pay `amount` to `receiver`
     * from the outputs `spent`: its own address as sender, the ids of `spent`
     * as inputs, a signer from its private key, and change that is the sum of
     * `spent` less `amount`.
     */
    predicate PaysFrom(tx: Transaction, receiver: Address, amount: int, spent: seq<TransactionOutput>)
      reads this, tx
    {
      && tx.senderAddress == wallet.address && tx.receiverAddress == receiver && tx.amount == amount
      && tx.transactionInputs == InputIds(spent)
      && tx.signature == Signer(wallet.privateKey)
      && tx.transactionId == txHash(tx.Content())
      && tx.transactionOutputs == GenerateOutputs(outputHash, tx.transactionId, wallet.address, receiver, amount, spent)
      && tx.transactionOutputs[1].amount == SumAmounts(spent) - amount
    }

    /**
     * `create_transaction`: consumes the shortest prefix of the node's own
     * mirrored outputs that covers `amount`, drops it from the mirror and
     * builds an unsigned-by-string transaction from it; returns null (and
     * changes nothing) when no prefix covers `amount`.
     */
    method CreateTransaction(receiver: Address, amount: int) returns (tx: Transaction?)
      requires 0 <= index < |ring|
      requires amount > 0 || |ring[index].utxos| > 0
      modifies ring[index]
      ensures ring == old(ring)
      ensures forall j :: 0 <= j < |ring| && ring[j] != ring[index] ==> ring[j].utxos == old(ring[j].utxos)
      ensures ShortestCover(old(ring[index].utxos), amount).None? ==>
                tx == null && ring[index].utxos == old(ring[index].utxos)
      ensures ShortestCover(old(ring[index].utxos), amount).Some? ==>
                var n := ShortestCover(old(ring[index].utxos), amount).value;
                && ring[index].utxos == old(ring[index].utxos)[n..]
                && SumAmounts(ring[index].utxos) == SumAmounts(old(ring[index].utxos)) - SumAmounts(old(ring[index].utxos)[..n])
                && tx != null && fresh(tx)
                && PaysFrom(tx, receiver, amount, old(ring[index].utxos)[..n])
    {
      var utxos := ring[index].utxos;
      var transactionInputs, sum := SelectInputs(utxos, amount);
      if sum < amount {
        return null;
      }
      SumSplit(utxos, |transactionInputs|);
      ring[index].utxos := ring[index].utxos[|transactionInputs|..];
      tx := new Transaction(wallet.address, wallet.privateKey, receiver, amount, transactionInputs, "",
                            txHash, outputHash);
      assert PaysFrom(tx, receiver, amount, transactionInputs);
    }

    /** `find_node_from_address`: the first ring entry with the address, or null. */
    method FindNodeFromAddress(address: Address) returns (node: RingNode?)
      ensures node == null <==> forall j :: 0 <= j < |ring| ==> ring[j].address != address
      ensures node != null ==> exists j :: FirstWithAddress(j, address) && ring[j] == node
    {
      var i := 0;
      while i < |ring|
        invariant 0 <= i <= |ring|
        invariant forall j :: 0 <= j < i ==> ring[j].address != address
      {
        if ring[i].address == address {
          assert FirstWithAddress(i, address);
          return ring[i];
        }
        i := i + 1;
      }
      return null;
    }

    /**
     * `validate_transaction`: false when the signature does not verify;
     * otherwise false exactly when the sender's mirrored outputs (first ring
     * entry with the sender's address) sum to less than the amount. The
     * sender must be in the ring once the signature verifies.
     */
    method ValidateTransaction(transaction: Transaction) returns (ok: bool)
      requires transaction.Serialisable()
      requires verify(transaction.ToDict()) ==>
                 exists j :: 0 <= j < |ring| && ring[j].address == transaction.senderAddress
      ensures ok <==> verify(transaction.ToDict())
                      && forall j :: FirstWithAddress(j, transaction.senderAddress) ==>
                           SumAmounts(ring[j].utxos) >= transaction.amount
    {
      if !verify(transaction.ToDict()) {
        return false;
      }
      var senderNode := FindNodeFromAddress(transaction.senderAddress);
      if SumAmounts(senderNode.utxos) < transaction.amount {
        return false;
      }
      return true;
    }

    /**
     * `mine_block`: while the cancellation event is not seen, tests the
     * difficulty and otherwise bumps the nonce by one. Returns the nonce that
     * passed, or -1 once the event is seen first (at test number `cancelAt`).
     */
    method MineBlock(block: Block, cancelAt: nat) returns (result: int)
      requires block.Valid()
      modifies block
      ensures block.Valid()
      ensures block.Content() == old(block.Content()).(nonce := block.nonce)
      ensures old(block.nonce) <= block.nonce <= old(block.nonce) + cancelAt
      ensures forall n :: old(block.nonce) <= n < block.nonce ==>
                !Solves(block.hashFn, old(block.Content()), n, blockchain.difficulty)
      ensures block.nonce < old(block.nonce) + cancelAt ==>
                HasLeadingZeros(block.hash, blockchain.difficulty) && result == block.nonce
      ensures block.nonce == old(block.nonce) + cancelAt ==> result == -1
    {
      var steps := 0;
      while steps < cancelAt
        invariant 0 <= steps <= cancelAt
        invariant block.Valid()
        invariant block.Content() == old(block.Content()).(nonce := old(block.nonce) + steps)
        invariant forall n :: old(block.nonce) <= n < block.nonce ==>
                    !Solves(block.hashFn, old(block.Content()), n, blockchain.difficulty)
      {
        if HasLeadingZeros(block.hash, blockchain.difficulty) {
          return block.nonce;
        }
        block.SetNonce(block.nonce + 1);
        steps := steps + 1;
      }
      return -1;
    }

    /**
     * `add_transaction`. While the pool holds at most `capacity`
     * transactions, appends and returns -1. Otherwise the incoming
     * transaction is dropped: a new block after the last one takes the first
     * `capacity` pending transactions, the pool keeps the rest, and the block
     * is mined (and then discarded: it is not added to the chain). `now` is
     * the new block's timestamp; `mined` names it for the contract.
     */
    method AddTransaction(transaction: Transaction, cancelAt: nat, now: real) returns (result: int, ghost mined: Block?)
      modifies blockchain
      ensures blockchain.chain == old(blockchain.chain) && blockchain.lastBlock == old(blockchain.lastBlock)
      ensures old(|blockchain.transactions|) <= blockchain.capacity ==>
                && blockchain.transactions == old(blockchain.transactions) + [transaction]
                && result == -1 && mined == null
      ensures old(|blockchain.transactions|) > blockchain.capacity ==>
                && blockchain.transactions == old(blockchain.transactions)[blockchain.capacity..]
                && mined != null && fresh(mined) && mined.Valid() && mined.hashFn == blockHash
                && mined.index == old(blockchain.lastBlock.index) + 1
                && mined.previousHash == Hash(old(blockchain.lastBlock.hash))
                && mined.timestamp == now
                && mined.listOfTransactions == old(blockchain.transactions)[..blockchain.capacity]
                && 0 <= mined.nonce <= cancelAt
                && (forall n :: 0 <= n < mined.nonce ==> !Solves(blockHash, mined.Content(), n, blockchain.difficulty))
                && (mined.nonce < cancelAt ==> HasLeadingZeros(mined.hash, blockchain.difficulty) && result == mined.nonce)
                && (mined.nonce == cancelAt ==> result == -1)
    {
      if |blockchain.transactions| <= blockchain.capacity {
        blockchain.transactions := blockchain.transactions + [transaction];
        return -1, null;
      }
      var lastBlock := blockchain.lastBlock;
      var block := new Block(lastBlock.index + 1, 0, Hash(lastBlock.hash), now, blockHash);
      var addedTransactions := blockchain.transactions[..blockchain.capacity];
      var _ := block.AddTransactionsToBlock(addedTransactions);
      blockchain.transactions := blockchain.transactions[blockchain.capacity..];
      ghost var batched := block.Content();
      result := MineBlock(block, cancelAt);
      mined := block;
      assert mined.Content() == batched.(nonce := mined.nonce);
      forall n | 0 <= n < mined.nonce
        ensures !Solves(blockHash, mined.Content(), n, blockchain.difficulty)
      {
        assert !Solves(blockHash, batched, n, blockchain.difficulty);
        assert mined.Content().(nonce := n) == batched.(nonce := n);
      }
    }
  }
}
