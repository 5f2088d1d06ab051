# NoobCash ledger engine in Dafny

This project models the ledger engine of NoobCash, an educational peer-to-peer
cryptocurrency, and proves properties of the model. The engine covers:

- UTXO records (`TransactionOutput`) and transactions that consume them.
- Blocks that cache the hash of their own content.
- The ledger: a map of sealed blocks, the last block, and a pending pool.
- The node's ring of peers, with its mirror of each peer's unspent outputs.
- Input selection, validation, batching of the pending pool into a block, and
  proof-of-work mining.

Files and modules, one per source file:

- `common.dfy` (`Common`): `Option`, and the `Digest` and `Address` string types.
- `transactions.dfy` (`Transactions`): outputs, their dictionaries, sums of
  amounts, the shortest covering prefix, and the `Transaction` class.
- `blocks.dfy` (`Blocks`): the `Block` class and its dictionary.
- `ledger.dfy` (`Ledger`): the `Blockchain` class.
- `wallet.dfy` (`Wallets`): the wallet value and its balance.
- `node.dfy` (`Nodes`): `RingNode`, the `Node` class and the mining loop.

Objects whose fields the source updates in place are classes: `Transaction`,
`Block`, `Blockchain`, `RingNode` and `Node`. Wallets and the dictionaries are
datatypes. Outputs are datatypes too. Their only mutator is
`TransactionOutput.parser`, which overwrites all four fields. It is only applied
to a fresh placeholder `TransactionOutput(0, "", 0)`, so a value model loses
nothing.

SHA-256 is abstract. Each digest is a function value passed in by the caller:
`OutputHash`, `TxHash` and `BlockHash`. A `Block` keeps its hash function in
`hashFn`. The block hash takes its transactions as object references, because
the source hashes their `str()`, i.e. their identities. Signature checking is
the function value `Node.verify`, applied to the transaction's dictionary.

The class invariant of a block is `Block.Valid()`: `hash == hashFn(Content())`.
The constructor, `SetNonce` and `AddTransactionsToBlock` establish it. `Parser`
re-establishes it exactly when the dictionary's hash matches the new content.

The model follows the code as written, including these behaviours:

- `add_transaction` compares with `<=`. The pool therefore grows to
  `capacity + 1` before a batch is cut.
- When a batch is cut, the incoming transaction is dropped.
- The mined block is never added to the chain.
- `create_transaction` removes the consumed outputs from the owner's mirror. It
  does not add the payment or the change to any mirror.
- `validate_transaction` checks only the signature and the sender's mirrored
  total. It removes no inputs and has no special case for the genesis mint.
- `add_new_block` files the old last block under the new block's
  `previous_hash`. When the blocks are linked, that key is the old block's own
  hash, not its predecessor's.
- `Wallet.__init__` unpacks `generateKeys()`, which returns the private key
  first, into `public_key, private_key`. The `public_key` field and the address
  therefore hold the private-key export.
- `Transaction.parser` does not restore `amount`. `to_dict` has no transaction
  id. A transaction parsed inside `Block.parser` keeps amount 0 and the id of
  the placeholder `Transaction("", "", "", 0, [], "s")`.
- Conflict resolution exists only as a commented-out stub in the source. It is
  not modelled. Duplicate deletion does not appear in the source.

## Model

| member | source | states |
|---|---|---|
| `Transactions.NewOutput` | blockchain/transaction.py:17-29 | an output keeps its three fields, and its id is the digest of exactly those fields |
| `Transactions.SameFieldsSameOutput` | blockchain/transaction.py:21-29 | two constructed outputs with equal (transaction id, recipient, amount) have equal ids and are equal |
| `Transactions.OutputToDict` | blockchain/transaction.py:31-45 | the dictionary holds all four fields, so parsing it gives the output back |
| `Transactions.ParseOutput` | blockchain/transaction.py:47-56 | the parsed output takes its three fields from the dictionary and its id verbatim, without rehashing |
| `Transactions.GenerateOutputs` | blockchain/transaction.py:115-134 | exactly two outputs under the transaction's id; the first pays `amount` to the receiver, the second goes to the sender; with inputs, the two amounts add up to the inputs' total; with no inputs the sender output is `amount` |
| `Transactions.Conservation` | blockchain/transaction.py:127-133 | a transaction with inputs creates no value: its outputs sum to its inputs |
| `Transactions.GenesisMintsTwice` | blockchain/transaction.py:128-133 | the genesis mint (no inputs) creates twice its amount, payment plus an equal sender output |
| `Transactions.SumAppend` | blockchain/wallet.py:33-34 | the sum of amounts over a concatenation is the sum of the two sums |
| `Transactions.SumSplit` | blockchain/node.py:52 | splitting an output list into the spent prefix and the kept suffix splits its total |
| `Transactions.SumPrefixMonotone` | blockchain/node.py:42-46 | with non-negative amounts, a longer prefix never sums to less |
| `Transactions.CoverFrom` | blockchain/node.py:42-46 | the first prefix length past `k` whose sum reaches `amount`, with every shorter one falling short; None exactly when no such prefix exists |
| `Transactions.ShortestCover` | blockchain/node.py:42-50 | the shortest non-empty prefix whose amounts reach `amount`; None exactly when every non-empty prefix falls short |
| `Transactions.ShortestCoverIs` | blockchain/node.py:42-46 | a prefix that reaches `amount` while all shorter ones fall short is the shortest cover |
| `Transactions.NoCoverIffShort` | blockchain/node.py:48-50 | with non-negative amounts, no prefix covers `amount` exactly when the whole list sums to less |
| `Transactions.InputIds` | blockchain/transaction.py:89 | `transaction_inputs` holds the ids of the given outputs, in the same order |
| `Transactions.Transaction.constructor` | blockchain/transaction.py:65-98 | fields as given; the ids of the inputs; the given signature, or a signer from the private key when none is given; the id is the digest of these fields; the outputs are generated from the id and the inputs |
| `Transactions.Transaction.ToDict` | blockchain/transaction.py:136-152 | sender, receiver, amount and signature as stored, no transaction id; the input and output dictionaries parse back to the transaction's own records |
| `Transactions.Transaction.Parser` | blockchain/transaction.py:154-176 | overwrites sender, receiver, inputs (as parsed records), outputs and signature; leaves `amount` and `transactionId` as they were; serialising afterwards gives back the dictionary except for `amount` |
| `Transactions.InputsRoundTrip` | blockchain/transaction.py:160-164 | re-serialising parsed input records gives back their dictionaries |
| `Transactions.OutputsRoundTrip` | blockchain/transaction.py:166-170 | re-serialising parsed output records gives back their dictionaries |
| `Transactions.TransactionDicts` | blockchain/block.py:81-82 | one dictionary per transaction, in order, each that transaction's `to_dict` |
| `Blocks.NewPlaceholder` | blockchain/block.py:96 | the placeholder transaction: empty addresses, amount 0, no inputs, signature "s", and the fixed id `Blocks.PlaceholderId` that every parsed transaction keeps |
| `Blocks.Block.constructor` | blockchain/block.py:15-28 | given index, nonce and previous hash, the given timestamp, no transactions, and a hash that matches the content |
| `Blocks.Block.SetNonce` | blockchain/block.py:30-37 | only the nonce changes, and the hash again matches the content |
| `Blocks.Block.AddTransactionsToBlock` | blockchain/block.py:55-67 | the list becomes the old list followed by the given transactions, in order; nothing else in the content changes; the hash matches the content; the block itself is returned |
| `Blocks.Block.Parser` | blockchain/block.py:88-105 | every field comes from the dictionary, the hash verbatim; each transaction is a new object with amount 0 and the placeholder id; the hash invariant holds exactly when the dictionary's hash matches the new content |
| `Blocks.Block.ToDict` | blockchain/block.py:69-86 | every field and the cached hash as stored, one `to_dict` per transaction in order |
| `Blocks.ReparseBlock` | blockchain/block.py:69-105 | for any block, stale hash included, `parser(b.to_dict())` reproduces index, timestamp, nonce, previous hash, hash and the number of transactions; the copy is valid exactly when the stored hash is the digest of its content, which for a valid original means the new transaction objects hash like the old ones |
| `Ledger.Blockchain.constructor` | blockchain/blockchain.py:9-20 | empty chain and pool; the last block is a genesis block with index 0, nonce 0, the sentinel previous hash and a matching hash; capacity and difficulty as given |
| `Ledger.Blockchain.AddNewBlock` | blockchain/blockchain.py:23-38 | the old last block is filed under `b.previous_hash`; `b` becomes the last block; no other key and not the pool changes; a linked block files its predecessor under the predecessor's own hash |
| `Wallets.NewWallet` | blockchain/wallet.py:18-31 | the address equals the `public_key` field, which holds the private-key export; no outputs, so balance 0 |
| `Wallets.Balance` | blockchain/wallet.py:33-34 | the sum of the owned amounts: 0 with no outputs |
| `Wallets.BalanceNonNegative` | blockchain/wallet.py:33-34 | a wallet whose outputs carry no negative amount never has a negative balance |
| `Wallets.BalanceAfterReceiving` | blockchain/wallet.py:33-34 | one more owned output raises the balance by exactly its amount |
| `Wallets.BalanceAfterSpending` | blockchain/wallet.py:33-34 | giving up a leading run of outputs lowers the balance by exactly their total |
| `Nodes.RingNode.constructor` | blockchain/node.py:10-14 | the descriptor's fields as given, the outputs copied |
| `Nodes.Node.constructor` | blockchain/node.py:17-21 | a fresh ledger with the given capacity and difficulty, no sealed blocks, an empty pool and a fresh valid genesis block `(0, now, [], 0, sentinel)` as its last block; the wallet built from the generated keys; an empty ring |
| `Nodes.Node.RegisterNodeToRing` | blockchain/node.py:33-36 | the ring becomes the old ring followed by the peer |
| `Nodes.HasLeadingZeros` | blockchain/node.py:115 | `int(hash[:d]) == 0` read without its crash: the prefix of length min(d, len(hash)) is all '0' characters |
| `Nodes.SelectInputs` | blockchain/node.py:39-50 | the outputs taken are a prefix of the list and their sum is returned; the sum falls short exactly when no prefix covers the amount; otherwise the prefix is the shortest cover |
| `Nodes.Node.CreateTransaction` | blockchain/node.py:38-54 | no cover: null and no change; otherwise the owner's mirror becomes the suffix after the shortest cover, losing exactly the cover's total, and a fresh transaction spends exactly that prefix with non-negative change; no other ring entry changes |
| `Nodes.Node.FindNodeFromAddress` | blockchain/node.py:56-60 | null exactly when no ring entry has the address; otherwise the first entry that has it |
| `Nodes.Node.ValidateTransaction` | blockchain/node.py:63-82 | true exactly when the signature verifies and the sender's mirrored outputs sum to at least the amount; the ring is only read |
| `Nodes.Node.MineBlock` | blockchain/node.py:113-119 | the nonce goes up one per step; the hash stays valid; every nonce tried before the last failed the difficulty test; the result is the nonce only if it passes the test, and -1 when the cancellation is seen first |
| `Nodes.Node.AddTransaction` | blockchain/node.py:84-111 | pool of at most `capacity`: the transaction is appended and -1 returned; otherwise a valid block after the last one takes the first `capacity` pending transactions, the pool keeps the rest, the block is mined as in `MineBlock`, and the chain and last block are untouched |

## Left out

- SHA-256 over JSON text and the `str()` reprs it hashes are not modelled. Each digest is a caller-supplied function of the hashed fields.
- RSA key generation is outside the model. The wallet takes `generateKeys()`'s result as a parameter.
- PKCS#1 v1.5 signing (`sign_transaction`) is not modelled; it is not called in the modelled core. Verification is the abstract `Node.verify`.
- `str(signature)` is not modelled. A signature is kept as its own value in dictionaries and hash input.
- The clock (`time()`) is a parameter: `now` and `timestamp`.
- Threads and the `threading.Event` are not modelled. The event is represented by the loop test at which it is first seen set.
- Nodes.Node.MineBlock: does not model the run that never sees the event and never finds a nonce. That run does not terminate.
- Nodes.Node.MineBlock: models the difficulty test as "the first `difficulty` characters are '0'". The source's `int(hash[:difficulty])` raises on an empty prefix or a hex letter; that crash is not modelled.
- Nodes.Node.CreateTransaction: requires `amount > 0` or a non-empty mirror. With an empty mirror and `amount <= 0`, the source reads an unbound loop variable and crashes.
- Nodes.Node.CreateTransaction: requires the node's index to be a valid ring position. Python's negative indexing is not modelled.
- Nodes.Node.ValidateTransaction: requires the sender to be in the ring once the signature verifies. The source dereferences `None` otherwise.
- Nodes.Node.ValidateTransaction: requires every input of the transaction to be a record, because `verify_transaction` serialises the transaction. A transaction whose inputs are still id strings makes `to_dict` raise.
- Blocks.Block.ToDict: requires every transaction to have record inputs. The source's `Transaction.to_dict` raises on id-string inputs, as above.
- Capacity and difficulty are natural numbers. Negative values and Python's negative slicing are not modelled.
- The `return self` in `Blockchain.__init__` is not modelled. It makes the constructor raise at run time.
- Dictionaries are records with the source's keys. A missing key (`KeyError`) is not modelled.
- `Node.set_ring`, `create_new_block` (an empty stub) and `create_wallet` are not modelled. The constructor builds the wallet directly.
- Chain conflict resolution is not modelled. The source has only a commented-out stub.
- The REST layer, broadcasts, CLI parsing, plotting and the superseded top-level draft files are not modelled.
