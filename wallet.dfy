/**
 * A node's wallet (blockchain/wallet.py): its keys, its address and the list
 * of outputs it owns. RSA key generation is outside the model; its result
 * is passed in.
 */
module Wallets {
  import opened Common
  import opened Transactions

  /** What `generateKeys()` returns, in its order: the private export first, then the public one. */
  datatype GeneratedKeys = GeneratedKeys(privateExport: string, publicExport: string)

  datatype Wallet = Wallet(publicKey: string, privateKey: string, address: Address,
                           unspentTransactions: seq<TransactionOutput>)

  /** `balance()`: the amounts of the wallet's unspent outputs, summed; 0 with no outputs. */
  function Balance(w: Wallet): (b: int)
    ensures w.unspentTransactions == [] ==> b == 0
  {
    SumAmounts(w.unspentTransactions)
  }

  /** A wallet whose outputs carry no negative amount has a non-negative balance. */
  lemma BalanceNonNegative(w: Wallet)
    requires NonNegative(w.unspentTransactions)
    ensures Balance(w) >= 0
  {
    var s := w.unspentTransactions;
    SumPrefixMonotone(s, 0, |s|);
    assert s[..0] == [] && s[..|s|] == s;
  }

  /**
   * `Wallet.__init__`: `public_key, private_key = generateKeys()`, so the
   * field named `public_key` (and the address copied from it) receives the
   * private-key export. No outputs are owned yet.
   */
  function NewWallet(keys: GeneratedKeys): (w: Wallet)
    ensures w.address == w.publicKey
    ensures w.publicKey == keys.privateExport && w.privateKey == keys.publicExport
    ensures w.unspentTransactions == [] && Balance(w) == 0
  {
    Wallet(keys.privateExport, keys.publicExport, keys.privateExport, [])
  }

  /** Owning one more output raises the balance by exactly its amount. */
  lemma BalanceAfterReceiving(w: Wallet, o: TransactionOutput)
    ensures Balance(w.(unspentTransactions := w.unspentTransactions + [o])) == Balance(w) + o.amount
  {
    SumAppend(w.unspentTransactions, [o]);
    assert [o][..0] == [];
  }

  /** Giving up a leading run of outputs lowers the balance by exactly their amounts. */
  lemma BalanceAfterSpending(w: Wallet, n: nat)
    requires n <= |w.unspentTransactions|
    ensures Balance(w.(unspentTransactions := w.unspentTransactions[n..]))
            == Balance(w) - SumAmounts(w.unspentTransactions[..n])
  {
    SumSplit(w.unspentTransactions, n);
  }
}
