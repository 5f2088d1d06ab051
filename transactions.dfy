/**
 * Unspent transaction outputs and transactions (blockchain/transaction.py).
 *
 * SHA-256 over the JSON text of a record is abstract: the caller supplies it
 * as a function from the hashed fields to a digest, so nothing here depends
 * on which digest it computes.
 */
module Transactions {
  import opened Common

  // ---------------------------------------------------------------------
  // TransactionOutput
  // ---------------------------------------------------------------------

  /** The three fields an output's `__my_hash` feeds to SHA-256. */
  datatype OutputContent = OutputContent(transactionId: Digest, recipientAddress: Address, amount: int)

  /** SHA-256 of the JSON text of an output's three fields. */
  type OutputHash = OutputContent -> Digest

  /** A UTXO record: value `amount` assigned to `recipientAddress` by transaction `transactionId`. */
  datatype TransactionOutput = TransactionOutput(transactionId: Digest, recipientAddress: Address, amount: int, id: Digest)
  {
    function Content(): OutputContent {
      OutputContent(transactionId, recipientAddress, amount)
    }

    /** The id is the digest of the other three fields, as the constructor leaves it. */
    predicate IdMatches(h: OutputHash) {
      id == h(Content())
    }
  }

  /** `TransactionOutput.__init__`: the three fields, and the id derived from them. */
  function NewOutput(h: OutputHash, transactionId: Digest, recipientAddress: Address, amount: int): (o: TransactionOutput)
    ensures o.IdMatches(h)
    ensures o.Content() == OutputContent(transactionId, recipientAddress, amount)
  {
    TransactionOutput(transactionId, recipientAddress, amount, h(OutputContent(transactionId, recipientAddress, amount)))
  }

  /** Two outputs whose ids were derived from equal fields have equal ids, so they are equal. */
  lemma SameFieldsSameOutput(h: OutputHash, a: TransactionOutput, b: TransactionOutput)
    requires a.IdMatches(h) && b.IdMatches(h)
    requires a.Content() == b.Content()
    ensures a.id == b.id && a == b
  {
  }

  /** The dictionary `TransactionOutput.to_dict` builds: all four fields, the id included. */
  datatype OutputDict = OutputDict(transactionId: Digest, recipientAddress: Address, amount: int, id: Digest)

  /** `TransactionOutput.to_dict`: parsing the dictionary gives the output back. */
  function OutputToDict(o: TransactionOutput): (d: OutputDict)
    ensures ParseOutput(d) == o
  {
    OutputDict(o.transactionId, o.recipientAddress, o.amount, o.id)
  }

  /**
   * `TransactionOutput.parser` applied to a placeholder output: it overwrites
   * all four fields, so the placeholder leaves no trace and parsing is a value.
   */
  function ParseOutput(d: OutputDict): (o: TransactionOutput)
    ensures o.Content() == OutputContent(d.transactionId, d.recipientAddress, d.amount)
    ensures o.id == d.id
  {
    TransactionOutput(d.transactionId, d.recipientAddress, d.amount, d.id)
  }

  /** `[x.amount for x in outputs]` summed, left to right. */
  function SumAmounts(outputs: seq<TransactionOutput>): int
  {
    if outputs == [] then 0 else SumAmounts(outputs[..|outputs| - 1]) + outputs[|outputs| - 1].amount
  }

  /** A sum over a concatenation is the sum of the sums. */
  lemma {:induction false} SumAppend(a: seq<TransactionOutput>, b: seq<TransactionOutput>)
    ensures SumAmounts(a + b) == SumAmounts(a) + SumAmounts(b)
    decreases |b|
  {
    if b == [] {
      assert a + b == a;
    } else {
      var b' := b[..|b| - 1];
      assert (a + b)[..|a + b| - 1] == a + b';
      SumAppend(a, b');
    }
  }

  /** Splitting a list anywhere splits its sum. */
  lemma SumSplit(s: seq<TransactionOutput>, n: nat)
    requires n <= |s|
    ensures SumAmounts(s) == SumAmounts(s[..n]) + SumAmounts(s[n..])
  {
    assert s == s[..n] + s[n..];
    SumAppend(s[..n], s[n..]);
  }

  /** One more element in a prefix adds exactly that element's amount. */
  lemma SumPrefixStep(s: seq<TransactionOutput>, i: nat)
    requires i < |s|
    ensures SumAmounts(s[..i + 1]) == SumAmounts(s[..i]) + s[i].amount
  {
    assert s[..i + 1][..i] == s[..i];
  }

  predicate NonNegative(outputs: seq<TransactionOutput>) {
    forall k :: 0 <= k < |outputs| ==> outputs[k].amount >= 0
  }

  /** With non-negative amounts, a longer prefix never sums to less. */
  lemma {:induction false} SumPrefixMonotone(s: seq<TransactionOutput>, i: nat, j: nat)
    requires NonNegative(s)
    requires i <= j <= |s|
    ensures SumAmounts(s[..i]) <= SumAmounts(s[..j])
    decreases j - i
  {
    if i < j {
      SumPrefixMonotone(s, i, j - 1);
      SumPrefixStep(s, j - 1);
    }
  }

  // ---------------------------------------------------------------------
  // Choosing the inputs of a payment (the loop of Node.create_transaction)
  // ---------------------------------------------------------------------

  /**
   * The first prefix length `n` with `k < n <= |s|` whose amounts reach
   * `amount`, or None when none of those prefixes does.
   */
  function CoverFrom(s: seq<TransactionOutput>, amount: int, k: nat): (r: Option<nat>)
    requires k <= |s|
    ensures r.Some? ==> k < r.value <= |s| && SumAmounts(s[..r.value]) >= amount
    ensures r.Some? ==> forall j :: k < j < r.value ==> SumAmounts(s[..j]) < amount
    ensures r.None? <==> forall j :: k < j <= |s| ==> SumAmounts(s[..j]) < amount
    decreases |s| - k
  {
    if k == |s| then None
    else if SumAmounts(s[..k + 1]) >= amount then Some(k + 1)
    else CoverFrom(s, amount, k + 1)
  }

  /**
   * The shortest non-empty prefix of `s` whose amounts sum to at least
   * `amount`: the inputs a payment of `amount` consumes.
   */
  function ShortestCover(s: seq<TransactionOutput>, amount: int): (r: Option<nat>)
    ensures r.Some? ==> 0 < r.value <= |s| && SumAmounts(s[..r.value]) >= amount
    ensures r.Some? ==> forall j :: 0 < j < r.value ==> SumAmounts(s[..j]) < amount
    ensures r.None? <==> forall j :: 0 < j <= |s| ==> SumAmounts(s[..j]) < amount
  {
    CoverFrom(s, amount, 0)
  }

  /** A prefix that reaches `amount` while every shorter one falls short is the shortest cover. */
  lemma ShortestCoverIs(s: seq<TransactionOutput>, amount: int, n: nat)
    requires 0 < n <= |s|
    requires SumAmounts(s[..n]) >= amount
    requires forall j :: 0 < j < n ==> SumAmounts(s[..j]) < amount
    ensures ShortestCover(s, amount) == Some(n)
  {
  }

  /**
   * With non-negative amounts (and a call the source does not crash on), no
   * prefix covers `amount` exactly when the whole list sums to less.
   */
  lemma NoCoverIffShort(s: seq<TransactionOutput>, amount: int)
    requires NonNegative(s)
    requires |s| > 0 || amount > 0
    ensures ShortestCover(s, amount).None? <==> SumAmounts(s) < amount
  {
    assert s[..|s|] == s;
    var r := ShortestCover(s, amount);
    if r.Some? {
      SumPrefixMonotone(s, r.value, |s|);
    } else if |s| > 0 {
      assert SumAmounts(s[..|s|]) < amount;
    }
  }

  // ---------------------------------------------------------------------
  // Transaction
  // ---------------------------------------------------------------------

  /**
   * The signature field: the string the constructor was given, or the
   * PKCS#1 v1.5 signer object built from the sender's private key when it
   * was given none. `str(...)` of either is its own value here.
   */
  datatype Signature = Text(text: string) | Signer(privateKey: string)

  /**
   * An entry of `transaction_inputs`: the constructor stores the ids of
   * the consumed outputs, `parser` stores parsed output records.
   */
  datatype InputRef = ById(id: Digest) | ByRecord(output: TransactionOutput)

  /** The fields a transaction's `__my_hash` feeds to SHA-256. */
  datatype TxContent = TxContent(senderAddress: Address, receiverAddress: Address, amount: int,
                                 transactionInputs: seq<InputRef>, signature: Signature)

  type TxHash = TxContent -> Digest

  /** The dictionary `Transaction.to_dict` builds; it has no transaction id. */
  datatype TransactionDict = TransactionDict(senderAddress: Address, receiverAddress: Address, amount: int,
                                             transactionInputs: seq<OutputDict>,
                                             transactionOutputs: seq<OutputDict>,
                                             signature: Signature)

  /** `[x.id for x in transaction_inputs]`. */
  function InputIds(inputs: seq<TransactionOutput>): (r: seq<InputRef>)
    ensures |r| == |inputs|
    ensures forall k :: 0 <= k < |inputs| ==> r[k] == ById(inputs[k].id)
  {
    seq(|inputs|, k requires 0 <= k < |inputs| => ById(inputs[k].id))
  }

  /** The parsed input records of a transaction dictionary. */
  function ParseInputs(ds: seq<OutputDict>): (r: seq<InputRef>)
    ensures |r| == |ds|
    ensures forall k :: 0 <= k < |ds| ==> r[k] == ByRecord(ParseOutput(ds[k]))
  {
    seq(|ds|, k requires 0 <= k < |ds| => ByRecord(ParseOutput(ds[k])))
  }

  function ParseOutputs(ds: seq<OutputDict>): (r: seq<TransactionOutput>)
    ensures |r| == |ds|
    ensures forall k :: 0 <= k < |ds| ==> r[k] == ParseOutput(ds[k])
  {
    seq(|ds|, k requires 0 <= k < |ds| => ParseOutput(ds[k]))
  }

  predicate AllRecords(inputs: seq<InputRef>) {
    forall k :: 0 <= k < |inputs| ==> inputs[k].ByRecord?
  }

  /** `[x.to_dict() for x in transaction_inputs]`, defined only where every entry is a record. */
  function InputDicts(inputs: seq<InputRef>): (r: seq<OutputDict>)
    requires AllRecords(inputs)
    ensures |r| == |inputs|
    ensures forall k :: 0 <= k < |inputs| ==> r[k] == OutputToDict(inputs[k].output)
  {
    seq(|inputs|, k requires 0 <= k < |inputs| && inputs[k].ByRecord? => OutputToDict(inputs[k].output))
  }

  function OutputDicts(outputs: seq<TransactionOutput>): (r: seq<OutputDict>)
    ensures |r| == |outputs|
    ensures forall k :: 0 <= k < |outputs| ==> r[k] == OutputToDict(outputs[k])
  {
    seq(|outputs|, k requires 0 <= k < |outputs| => OutputToDict(outputs[k]))
  }

  /** Re-serialising parsed inputs gives back the dictionaries they came from. */
  lemma InputsRoundTrip(ds: seq<OutputDict>)
    ensures AllRecords(ParseInputs(ds)) && InputDicts(ParseInputs(ds)) == ds
  {
  }

  lemma OutputsRoundTrip(ds: seq<OutputDict>)
    ensures OutputDicts(ParseOutputs(ds)) == ds
  {
  }

  /**
   * `generate_transaction_outputs`: the payment to the receiver, then the
   * change back to the sender, both under the transaction's own id. With no
   * inputs (the genesis mint) the sender output carries `amount` itself.
   */
  function GenerateOutputs(h: OutputHash, transactionId: Digest, sender: Address, receiver: Address,
                           amount: int, inputs: seq<TransactionOutput>): (r: seq<TransactionOutput>)
    ensures |r| == 2
    ensures r[0].IdMatches(h) && r[1].IdMatches(h)
    ensures r[0].transactionId == transactionId && r[1].transactionId == transactionId
    ensures r[0].recipientAddress == receiver && r[0].amount == amount
    ensures r[1].recipientAddress == sender
    ensures inputs != [] ==> r[0].amount + r[1].amount == SumAmounts(inputs)
    ensures inputs == [] ==> r[1].amount == amount
  {
    var senderAmount := if inputs == [] then amount else SumAmounts(inputs) - amount;
    [NewOutput(h, transactionId, receiver, amount), NewOutput(h, transactionId, sender, senderAmount)]
  }

  /** Outputs sum to the inputs plus nothing: a non-genesis transaction creates no value. */
  lemma Conservation(h: OutputHash, transactionId: Digest, sender: Address, receiver: Address,
                     amount: int, inputs: seq<TransactionOutput>)
    requires inputs != []
    ensures SumAmounts(GenerateOutputs(h, transactionId, sender, receiver, amount, inputs)) == SumAmounts(inputs)
  {
    var r := GenerateOutputs(h, transactionId, sender, receiver, amount, inputs);
    PairSum(r);
  }

  /** The genesis mint (no inputs) creates twice its amount: payment and an equal "change". */
  lemma GenesisMintsTwice(h: OutputHash, transactionId: Digest, sender: Address, receiver: Address, amount: int)
    ensures SumAmounts(GenerateOutputs(h, transactionId, sender, receiver, amount, [])) == 2 * amount
  {
    PairSum(GenerateOutputs(h, transactionId, sender, receiver, amount, []));
  }

  lemma PairSum(r: seq<TransactionOutput>)
    requires |r| == 2
    ensures SumAmounts(r) == r[0].amount + r[1].amount
  {
    assert r[..1][..0] == [];
    assert SumAmounts(r[..1]) == r[0].amount;
  }

  /** A transaction object; `parser` overwrites some of its fields in place. */
  class Transaction {
    var senderAddress: Address
    var receiverAddress: Address
    var amount: int
    var transactionInputs: seq<InputRef>
    var signature: Signature
    var transactionId: Digest
    var transactionOutputs: seq<TransactionOutput>

    /** The fields the transaction id is computed from. */
    function Content(): TxContent
      reads this
    {
      TxContent(senderAddress, receiverAddress, amount, transactionInputs, signature)
    }

    /** `to_dict` can only run when every input is a record (an id string has no `to_dict`). */
    predicate Serialisable()
      reads this
    {
      AllRecords(transactionInputs)
    }

    /**
     * `Transaction.to_dict`: every field but the id, inputs and outputs as
     * their dictionaries; parsing those dictionaries gives the records back.
     */
    function ToDict(): (d: TransactionDict)
      reads this
      requires Serialisable()
      ensures d.senderAddress == senderAddress && d.receiverAddress == receiverAddress
      ensures d.amount == amount && d.signature == signature
      ensures ParseInputs(d.transactionInputs) == transactionInputs
      ensures ParseOutputs(d.transactionOutputs) == transactionOutputs
    {
      TransactionDict(senderAddress, receiverAddress, amount, InputDicts(transactionInputs),
                      OutputDicts(transactionOutputs), signature)
    }

    /**
     * `Transaction.__init__`. A non-empty `signature` is kept as given; otherwise
     * the field holds a signer built from `senderPrivateKey`. The id is taken
     * before the outputs are built, and both outputs carry it.
     */
    constructor (senderAddress: Address, senderPrivateKey: string, recipientAddress: Address, amount: int,
                 inputs: seq<TransactionOutput>, signature: string, txHash: TxHash, outputHash: OutputHash)
      ensures this.senderAddress == senderAddress && this.receiverAddress == recipientAddress
      ensures this.amount == amount
      ensures transactionInputs == InputIds(inputs)
      ensures this.signature == if signature != "" then Text(signature) else Signer(senderPrivateKey)
      ensures transactionId == txHash(Content())
      ensures transactionOutputs == GenerateOutputs(outputHash, transactionId, senderAddress, recipientAddress, amount, inputs)
    {
      this.senderAddress := senderAddress;
      this.receiverAddress := recipientAddress;
      this.amount := amount;
      transactionInputs := InputIds(inputs);
      this.signature := if signature != "" then Text(signature) else Signer(senderPrivateKey);
      new;
      transactionId := txHash(Content());
      transactionOutputs := GenerateOutputs(outputHash, transactionId, senderAddress, recipientAddress, amount, inputs);
    }

    /**
     * `Transaction.parser`: rebuilds the input and output records from the
     * dictionary and overwrites sender, receiver, inputs, outputs and
     * signature. `amount` and `transaction_id` keep whatever they held.
     */
    method Parser(d: TransactionDict)
      modifies this
      ensures senderAddress == d.senderAddress && receiverAddress == d.receiverAddress
      ensures transactionInputs == ParseInputs(d.transactionInputs)
      ensures transactionOutputs == ParseOutputs(d.transactionOutputs)
      ensures signature == d.signature
      ensures amount == old(amount) && transactionId == old(transactionId)
      ensures Serialisable() && ToDict() == d.(amount := old(amount))
    {
      var inputs: seq<InputRef> := [];
      var k := 0;
      while k < |d.transactionInputs|
        invariant 0 <= k <= |d.transactionInputs|
        invariant |inputs| == k
        invariant forall j :: 0 <= j < k ==> inputs[j] == ByRecord(ParseOutput(d.transactionInputs[j]))
      {
        inputs := inputs + [ByRecord(ParseOutput(d.transactionInputs[k]))];
        k := k + 1;
      }
      var outputs: seq<TransactionOutput> := [];
      k := 0;
      while k < |d.transactionOutputs|
        invariant 0 <= k <= |d.transactionOutputs|
        invariant |outputs| == k
        invariant forall j :: 0 <= j < k ==> outputs[j] == ParseOutput(d.transactionOutputs[j])
      {
        outputs := outputs + [ParseOutput(d.transactionOutputs[k])];
        k := k + 1;
      }
      senderAddress := d.senderAddress;
      receiverAddress := d.receiverAddress;
      transactionInputs := inputs;
      transactionOutputs := outputs;
      signature := d.signature;
      InputsRoundTrip(d.transactionInputs);
      OutputsRoundTrip(d.transactionOutputs);
    }
  }

  /** `[x.to_dict() for x in transactions]` over transaction objects. */
  function TransactionDicts(ts: seq<Transaction>): (ds: seq<TransactionDict>)
    reads set t | t in ts
    requires forall t :: t in ts ==> t.Serialisable()
    ensures |ds| == |ts|
    ensures forall k :: 0 <= k < |ts| ==> ds[k] == ts[k].ToDict()
  {
    if ts == [] then [] else [ts[0].ToDict()] + TransactionDicts(ts[1..])
  }
}
