/** Transactions as the bitcoin library represents them, with the serialized sizes its
    `vsize` is computed from (section "Transaction size calculations" of BIP 141). */
module Transactions {
  import opened Bytes
  import opened Sums
  import opened Scripts

  datatype OutPoint = OutPoint(txid: seq<byte>, vout: u32)

  /** The items of an input's witness stack. */
  type Witness = seq<seq<byte>>

  datatype TxIn = TxIn(previousOutput: OutPoint, scriptSig: Script, sequence: u32, witnessStack: Witness)

  datatype TxOut = TxOut(value: nat, scriptPubkey: Script)

  datatype Transaction = Transaction(version: int, lockTime: u32, inputs: seq<TxIn>, outputs: seq<TxOut>)

  /** Bytes taken by the compact-size length prefix of a count `n`. */
  function VarIntSize(n: nat): nat {
    if n < 0xFD then 1 else if n <= 0xFFFF then 3 else if n <= 0xFFFF_FFFF then 5 else 9
  }

  function ByteStringSize(bs: seq<byte>): nat {
    VarIntSize(|bs|) + |bs|
  }

  /** Outpoint (32 + 4), script-sig with its length, sequence (4). */
  function InputBaseSize(i: TxIn): nat {
    36 + ByteStringSize(i.scriptSig) + 4
  }

  function WitnessSize(i: TxIn): nat {
    VarIntSize(|i.witnessStack|) + Sum(i.witnessStack, ByteStringSize)
  }

  /** Value (8), script with its length. */
  function OutputSize(o: TxOut): nat {
    8 + ByteStringSize(o.scriptPubkey)
  }

  function OutputValue(o: TxOut): nat {
    o.value
  }

  /** The library writes the segwit marker and flag when some input has a witness, and also
      when there are no inputs at all (to keep the encoding unambiguous). */
  predicate UsesSegwitSerialization(tx: Transaction) {
    |tx.inputs| == 0 || AnyWitness(tx.inputs)
  }

  /** Some input carries a non-empty witness. */
  predicate AnyWitness(inputs: seq<TxIn>) {
    |inputs| > 0 && (inputs[0].witnessStack != [] || AnyWitness(inputs[1..]))
  }

  /** Size without any witness data: version, inputs, outputs, lock time. */
  function BaseSize(tx: Transaction): nat {
    4 + VarIntSize(|tx.inputs|) + Sum(tx.inputs, InputBaseSize)
      + VarIntSize(|tx.outputs|) + Sum(tx.outputs, OutputSize) + 4
  }

  /** Size with witness data: the marker and flag plus every input's witness stack. */
  function TotalSize(tx: Transaction): nat {
    BaseSize(tx) + if UsesSegwitSerialization(tx) then 2 + Sum(tx.inputs, WitnessSize) else 0
  }

  function Weight(tx: Transaction): nat {
    3 * BaseSize(tx) + TotalSize(tx)
  }

  /** Virtual size: the weight divided by four, rounded up. */
  function VSize(tx: Transaction): (v: nat)
    ensures 4 * v >= Weight(tx)
    ensures 4 * v < Weight(tx) + 4
  {
    (Weight(tx) + 3) / 4
  }

  /** Weight counts every non-witness byte four times and every witness byte once. */
  lemma WeightSplitsWitness(tx: Transaction)
    ensures Weight(tx) == 4 * BaseSize(tx) + (TotalSize(tx) - BaseSize(tx))
    ensures UsesSegwitSerialization(tx) ==> TotalSize(tx) - BaseSize(tx) == 2 + Sum(tx.inputs, WitnessSize)
    ensures !UsesSegwitSerialization(tx) ==> Weight(tx) == 4 * BaseSize(tx)
  {
  }

  /** The same transaction, amounts aside. */
  predicate SameShape(a: Transaction, b: Transaction) {
    && a.version == b.version && a.lockTime == b.lockTime && a.inputs == b.inputs
    && |a.outputs| == |b.outputs|
    && forall i :: 0 <= i < |a.outputs| ==> a.outputs[i].scriptPubkey == b.outputs[i].scriptPubkey
  }

  /** Output amounts are fixed-width, so they never change the virtual size. */
  lemma VSizeIgnoresAmounts(a: Transaction, b: Transaction)
    requires SameShape(a, b)
    ensures VSize(a) == VSize(b)
  {
    SumPointwise(a.outputs, OutputSize, b.outputs, OutputSize);
  }

  /** An input with its unlocking data removed. */
  function Unsigned(i: TxIn): TxIn {
    i.(scriptSig := [], witnessStack := [])
  }

  /** The transaction with every input's unlocking data removed: everything a signature
      commits to apart from the script code it is given. */
  function Strip(tx: Transaction): (s: Transaction)
    ensures s.version == tx.version && s.lockTime == tx.lockTime && s.outputs == tx.outputs
    ensures |s.inputs| == |tx.inputs|
    ensures forall j :: 0 <= j < |tx.inputs| ==> s.inputs[j] == Unsigned(tx.inputs[j])
  {
    tx.(inputs := seq(|tx.inputs|, j requires 0 <= j < |tx.inputs| => Unsigned(tx.inputs[j])))
  }

  /** Replacing one input's unlocking data leaves the stripped transaction as it was. */
  lemma StripIgnoresUnlocking(tx: Transaction, index: nat, replacement: TxIn)
    requires index < |tx.inputs|
    requires replacement.previousOutput == tx.inputs[index].previousOutput
    requires replacement.sequence == tx.inputs[index].sequence
    ensures Strip(tx.(inputs := tx.inputs[index := replacement])) == Strip(tx)
  {
    var tx' := tx.(inputs := tx.inputs[index := replacement]);
    assert Strip(tx').inputs == Strip(tx).inputs;
  }

  /** Two transactions with equal stripped forms agree on every field but unlocking data. */
  lemma StripEqual(a: Transaction, b: Transaction)
    requires Strip(a) == Strip(b)
    ensures a.version == b.version && a.lockTime == b.lockTime && a.outputs == b.outputs
    ensures |a.inputs| == |b.inputs|
    ensures forall j :: 0 <= j < |a.inputs| ==>
              a.inputs[j].previousOutput == b.inputs[j].previousOutput && a.inputs[j].sequence == b.inputs[j].sequence
  {
    assert |a.inputs| == |Strip(a).inputs| == |Strip(b).inputs| == |b.inputs|;
    forall j | 0 <= j < |a.inputs|
      ensures a.inputs[j].previousOutput == b.inputs[j].previousOutput && a.inputs[j].sequence == b.inputs[j].sequence
    {
      assert Strip(a).inputs[j] == Strip(b).inputs[j];
    }
  }
}
