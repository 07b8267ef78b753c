/** The data each input's signature commits to. The two digest algorithms are modelled up
    to their preimage; serializing and double-SHA256 hashing a preimage is left to the
    `sighash` oracle of the backend. */
module Sighash {
  import opened Results
  import opened Bytes
  import opened Scripts
  import opened Transactions
  import opened Errors

  /** "Sign all inputs and outputs". */
  const SIGHASH_ALL: u32 := 1

  datatype Preimage =
      /** Legacy: a modified copy of the transaction, then the 4-byte sighash type. */
    | LegacyPreimage(view: Transaction, sighashType: u32)
      /** Segwit version 0 (BIP 143): the fields of the fixed preimage, with the three
          "hash of all ..." fields kept as the lists they hash. */
    | SegwitV0Preimage(
        version: int, prevouts: seq<OutPoint>, sequences: seq<u32>, outpoint: OutPoint,
        scriptCode: Script, value: nat, sequence: u32, outputs: seq<TxOut>, lockTime: u32,
        sighashType: u32)

  /** The legacy copy: the signed input's script-sig replaced by the script being spent,
      every other script-sig emptied, and no witnesses. */
  function LegacyView(tx: Transaction, index: nat, scriptPubkey: Script): (v: Transaction)
    requires index < |tx.inputs|
    ensures v.version == tx.version && v.lockTime == tx.lockTime && v.outputs == tx.outputs
    ensures |v.inputs| == |tx.inputs|
    ensures forall j :: 0 <= j < |tx.inputs| ==>
              && v.inputs[j].previousOutput == tx.inputs[j].previousOutput
              && v.inputs[j].sequence == tx.inputs[j].sequence
              && v.inputs[j].witnessStack == []
              && v.inputs[j].scriptSig == if j == index then scriptPubkey else []
  {
    tx.(inputs := seq(|tx.inputs|, j requires 0 <= j < |tx.inputs| =>
                        tx.inputs[j].(scriptSig := if j == index then scriptPubkey else [], witnessStack := [])))
  }

  /** `legacy_signature_hash`: fails only for an index that names no input. */
  function LegacySighash(tx: Transaction, index: nat, scriptPubkey: Script, sighashType: u32): (r: Result<Preimage, AppError>)
    ensures r.Ok? <==> index < |tx.inputs|
    ensures r.Err? ==> r.error == SighashError(index)
  {
    if index < |tx.inputs| then Ok(LegacyPreimage(LegacyView(tx, index, scriptPubkey), sighashType))
    else Err(SighashError(index))
  }

  function Prevouts(tx: Transaction): seq<OutPoint> {
    seq(|tx.inputs|, j requires 0 <= j < |tx.inputs| => tx.inputs[j].previousOutput)
  }

  function Sequences(tx: Transaction): seq<u32> {
    seq(|tx.inputs|, j requires 0 <= j < |tx.inputs| => tx.inputs[j].sequence)
  }

  /** `segwit_signature_hash` with SIGHASH_ALL: fails only for an index that names no input. */
  function SegwitV0Sighash(tx: Transaction, index: nat, scriptCode: Script, value: nat, sighashType: u32): (r: Result<Preimage, AppError>)
    ensures r.Ok? <==> index < |tx.inputs|
    ensures r.Err? ==> r.error == SighashError(index)
  {
    if index < |tx.inputs| then
      Ok(SegwitV0Preimage(tx.version, Prevouts(tx), Sequences(tx), tx.inputs[index].previousOutput,
                          scriptCode, value, tx.inputs[index].sequence, tx.outputs, tx.lockTime, sighashType))
    else Err(SighashError(index))
  }

  /** Neither digest reads any input's unlocking data: writing a signature into one input
      changes no input's digest. */
  lemma SighashReadsOnlyStripped(a: Transaction, b: Transaction, index: nat, script: Script, value: nat, sighashType: u32)
    requires Strip(a) == Strip(b)
    ensures LegacySighash(a, index, script, sighashType) == LegacySighash(b, index, script, sighashType)
    ensures SegwitV0Sighash(a, index, script, value, sighashType) == SegwitV0Sighash(b, index, script, value, sighashType)
  {
    StripEqual(a, b);
    if index < |a.inputs| {
      assert LegacyView(a, index, script).inputs == LegacyView(b, index, script).inputs;
      assert Prevouts(a) == Prevouts(b);
      assert Sequences(a) == Sequences(b);
    }
  }
}
