/** Step 6 of `create_and_sign_transaction` (src/transaction.rs): the signing loop. For each
    input in order it computes that input's digest over the transaction as it stands, signs
    it and writes the unlocking data into that input alone. */
module Finaliser {
  import opened Results
  import opened Bytes
  import opened Errors
  import opened Scripts
  import opened Transactions
  import opened Keys
  import opened Types
  import opened Sighash
  import opened Backend
  import opened Assembly

  /** The signature as it goes on the chain: DER encoding, then the sighash-type byte. */
  function SignatureBlob(o: Oracles, sig: Signature): (blob: seq<byte>)
    ensures 1 <= |blob| <= 73 && blob[|blob| - 1] == SIGHASH_ALL
  {
    o.serializeDer(sig) + [SIGHASH_ALL as byte]
  }

  /** Unlocking data for `p` written into `i`: push(signature), push(public key) into the
      script-sig for P2PKH; the witness [signature, public key] for P2WPKH. */
  function Unlock(i: TxIn, p: ProcessedUtxo, blob: seq<byte>): (r: TxIn)
    requires |blob| <= 73
    ensures r.previousOutput == i.previousOutput && r.sequence == i.sequence
  {
    match p.scriptType
    case P2PKH => i.(scriptSig := PushSlice(blob) + PushSlice(p.publicKey))
    case P2WPKH => i.(witnessStack := [blob, p.publicKey])
  }

  /** Replaces input `index` by its unlocked form; the stripped transaction is unchanged. */
  function WriteInput(tx: Transaction, index: nat, p: ProcessedUtxo, blob: seq<byte>): (r: Transaction)
    requires index < |tx.inputs| && |blob| <= 73
    ensures Strip(r) == Strip(tx)
    ensures |r.inputs| == |tx.inputs|
    ensures forall j :: 0 <= j < |tx.inputs| && j != index ==> r.inputs[j] == tx.inputs[j]
  {
    StripIgnoresUnlocking(tx, index, Unlock(tx.inputs[index], p, blob));
    tx.(inputs := tx.inputs[index := Unlock(tx.inputs[index], p, blob)])
  }

  /** One iteration of the signing loop. */
  function SignInput(o: Oracles, tx: Transaction, p: ProcessedUtxo, index: nat): (r: Result<Transaction, AppError>)
    ensures r.Ok? ==> index < |tx.inputs| && Strip(r.value) == Strip(tx)
    ensures r.Ok? ==> forall j :: 0 <= j < |tx.inputs| && j != index ==> r.value.inputs[j] == tx.inputs[j]
    ensures WellFormed(p) && index < |tx.inputs| ==> r.Ok?
  {
    match p.scriptType
    case P2PKH =>
      var preimage :- LegacySighash(tx, index, p.txOut.scriptPubkey, SIGHASH_ALL);
      var sig := o.sign(p.privateKey, o.sighash(preimage));
      Ok(WriteInput(tx, index, p, SignatureBlob(o, sig)))
    case P2WPKH =>
      match P2wpkhScriptCode(p.txOut.scriptPubkey)
      case None => Err(Internal)
      case Some(scriptCode) =>
        var preimage :- SegwitV0Sighash(tx, index, scriptCode, p.value, SIGHASH_ALL);
        var sig := o.sign(p.privateKey, o.sighash(preimage));
        Ok(WriteInput(tx, index, p, SignatureBlob(o, sig)))
  }

  /** The loop from input `index` on. */
  function SignFrom(o: Oracles, tx: Transaction, ps: seq<ProcessedUtxo>, index: nat): (r: Result<Transaction, AppError>)
    requires index <= |ps|
    ensures r.Ok? ==> Strip(r.value) == Strip(tx)
    ensures r.Ok? ==> forall j :: 0 <= j < index && j < |tx.inputs| ==> r.value.inputs[j] == tx.inputs[j]
    ensures |tx.inputs| == |ps| && AllWellFormed(ps) ==> r.Ok?
    decreases |ps| - index
  {
    if index == |ps| then Ok(tx)
    else
      var next :- SignInput(o, tx, ps[index], index);
      SignFrom(o, next, ps, index + 1)
  }

  function SignAll(o: Oracles, tx: Transaction, ps: seq<ProcessedUtxo>): (r: Result<Transaction, AppError>)
    ensures r.Ok? ==> Strip(r.value) == Strip(tx)
    ensures |tx.inputs| == |ps| && AllWellFormed(ps) ==> r.Ok?
  {
    SignFrom(o, tx, ps, 0)
  }

  // ---------------------------------------------------------------------------------------
  // The two-phase reading: every digest computed over the frozen unsigned transaction
  // first, every unlocking payload written afterwards.

  /** The preimage input `index` is signed over. */
  function FrozenPreimage(tx: Transaction, p: ProcessedUtxo, index: nat): Preimage
    requires index < |tx.inputs| && WellFormed(p)
  {
    match p.scriptType
    case P2PKH => LegacySighash(tx, index, p.txOut.scriptPubkey, SIGHASH_ALL).value
    case P2WPKH =>
      SegwitV0Sighash(tx, index, P2wpkhScriptCode(p.txOut.scriptPubkey).value, p.value, SIGHASH_ALL).value
  }

  /** Input index, digest and the UTXO whose key signs it. */
  datatype SighashRecord = SighashRecord(index: nat, digest: Digest, utxo: ProcessedUtxo)

  /** One record per input, in index order, all computed over the same transaction. */
  function DigestPhase(o: Oracles, tx: Transaction, ps: seq<ProcessedUtxo>): (recs: seq<SighashRecord>)
    requires |tx.inputs| == |ps| && AllWellFormed(ps)
    ensures |recs| == |ps|
    ensures forall i :: 0 <= i < |ps| ==> recs[i].index == i && recs[i].utxo == ps[i]
  {
    seq(|ps|, i requires 0 <= i < |ps| => SighashRecord(i, o.sighash(FrozenPreimage(tx, ps[i], i)), ps[i]))
  }

  function RecordBlob(o: Oracles, rec: SighashRecord): seq<byte> {
    SignatureBlob(o, o.sign(rec.utxo.privateKey, rec.digest))
  }

  /** Writes each record's unlocking data at its index. */
  function ApplyPhase(o: Oracles, tx: Transaction, recs: seq<SighashRecord>): Transaction
    requires forall k :: 0 <= k < |recs| ==> recs[k].index < |tx.inputs|
    decreases |recs|
  {
    if |recs| == 0 then tx
    else ApplyPhase(o, WriteInput(tx, recs[0].index, recs[0].utxo, RecordBlob(o, recs[0])), recs[1..])
  }

  /** Records for consecutive indexes write each of those inputs exactly once and leave
      every other input, and everything but unlocking data, as it was. */
  lemma {:induction false} ApplyPhaseWritesEachOnce(o: Oracles, tx: Transaction, recs: seq<SighashRecord>, start: nat)
    requires start + |recs| <= |tx.inputs|
    requires forall m :: 0 <= m < |recs| ==> recs[m].index == start + m
    ensures Strip(ApplyPhase(o, tx, recs)) == Strip(tx)
    ensures forall j :: 0 <= j < |tx.inputs| && !(start <= j < start + |recs|) ==>
              ApplyPhase(o, tx, recs).inputs[j] == tx.inputs[j]
    ensures forall j :: start <= j < start + |recs| ==>
              ApplyPhase(o, tx, recs).inputs[j] == Unlock(tx.inputs[j], recs[j - start].utxo, RecordBlob(o, recs[j - start]))
    decreases |recs|
  {
    if |recs| > 0 {
      var next := WriteInput(tx, start, recs[0].utxo, RecordBlob(o, recs[0]));
      var rest := recs[1..];
      ApplyPhaseWritesEachOnce(o, next, rest, start + 1);
      var r := ApplyPhase(o, tx, recs);
      assert r == ApplyPhase(o, next, rest);
      forall j | 0 <= j < |tx.inputs| && !(start <= j < start + |recs|)
        ensures r.inputs[j] == tx.inputs[j]
      {
        assert r.inputs[j] == next.inputs[j];
      }
      forall j | start <= j < start + |recs|
        ensures r.inputs[j] == Unlock(tx.inputs[j], recs[j - start].utxo, RecordBlob(o, recs[j - start]))
      {
        if j > start {
          assert recs[j - start] == rest[j - start - 1];
        }
      }
    }
  }

  /** From any point of the loop, the rest of the loop does what the remaining records of the
      two-phase reading do, because no write changes a later digest. */
  lemma {:induction false} SignFromAgrees(o: Oracles, frozen: Transaction, tx: Transaction, ps: seq<ProcessedUtxo>, k: nat)
    requires |frozen.inputs| == |ps| && AllWellFormed(ps) && k <= |ps|
    requires Strip(tx) == Strip(frozen)
    ensures SignFrom(o, tx, ps, k) == Ok(ApplyPhase(o, tx, DigestPhase(o, frozen, ps)[k..]))
    decreases |ps| - k
  {
    var recs := DigestPhase(o, frozen, ps);
    StripEqual(tx, frozen);
    if k == |ps| {
      assert recs[k..] == [];
    } else {
      var p := ps[k];
      assert WellFormed(p);
      match p.scriptType {
        case P2PKH =>
          SighashReadsOnlyStripped(tx, frozen, k, p.txOut.scriptPubkey, p.value, SIGHASH_ALL);
          assert LegacySighash(tx, k, p.txOut.scriptPubkey, SIGHASH_ALL) == Ok(FrozenPreimage(frozen, p, k));
        case P2WPKH =>
          var scriptCode := P2wpkhScriptCode(p.txOut.scriptPubkey).value;
          SighashReadsOnlyStripped(tx, frozen, k, scriptCode, p.value, SIGHASH_ALL);
          assert SegwitV0Sighash(tx, k, scriptCode, p.value, SIGHASH_ALL) == Ok(FrozenPreimage(frozen, p, k));
      }
      var blob := SignatureBlob(o, o.sign(p.privateKey, o.sighash(FrozenPreimage(frozen, p, k))));
      assert RecordBlob(o, recs[k]) == blob;
      var next := WriteInput(tx, k, p, blob);
      assert SignInput(o, tx, p, k) == Ok(next);
      SignFromAgrees(o, frozen, next, ps, k + 1);
      assert recs[k..][0] == recs[k];
      assert recs[k..][1..] == recs[k + 1..];
    }
  }

  /** The interleaved loop gives the same transaction as computing every digest first and
      writing afterwards. */
  lemma SigningIsTwoPhase(o: Oracles, tx: Transaction, ps: seq<ProcessedUtxo>)
    requires |tx.inputs| == |ps| && AllWellFormed(ps)
    ensures SignAll(o, tx, ps) == Ok(ApplyPhase(o, tx, DigestPhase(o, tx, ps)))
  {
    SignFromAgrees(o, tx, tx, ps, 0);
    assert DigestPhase(o, tx, ps)[0..] == DigestPhase(o, tx, ps);
  }

  /** Every input i ends up with the unlocking data of UTXO i, signed over input i's digest of
      the unsigned transaction, and nothing but unlocking data changes. */
  lemma SignAllResult(o: Oracles, tx: Transaction, ps: seq<ProcessedUtxo>)
    requires |tx.inputs| == |ps| && AllWellFormed(ps)
    ensures SignAll(o, tx, ps).Ok?
    ensures Strip(SignAll(o, tx, ps).value) == Strip(tx)
    ensures forall j :: 0 <= j < |ps| ==>
              SignAll(o, tx, ps).value.inputs[j] ==
                Unlock(tx.inputs[j], ps[j], SignatureBlob(o, o.sign(ps[j].privateKey, o.sighash(FrozenPreimage(tx, ps[j], j)))))
  {
    SigningIsTwoPhase(o, tx, ps);
    var recs := DigestPhase(o, tx, ps);
    ApplyPhaseWritesEachOnce(o, tx, recs, 0);
  }

  // ---------------------------------------------------------------------------------------
  // The unlocking data each input ends up with

  /** The signature UTXO `p`'s key makes over input `index`'s digest of `tx`, with its
      sighash-type byte. */
  function InputSignature(o: Oracles, tx: Transaction, p: ProcessedUtxo, index: nat): seq<byte>
    requires index < |tx.inputs| && WellFormed(p)
  {
    SignatureBlob(o, o.sign(p.privateKey, o.sighash(FrozenPreimage(tx, p, index))))
  }

  /** Input `i` spends UTXO `p` and carries `blob` and `p`'s public key in the one place
      `p`'s script type reads them: two pushes in the script-sig with an empty witness for
      P2PKH, a two-item witness with an empty script-sig for P2WPKH. */
  predicate SpendsWith(i: TxIn, p: ProcessedUtxo, blob: seq<byte>) {
    && i.previousOutput == p.outPoint
    && i.sequence == p.sequence
    && (p.scriptType == P2PKH ==> i.witnessStack == [] && ReadPushes(i.scriptSig) == Some([blob, p.publicKey]))
    && (p.scriptType == P2WPKH ==> i.scriptSig == [] && i.witnessStack == [blob, p.publicKey])
  }

  /** Unlocking an input that spends `p` and carries nothing yet makes it spend `p` with `blob`. */
  lemma UnlockSpends(i: TxIn, p: ProcessedUtxo, blob: seq<byte>)
    requires |blob| <= 73 && i.scriptSig == [] && i.witnessStack == []
    requires i.previousOutput == p.outPoint && i.sequence == p.sequence
    ensures SpendsWith(Unlock(i, p, blob), p, blob)
  {
    if p.scriptType == P2PKH {
      ReadTwoPushes(blob, p.publicKey);
    }
  }

  /** After signing an unsigned transaction whose input `j` spends UTXO `j`, input `j` spends
      it with the signature over its own digest of the unsigned transaction. */
  lemma SignedAt(o: Oracles, tx: Transaction, ps: seq<ProcessedUtxo>, j: nat)
    requires |tx.inputs| == |ps| && AllWellFormed(ps) && Strip(tx) == tx && j < |ps|
    requires tx.inputs[j].previousOutput == ps[j].outPoint && tx.inputs[j].sequence == ps[j].sequence
    ensures SignAll(o, tx, ps).Ok?
    ensures SpendsWith(SignAll(o, tx, ps).value.inputs[j], ps[j], InputSignature(o, tx, ps[j], j))
  {
    SignAllResult(o, tx, ps);
    assert tx.inputs[j] == Strip(tx).inputs[j];
    UnlockSpends(tx.inputs[j], ps[j], InputSignature(o, tx, ps[j], j));
  }
}
