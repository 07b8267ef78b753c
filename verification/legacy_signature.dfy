/** The P2PKH signing step as src/transaction.rs writes it (lines 199-221), beside the
    corrected step the rest of the model uses.

    The source turns the secp256k1 signature into a Bitcoin signature with
    `ecdsa::Signature::from_slice(serialize_compact())`. `from_slice` expects the
    script-sig format -- a DER signature followed by one sighash-type byte -- so it reads
    the last of the 64 compact bytes as the sighash type and DER-parses the 63 before it.
    Those begin with the top byte of `r`, while a DER signature must begin with the
    SEQUENCE tag 0x30, so for practically every signature the step fails with
    `SignatureError`. The P2WPKH branch (lines 236-237) uses `from_secp_ecdsa` with
    `EcdsaSighashType::All`, which is what was meant; `Finaliser.SignInput` signs P2PKH the
    same way. */
module LegacySignature {
  import opened Results
  import opened Bytes
  import opened Errors
  import opened Scripts
  import opened Transactions
  import opened Keys
  import opened Types
  import opened Sighash
  import opened Backend
  import opened Finaliser

  /** The sighash-type bytes `EcdsaSighashType::from_standard` accepts. */
  const STANDARD_SIGHASH_TYPES: set<byte> := {0x01, 0x02, 0x03, 0x81, 0x82, 0x83}

  /** The DER SEQUENCE tag every DER signature starts with. */
  const DER_SEQUENCE: byte := 0x30

  /** Why `from_slice` rejects its input. */
  datatype SliceError = EmptySignature | NonStandardSighashType(code: byte) | InvalidDer

  /** `bitcoin::ecdsa::Signature`: a signature together with its sighash-type byte. */
  datatype TypedSignature = TypedSignature(signature: Signature, sighashType: byte)

  /** `Signature::to_vec`: DER encoding, then the sighash-type byte. Its specification is
      the round trip FromSliceReadsToVec. */
  function ToVec(o: Oracles, s: TypedSignature): (v: seq<byte>)
    ensures 1 <= |v| <= 73 && v[|v| - 1] == s.sighashType
    ensures v[..|v| - 1] == o.serializeDer(s.signature)
  {
    o.serializeDer(s.signature) + [s.sighashType]
  }

  /** `Signature::from_slice`: split off the last byte as the sighash type, which must be a
      standard one, and DER-parse the rest. */
  function FromSlice(o: Oracles, bytes: seq<byte>): (r: Result<TypedSignature, SliceError>)
    ensures r.Ok? <==>
              |bytes| > 0 && bytes[|bytes| - 1] in STANDARD_SIGHASH_TYPES && o.parseDer(bytes[..|bytes| - 1]).Some?
    ensures r.Ok? ==>
              r.value == TypedSignature(o.parseDer(bytes[..|bytes| - 1]).value, bytes[|bytes| - 1])
  {
    if |bytes| == 0 then Err(EmptySignature)
    else
      var code := bytes[|bytes| - 1];
      if code !in STANDARD_SIGHASH_TYPES then Err(NonStandardSighashType(code))
      else
        match o.parseDer(bytes[..|bytes| - 1])
        case None => Err(InvalidDer)
        case Some(sig) => Ok(TypedSignature(sig, code))
  }

  /** `from_slice` reads back what `to_vec` writes, given a DER parser that reads back the
      DER serializer: the format `from_slice` is meant for. */
  lemma FromSliceReadsToVec(o: Oracles, s: TypedSignature)
    requires o.parseDer(o.serializeDer(s.signature)) == Some(s.signature)
    requires s.sighashType in STANDARD_SIGHASH_TYPES
    ensures FromSlice(o, ToVec(o, s)) == Ok(s)
  {
    var v := ToVec(o, s);
    assert v[..|v| - 1] == o.serializeDer(s.signature);
  }

  /** A DER parser that, like secp256k1's, accepts nothing but a DER SEQUENCE. */
  ghost predicate ParsesStrictDer(o: Oracles) {
    forall b :: o.parseDer(b).Some? ==> |b| > 0 && b[0] == DER_SEQUENCE
  }

  /** The 64-byte compact form of the signature the source makes for input `index`. */
  function CompactSignature(o: Oracles, tx: Transaction, p: ProcessedUtxo, index: nat): (c: CompactBytes)
    requires index < |tx.inputs|
    ensures c == o.serializeCompact(o.sign(p.privateKey, o.sighash(LegacySighash(tx, index, p.txOut.scriptPubkey, SIGHASH_ALL).value)))
  {
    var preimage := LegacySighash(tx, index, p.txOut.scriptPubkey, SIGHASH_ALL).value;
    o.serializeCompact(o.sign(p.privateKey, o.sighash(preimage)))
  }

  /** The P2PKH branch of the signing loop as written. */
  function SignP2pkhAsWritten(o: Oracles, tx: Transaction, p: ProcessedUtxo, index: nat): (r: Result<Transaction, AppError>)
    ensures r.Ok? ==> index < |tx.inputs| && Strip(r.value) == Strip(tx)
    ensures index >= |tx.inputs| ==> r == Err(SighashError(index))
    ensures index < |tx.inputs| && FromSlice(o, CompactSignature(o, tx, p, index)).Err? ==>
              r == Err(SignatureError(index))
  {
    var preimage :- LegacySighash(tx, index, p.txOut.scriptPubkey, SIGHASH_ALL);
    var sig := o.sign(p.privateKey, o.sighash(preimage));
    match FromSlice(o, o.serializeCompact(sig))
    case Err(_) => Err(SignatureError(index))
    case Ok(typed) =>
      var unlocked := tx.inputs[index].(scriptSig := PushSlice(ToVec(o, typed)) + PushSlice(p.publicKey));
      StripIgnoresUnlocking(tx, index, unlocked);
      Ok(tx.(inputs := tx.inputs[index := unlocked]))
  }

  /** The discrepancy: with a strict DER parser, every signature whose compact form does not
      start with 0x30 -- whose `r` is below 0x30 * 2^248 or at least 0x31 * 2^248, all but
      about one in 256 signatures -- makes the P2PKH branch fail with `SignatureError`. */
  lemma AsWrittenRejectsCompactSignature(o: Oracles, tx: Transaction, p: ProcessedUtxo, index: nat)
    requires ParsesStrictDer(o)
    requires index < |tx.inputs|
    requires CompactSignature(o, tx, p, index)[0] != DER_SEQUENCE
    ensures SignP2pkhAsWritten(o, tx, p, index) == Err(SignatureError(index))
  {
    var c := CompactSignature(o, tx, p, index);
    assert c[..|c| - 1][0] == c[0];
  }

  /** The corrected step never fails on a well-formed P2PKH UTXO, and leaves the script-sig
      as exactly two pushes: the DER signature with the SIGHASH_ALL byte, then the key. */
  lemma CorrectedP2pkhSigns(o: Oracles, tx: Transaction, p: ProcessedUtxo, index: nat)
    requires WellFormed(p) && p.scriptType == P2PKH && index < |tx.inputs|
    ensures SignInput(o, tx, p, index).Ok?
    ensures var blob := SignatureBlob(o, o.sign(p.privateKey, o.sighash(FrozenPreimage(tx, p, index))));
            && SignInput(o, tx, p, index).value.inputs[index].witnessStack == tx.inputs[index].witnessStack
            && ReadPushes(SignInput(o, tx, p, index).value.inputs[index].scriptSig) == Some([blob, p.publicKey])
            && blob[|blob| - 1] == SIGHASH_ALL as byte
  {
    var blob := SignatureBlob(o, o.sign(p.privateKey, o.sighash(FrozenPreimage(tx, p, index))));
    ReadTwoPushes(blob, p.publicKey);
  }
}
