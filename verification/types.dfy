/** The script classifier and the processed UTXO record (src/types.rs). */
module Types {
  import opened Results
  import opened Bytes
  import opened Scripts
  import opened Errors
  import opened Keys
  import opened Transactions
  import Hex

  /** The closed set of locking scripts the signer can spend. */
  datatype ScriptType = P2PKH | P2WPKH

  /** `ScriptType::from_script_buf`: P2PKH is tested first, then P2WPKH; anything else is an
      error carrying the script's lower-case hex. */
  function ClassifyScript(script: Script): (r: Result<ScriptType, AppError>)
    ensures r.Err? <==> !IsP2pkh(script) && !IsP2wpkh(script)
    ensures r.Err? ==> r.error == UnknownScriptType(Hex.Encode(script))
    ensures r.Ok? ==> |script| == 22 || |script| == 25
  {
    if IsP2pkh(script) then Ok(P2PKH)
    else if IsP2wpkh(script) then Ok(P2WPKH)
    else Err(UnknownScriptType(Hex.Encode(script)))
  }

  /** A script is classified P2PKH exactly when it is `76 a9 14 <20 bytes> 88 ac`. */
  lemma ClassifyP2pkhIff(script: Script)
    ensures ClassifyScript(script) == Ok(P2PKH) <==> exists hash :: |hash| == 20 && script == P2pkhScript(hash)
  {
    P2pkhTemplate(script);
  }

  /** A script is classified P2WPKH exactly when it is `00 14 <20 bytes>`. */
  lemma ClassifyP2wpkhIff(script: Script)
    ensures ClassifyScript(script) == Ok(P2WPKH) <==> exists program :: |program| == 20 && script == P2wpkhScript(program)
  {
    P2wpkhTemplate(script);
  }

  /** No script fits both templates, so testing P2WPKH first would classify alike. */
  lemma TemplatesDisjoint(script: Script)
    ensures !(IsP2pkh(script) && IsP2wpkh(script))
    ensures ClassifyScript(script) ==
              if IsP2wpkh(script) then Ok(P2WPKH)
              else if IsP2pkh(script) then Ok(P2PKH)
              else Err(UnknownScriptType(Hex.Encode(script)))
  {
  }

  /** Any length other than 22 or 25 is rejected as unknown. */
  lemma ClassifyRejectsLength(script: Script)
    requires |script| != 22 && |script| != 25
    ensures ClassifyScript(script) == Err(UnknownScriptType(Hex.Encode(script)))
  {
  }

  /** The hex an unknown-script error carries decodes to exactly the classified script. */
  lemma UnknownScriptHexRoundTrip(script: Script)
    requires ClassifyScript(script).Err?
    ensures Hex.Decode(ClassifyScript(script).error.scriptHex) == Ok(script)
  {
    Hex.DecodeEncode(script);
  }

  /** For a P2WPKH output the BIP 143 script code always exists and is the P2PKH script over
      the same 20 bytes, so the signer's internal-error path for it cannot be taken. */
  lemma WitnessScriptCodeExists(script: Script)
    requires ClassifyScript(script) == Ok(P2WPKH)
    ensures P2wpkhScriptCode(script) == Some(P2pkhScript(script[2..]))
    ensures ClassifyScript(P2wpkhScriptCode(script).value) == Ok(P2PKH)
  {
  }

  /** `ProcessedUtxo`: a configured UTXO once decoded, validated and classified. */
  datatype ProcessedUtxo = ProcessedUtxo(
    outPoint: OutPoint,
    txOut: TxOut,
    privateKey: PrivateKey,
    publicKey: PublicKeyBytes,
    scriptType: ScriptType,
    sequence: u32,
    value: nat)

  /** What normalisation guarantees of every record it produces. */
  predicate WellFormed(p: ProcessedUtxo) {
    p.value == p.txOut.value && ClassifyScript(p.txOut.scriptPubkey) == Ok(p.scriptType)
  }
}
