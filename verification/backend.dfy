/** The library and cryptography calls the transaction builder makes, as functions it is
    given. Every fact proved about the builder holds whatever these functions are. */
module Backend {
  import opened Results
  import opened Bytes
  import opened Networks
  import opened Errors
  import opened Scripts
  import opened Keys
  import opened Sighash

  datatype Oracles = Oracles(
    /** `PrivateKey::from_wif` */
    fromWif: string -> Result<PrivateKey, KeyError>,
    /** `PrivateKey::public_key(..).to_bytes()` */
    publicKey: PrivateKey -> PublicKeyBytes,
    /** `Txid::from_str` */
    parseTxid: string -> Option<seq<byte>>,
    /** `Address::from_str(..).require_network(..)` then `script_pubkey()` */
    addressScript: (string, Network) -> Option<Script>,
    /** Consensus serialization of a preimage followed by double SHA-256. */
    sighash: Preimage -> Digest,
    /** Deterministic-nonce ECDSA signing (`sign_ecdsa`). */
    sign: (PrivateKey, Digest) -> Signature,
    /** `serialize_der` */
    serializeDer: Signature -> DerBytes,
    /** `serialize_compact` */
    serializeCompact: Signature -> CompactBytes,
    /** Strict DER parsing (`Signature::from_der`). */
    parseDer: seq<byte> -> Option<Signature>)
}
