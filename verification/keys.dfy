/** Keys, digests and signatures. Their cryptography is not modelled: only the facts the
    transaction builder relies on (a key's network kind, serialized lengths) are. */
module Keys {
  import opened Bytes
  import opened Networks

  /** A private key decoded from WIF: an opaque secret, the network kind the WIF names,
      and whether its public key is serialized compressed. */
  datatype PrivateKey = PrivateKey(secret: seq<byte>, network: NetworkKind, compressed: bool)

  /** A secp256k1 ECDSA signature, opaque. */
  datatype Signature = Signature(encoded: seq<byte>)

  /** A 32-byte signing digest. */
  type Digest = seq<byte>

  /** A serialized public key: 33 bytes compressed or 65 bytes uncompressed. */
  type PublicKeyBytes = b: seq<byte> | |b| == 33 || |b| == 65 witness Zeros(33)

  /** A strict DER encoding of a signature, at most 72 bytes. */
  type DerBytes = b: seq<byte> | |b| <= 72

  /** The 64-byte compact encoding `r || s` of a signature. */
  type CompactBytes = b: seq<byte> | |b| == 64 witness Zeros(64)
}
