/** The error variants the transaction core can return (src/error.rs), with their
    structured fields; the human-readable message texts are not modelled. */
module Errors {
  import opened Networks
  import Hex

  /** The key library's WIF decoding error, kept opaque. */
  datatype KeyError = KeyError(detail: string)

  /** What an `InputValidation` error is about. */
  datatype Invalid =
    | UnknownNetwork(lowered: string)
    | MalformedTxid(txid: string)
    | MalformedScriptHex(cause: Hex.HexError)
    | BadRecipientAddress(address: string)

  datatype AppError =
    | BitcoinKey(source: KeyError)
    | SighashError(sighashInput: nat)
    | SignatureError(signatureInput: nat)
    | NetworkMismatch(cliNetwork: Network, inferredNetwork: NetworkKind)
    | InputValidation(reason: Invalid)
    | InsufficientFunds(available: nat, required: nat, fee: nat)
    | ChangeAddressDerivation(changeAddress: string)
    | UnknownScriptType(scriptHex: string)
    | Internal
}
