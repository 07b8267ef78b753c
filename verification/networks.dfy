/** The bitcoin library's network identifiers. A private key only records the network
    KIND (main or test), so testnet, signet and regtest keys are indistinguishable. */
module Networks {

  datatype Network = Bitcoin | Testnet | Signet | Regtest

  datatype NetworkKind = Main | Test

  /** The library's `From<Network> for NetworkKind`. */
  function KindOf(n: Network): NetworkKind {
    if n == Bitcoin then Main else Test
  }
}
