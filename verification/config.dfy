/** The run's input description (src/config.rs), as handed over by the configuration loader.
    Amounts are unbounded here; the source's `u64` bounds are not modelled. */
module Config {
  import opened Results
  import opened Bytes
  import opened Sums

  datatype UtxoInput = UtxoInput(
    txid: string,
    vout: u32,
    scriptPubkeyHex: string,
    valueSats: nat,
    privateKeyWif: string,
    sequence: Option<u32>)

  datatype TransactionOutputDef = TransactionOutputDef(address: string, valueSats: nat)

  /** `network` is carried but never read: the network comes from the command line. */
  datatype InputConfig = InputConfig(
    network: string,
    utxos: seq<UtxoInput>,
    outputs: seq<TransactionOutputDef>,
    feeRateSatsPerVb: nat,
    changeAddress: string,
    defaultSequence: Option<u32>)

  function UtxoValue(u: UtxoInput): nat {
    u.valueSats
  }

  function OutputDefValue(d: TransactionOutputDef): nat {
    d.valueSats
  }

  function TotalInput(c: InputConfig): nat {
    Sum(c.utxos, UtxoValue)
  }

  function TotalRecipients(c: InputConfig): nat {
    Sum(c.outputs, OutputDefValue)
  }
}
