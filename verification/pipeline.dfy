/** `create_and_sign_transaction` end to end (src/transaction.rs), and what it promises:
    the order in which its errors surface, the funds check, conservation of value, the dust
    policy for change, and the shape of the signed transaction. */
module Pipeline {
  import opened Results
  import opened Sums
  import opened Networks
  import opened Errors
  import opened Transactions
  import opened Types
  import opened Backend
  import opened Config
  import opened Assembly
  import opened Finaliser

  function CreateAndSign(o: Oracles, config: InputConfig, network: Network): (r: Result<Transaction, AppError>)
    ensures r.Ok? <==> Assemble(o, config, network).Ok?
    ensures r.Err? ==> r.error == Assemble(o, config, network).error
    ensures r.Ok? ==> Strip(r.value) == Assemble(o, config, network).value.tx
  {
    var u :- Assemble(o, config, network);
    SignAll(o, u.tx, u.utxos)
  }

  /** Every UTXO, every recipient address and the change address are acceptable. */
  predicate Validates(o: Oracles, config: InputConfig, network: Network) {
    && ProcessUtxos(o, config.utxos, network, config.defaultSequence).Ok?
    && RecipientOutputs(o, config.outputs, network).Ok?
    && o.addressScript(config.changeAddress, network).Some?
  }

  /** The fee of a run whose inputs validate. */
  function RunFee(o: Oracles, config: InputConfig, network: Network): nat
    requires Validates(o, config, network)
  {
    EstimateFee(ProcessUtxos(o, config.utxos, network, config.defaultSequence).value,
                RecipientOutputs(o, config.outputs, network).value,
                o.addressScript(config.changeAddress, network).value,
                config.feeRateSatsPerVb)
  }

  /** A run that gets past validation is settled by the fee, funds and change step. */
  lemma AssembleSettles(o: Oracles, config: InputConfig, network: Network)
    requires Validates(o, config, network)
    ensures Assemble(o, config, network) ==
              Settle(config, ProcessUtxos(o, config.utxos, network, config.defaultSequence).value,
                     RecipientOutputs(o, config.outputs, network).value,
                     o.addressScript(config.changeAddress, network).value)
  {
  }

  /** A successful assembly validated every input. */
  lemma SuccessValidates(o: Oracles, config: InputConfig, network: Network)
    requires Assemble(o, config, network).Ok?
    ensures Validates(o, config, network)
  {
  }

  // ---------------------------------------------------------------------------------------
  // Which error surfaces

  /** UTXOs are checked first, in list order; the first one that fails decides the error. */
  lemma UtxoErrorsComeFirst(o: Oracles, config: InputConfig, network: Network, k: nat)
    requires k < |config.utxos|
    requires ProcessUtxo(o, config.utxos[k], network, config.defaultSequence).Err?
    requires forall i :: 0 <= i < k ==> ProcessUtxo(o, config.utxos[i], network, config.defaultSequence).Ok?
    ensures CreateAndSign(o, config, network) == Err(ProcessUtxo(o, config.utxos[k], network, config.defaultSequence).error)
  {
    var f := (u: UtxoInput) => ProcessUtxo(o, u, network, config.defaultSequence);
    MapAllFirstFailure(f, config.utxos, k);
  }

  /** Once every UTXO is accepted, the first recipient whose address does not decode for the
      network decides the error. */
  lemma RecipientErrorsComeNext(o: Oracles, config: InputConfig, network: Network, k: nat)
    requires ProcessUtxos(o, config.utxos, network, config.defaultSequence).Ok?
    requires k < |config.outputs| && o.addressScript(config.outputs[k].address, network).None?
    requires forall i :: 0 <= i < k ==> o.addressScript(config.outputs[i].address, network).Some?
    ensures CreateAndSign(o, config, network) == Err(InputValidation(BadRecipientAddress(config.outputs[k].address)))
  {
    var f := (d: TransactionOutputDef) => RecipientOutput(o, d, network);
    MapAllFirstFailure(f, config.outputs, k);
    assert RecipientOutputs(o, config.outputs, network) == MapAll(f, config.outputs);
  }

  /** Then the change address is checked, whatever the amounts: a run that would pay no
      change still fails on a bad change address. */
  lemma ChangeAddressCheckedRegardless(o: Oracles, config: InputConfig, network: Network)
    requires ProcessUtxos(o, config.utxos, network, config.defaultSequence).Ok?
    requires RecipientOutputs(o, config.outputs, network).Ok?
    requires o.addressScript(config.changeAddress, network).None?
    ensures CreateAndSign(o, config, network) == Err(ChangeAddressDerivation(config.changeAddress))
  {
  }

  /** Only after all of that are funds checked: a validated run fails exactly when the inputs
      cannot pay the recipients plus the fee. */
  lemma FundsCheckDecides(o: Oracles, config: InputConfig, network: Network)
    requires Validates(o, config, network)
    ensures CreateAndSign(o, config, network).Err? <==>
              TotalInput(config) < TotalRecipients(config) + RunFee(o, config, network)
  {
    AssembleSettles(o, config, network);
  }

  /** A shortfall is reported with exactly these figures: what the inputs hold, what the
      recipients and the fee need, and the fee. */
  lemma ShortfallReported(o: Oracles, config: InputConfig, network: Network)
    requires Validates(o, config, network)
    requires TotalInput(config) < TotalRecipients(config) + RunFee(o, config, network)
    ensures var fee := RunFee(o, config, network);
            CreateAndSign(o, config, network) ==
              Err(InsufficientFunds(TotalInput(config), TotalRecipients(config) + fee, fee))
  {
    var ps := ProcessUtxos(o, config.utxos, network, config.defaultSequence).value;
    var recipients := RecipientOutputs(o, config.outputs, network).value;
    var changeScript := o.addressScript(config.changeAddress, network).value;
    var settled := Settle(config, ps, recipients, changeScript);
    AssembleSettles(o, config, network);
    assert CreateAndSign(o, config, network) == Err(settled.error);
  }

  /** Inputs worth 1,000 satoshis cannot pay outputs of 2,000 at any fee rate. */
  lemma ShortfallExample(o: Oracles, config: InputConfig, network: Network)
    requires Validates(o, config, network)
    requires TotalInput(config) == 1000 && TotalRecipients(config) == 2000
    ensures CreateAndSign(o, config, network) ==
              Err(InsufficientFunds(1000, 2000 + RunFee(o, config, network), RunFee(o, config, network)))
  {
    ShortfallReported(o, config, network);
  }

  // ---------------------------------------------------------------------------------------
  // What a successful run produces

  /** The amounts the run spends are the configured UTXO values, as normalised. */
  lemma InputValuesSummed(o: Oracles, config: InputConfig, network: Network)
    requires Assemble(o, config, network).Ok?
    ensures Sum(Assemble(o, config, network).value.utxos, ProcessedValue) == TotalInput(config)
  {
    var u := Assemble(o, config, network).value;
    SuccessValidates(o, config, network);
    AssembleSettles(o, config, network);
    SumPointwise(u.utxos, ProcessedValue, config.utxos, UtxoValue);
  }

  /** The outputs are the recipients in configuration order, followed by one change output
      of exactly the change to the change script if and only if the change is not dust. */
  lemma OutputsAndDustPolicy(o: Oracles, config: InputConfig, network: Network)
    requires Assemble(o, config, network).Ok?
    ensures var u := Assemble(o, config, network).value;
            var outs := CreateAndSign(o, config, network).value.outputs;
            && |outs| >= |config.outputs|
            && (forall i :: 0 <= i < |config.outputs| ==>
                  outs[i] == TxOut(config.outputs[i].valueSats, o.addressScript(config.outputs[i].address, network).value))
            && (u.change >= DUST_THRESHOLD_SATS <==> |outs| == |config.outputs| + 1)
            && (u.change >= DUST_THRESHOLD_SATS ==>
                  outs[|config.outputs|] == TxOut(u.change, o.addressScript(config.changeAddress, network).value))
            && (u.change < DUST_THRESHOLD_SATS ==> outs == u.recipients)
  {
    var u := Assemble(o, config, network).value;
    SuccessValidates(o, config, network);
    AssembleSettles(o, config, network);
    var outs := CreateAndSign(o, config, network).value.outputs;
    assert outs == WithChange(u.recipients, u.change, u.changeScript);
    forall i | 0 <= i < |config.outputs|
      ensures outs[i] == u.recipients[i]
    {
      assert outs[..|u.recipients|][i] == outs[i];
    }
  }

  /** Value is conserved: inputs pay the recipients, the fee and the change; change is paid
      out when it reaches the dust threshold and otherwise goes to the miner with the fee. */
  lemma ValueConservation(o: Oracles, config: InputConfig, network: Network)
    requires Assemble(o, config, network).Ok?
    ensures var u := Assemble(o, config, network).value;
            TotalInput(config) == TotalRecipients(config) + u.fee + u.change
    ensures var u := Assemble(o, config, network).value;
            var outs := CreateAndSign(o, config, network).value.outputs;
            TotalInput(config) ==
              Sum(outs, OutputValue) + u.fee + (if u.change < DUST_THRESHOLD_SATS then u.change else 0)
  {
    var u := Assemble(o, config, network).value;
    SuccessValidates(o, config, network);
    AssembleSettles(o, config, network);
    var outs := CreateAndSign(o, config, network).value.outputs;
    assert outs == WithChange(u.recipients, u.change, u.changeScript);
    SumPointwise(u.recipients, OutputValue, config.outputs, OutputDefValue);
    if u.change >= DUST_THRESHOLD_SATS {
      SumAppend(u.recipients, [TxOut(u.change, u.changeScript)], OutputValue);
      assert Sum([TxOut(u.change, u.changeScript)], OutputValue) == u.change;
    }
  }

  /** Input `j` of the signed transaction spends UTXO `j` with the signature over input `j`'s
      digest of the unsigned transaction. */
  lemma SignedInput(o: Oracles, config: InputConfig, network: Network, j: nat)
    requires Assemble(o, config, network).Ok?
    requires j < |config.utxos|
    ensures var u := Assemble(o, config, network).value;
            SpendsWith(CreateAndSign(o, config, network).value.inputs[j], u.utxos[j], InputSignature(o, u.tx, u.utxos[j], j))
  {
    var u := Assemble(o, config, network).value;
    SuccessValidates(o, config, network);
    AssembleSettles(o, config, network);
    SignedAt(o, u.tx, u.utxos, j);
  }

  /** The signed transaction: version 2, lock time 0, and input j spends UTXO j with its
      resolved sequence, signed over input j's digest of the unsigned transaction. */
  lemma SignedInputs(o: Oracles, config: InputConfig, network: Network)
    requires Assemble(o, config, network).Ok?
    ensures var tx := CreateAndSign(o, config, network).value;
            tx.version == TX_VERSION && tx.lockTime == LOCK_TIME_ZERO && |tx.inputs| == |config.utxos|
    ensures var u := Assemble(o, config, network).value;
            var tx := CreateAndSign(o, config, network).value;
            forall j :: 0 <= j < |config.utxos| ==> SpendsWith(tx.inputs[j], u.utxos[j], InputSignature(o, u.tx, u.utxos[j], j))
  {
    var u := Assemble(o, config, network).value;
    SuccessValidates(o, config, network);
    AssembleSettles(o, config, network);
    forall j | 0 <= j < |config.utxos|
      ensures SpendsWith(CreateAndSign(o, config, network).value.inputs[j], u.utxos[j], InputSignature(o, u.tx, u.utxos[j], j))
    {
      SignedInput(o, config, network, j);
    }
  }

  // ---------------------------------------------------------------------------------------
  // A worked run

  /** One P2WPKH UTXO of 100,000 satoshis with a compressed key, one payment of 50,000 to a
      P2WPKH script, P2WPKH change, 5 sat/vB: the draft weighs 562 units, so 141 vbytes,
      the fee is 705 and a change output of 49,295 follows the payment. */
  lemma SegwitSpendExample(o: Oracles, config: InputConfig, network: Network)
    requires |config.utxos| == 1 && config.utxos[0].valueSats == 100000
    requires |config.outputs| == 1 && config.outputs[0].valueSats == 50000
    requires config.feeRateSatsPerVb == 5
    requires ProcessUtxo(o, config.utxos[0], network, config.defaultSequence).Ok?
    requires ProcessUtxo(o, config.utxos[0], network, config.defaultSequence).value.scriptType == P2WPKH
    requires |ProcessUtxo(o, config.utxos[0], network, config.defaultSequence).value.publicKey| == 33
    requires o.addressScript(config.outputs[0].address, network).Some?
    requires |o.addressScript(config.outputs[0].address, network).value| == 22
    requires o.addressScript(config.changeAddress, network).Some?
    requires |o.addressScript(config.changeAddress, network).value| == 22
    ensures Assemble(o, config, network).Ok?
    ensures Assemble(o, config, network).value.fee == 705
    ensures Assemble(o, config, network).value.change == 49295
    ensures Assemble(o, config, network).value.tx.outputs ==
              [TxOut(50000, o.addressScript(config.outputs[0].address, network).value),
               TxOut(49295, o.addressScript(config.changeAddress, network).value)]
  {
    var ps := ProcessUtxos(o, config.utxos, network, config.defaultSequence).value;
    var recipients := RecipientOutputs(o, config.outputs, network).value;
    var changeScript := o.addressScript(config.changeAddress, network).value;
    AssembleSettles(o, config, network);
    assert ps == [ps[0]] && recipients == [recipients[0]];
    assert config.utxos[1..] == [] && config.outputs[1..] == [];
    assert Sum(config.utxos, UtxoValue) == config.utxos[0].valueSats + Sum(config.utxos[1..], UtxoValue);
    assert Sum(config.outputs, OutputDefValue) == config.outputs[0].valueSats + Sum(config.outputs[1..], OutputDefValue);
    SettleExample(config, ps[0], recipients[0], changeScript);
  }
}
