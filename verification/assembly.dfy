/** Steps 1 to 5 of `create_and_sign_transaction` (src/transaction.rs): normalising the
    configured UTXOs, building the recipient outputs, estimating the fee from a draft with
    worst-case signatures, checking funds, applying the dust policy to the change, and
    assembling the unsigned transaction. */
module Assembly {
  import opened Results
  import opened Bytes
  import opened Sums
  import opened Text
  import opened Networks
  import opened Errors
  import opened Scripts
  import opened Transactions
  import opened Types
  import opened Backend
  import opened Config
  import Hex

  /** Change below this many satoshis is not paid out but left to the fee. */
  const DUST_THRESHOLD_SATS: nat := 546

  /** Longest DER signature (71 bytes) plus the sighash-type byte. */
  const DUMMY_SIGNATURE_LEN: nat := 72

  /** The sequence number with no special meaning. */
  const SEQUENCE_MAX: u32 := 0xFFFF_FFFF

  const TX_VERSION: int := 2
  const LOCK_TIME_ZERO: u32 := 0

  // ---------------------------------------------------------------------------------------
  // Normalisation

  function ResolveSequence(own: Option<u32>, fallback: Option<u32>): u32 {
    match own
    case Some(s) => s
    case None =>
      match fallback
      case Some(d) => d
      case None => SEQUENCE_MAX
  }

  predicate KeyDecodes(o: Oracles, u: UtxoInput) {
    o.fromWif(u.privateKeyWif).Ok?
  }

  /** Only the network KIND is compared: a regtest key passes on testnet and vice versa. */
  predicate KeyOnNetwork(o: Oracles, u: UtxoInput, network: Network) {
    KeyDecodes(o, u) && o.fromWif(u.privateKeyWif).value.network == KindOf(network)
  }

  predicate TxidParses(o: Oracles, u: UtxoInput) {
    o.parseTxid(u.txid).Some?
  }

  predicate ScriptHexDecodes(u: UtxoInput) {
    Hex.Decode(u.scriptPubkeyHex).Ok?
  }

  predicate ScriptSpendable(u: UtxoInput) {
    ScriptHexDecodes(u) && ClassifyScript(Hex.Decode(u.scriptPubkeyHex).value).Ok?
  }

  /** The network check compares kinds only: a key accepted on testnet is accepted on
      signet and regtest, and no key is accepted on both mainnet and a test network. */
  lemma NetworkCheckComparesKinds(o: Oracles, u: UtxoInput)
    ensures KeyOnNetwork(o, u, Testnet) <==> KeyOnNetwork(o, u, Regtest)
    ensures KeyOnNetwork(o, u, Testnet) <==> KeyOnNetwork(o, u, Signet)
    ensures !(KeyOnNetwork(o, u, Bitcoin) && KeyOnNetwork(o, u, Testnet))
  {
  }

  /** One iteration of the normalisation loop. The checks run in the order key decoding,
      network kind, txid, script hex, script type, and the first that fails decides the error. */
  function ProcessUtxo(o: Oracles, u: UtxoInput, network: Network, defaultSequence: Option<u32>): (r: Result<ProcessedUtxo, AppError>)
    ensures !KeyDecodes(o, u) ==> r == Err(BitcoinKey(o.fromWif(u.privateKeyWif).error))
    ensures KeyDecodes(o, u) && !KeyOnNetwork(o, u, network) ==>
              r == Err(NetworkMismatch(network, o.fromWif(u.privateKeyWif).value.network))
    ensures KeyOnNetwork(o, u, network) && !TxidParses(o, u) ==>
              r == Err(InputValidation(MalformedTxid(u.txid)))
    ensures KeyOnNetwork(o, u, network) && TxidParses(o, u) && !ScriptHexDecodes(u) ==>
              r == Err(InputValidation(MalformedScriptHex(Hex.Decode(u.scriptPubkeyHex).error)))
    ensures KeyOnNetwork(o, u, network) && TxidParses(o, u) && ScriptHexDecodes(u) && !ScriptSpendable(u) ==>
              r == Err(UnknownScriptType(Lower(u.scriptPubkeyHex)))
    ensures r.Ok? <==> KeyOnNetwork(o, u, network) && TxidParses(o, u) && ScriptSpendable(u)
    ensures r.Ok? ==>
              && WellFormed(r.value)
              && r.value.outPoint == OutPoint(o.parseTxid(u.txid).value, u.vout)
              && r.value.value == u.valueSats
              && r.value.txOut.scriptPubkey == Hex.Decode(u.scriptPubkeyHex).value
              && Hex.Encode(r.value.txOut.scriptPubkey) == Lower(u.scriptPubkeyHex)
              && r.value.privateKey == o.fromWif(u.privateKeyWif).value
              && r.value.publicKey == o.publicKey(r.value.privateKey)
    ensures r.Ok? && u.sequence.Some? ==> r.value.sequence == u.sequence.value
    ensures r.Ok? && u.sequence.None? && defaultSequence.Some? ==> r.value.sequence == defaultSequence.value
    ensures r.Ok? && u.sequence.None? && defaultSequence.None? ==> r.value.sequence == SEQUENCE_MAX
  {
    match o.fromWif(u.privateKeyWif)
    case Err(e) => Err(BitcoinKey(e))
    case Ok(key) =>
      if key.network != KindOf(network) then Err(NetworkMismatch(network, key.network))
      else
        match o.parseTxid(u.txid)
        case None => Err(InputValidation(MalformedTxid(u.txid)))
        case Some(txid) =>
          match Hex.Decode(u.scriptPubkeyHex)
          case Err(cause) => Err(InputValidation(MalformedScriptHex(cause)))
          case Ok(script) =>
            Hex.EncodeDecode(u.scriptPubkeyHex);
            var scriptType :- ClassifyScript(script);
            Ok(ProcessedUtxo(
                 OutPoint(txid, u.vout),
                 TxOut(u.valueSats, script),
                 key,
                 o.publicKey(key),
                 scriptType,
                 ResolveSequence(u.sequence, defaultSequence),
                 u.valueSats))
  }

  function ProcessUtxos(o: Oracles, utxos: seq<UtxoInput>, network: Network, defaultSequence: Option<u32>): (r: Result<seq<ProcessedUtxo>, AppError>)
    ensures r.Ok? <==> forall i :: 0 <= i < |utxos| ==> ProcessUtxo(o, utxos[i], network, defaultSequence).Ok?
    ensures r.Ok? ==> |r.value| == |utxos|
    ensures r.Ok? ==> forall i :: 0 <= i < |utxos| ==> ProcessUtxo(o, utxos[i], network, defaultSequence) == Ok(r.value[i])
  {
    MapAll((u: UtxoInput) => ProcessUtxo(o, u, network, defaultSequence), utxos)
  }

  predicate AllWellFormed(ps: seq<ProcessedUtxo>) {
    forall i :: 0 <= i < |ps| ==> WellFormed(ps[i])
  }

  function ProcessedValue(p: ProcessedUtxo): nat {
    p.value
  }

  // ---------------------------------------------------------------------------------------
  // Outputs

  function RecipientOutput(o: Oracles, d: TransactionOutputDef, network: Network): Result<TxOut, AppError> {
    match o.addressScript(d.address, network)
    case None => Err(InputValidation(BadRecipientAddress(d.address)))
    case Some(script) => Ok(TxOut(d.valueSats, script))
  }

  function RecipientOutputs(o: Oracles, defs: seq<TransactionOutputDef>, network: Network): (r: Result<seq<TxOut>, AppError>)
    ensures r.Ok? <==> forall i :: 0 <= i < |defs| ==> o.addressScript(defs[i].address, network).Some?
    ensures r.Ok? ==> |r.value| == |defs|
    ensures r.Ok? ==> forall i :: 0 <= i < |defs| ==>
              r.value[i] == TxOut(defs[i].valueSats, o.addressScript(defs[i].address, network).value)
  {
    var f := (d: TransactionOutputDef) => RecipientOutput(o, d, network);
    assert forall i :: 0 <= i < |defs| ==> (f(defs[i]).Ok? <==> o.addressScript(defs[i].address, network).Some?);
    MapAll(f, defs)
  }

  /** The change address must decode for the run's network even when no change is paid. */
  function ChangeScript(o: Oracles, address: string, network: Network): (r: Result<Script, AppError>)
    ensures r.Ok? <==> o.addressScript(address, network).Some?
    ensures r.Ok? ==> r.value == o.addressScript(address, network).value
    ensures r.Err? ==> r.error == ChangeAddressDerivation(address)
  {
    match o.addressScript(address, network)
    case None => Err(ChangeAddressDerivation(address))
    case Some(script) => Ok(script)
  }

  // ---------------------------------------------------------------------------------------
  // Fee estimation

  /** An input carrying worst-case unlocking data: a 72-byte dummy signature and the real
      public key, in the script-sig for P2PKH and as a two-item witness for P2WPKH. */
  function DraftInput(p: ProcessedUtxo): (i: TxIn)
    ensures i.previousOutput == p.outPoint && i.sequence == p.sequence
  {
    var bare := TxIn(p.outPoint, [], p.sequence, []);
    match p.scriptType
    case P2PKH => bare.(scriptSig := PushSlice(Zeros(DUMMY_SIGNATURE_LEN)) + PushSlice(p.publicKey))
    case P2WPKH => bare.(witnessStack := [Zeros(DUMMY_SIGNATURE_LEN), p.publicKey])
  }

  /** The worst-case unlocking data sits in exactly one of the two places, and the P2PKH
      script-sig reads back as the two pushes (dummy signature, public key). */
  lemma DraftInputUnlocking(p: ProcessedUtxo)
    ensures p.scriptType == P2PKH ==>
              DraftInput(p).witnessStack == [] &&
              ReadPushes(DraftInput(p).scriptSig) == Some([Zeros(DUMMY_SIGNATURE_LEN), p.publicKey])
    ensures p.scriptType == P2WPKH ==>
              DraftInput(p).scriptSig == [] &&
              DraftInput(p).witnessStack == [Zeros(DUMMY_SIGNATURE_LEN), p.publicKey]
  {
    ReadTwoPushes(Zeros(DUMMY_SIGNATURE_LEN), p.publicKey);
  }

  /** The draft: one worst-case input per UTXO in order; the recipients followed by a
      zero-value output to the change script. */
  function Draft(ps: seq<ProcessedUtxo>, recipients: seq<TxOut>, changeScript: Script): (d: Transaction)
    ensures |d.inputs| == |ps|
    ensures forall i :: 0 <= i < |ps| ==> d.inputs[i] == DraftInput(ps[i])
    ensures d.outputs == recipients + [TxOut(0, changeScript)]
    ensures d.version == TX_VERSION && d.lockTime == LOCK_TIME_ZERO
  {
    Transaction(TX_VERSION, LOCK_TIME_ZERO,
                seq(|ps|, i requires 0 <= i < |ps| => DraftInput(ps[i])),
                recipients + [TxOut(0, changeScript)])
  }

  /** Fee = virtual size of the draft times the fee rate: the rate applied to the draft's
      weight in quarter units, rounded up to a whole virtual byte. */
  function EstimateFee(ps: seq<ProcessedUtxo>, recipients: seq<TxOut>, changeScript: Script, feeRate: nat): (fee: nat)
    ensures var w := Weight(Draft(ps, recipients, changeScript));
            feeRate * w <= 4 * fee < feeRate * (w + 4) || feeRate == 0
    ensures feeRate == 0 ==> fee == 0
    ensures feeRate > 0 ==> fee % feeRate == 0
  {
    var d := Draft(ps, recipients, changeScript);
    ScaleRounding(VSize(d), Weight(d), feeRate);
    MultipleMod(VSize(d), feeRate);
    FeeFor(VSize(d), feeRate)
  }

  /** The clauses of EstimateFee leave exactly one fee for a weight and a positive rate:
      the rate times the weight divided by four, rounded up. */
  lemma FeeBoundsPinFee(fee: nat, w: nat, rate: nat)
    requires rate > 0 && fee % rate == 0
    requires rate * w <= 4 * fee < rate * (w + 4)
    ensures fee == rate * ((w + 3) / 4)
  {
    var a := fee / rate;
    assert fee == a * rate;
    assert (4 * a) * rate == 4 * fee;
    assert (4 * a + 1) * rate == 4 * fee + rate;
    if 4 * a < w {
      MulMonotone(4 * a + 1, w, rate);
      assert false;
    }
    if w + 4 <= 4 * a {
      MulMonotone(w + 4, 4 * a, rate);
      assert false;
    }
    assert a == (w + 3) / 4;
  }

  /** A multiple of the rate leaves no remainder. */
  lemma MultipleMod(v: nat, rate: nat)
    ensures rate > 0 ==> (v * rate) % rate == 0
  {
    if rate > 0 {
      var n := v * rate;
      var q := n / rate;
      var m := n % rate;
      QuotientRemainder(n, rate);
      assert rate * (v - q) == m by {
        assert n == rate * v;
        assert rate * (v - q) == rate * v - rate * q;
      }
      SmallMultiple(rate, v - q, m);
    }
  }

  /** The only multiple of `d` in [0, d) is zero. */
  lemma SmallMultiple(d: nat, k: int, m: int)
    requires d > 0 && d * k == m && 0 <= m < d
    ensures k == 0
  {
    if k >= 1 {
      MulMonotone(1, k, d);
      assert false;
    } else if k <= -1 {
      assert d * k == -(d * -k);
      MulMonotone(1, -k, d);
      assert false;
    }
  }

  lemma QuotientRemainder(n: nat, d: nat)
    requires d > 0
    ensures n == d * (n / d) + n % d && 0 <= n % d < d
  {
  }

  /** Scaling `w <= 4 * v < w + 4` by a rate. */
  lemma ScaleRounding(v: nat, w: nat, rate: nat)
    requires w <= 4 * v < w + 4
    ensures rate * w <= 4 * (v * rate)
    ensures rate > 0 ==> 4 * (v * rate) < rate * (w + 4)
  {
    MulMonotone(w, 4 * v, rate);
    assert (4 * v) * rate == 4 * (v * rate);
    if rate > 0 {
      MulStrict(4 * v, w + 4, rate);
    }
  }

  lemma {:induction false} MulMonotone(a: nat, b: nat, c: nat)
    requires a <= b
    ensures c * a <= c * b && a * c <= b * c
    decreases c
  {
    if c > 0 {
      MulMonotone(a, b, c - 1);
      assert c * a == (c - 1) * a + a && c * b == (c - 1) * b + b;
    }
  }

  lemma {:induction false} MulStrict(a: nat, b: nat, c: nat)
    requires a < b && c > 0
    ensures a * c < c * b
    decreases c
  {
    if c > 1 {
      MulStrict(a, b, c - 1);
      assert a * c == a * (c - 1) + a && c * b == (c - 1) * b + b;
    }
  }

  /** Integer satoshis: virtual bytes times satoshis per virtual byte, no rounding. */
  function FeeFor(vsize: nat, feeRate: nat): nat {
    vsize * feeRate
  }

  /** One P2WPKH input with a compressed key, one payment to a P2WPKH script and P2WPKH
      change: 113 bytes without witness, 223 with it, so 562 weight units, 141 virtual
      bytes, and 705 satoshis at 5 sat/vB. */
  lemma DraftSizeExample(p: ProcessedUtxo, recipient: TxOut, changeScript: Script)
    requires p.scriptType == P2WPKH && |p.publicKey| == 33
    requires |recipient.scriptPubkey| == 22 && |changeScript| == 22
    ensures VSize(Draft([p], [recipient], changeScript)) == 141
    ensures EstimateFee([p], [recipient], changeScript, 5) == 705
  {
    var d := Draft([p], [recipient], changeScript);
    var input := DraftInput(p);
    assert input.scriptSig == [] && input.witnessStack == [Zeros(DUMMY_SIGNATURE_LEN), p.publicKey];
    assert d.inputs == [input];
    assert d.outputs == [recipient, TxOut(0, changeScript)];
    assert Sum(d.inputs, InputBaseSize) == 41;
    assert d.outputs[1..][1..] == [];
    assert Sum(d.outputs[1..], OutputSize) == 31;
    assert Sum(d.outputs, OutputSize) == 62;
    assert BaseSize(d) == 113;
    assert input.witnessStack[1..][1..] == [];
    assert Sum(input.witnessStack[1..], ByteStringSize) == 34;
    assert Sum(input.witnessStack, ByteStringSize) == 107;
    assert Sum(d.inputs, WitnessSize) == 108;
    assert AnyWitness(d.inputs);
    assert TotalSize(d) == 223;
    assert Weight(d) == 562;
  }

  /** The UTXO with its amount erased. */
  function WithoutAmount(p: ProcessedUtxo): ProcessedUtxo {
    p.(value := 0, txOut := p.txOut.(value := 0))
  }

  /** The fee depends on no amount: neither the UTXOs' values nor the recipients' values. */
  lemma FeeIgnoresAmounts(ps: seq<ProcessedUtxo>, ps': seq<ProcessedUtxo>, recipients: seq<TxOut>,
                          recipients': seq<TxOut>, changeScript: Script, feeRate: nat)
    requires |ps| == |ps'| && forall i :: 0 <= i < |ps| ==> WithoutAmount(ps[i]) == WithoutAmount(ps'[i])
    requires |recipients| == |recipients'|
    requires forall i :: 0 <= i < |recipients| ==> recipients[i].scriptPubkey == recipients'[i].scriptPubkey
    ensures EstimateFee(ps, recipients, changeScript, feeRate) == EstimateFee(ps', recipients', changeScript, feeRate)
  {
    var d := Draft(ps, recipients, changeScript);
    var d' := Draft(ps', recipients', changeScript);
    forall i | 0 <= i < |ps|
      ensures d.inputs[i] == d'.inputs[i]
    {
      assert WithoutAmount(ps[i]) == WithoutAmount(ps'[i]);
      assert ps[i].outPoint == ps'[i].outPoint && ps[i].sequence == ps'[i].sequence;
      assert ps[i].scriptType == ps'[i].scriptType && ps[i].publicKey == ps'[i].publicKey;
    }
    assert d.inputs == d'.inputs;
    VSizeIgnoresAmounts(d, d');
  }

  // ---------------------------------------------------------------------------------------
  // Change and the unsigned transaction

  /** The recipients, followed by a change output when the change is not dust. */
  function WithChange(recipients: seq<TxOut>, change: nat, changeScript: Script): (outs: seq<TxOut>)
    ensures change >= DUST_THRESHOLD_SATS <==> |outs| == |recipients| + 1
    ensures change < DUST_THRESHOLD_SATS <==> outs == recipients
    ensures |outs| >= |recipients| && outs[..|recipients|] == recipients
    ensures change >= DUST_THRESHOLD_SATS ==> outs[|recipients|] == TxOut(change, changeScript)
  {
    if change >= DUST_THRESHOLD_SATS then recipients + [TxOut(change, changeScript)] else recipients
  }

  /** The input spending `p`, with no unlocking data yet. */
  function BareInput(p: ProcessedUtxo): TxIn {
    TxIn(p.outPoint, [], p.sequence, [])
  }

  function BareInputs(ps: seq<ProcessedUtxo>): (inputs: seq<TxIn>)
    ensures |inputs| == |ps|
    ensures forall i :: 0 <= i < |ps| ==> inputs[i] == BareInput(ps[i])
  {
    if |ps| == 0 then [] else [BareInput(ps[0])] + BareInputs(ps[1..])
  }

  /** Version 2, lock time 0, one input per UTXO in order with empty unlocking data. */
  function Skeleton(ps: seq<ProcessedUtxo>, outputs: seq<TxOut>): (tx: Transaction)
    ensures Strip(tx) == tx
    ensures |tx.inputs| == |ps| && tx.outputs == outputs
    ensures forall i :: 0 <= i < |ps| ==>
              tx.inputs[i].previousOutput == ps[i].outPoint && tx.inputs[i].sequence == ps[i].sequence
  {
    var tx := Transaction(TX_VERSION, LOCK_TIME_ZERO, BareInputs(ps), outputs);
    assert Strip(tx).inputs == tx.inputs;
    tx
  }

  /** Everything decided before signing. */
  datatype Unsigned = Unsigned(
    utxos: seq<ProcessedUtxo>,
    recipients: seq<TxOut>,
    changeScript: Script,
    fee: nat,
    change: nat,
    tx: Transaction)

  /** Estimate the fee, check funds, decide the change and build the unsigned transaction. */
  function Settle(config: InputConfig, ps: seq<ProcessedUtxo>, recipients: seq<TxOut>, changeScript: Script): (r: Result<Unsigned, AppError>)
    ensures r.Ok? ==> TotalInput(config) == TotalRecipients(config) + r.value.fee + r.value.change
    ensures r.Ok? ==>
              && r.value.utxos == ps && r.value.recipients == recipients && r.value.changeScript == changeScript
              && r.value.fee == EstimateFee(ps, recipients, changeScript, config.feeRateSatsPerVb)
              && r.value.tx.version == TX_VERSION && r.value.tx.lockTime == LOCK_TIME_ZERO
              && Strip(r.value.tx) == r.value.tx
              && r.value.tx.outputs == WithChange(recipients, r.value.change, changeScript)
              && |r.value.tx.inputs| == |ps|
              && forall i :: 0 <= i < |ps| ==>
                   r.value.tx.inputs[i].previousOutput == ps[i].outPoint && r.value.tx.inputs[i].sequence == ps[i].sequence
    ensures r.Err? <==>
              TotalInput(config) < TotalRecipients(config) + EstimateFee(ps, recipients, changeScript, config.feeRateSatsPerVb)
    ensures r.Err? ==>
              && r.error.InsufficientFunds?
              && r.error.available == TotalInput(config)
              && r.error.fee == EstimateFee(ps, recipients, changeScript, config.feeRateSatsPerVb)
              && r.error.required == TotalRecipients(config) + r.error.fee
              && r.error.available < r.error.required
  {
    var fee := EstimateFee(ps, recipients, changeScript, config.feeRateSatsPerVb);
    var available := TotalInput(config);
    var spent := TotalRecipients(config);
    if available < spent + fee then
      Err(InsufficientFunds(available, spent + fee, fee))
    else
      var change := available - spent - fee;
      Ok(Unsigned(ps, recipients, changeScript, fee, change,
                  Skeleton(ps, WithChange(recipients, change, changeScript))))
  }

  /** The worked draft settled: 100,000 satoshis in, 50,000 out, 705 fee, 49,295 change,
      which is paid out as a second output since it is far above the dust threshold. */
  lemma SettleExample(config: InputConfig, p: ProcessedUtxo, recipient: TxOut, changeScript: Script)
    requires p.scriptType == P2WPKH && |p.publicKey| == 33
    requires |recipient.scriptPubkey| == 22 && |changeScript| == 22
    requires TotalInput(config) == 100000 && TotalRecipients(config) == 50000 && config.feeRateSatsPerVb == 5
    ensures Settle(config, [p], [recipient], changeScript).Ok?
    ensures Settle(config, [p], [recipient], changeScript).value.fee == 705
    ensures Settle(config, [p], [recipient], changeScript).value.change == 49295
    ensures Settle(config, [p], [recipient], changeScript).value.tx.outputs == [recipient, TxOut(49295, changeScript)]
  {
    DraftSizeExample(p, recipient, changeScript);
  }

  /** Normalise, build outputs, validate the change address, estimate the fee, check funds,
      decide the change and assemble the unsigned transaction. */
  function Assemble(o: Oracles, config: InputConfig, network: Network): (r: Result<Unsigned, AppError>)
    ensures r.Ok? ==> TotalInput(config) == TotalRecipients(config) + r.value.fee + r.value.change
    ensures r.Ok? ==> |r.value.utxos| == |config.utxos| == |r.value.tx.inputs| && AllWellFormed(r.value.utxos)
    ensures r.Ok? ==> Strip(r.value.tx) == r.value.tx
    ensures r.Err? && r.error.InsufficientFunds? ==>
              && r.error.available == TotalInput(config)
              && r.error.required == TotalRecipients(config) + r.error.fee
              && r.error.available < r.error.required
  {
    var ps :- ProcessUtxos(o, config.utxos, network, config.defaultSequence);
    var recipients :- RecipientOutputs(o, config.outputs, network);
    var changeScript :- ChangeScript(o, config.changeAddress, network);
    Settle(config, ps, recipients, changeScript)
  }
}
