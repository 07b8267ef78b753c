# Bitcoin transaction signer: a Dafny model of the signing core

This project models the core of a command-line tool that builds and signs Bitcoin
transactions. The tool reads a configuration listing spendable outputs (UTXOs) with their
WIF private keys, the payments to make, a fee rate and a change address. The core
`create_and_sign_transaction` then does the following:

1. It normalises every UTXO. The key is decoded and must belong to the chosen network. The
   txid is parsed, and the locking script is decoded from hex and classified as P2PKH or
   P2WPKH (`ScriptType::from_script_buf`). The sequence number is resolved.
2. It turns every payment into an output, rejecting addresses of another network.
3. It sizes a draft transaction to estimate the fee. The draft has dummy 72-byte
   signatures and a zero-value change output. The fee is the draft's virtual size times the
   fee rate.
4. It checks that the funds are sufficient. Change of at least 546 satoshis gets its own
   output; smaller change goes to the miner.
5. It builds the unsigned transaction: version 2, lock time 0, empty unlocking data.
6. It signs every input in order. P2PKH inputs use the legacy digest and get a script-sig;
   P2WPKH inputs use the BIP 143 digest and get a witness.

The command-line network name parser `parse_network` is modelled too.

The modules follow the program's structure:

| module | what it models |
|---|---|
| `Config` | the configuration records |
| `Errors` | the error enum with its structured fields |
| `Networks`, `Cli` | networks and the name parser |
| `Types` | script classification and `ProcessedUtxo` |
| `Scripts` | script templates and the push encoding |
| `Transactions` | transactions, their serialized sizes and virtual size |
| `Sighash` | the digest preimages |
| `Assembly` | steps 1 to 5 |
| `Finaliser` | step 6 |
| `Pipeline` | the whole run and the end-to-end properties |
| `LegacySignature` | the P2PKH signature construction as written (see Findings) |

The model treats cryptography and the parsers it does not reimplement as opaque functions.
These are WIF decoding, public-key derivation, txid parsing, address-to-script conversion,
double SHA-256 of a preimage, ECDSA signing and DER parsing and serialization. They are
fields of the `Backend.Oracles` datatype. Every property below holds for every choice of
these functions.

**Signing order.** Signing can be read as two phases: first every input's digest over the
unsigned transaction, then every write of unlocking data. The code instead signs input by
input, each time writing into the transaction it reads the next digest from. The model
follows the code (`Finaliser.SignAll`). It also defines the two phases as a reference
(`Finaliser.DigestPhase`, `Finaliser.ApplyPhase`). `Finaliser.SigningIsTwoPhase` proves
that both give the same transaction, because every digest reads only the stripped
transaction and writing unlocking data never changes it.

## Model

| member | source | states |
|---|---|---|
| Cli.ParseNetwork | src/cli.rs:22-28 | A parse never yields Signet. An unknown name is an input-validation error that carries the lower-cased name. |
| Cli.ParseNetworkNames | src/cli.rs:23-27 | The result is Bitcoin iff the name spells "bitcoin" or "mainnet" ignoring ASCII case. It is Testnet iff the name spells "testnet", and Regtest iff it spells "regtest". It is an error iff the name spells none of the four. |
| Cli.ParseNetworkCaseInsensitive | src/cli.rs:23 | Parsing a name gives the same result as parsing its lower-cased form. |
| Cli.DefaultNetworkIsTestnet | src/cli.rs:18 | The default argument "testnet" parses to Testnet. |
| Cli.ParseNetworkExamples | src/cli.rs:24-27 | "MAINNET" parses to Bitcoin and "RegTest" to Regtest. "Signet" is rejected with the name "signet". |
| Text.LowerIdempotent | src/cli.rs:23 | Lower-casing twice gives the same string as lower-casing once. |
| Types.ClassifyScript | src/types.rs:12-23 | Classification fails iff the script matches neither the P2PKH nor the P2WPKH byte test. The error carries the script's hex. Only 22- and 25-byte scripts are accepted. |
| Types.ClassifyP2pkhIff | src/types.rs:14-15 | A script is classified P2PKH iff it is `DUP HASH160 <20 bytes> EQUALVERIFY CHECKSIG`. |
| Types.ClassifyP2wpkhIff | src/types.rs:16-17 | A script is classified P2WPKH iff it is `0 <20 bytes>`. |
| Types.TemplatesDisjoint | src/types.rs:14-17 | No script passes both byte tests, so the order of the two tests does not matter. |
| Types.ClassifyRejectsLength | src/types.rs:20-21 | Every script whose length is neither 22 nor 25 is rejected as an unknown script type. |
| Types.UnknownScriptHexRoundTrip | src/types.rs:21 | The hex carried by an unknown-script-type error decodes back to exactly the rejected script. |
| Types.WitnessScriptCodeExists | src/transaction.rs:223-224 | A P2WPKH-classified script always has a script code: the P2PKH script over its 20-byte program. That script code itself classifies as P2PKH, so the internal error is unreachable. |
| Scripts.P2wpkhScriptCode | src/transaction.rs:223-224 | A script code exists iff the script is P2WPKH. The code is a P2PKH script over the same 20 bytes. |
| Scripts.ReadPushSlice | src/transaction.rs:119-122 | Reading one push back from `push_slice(data)` (modelled by Scripts.PushSlice) followed by anything gives `data` and leaves the rest untouched, for every push length. |
| Scripts.ReadTwoPushes | src/transaction.rs:215-218 | A script made of two pushes reads back as exactly those two items. |
| Hex.Decode | src/transaction.rs:62-63 | Decoding works on the text's UTF-8 bytes. It fails with odd-length iff the byte count is odd. Otherwise a bad byte is reported as the character with that number, at its byte index, after only hex digits. Decoding succeeds iff the text has even length and every character is a hex digit. The result has half as many bytes as the text has characters. |
| Hex.DecodeCountsBytes | src/transaction.rs:62-63 | "é" fails with the invalid character 'Ã' (its first UTF-8 byte) at index 0. "é0", three bytes, fails with odd-length. |
| Hex.Encode | src/types.rs:21 | Encoding gives two lower-case hex digits per byte. |
| Hex.DecodeEncode | src/types.rs:21 | Decoding the hex of any byte string gives the byte string back. |
| Hex.EncodeDecode | src/transaction.rs:62-63 | Re-encoding decoded hex gives the input lower-cased. |
| Results.MapAllFirstFailure | src/transaction.rs:47-49 | A loop that stops at the first `?` failure returns the error of the first failing element, whatever follows it. |
| Transactions.VSize | src/transaction.rs:153 | The virtual size is the weight divided by four, rounded up. |
| Transactions.WeightSplitsWitness | src/transaction.rs:153 | Non-witness bytes weigh four units and witness bytes (with marker and flag) one. Without segwit serialization the weight is four times the base size. |
| Transactions.VSizeIgnoresAmounts | src/transaction.rs:139-143 | Output amounts never change the virtual size, so the zero-value dummy change output sizes like the real one. |
| Transactions.StripIgnoresUnlocking | src/transaction.rs:219 | Writing one input's unlocking data leaves the transaction's stripped form unchanged. |
| Sighash.LegacySighash | src/transaction.rs:201-205 | The legacy digest preimage exists iff the input index is in range. Otherwise the error is a sighash error for that index. |
| Sighash.SegwitV0Sighash | src/transaction.rs:227-232 | The BIP 143 preimage exists iff the input index is in range. Otherwise the error is a sighash error for that index. |
| Sighash.SighashReadsOnlyStripped | src/transaction.rs:191-246 | Two transactions with the same stripped form have the same legacy and BIP 143 preimages. So signatures already written never change a later input's digest. |
| Assembly.NetworkCheckComparesKinds | src/transaction.rs:50-55 | The key's network is compared by kind. Testnet, Regtest and Signet accept the same keys, and no key is accepted on both Bitcoin and Testnet. |
| Assembly.ProcessUtxo | src/transaction.rs:47-85 | Checks run in order: WIF, network, txid, script hex, script type, and the first failing check gives the error. The UTXO is accepted iff all pass. On success the script is the decoded hex and the public key is derived from the key. The sequence is the UTXO's own, else the configured default, else 0xFFFFFFFF (Assembly.ResolveSequence, line 67). |
| Assembly.ProcessUtxos | src/transaction.rs:47-88 | All UTXOs are accepted iff each is accepted. The processed list matches the configuration element by element. |
| Assembly.RecipientOutputs | src/transaction.rs:91-103 | All payments are accepted iff each address resolves on the network. Output i pays payment i's amount to its address's script. |
| Assembly.ChangeScript | src/transaction.rs:135-137 | The change address yields its script iff it resolves on the network; otherwise the error is a change-address error naming the address. |
| Assembly.Draft | src/transaction.rs:133-151 | The draft is version 2 and lock time 0. It has one worst-case input per UTXO in order, and its outputs are the recipients followed by a zero-value output to the change script. |
| Assembly.EstimateFee | src/transaction.rs:153-154 | The fee is the rate times the draft's weight divided by four, rounded up to a whole virtual byte: rate·weight ≤ 4·fee < rate·(weight + 4), and the fee is a multiple of the rate. A zero rate gives a zero fee. |
| Assembly.FeeBoundsPinFee | src/transaction.rs:153-154 | Those two facts leave exactly one fee: rate × ⌈weight/4⌉. |
| Assembly.DraftInputUnlocking | src/transaction.rs:106-131 | For the draft input Assembly.DraftInput builds: a draft P2PKH input's script-sig reads back as [72 zero bytes, public key] with an empty witness. A draft P2WPKH input has an empty script-sig and the witness [72 zero bytes, public key]. |
| Assembly.DraftSizeExample | src/transaction.rs:146-154 | Take one P2WPKH input with a compressed key and two 22-byte output scripts. The draft weighs 562 units, which is 141 vbytes, so the fee at 5 sat/vB is 705. |
| Assembly.FeeIgnoresAmounts | src/transaction.rs:139-154 | The estimated fee depends on the UTXOs and recipients only through their scripts, keys and outpoints, never through amounts. |
| Assembly.WithChange | src/transaction.rs:165-176 | The outputs are the recipients in order. A change output of exactly the change to the change script is appended iff the change is at least 546. Below 546 the outputs are the recipients alone. |
| Assembly.Skeleton | src/transaction.rs:178-188 | The unsigned transaction has no unlocking data. It has one input per UTXO with that UTXO's outpoint and sequence, and exactly the given outputs. |
| Assembly.Settle | src/transaction.rs:146-188 | Settling fails iff inputs < recipients + estimated fee, reporting available, required and fee. On success inputs = recipients + fee + change, and the outputs follow the dust policy. The transaction is version 2, lock time 0 and unsigned. |
| Assembly.SettleExample | src/transaction.rs:146-176 | With 100,000 in, 50,000 out and 5 sat/vB on the one-input P2WPKH draft, the fee is 705. The change is 49,295 and it gets its own output. |
| Assembly.Assemble | src/transaction.rs:47-188 | A successful assembly conserves value and has one well-formed processed UTXO and one unsigned input per configured UTXO. An insufficient-funds error reports the configured totals and the fee. |
| Finaliser.SignatureBlob | src/transaction.rs:236-240 | A signature blob is at most 73 bytes and ends with the SIGHASH_ALL byte. |
| Finaliser.WriteInput | src/transaction.rs:219-242 | Writing an input's unlocking data changes no other input and keeps the stripped form. |
| Finaliser.SignInput | src/transaction.rs:198-245 | Signing one input succeeds whenever the UTXO is well formed and the index is in range. It changes only that input's unlocking data. This uses the corrected P2PKH signature (see Findings). |
| Finaliser.SignAll | src/transaction.rs:193-246 | Signing every input succeeds when there is one well-formed UTXO per input. It changes only unlocking data. This uses the corrected P2PKH signature (see Findings). |
| Finaliser.SignFromAgrees | src/transaction.rs:193-246 | Signing from input k onwards gives the same transaction as applying the two-phase records from k onwards. |
| Finaliser.SigningIsTwoPhase | src/transaction.rs:191-246 | The interleaved loop gives the same transaction as computing every digest of the unsigned transaction first and writing all unlocking data afterwards. |
| Finaliser.SignAllResult | src/transaction.rs:193-246 | After signing, input j carries the unlocking data for UTXO j built from the signature over input j's digest of the unsigned transaction. This uses the corrected P2PKH signature (see Findings). |
| Finaliser.UnlockSpends | src/transaction.rs:215-242 | For the unlocking data Finaliser.Unlock writes: a P2PKH input's script-sig reads back as [blob, public key] with an empty witness. A P2WPKH input has an empty script-sig and the witness [blob, public key]. |
| Finaliser.SignedAt | src/transaction.rs:193-246 | In a signed unsigned-skeleton, input j spends UTXO j with the signature over its own digest. This uses the corrected P2PKH signature (see Findings). |
| Pipeline.CreateAndSign | src/transaction.rs:36-250 | A run succeeds iff assembly succeeds, and fails with assembly's error otherwise. Signing only adds unlocking data to the assembled transaction. This uses the corrected P2PKH signature (see Findings). |
| Pipeline.AssembleSettles | src/transaction.rs:105-188 | Once UTXOs, payments and change address validate, assembly is settlement of the validated data. |
| Pipeline.SuccessValidates | src/transaction.rs:47-137 | A successful assembly implies every UTXO, every payment and the change address validated. |
| Pipeline.UtxoErrorsComeFirst | src/transaction.rs:47-88 | If UTXO k is the first rejected one, the run fails with UTXO k's error, whatever the payments or funds. |
| Pipeline.RecipientErrorsComeNext | src/transaction.rs:93-96 | If all UTXOs pass and payment k is the first with a bad address, the run fails with that address. |
| Pipeline.ChangeAddressCheckedRegardless | src/transaction.rs:135-137 | With valid UTXOs and payments, a bad change address fails the run even when no change output would be created. |
| Pipeline.FundsCheckDecides | src/transaction.rs:157-163 | A validated run fails iff total input < total payments + fee. |
| Pipeline.ShortfallReported | src/transaction.rs:157-163 | A shortfall is reported as available = total input, required = total payments + fee, and the fee. |
| Pipeline.ShortfallExample | src/transaction.rs:157-163 | With 1,000 in and 2,000 out the run fails with required = 2,000 + fee, at any fee rate. |
| Pipeline.InputValuesSummed | src/transaction.rs:85 | The processed UTXO values sum to the configured total input. |
| Pipeline.OutputsAndDustPolicy | src/transaction.rs:166-176 | The signed transaction pays each payment in configuration order. A change output of exactly the change to the change address follows iff the change is at least 546. |
| Pipeline.ValueConservation | src/transaction.rs:165-176 | Inputs = payments + fee + change. Equally, inputs = the sum of the outputs + fee + the change when it is below 546. |
| Pipeline.SignedInput | src/transaction.rs:193-246 | Signed input j spends UTXO j with the signature over input j's digest of the unsigned transaction. This uses the corrected P2PKH signature (see Findings). |
| Pipeline.SignedInputs | src/transaction.rs:178-249 | The signed transaction is version 2 and lock time 0, with one input per UTXO. Each input spends its UTXO with its resolved sequence and its own signature. This uses the corrected P2PKH signature (see Findings). |
| Pipeline.SegwitSpendExample | src/transaction.rs:146-176 | One 100,000-satoshi P2WPKH UTXO, one payment of 50,000 and P2WPKH change at 5 sat/vB. The fee is 705, and the outputs are the payment then change of 49,295. |
| LegacySignature.FromSlice | src/transaction.rs:212-213 | Parsing succeeds iff the slice is non-empty, its last byte is a standard sighash type and the rest is strict DER. |
| LegacySignature.FromSliceReadsToVec | src/transaction.rs:212-216 | Parsing reads back what `to_vec` writes. |
| LegacySignature.SignP2pkhAsWritten | src/transaction.rs:199-221 | The P2PKH branch as written fails with a signature error whenever the compact signature does not parse as a typed signature. |
| LegacySignature.AsWrittenRejectsCompactSignature | src/transaction.rs:212-213 | With a strict DER parser, the branch as written fails whenever the compact signature's first byte is not 0x30. |
| LegacySignature.CorrectedP2pkhSigns | src/transaction.rs:199-221 | The corrected branch always signs a well-formed P2PKH input. Its script-sig reads back as [DER signature + SIGHASH_ALL, public key]. |

## Left out

- Reading the configuration file, writing the signed transaction, logging and the `main`
  entry point are I/O around the core. They are not modelled; the configuration is a value.
- The command-line argument structure (`CliArgs`) is not modelled beyond the network
  argument's default value.
- Cryptography is not modelled: WIF decoding, public-key derivation, hashing, ECDSA signing
  and DER encoding are opaque functions. "The signature over input j's digest" is therefore
  the strongest statement the model makes about validity. Verifying that signature against
  the public key is not modelled.
- Txid parsing and address parsing with the network check are opaque functions too. The
  model says in which order they are consulted and what their failures become.
- Amounts are unbounded naturals. The source adds and multiplies `u64` values unchecked
  (`total_input_value_sats +=`, `vsize * fee_rate`, `recipients + fee`), which can overflow
  only with totals above 2^64 satoshis, far beyond the money supply.
- Cli.ParseNetwork: lower-cases ASCII letters only. Rust's `to_lowercase` also folds
  non-ASCII letters, which can never turn a name into one of the four accepted spellings
  but changes the text carried by the error.
- The error variants keep their structured fields but not their message texts. The opaque
  library errors are reduced to the input index or a placeholder.
- The BIP 143 preimage keeps the outpoint, sequence and output lists rather than their
  hashes. The digest is an opaque function of the preimage either way.
- `Message::from_digest_slice` and `Message::from_slice` can only fail on a digest that is
  not 32 bytes, and a sighash always is 32 bytes. Those error paths are therefore not
  modelled.
- The compressed flag of a WIF key and the length of the derived public key are both
  backend results. They are not linked, so the worked example states the 33-byte key as an
  assumption.
- The configuration's own `network` field is never read: the network comes from the
  command line. The field is carried in `Config.InputConfig` but plays no part.
- Finaliser.SignInput, Finaliser.SignAll, Finaliser.SignAllResult, Finaliser.SignedAt,
  Pipeline.CreateAndSign, Pipeline.SignedInput and Pipeline.SignedInputs describe signing
  with the corrected P2PKH signature (DER plus SIGHASH_ALL). The code as written fails at
  src/transaction.rs:212 for almost every P2PKH input; LegacySignature models that path
  (see Findings).
- Assembly.Assemble: its contract gives conservation, shape and the shortfall figures only.
  The full outcome is stated through Assembly.Settle and the Pipeline lemmas, which relate
  the two.

## Findings

| source | as written | input that shows it | evidently intended | confidence | as-written member | corrected member |
|---|---|---|---|---|---|---|
| src/transaction.rs:212 | The P2PKH branch builds its signature with `ecdsa::Signature::from_slice(&secp_sig.serialize_compact())`. `from_slice` treats its last byte as the sighash type and DER-parses the rest. A compact signature is the raw 64-byte r‖s, not DER with a type byte. | Any P2PKH input whose compact signature does not start with 0x30 (about 255 in 256 signatures). Its last byte must also be a standard sighash type; otherwise signing fails earlier with the same error. Either way the run fails with a signature error for that input. | Serialize the signature as DER and append SIGHASH_ALL, as the P2WPKH branch does through `from_secp_ecdsa` (lines 236-237). | not executed | LegacySignature.SignP2pkhAsWritten, LegacySignature.AsWrittenRejectsCompactSignature | Finaliser.SignInput, LegacySignature.CorrectedP2pkhSigns |
