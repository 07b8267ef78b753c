/** Bitcoin script bytes: the opcodes the signer uses, the two locking-script templates it
    spends, the push encoding of its script builder, and a reader for pushes. */
module Scripts {
  import opened Results
  import opened Bytes

  type Script = seq<byte>

  const OP_0: byte := 0x00
  const OP_PUSHBYTES_20: byte := 0x14
  const OP_PUSHDATA1: byte := 0x4c
  const OP_PUSHDATA2: byte := 0x4d
  const OP_PUSHDATA4: byte := 0x4e
  const OP_DUP: byte := 0x76
  const OP_EQUALVERIFY: byte := 0x88
  const OP_HASH160: byte := 0xa9
  const OP_CHECKSIG: byte := 0xac

  /** The library's byte test for pay-to-public-key-hash. */
  predicate IsP2pkh(s: Script) {
    && |s| == 25
    && s[0] == OP_DUP && s[1] == OP_HASH160 && s[2] == OP_PUSHBYTES_20
    && s[23] == OP_EQUALVERIFY && s[24] == OP_CHECKSIG
  }

  /** The library's byte test for a version 0 witness program of 20 bytes (BIP 141). */
  predicate IsP2wpkh(s: Script) {
    |s| == 22 && s[0] == OP_0 && s[1] == OP_PUSHBYTES_20
  }

  /** `DUP HASH160 <hash> EQUALVERIFY CHECKSIG` */
  function P2pkhScript(hash: seq<byte>): (s: Script)
    requires |hash| == 20
    ensures IsP2pkh(s)
  {
    [OP_DUP, OP_HASH160, OP_PUSHBYTES_20] + hash + [OP_EQUALVERIFY, OP_CHECKSIG]
  }

  /** `0 <program>` */
  function P2wpkhScript(program: seq<byte>): (s: Script)
    requires |program| == 20
    ensures IsP2wpkh(s)
  {
    [OP_0, OP_PUSHBYTES_20] + program
  }

  /** The byte test accepts exactly the instances of the template. */
  lemma P2pkhTemplate(s: Script)
    ensures IsP2pkh(s) <==> exists hash :: |hash| == 20 && s == P2pkhScript(hash)
  {
    if IsP2pkh(s) {
      assert s == P2pkhScript(s[3..23]);
    }
  }

  lemma P2wpkhTemplate(s: Script)
    ensures IsP2wpkh(s) <==> exists program :: |program| == 20 && s == P2wpkhScript(program)
  {
    if IsP2wpkh(s) {
      assert s == P2wpkhScript(s[2..]);
    }
  }

  /** The BIP 143 script code of a P2WPKH output: the P2PKH script over the same 20 bytes.
      The library returns nothing for any other script. */
  function P2wpkhScriptCode(scriptPubkey: Script): (r: Option<Script>)
    ensures r.Some? <==> IsP2wpkh(scriptPubkey)
    ensures r.Some? ==> IsP2pkh(r.value) && r.value[3..23] == scriptPubkey[2..]
  {
    if IsP2wpkh(scriptPubkey) then Some(P2pkhScript(scriptPubkey[2..])) else None
  }

  /** The length prefix the script builder writes before `n` pushed bytes. */
  function PushPrefix(n: nat): (p: seq<byte>)
    requires n < 0x1_0000_0000
    ensures 1 <= |p| <= 5
  {
    assert Pow256(2) == 0x1_0000 && Pow256(4) == 0x1_0000_0000;
    if n < OP_PUSHDATA1 as nat then [n]
    else if n < 0x100 then [OP_PUSHDATA1, n]
    else if n < 0x1_0000 then [OP_PUSHDATA2] + LittleEndian(n, 2)
    else [OP_PUSHDATA4] + LittleEndian(n, 4)
  }

  /** The builder's `push_slice` (and `push_key`, which pushes the key's serialization). */
  function PushSlice(data: seq<byte>): (s: Script)
    requires |data| < 0x1_0000_0000
    ensures |s| > |data|
  {
    PushPrefix(|data|) + data
  }

  function Take(s: Script, n: nat): Option<(seq<byte>, Script)> {
    if n <= |s| then Some((s[..n], s[n..])) else None
  }

  /** Reads one data push from the front of a script: the pushed bytes and what follows. */
  function ReadPush(s: Script): (r: Option<(seq<byte>, Script)>)
    ensures r.Some? ==> |r.value.1| < |s|
  {
    if |s| == 0 then None
    else if s[0] < OP_PUSHDATA1 then Take(s[1..], s[0])
    else if s[0] == OP_PUSHDATA1 && |s| >= 2 then Take(s[2..], s[1])
    else if s[0] == OP_PUSHDATA2 && |s| >= 3 then Take(s[3..], FromLittleEndian(s[1..3]))
    else if s[0] == OP_PUSHDATA4 && |s| >= 5 then Take(s[5..], FromLittleEndian(s[1..5]))
    else None
  }

  /** Reads a script made only of data pushes; None if anything else is in it. */
  function ReadPushes(s: Script): Option<seq<seq<byte>>>
    decreases |s|
  {
    if |s| == 0 then Some([])
    else
      match ReadPush(s)
      case None => None
      case Some(p) =>
        match ReadPushes(p.1)
        case None => None
        case Some(items) => Some([p.0] + items)
  }

  /** Reading back a push gives exactly the pushed bytes and leaves the rest untouched. */
  lemma ReadPushSlice(data: seq<byte>, rest: Script)
    requires |data| < 0x1_0000_0000
    ensures ReadPush(PushSlice(data) + rest) == Some((data, rest))
  {
    assert Pow256(2) == 0x1_0000 && Pow256(4) == 0x1_0000_0000;
    if |data| < OP_PUSHDATA1 as nat {
      ReadDirectPush(data, rest);
    } else if |data| < 0x100 {
      ReadPushData1(data, rest);
    } else if |data| < 0x1_0000 {
      ReadPushData2(data, rest);
    } else {
      ReadPushData4(data, rest);
    }
  }

  lemma ReadDirectPush(data: seq<byte>, rest: Script)
    requires |data| < OP_PUSHDATA1 as nat
    ensures ReadPush(PushSlice(data) + rest) == Some((data, rest))
  {
    var s := PushSlice(data) + rest;
    assert s[0] == |data| as byte;
    assert s[1..] == data + rest;
  }

  lemma ReadPushData1(data: seq<byte>, rest: Script)
    requires OP_PUSHDATA1 as nat <= |data| < 0x100
    ensures ReadPush(PushSlice(data) + rest) == Some((data, rest))
  {
    var s := PushSlice(data) + rest;
    assert s[0] == OP_PUSHDATA1 && s[1] == |data| as byte;
    assert s[2..] == data + rest;
  }

  lemma ReadPushData2(data: seq<byte>, rest: Script)
    requires 0x100 <= |data| < 0x1_0000
    ensures ReadPush(PushSlice(data) + rest) == Some((data, rest))
  {
    var n := |data|;
    assert Pow256(2) == 0x1_0000 && Pow256(4) == 0x1_0000_0000;
    var len := LittleEndian(n, 2);
    assert PushPrefix(n) == [OP_PUSHDATA2] + len;
    var s := [OP_PUSHDATA2] + len + data + rest;
    assert s == PushSlice(data) + rest;
    assert s[0] == OP_PUSHDATA2;
    assert s[1..3] == len;
    LittleEndianRoundTrip(n, 2);
    assert FromLittleEndian(s[1..3]) == n;
    assert s[3..] == data + rest;
    assert ReadPush(s) == Take(s[3..], n);
  }

  lemma ReadPushData4(data: seq<byte>, rest: Script)
    requires 0x1_0000 <= |data| < 0x1_0000_0000
    ensures ReadPush(PushSlice(data) + rest) == Some((data, rest))
  {
    var n := |data|;
    assert Pow256(2) == 0x1_0000 && Pow256(4) == 0x1_0000_0000;
    var len := LittleEndian(n, 4);
    assert PushPrefix(n) == [OP_PUSHDATA4] + len;
    var s := [OP_PUSHDATA4] + len + data + rest;
    assert s == PushSlice(data) + rest;
    assert s[0] == OP_PUSHDATA4;
    assert s[1..5] == len;
    LittleEndianRoundTrip(n, 4);
    assert FromLittleEndian(s[1..5]) == n;
    assert s[5..] == data + rest;
    assert ReadPush(s) == Take(s[5..], n);
  }

  lemma ReadPushesCons(s: Script, item: seq<byte>, rest: Script, items: seq<seq<byte>>)
    requires ReadPush(s) == Some((item, rest)) && ReadPushes(rest) == Some(items)
    ensures ReadPushes(s) == Some([item] + items)
  {
  }

  /** A script built from two pushes reads back as exactly those two items. */
  lemma ReadTwoPushes(first: seq<byte>, second: seq<byte>)
    requires |first| < 0x1_0000_0000 && |second| < 0x1_0000_0000
    ensures ReadPushes(PushSlice(first) + PushSlice(second)) == Some([first, second])
  {
    var whole := PushSlice(first) + PushSlice(second);
    ReadPushSlice(first, PushSlice(second));
    ReadPushSlice(second, []);
    assert PushSlice(second) + [] == PushSlice(second);
    ReadPushesCons(PushSlice(second), second, [], []);
    assert [second] + [] == [second];
    ReadPushesCons(whole, first, PushSlice(second), [second]);
    assert [first] + [second] == [first, second];
  }
}
