/** The `create_new_tx` command (src/subcommands/create_new_tx.rs): checks
    the name, reads a "txid:vout" input, and builds an unsigned transaction
    that spends that output back to an address and commits the namespace
    id in a "gun" OP_RETURN. */
module CreateNewTx {
  import opened Common
  import opened Bitcoin
  import opened Text
  import opened NameCommand
  import Cfg

  /** The five bytes "gun\0\0": the tag, then version 0 and type 0. */
  const GUN_TAG: seq<byte> := [0x67, 0x75, 0x6E, 0x00, 0x00]

  // The hex, txid, integer, address and node errors come from libraries
  // that are not part of this model; their texts here stand in for them
  // and only tell the failing step apart.
  const HEX_DECODE_ERROR: Error := Message("invalid public key hex")
  const INVALID_NAME: Error := Message("invalid name")
  const TXID_PARSE_ERROR: Error := Message("invalid txid")
  const INVALID_INPUT: Error := Message("Invalid input")
  const INT_PARSE_ERROR: Error := Message("invalid digit found in string")
  const ADDRESS_PARSE_ERROR: Error := Message("invalid address")
  const RPC_ERROR: Error := Message("No such mempool or blockchain transaction")
  const INVALID_OUTPUT: Error := Message("Invalid output")
  /** What the unchecked `-=` on a `u64` does when the fee exceeds the value. */
  const SUBTRACT_OVERFLOW: Error := Panic("attempt to subtract with overflow")

  /** The commitment bytes: the tag, then the namespace id. */
  function GunPayload(namespaceId: Nsid): (v: seq<byte>)
    ensures |v| == 25 && v[..5] == GUN_TAG && v[5..] == namespaceId
  {
    GUN_TAG + namespaceId
  }

  /** The outpoint named by a "txid:vout" input: the text before the first
      ':' must parse as a txid, and there must be a second piece, which must
      parse as a `usize`; pieces after the second are ignored. */
  function InputOutpoint(input: string, parseTxid: string -> Option<Txid>): Result<(Txid, nat)> {
    var parts := Split(input, ':');
    if parseTxid(parts[0]).None? then Err(TXID_PARSE_ERROR)
    else if |parts| < 2 then Err(INVALID_INPUT)
    else if ParseUsize(parts[1]).None? then Err(INT_PARSE_ERROR)
    else Ok((parseTxid(parts[0]).value, ParseUsize(parts[1]).value))
  }

  /** Everything `create_new_tx` checks before it builds the transaction,
      in the order it checks it; on success, the outpoint, the address's
      script and the output being spent.
      `pubkeyDecoded`: the hex public key decodes to 32 bytes;
      `nameValid`: the name validator accepts the name;
      `parseTxid`, `address`: the txid parser and the parsed address;
      `config`, `clientNew`: the configuration and `Client::new`, from which
      `config.rpc_client()` builds the RPC client;
      `rawTransactions`: what the node returns for each txid. */
  function Preflight(pubkeyDecoded: bool, nameValid: bool, input: string,
                     parseTxid: string -> Option<Txid>, address: Option<Script>,
                     config: Cfg.Config, clientNew: (string, Cfg.Auth) -> Result<()>,
                     rawTransactions: map<Txid, Transaction>): Result<(Txid, nat, Script, TxOut)>
  {
    if !pubkeyDecoded then Err(HEX_DECODE_ERROR)
    else if !nameValid then Err(INVALID_NAME)
    else match InputOutpoint(input, parseTxid)
      case Err(e) => Err(e)
      case Ok((txid, vout)) =>
        if address.None? then Err(ADDRESS_PARSE_ERROR)
        else if Cfg.RpcClient(config, clientNew).Err? then Err(Cfg.RpcClient(config, clientNew).error)
        else if txid !in rawTransactions then Err(RPC_ERROR)
        else if vout >= |rawTransactions[txid].outputs| then Err(INVALID_OUTPUT)
        else Ok((txid, vout, address.value, rawTransactions[txid].outputs[vout]))
  }

  /** The transaction as first assembled, before the fee is deducted. */
  function BeforeFee(txid: Txid, vout: nat, address: Script, spent: TxOut, namespaceId: Nsid): Transaction {
    Transaction(1, 0,
      [TxIn(OutPoint(txid, vout % U32_MODULUS), [], SEQUENCE_MAX, [])],
      [TxOut(spent.value, address), TxOut(0, NewOpReturn(GunPayload(namespaceId)))])
  }

  /** Reads the outpoint from the input with a `split(':')` iterator:
      the first piece (always present) as the txid, the second as the vout. */
  method ReadOutpoint(input: string, parseTxid: string -> Option<Txid>) returns (r: Result<(Txid, nat)>)
    ensures r == InputOutpoint(input, parseTxid)
  {
    ghost var parts := Split(input, ':');
    var pieces := new SplitIter(input, ':');
    var first := pieces.Next();
    // `split` always yields a first piece, so the first `ok_or` never fails.
    assert first == Some(parts[0]);
    var txid := parseTxid(first.value);
    if txid.None? {
      return Err(TXID_PARSE_ERROR);
    }
    var second := pieces.Next();
    assert second.None? <==> |parts| < 2;
    if second.None? {
      return Err(INVALID_INPUT);
    }
    assert second.value == parts[1];
    var vout := ParseUsize(second.value);
    if vout.None? {
      return Err(INT_PARSE_ERROR);
    }
    return Ok((txid.value, vout.value));
  }

  /** `create_new_tx`. The command prints the transaction; here it is
      returned. `vsize` is the virtual size of a transaction. */
  method CreateNewTx(pubkeyDecoded: bool, nameValid: bool, namespaceId: Nsid, input: string,
                     parseTxid: string -> Option<Txid>, address: Option<Script>,
                     config: Cfg.Config, clientNew: (string, Cfg.Auth) -> Result<()>,
                     rawTransactions: map<Txid, Transaction>,
                     vsize: Transaction -> nat, feeRate: nat) returns (r: Result<Transaction>)
    ensures var pre := Preflight(pubkeyDecoded, nameValid, input, parseTxid, address, config, clientNew, rawTransactions);
      pre.Err? ==> r == Err(pre.error)
    ensures var pre := Preflight(pubkeyDecoded, nameValid, input, parseTxid, address, config, clientNew, rawTransactions);
      pre.Ok? ==>
        var (txid, vout, script, spent) := pre.value;
        var fee := vsize(BeforeFee(txid, vout, script, spent, namespaceId)) * feeRate;
        && (r.Err? <==> fee > spent.value)
        && (r.Err? ==> r.error == SUBTRACT_OVERFLOW)
        && (r.Ok? ==> CommitmentTx(r.value, OutPoint(txid, vout % U32_MODULUS), SEQUENCE_MAX, script, GunPayload(namespaceId)))
        && (r.Ok? ==> TotalOut(r.value.outputs) + fee == spent.value)
  {
    if !pubkeyDecoded {
      return Err(HEX_DECODE_ERROR);
    }
    if !nameValid {
      return Err(INVALID_NAME);
    }
    var outpoint := ReadOutpoint(input, parseTxid);
    if outpoint.Err? {
      return Err(outpoint.error);
    }
    var (txid, vout) := outpoint.value;
    if address.None? {
      return Err(ADDRESS_PARSE_ERROR);
    }
    var client := Cfg.RpcClient(config, clientNew);
    if client.Err? {
      return Err(client.error);
    }
    if txid !in rawTransactions {
      return Err(RPC_ERROR);
    }
    var tx := rawTransactions[txid];
    if vout >= |tx.outputs| {
      return Err(INVALID_OUTPUT);
    }
    var txout := tx.outputs[vout];
    assert Preflight(pubkeyDecoded, nameValid, input, parseTxid, address, config, clientNew, rawTransactions)
        == Ok((txid, vout, address.value, txout));
    var txin := TxIn(OutPoint(txid, vout % U32_MODULUS), [], SEQUENCE_MAX, []);
    var newTxout := TxOut(txout.value, address.value);
    var opReturn := GUN_TAG;
    opReturn := opReturn + namespaceId;
    var opOut := TxOut(0, NewOpReturn(opReturn));
    var newTx := Transaction(1, 0, [txin], [newTxout, opOut]);
    assert newTx == BeforeFee(txid, vout, address.value, txout, namespaceId);
    var fee := vsize(newTx) * feeRate;
    if fee > newTx.outputs[0].value {
      return Err(SUBTRACT_OVERFLOW);
    }
    newTx := newTx.(outputs := newTx.outputs[0 := newTx.outputs[0].(value := newTx.outputs[0].value - fee)]);
    assert newTx.outputs[1..] == [opOut] && TotalOut([opOut]) == 0;
    return Ok(newTx);
  }

  /** Name checks come first: an invalid name (or key) builds nothing,
      whatever the input, the address and the node say. */
  lemma NameCheckedFirst(pubkeyDecoded: bool, nameValid: bool, input: string,
                         parseTxid: string -> Option<Txid>, address: Option<Script>,
                         config: Cfg.Config, clientNew: (string, Cfg.Auth) -> Result<()>,
                         rawTransactions: map<Txid, Transaction>)
    requires !pubkeyDecoded || !nameValid
    ensures Preflight(pubkeyDecoded, nameValid, input, parseTxid, address, config, clientNew, rawTransactions)
         in {Err(HEX_DECODE_ERROR), Err(INVALID_NAME)}
  {
  }

  /** "Invalid input" comes exactly from an input with no ':' whose first
      part parses as a txid (errors are told apart by their text, so a
      client whose own error reads the same is set aside). */
  lemma InvalidInputExactly(input: string, parseTxid: string -> Option<Txid>, address: Option<Script>,
                            config: Cfg.Config, clientNew: (string, Cfg.Auth) -> Result<()>,
                            rawTransactions: map<Txid, Transaction>)
    requires Cfg.RpcClient(config, clientNew) != Err(INVALID_INPUT)
    ensures Preflight(true, true, input, parseTxid, address, config, clientNew, rawTransactions) == Err(INVALID_INPUT)
        <==> ':' !in input && parseTxid(input).Some?
  {
    SplitHasSecondPiece(input, ':');
    if ':' !in input {
      assert Split(input, ':') == [input];
    }
  }

  /** Only the first two parts matter: appending ":anything" to an input
      that already has two parts changes nothing. */
  lemma ExtraPartsIgnored(input: string, extra: string, parseTxid: string -> Option<Txid>,
                          address: Option<Script>, config: Cfg.Config, clientNew: (string, Cfg.Auth) -> Result<()>,
                          rawTransactions: map<Txid, Transaction>)
    requires ':' in input
    ensures Preflight(true, true, input + ":" + extra, parseTxid, address, config, clientNew, rawTransactions)
         == Preflight(true, true, input, parseTxid, address, config, clientNew, rawTransactions)
  {
    SplitAppend(input, extra);
  }

  /** The first two pieces of a split survive appending ":extra". */
  lemma SplitAppend(s: string, extra: string)
    requires ':' in s
    ensures var a, b := Split(s + ":" + extra, ':'), Split(s, ':');
      |a| >= |b| >= 2 && a[0] == b[0] && a[1] == b[1]
  {
    var (before, after) := SplitOnce(s, ':').value;
    var rest := after + [':'] + extra;
    assert s + ":" + extra == before + [':'] + rest;
    SplitOnceAt(before, ':', rest);
    var a, b := Split(s + ":" + extra, ':'), Split(s, ':');
    assert a == [before] + Split(rest, ':');
    assert b == [before] + Split(after, ':');
    SplitFirstPieceStable(after, ':', extra);
    LongerSplit(after, extra);
    assert after + ":" + extra == rest;
  }

  lemma {:induction false} LongerSplit(s: string, extra: string)
    ensures |Split(s + ":" + extra, ':')| > |Split(s, ':')|
    decreases |s|
  {
    match SplitOnce(s, ':')
    case None =>
      SplitOnceAt(s, ':', extra);
    case Some((before, after)) =>
      assert s + ":" + extra == before + [':'] + (after + [':'] + extra);
      SplitOnceAt(before, ':', after + [':'] + extra);
      LongerSplit(after, extra);
  }

  /** The RPC client is built only once the input and the address have
      parsed, and before the node is asked for anything: with a good input
      and address, a failure to build it is the command's error whatever
      the node holds; with a bad input it is never consulted. */
  lemma ClientAfterAddressBeforeNode(input: string, parseTxid: string -> Option<Txid>, address: Option<Script>,
                                     config: Cfg.Config, clientNew: (string, Cfg.Auth) -> Result<()>,
                                     rawTransactions: map<Txid, Transaction>,
                                     otherClientNew: (string, Cfg.Auth) -> Result<()>,
                                     otherTransactions: map<Txid, Transaction>)
    ensures InputOutpoint(input, parseTxid).Err? || address.None? ==>
      Preflight(true, true, input, parseTxid, address, config, clientNew, rawTransactions)
      == Preflight(true, true, input, parseTxid, address, config, otherClientNew, otherTransactions)
    ensures InputOutpoint(input, parseTxid).Ok? && address.Some? && Cfg.RpcClient(config, clientNew).Err? ==>
      Preflight(true, true, input, parseTxid, address, config, clientNew, rawTransactions)
      == Preflight(true, true, input, parseTxid, address, config, clientNew, otherTransactions)
      == Err(Cfg.RpcClient(config, clientNew).error)
  {
  }

  /** "Invalid output" comes exactly from a vout that indexes no output of
      the fetched transaction. */
  lemma InvalidOutputExactly(input: string, parseTxid: string -> Option<Txid>, address: Script,
                             config: Cfg.Config, clientNew: (string, Cfg.Auth) -> Result<()>,
                             rawTransactions: map<Txid, Transaction>)
    requires |Split(input, ':')| >= 2
    requires parseTxid(Split(input, ':')[0]).Some? && ParseUsize(Split(input, ':')[1]).Some?
    requires Cfg.RpcClient(config, clientNew).Ok?
    requires parseTxid(Split(input, ':')[0]).value in rawTransactions
    ensures var txid, vout := parseTxid(Split(input, ':')[0]).value, ParseUsize(Split(input, ':')[1]).value;
      var pre := Preflight(true, true, input, parseTxid, Some(address), config, clientNew, rawTransactions);
      pre == Err(INVALID_OUTPUT) <==> vout >= |rawTransactions[txid].outputs|
  {
  }
}
