/** The block-chain indexer (src/subcommands/index_blockchain.rs): walks the
    chain along `nextblockhash` from the start height, and reports every
    "gun" OP_RETURN output it finds. The node is a value passed in; the
    log lines the indexer emits are its observable output. */
module IndexBlockchain {
  import opened Common
  import opened Bitcoin

  type BlockHash = seq<byte>

  /** What `getblock` reports about one block. */
  datatype BlockInfo = BlockInfo(height: nat, txids: seq<Txid>, next: Option<BlockHash>)

  /** The node's answers: `getblockhash`, `getblock`, `getrawtransaction`. */
  datatype Node = Node(
    blockHashes: map<nat, BlockHash>,
    blocks: map<BlockHash, BlockInfo>,
    transactions: map<Txid, Transaction>)

  datatype Level = Info | Debug | ErrorLevel

  /** A line of the indexer's log. */
  datatype LogLine =
    | StartingIndex(start: nat)
    | IndexingHeight(level: Level, height: nat)
    | GunOutputFound(payload: seq<byte>)
    | IndexError(error: Error)

  /** What a run returns, with the lines it logged on the way. */
  datatype Outcome = Outcome(result: Result<()>, log: seq<LogLine>)

  const UNWRAP_NONE: Error := Panic("called `Option::unwrap()` on a `None` value")
  const HEIGHT_OUT_OF_RANGE: Error := Message("Block height out of range")
  const BLOCK_NOT_FOUND: Error := Message("Block not found")
  const NO_SUCH_TRANSACTION: Error := Message("No such mempool or blockchain transaction")
  const INVALID_GUN_CODE: Error := Message("Invalid GUN code")
  /** "gun" */
  const GUN: seq<byte> := [0x67, 0x75, 0x6E]

  /** `log_height`: every tenth height at info level, the rest at debug. */
  function LogHeight(height: nat): (line: LogLine)
    ensures line.IndexingHeight? && line.height == height
    ensures line.level == Info <==> height % 10 == 0
    ensures line.level != Info ==> line.level == Debug
  {
    if height % 10 == 0 then IndexingHeight(Info, height) else IndexingHeight(Debug, height)
  }

  /** `starting_blockheight`: only regtest is supported, from height 1. */
  function StartingBlockheight(network: Network): (r: Result<nat>)
    ensures r.Ok? <==> network == Regtest
    ensures r.Ok? ==> r.value == 1
    ensures r.Err? ==> r.error == Message("Unsupported network " + NetworkName(network))
  {
    match network
    case Bitcoin => Err(Message("Unsupported network " + NetworkName(network)))
    case Testnet => Err(Message("Unsupported network " + NetworkName(network)))
    case Signet => Err(Message("Unsupported network " + NetworkName(network)))
    case Regtest => Ok(1)
  }

  /** `parse_gun_output`: a version byte and a type byte, both 0, then the
      payload. */
  function ParseGunOutput(b: seq<byte>): (r: Result<seq<byte>>)
    ensures r.Ok? <==> |b| >= 2 && b[0] == 0 && b[1] == 0
    ensures r.Ok? ==> b == [0, 0] + r.value
    ensures r.Err? ==> r.error == INVALID_GUN_CODE
  {
    if |b| >= 2 && b[0] == 0 && b[1] == 0 then Ok(b[2..]) else Err(INVALID_GUN_CODE)
  }

  /** The log line for a parsed (or rejected) gun output. */
  function GunLine(parsed: Result<seq<byte>>): LogLine {
    if parsed.Ok? then GunOutputFound(parsed.value) else IndexError(parsed.error)
  }

  /** An output the indexer parses: an OP_RETURN whose bytes after the two
      header bytes start with "gun". */
  predicate IsGunScript(s: Script) {
    IsOpReturn(s) && |s| >= 5 && s[2..5] == GUN
  }

  /** The body of the output loop AS WRITTEN: `as_bytes()[2..]` on any
      OP_RETURN script, which panics on the one-byte script [OP_RETURN]. */
  function ScanOutputAsWritten(s: Script): (r: Result<seq<LogLine>>)
  {
    if !IsOpReturn(s) then Ok([])
    else if |s| < 2 then Err(Panic("range start index 2 out of range for slice of length 1"))
    else
      var b := s[2..];
      if |b| >= 3 && b[..3] == GUN then Ok([GunLine(ParseGunOutput(b[3..]))]) else Ok([])
  }

  /** The body of the output loop, corrected to skip OP_RETURN scripts too
      short to hold the two header bytes. */
  function ScanOutput(s: Script): (lines: seq<LogLine>)
    ensures lines != [] <==> IsGunScript(s)
    ensures IsGunScript(s) ==> lines == [GunLine(ParseGunOutput(s[5..]))]
  {
    if IsOpReturn(s) && |s| >= 2 then
      var b := s[2..];
      if |b| >= 3 && b[..3] == GUN then
        assert b[3..] == s[5..];
        [GunLine(ParseGunOutput(b[3..]))]
      else []
    else []
  }

  /** The bare OP_RETURN script panics the indexer as written, and the
      corrected scan skips it. */
  lemma BareOpReturnPanics()
    ensures IsOpReturn([OP_RETURN])
    ensures ScanOutputAsWritten([OP_RETURN]).Err? && ScanOutputAsWritten([OP_RETURN]).error.Panic?
    ensures ScanOutput([OP_RETURN]) == []
  {
  }

  /** The corrected scan changes nothing where the code as written does not
      panic, and that is everywhere except the one-byte OP_RETURN. */
  lemma ScanOutputCorrectsOnlyThePanic(s: Script)
    ensures ScanOutputAsWritten(s).Err? <==> s == [OP_RETURN]
    ensures ScanOutputAsWritten(s).Ok? ==> ScanOutputAsWritten(s).value == ScanOutput(s)
  {
  }

  /** The lines for a transaction's outputs, in output order. */
  function ScanOutputs(outputs: seq<TxOut>): seq<LogLine> {
    if outputs == [] then []
    else ScanOutputs(outputs[..|outputs| - 1]) + ScanOutput(outputs[|outputs| - 1].scriptPubkey)
  }

  /** A rejected gun output does not stop the scan: the lines for a list
      of outputs are the lines for each part, one after the other. */
  lemma {:induction false} ScanOutputsAppend(a: seq<TxOut>, b: seq<TxOut>)
    ensures ScanOutputs(a + b) == ScanOutputs(a) + ScanOutputs(b)
    decreases |b|
  {
    if b == [] {
      assert a + b == a;
    } else {
      var n := |b| - 1;
      var last := ScanOutput(b[n].scriptPubkey);
      assert (a + b)[..|a + b| - 1] == a + b[..n];
      assert (a + b)[|a + b| - 1] == b[n];
      assert ScanOutputs(a + b) == ScanOutputs(a + b[..n]) + last;
      ScanOutputsAppend(a, b[..n]);
      assert ScanOutputs(b) == ScanOutputs(b[..n]) + last;
    }
  }

  /** Only gun outputs log anything; every line is a find or an error. */
  lemma {:induction false} ScanOutputsOnlyGun(outputs: seq<TxOut>)
    ensures (forall i :: 0 <= i < |outputs| ==> !IsGunScript(outputs[i].scriptPubkey))
        ==> ScanOutputs(outputs) == []
    ensures forall k :: 0 <= k < |ScanOutputs(outputs)| ==>
              ScanOutputs(outputs)[k].GunOutputFound? || ScanOutputs(outputs)[k].IndexError?
  {
    if outputs != [] {
      var n := |outputs| - 1;
      ScanOutputsOnlyGun(outputs[..n]);
      assert forall i :: 0 <= i < n ==> outputs[..n][i] == outputs[i];
    }
  }

  /** The lines for a block's transactions, in order; a transaction the
      node does not know ends the run with an error. */
  function ScanTxids(node: Node, txids: seq<Txid>): Outcome {
    if txids == [] then Outcome(Ok(()), [])
    else
      var o := ScanTxids(node, txids[..|txids| - 1]);
      var txid := txids[|txids| - 1];
      if o.result.Err? then o
      else if txid !in node.transactions then Outcome(Err(NO_SUCH_TRANSACTION), o.log)
      else Outcome(Ok(()), o.log + ScanOutputs(node.transactions[txid].outputs))
  }

  /** `getblock` heights go up along `nextblockhash` links. */
  predicate HeightsIncrease(node: Node) {
    forall h :: h in node.blocks && node.blocks[h].next.Some? && node.blocks[h].next.value in node.blocks ==>
      node.blocks[h].height < node.blocks[node.blocks[h].next.value].height
  }

  /** The blocks at `height` or above. */
  function Above(blocks: map<BlockHash, BlockInfo>, height: nat): set<BlockHash> {
    set h | h in blocks && blocks[h].height >= height
  }

  lemma AboveShrinks(blocks: map<BlockHash, BlockInfo>, from: BlockHash, to: BlockHash)
    requires from in blocks && to in blocks && blocks[from].height < blocks[to].height
    ensures |Above(blocks, blocks[to].height)| < |Above(blocks, blocks[from].height)|
  {
    var lower, upper := Above(blocks, blocks[from].height), Above(blocks, blocks[to].height);
    assert upper <= lower - {from};
    SubsetCard(upper, lower - {from});
  }

  lemma {:induction false} SubsetCard<T>(a: set<T>, b: set<T>)
    requires a <= b
    ensures |a| <= |b|
    decreases |b|
  {
    if b != {} {
      var x :| x in b;
      SubsetCard(a - {x}, b - {x});
    }
  }

  function WalkMeasure(node: Node, hash: BlockHash): nat {
    if hash in node.blocks then |Above(node.blocks, node.blocks[hash].height)| else 0
  }

  /** The walk from the block `hash`: each block that has a next hash is
      logged and scanned, then the walk moves to the next block; the first
      block with no next hash ends the walk unscanned. */
  function Walk(node: Node, hash: BlockHash): Outcome
    requires HeightsIncrease(node)
    decreases WalkMeasure(node, hash)
  {
    if hash !in node.blocks then Outcome(Err(BLOCK_NOT_FOUND), [])
    else
      var info := node.blocks[hash];
      match info.next
      case None => Outcome(Ok(()), [])
      case Some(next) =>
        var scanned := ScanTxids(node, info.txids);
        var here := [LogHeight(info.height)] + scanned.log;
        if scanned.result.Err? then Outcome(scanned.result, here)
        else
          assert WalkMeasure(node, next) < WalkMeasure(node, hash) by {
            assert hash in Above(node.blocks, info.height);
            if next in node.blocks {
              AboveShrinks(node.blocks, hash, next);
            }
          }
          var rest := Walk(node, next);
          Outcome(rest.result, here + rest.log)
  }

  /** A whole run of `index_blockchain`. `client` is the node, or the error
      building the RPC client gave. */
  function IndexRun(network: Option<Network>, client: Result<Node>): Outcome
    requires client.Ok? ==> HeightsIncrease(client.value)
  {
    if network.None? then Outcome(Err(UNWRAP_NONE), [])
    else match StartingBlockheight(network.value)
      case Err(e) => Outcome(Err(e), [])
      case Ok(height) =>
        var started := [StartingIndex(height)];
        match client
        case Err(e) => Outcome(Err(e), started)
        case Ok(node) =>
          if height !in node.blockHashes then Outcome(Err(HEIGHT_OUT_OF_RANGE), started)
          else
            var walked := Walk(node, node.blockHashes[height]);
            Outcome(walked.result, started + walked.log)
  }

  /** `index_blockchain`. */
  method IndexBlockchainRun(network: Option<Network>, client: Result<Node>) returns (r: Result<()>, log: seq<LogLine>)
    requires client.Ok? ==> HeightsIncrease(client.value)
    ensures Outcome(r, log) == IndexRun(network, client)
  {
    log := [];
    if network.None? {
      return Err(UNWRAP_NONE), log;
    }
    var start := StartingBlockheight(network.value);
    if start.Err? {
      return Err(start.error), log;
    }
    var height := start.value;
    log := log + [StartingIndex(height)];
    if client.Err? {
      return Err(client.error), log;
    }
    var node := client.value;
    if height !in node.blockHashes {
      return Err(HEIGHT_OUT_OF_RANGE), log;
    }
    var walked := WalkChain(node, node.blockHashes[height]);
    return walked.result, log + walked.log;
  }

  /** The `while let` loop of `index_blockchain`, from the block `blockhash`:
      fetch the block, and while it has a next hash, log its height, scan
      its transactions and move on. */
  method WalkChain(node: Node, blockhash: BlockHash) returns (o: Outcome)
    requires HeightsIncrease(node)
    ensures o == Walk(node, blockhash)
  {
    var log := [];
    var hash := blockhash;
    if hash !in node.blocks {
      return Outcome(Err(BLOCK_NOT_FOUND), log);
    }
    var blockinfo := node.blocks[hash];
    while blockinfo.next.Some?
      invariant hash in node.blocks && blockinfo == node.blocks[hash]
      invariant Walk(node, blockhash) == Then(log, Walk(node, hash))
      decreases WalkMeasure(node, hash)
    {
      var nextHash := blockinfo.next.value;
      WalkStepAfter(node, hash, log);
      log := log + [LogHeight(blockinfo.height)];
      var scanned := ScanBlock(node, blockinfo.txids);
      log := log + scanned.log;
      if scanned.result.Err? {
        return Outcome(scanned.result, log);
      }
      hash := nextHash;
      if hash !in node.blocks {
        return Outcome(Err(BLOCK_NOT_FOUND), log);
      }
      blockinfo := node.blocks[hash];
    }
    return Outcome(Ok(()), log);
  }

  /** One step of the walk after `log`, for a block with a next hash. */
  lemma WalkStepAfter(node: Node, hash: BlockHash, log: seq<LogLine>)
    requires HeightsIncrease(node) && hash in node.blocks && node.blocks[hash].next.Some?
    ensures var info := node.blocks[hash];
      var next := info.next.value;
      var scanned := ScanTxids(node, info.txids);
      var after := log + [LogHeight(info.height)] + scanned.log;
      && WalkMeasure(node, next) < WalkMeasure(node, hash)
      && (scanned.result.Err? ==> Then(log, Walk(node, hash)) == Outcome(scanned.result, after))
      && (scanned.result.Ok? ==> Then(log, Walk(node, hash)) == Then(after, Walk(node, next)))
      && (next !in node.blocks ==> Walk(node, next) == Outcome(Err(BLOCK_NOT_FOUND), []))
  {
    WalkStep(node, hash);
    var info := node.blocks[hash];
    var scanned := ScanTxids(node, info.txids);
    var here := [LogHeight(info.height)] + scanned.log;
    assert log + here == log + [LogHeight(info.height)] + scanned.log;
    if scanned.result.Ok? {
      var rest := Walk(node, info.next.value);
      assert log + (here + rest.log) == (log + here) + rest.log;
    }
  }

  /** One step of the walk, for a block with a next hash. */
  lemma WalkStep(node: Node, hash: BlockHash)
    requires HeightsIncrease(node) && hash in node.blocks && node.blocks[hash].next.Some?
    ensures var info := node.blocks[hash];
      var next := info.next.value;
      var scanned := ScanTxids(node, info.txids);
      var here := [LogHeight(info.height)] + scanned.log;
      && WalkMeasure(node, next) < WalkMeasure(node, hash)
      && (scanned.result.Err? ==> Walk(node, hash) == Outcome(scanned.result, here))
      && (scanned.result.Ok? ==> Walk(node, hash) == Then(here, Walk(node, next)))
  {
    var info := node.blocks[hash];
    assert hash in Above(node.blocks, info.height);
    if info.next.value in node.blocks {
      AboveShrinks(node.blocks, hash, info.next.value);
    }
  }

  /** `log` followed by what `o` logs, with `o`'s result. */
  function Then(log: seq<LogLine>, o: Outcome): Outcome {
    Outcome(o.result, log + o.log)
  }

  /** The transaction loop of one block: fetch each transaction and scan
      its outputs. */
  method ScanBlock(node: Node, txids: seq<Txid>) returns (o: Outcome)
    ensures o == ScanTxids(node, txids)
  {
    var log := [];
    var i := 0;
    while i < |txids|
      invariant 0 <= i <= |txids|
      invariant ScanTxids(node, txids[..i]) == Outcome(Ok(()), log)
    {
      assert txids[..i + 1][..i] == txids[..i];
      var txid := txids[i];
      if txid !in node.transactions {
        assert ScanTxids(node, txids[..i + 1]) == Outcome(Err(NO_SUCH_TRANSACTION), log);
        ScanTxidsStopsAtError(node, txids, i + 1);
        return Outcome(Err(NO_SUCH_TRANSACTION), log);
      }
      var lines := ScanTransaction(node.transactions[txid].outputs);
      log := log + lines;
      i := i + 1;
    }
    assert txids[..i] == txids;
    return Outcome(Ok(()), log);
  }

  /** The output loop of one transaction. */
  method ScanTransaction(outputs: seq<TxOut>) returns (log: seq<LogLine>)
    ensures log == ScanOutputs(outputs)
  {
    log := [];
    var j := 0;
    while j < |outputs|
      invariant 0 <= j <= |outputs|
      invariant log == ScanOutputs(outputs[..j])
    {
      assert outputs[..j + 1][..j] == outputs[..j];
      log := log + ScanOutput(outputs[j].scriptPubkey);
      j := j + 1;
    }
    assert outputs[..j] == outputs;
  }

  /** Once a prefix of the transactions fails, the whole block fails the
      same way. */
  lemma {:induction false} ScanTxidsStopsAtError(node: Node, txids: seq<Txid>, k: nat)
    requires k <= |txids| && ScanTxids(node, txids[..k]).result.Err?
    ensures ScanTxids(node, txids) == ScanTxids(node, txids[..k])
    decreases |txids| - k
  {
    if k < |txids| {
      assert txids[..k + 1][..k] == txids[..k];
      ScanTxidsStopsAtError(node, txids, k + 1);
    } else {
      assert txids[..k] == txids;
    }
  }

  /** The walk ends at the first block with no next hash, without logging
      or scanning it. */
  lemma LastBlockNotScanned(node: Node, hash: BlockHash)
    requires HeightsIncrease(node) && hash in node.blocks && node.blocks[hash].next.None?
    ensures Walk(node, hash) == Outcome(Ok(()), [])
  {
  }

  /** The heights the walk logs, in order. */
  function Heights(log: seq<LogLine>): seq<nat> {
    if log == [] then []
    else (if log[0].IndexingHeight? then [log[0].height] else []) + Heights(log[1..])
  }

  lemma {:induction false} HeightsAppend(a: seq<LogLine>, b: seq<LogLine>)
    ensures Heights(a + b) == Heights(a) + Heights(b)
    decreases |a|
  {
    if a == [] {
      assert a + b == b;
    } else {
      var head := if a[0].IndexingHeight? then [a[0].height] else [];
      assert (a + b)[0] == a[0];
      assert (a + b)[1..] == a[1..] + b;
      assert Heights(a + b) == head + Heights(a[1..] + b);
      HeightsAppend(a[1..], b);
      assert Heights(a) == head + Heights(a[1..]);
    }
  }

  lemma {:induction false} HeightsOfScan(node: Node, txids: seq<Txid>)
    ensures Heights(ScanTxids(node, txids).log) == []
  {
    if txids != [] {
      var n := |txids| - 1;
      HeightsOfScan(node, txids[..n]);
      var o := ScanTxids(node, txids[..n]);
      if o.result.Ok? && txids[n] in node.transactions {
        var outs := node.transactions[txids[n]].outputs;
        HeightsAppend(o.log, ScanOutputs(outs));
        HeightsOfOutputs(outs);
      }
    }
  }

  lemma {:induction false} HeightsOfOutputs(outputs: seq<TxOut>)
    ensures Heights(ScanOutputs(outputs)) == []
  {
    if outputs != [] {
      var n := |outputs| - 1;
      HeightsOfOutputs(outputs[..n]);
      var line := ScanOutput(outputs[n].scriptPubkey);
      HeightsAppend(ScanOutputs(outputs[..n]), line);
      if line != [] {
        assert line[1..] == [];
      }
    }
  }

  /** Each `nextblockhash` names the block one higher. */
  predicate NextIsOneHigher(node: Node) {
    forall h :: h in node.blocks && node.blocks[h].next.Some? && node.blocks[h].next.value in node.blocks ==>
      node.blocks[node.blocks[h].next.value].height == node.blocks[h].height + 1
  }

  /** On a chain whose links go up one height at a time, the walk logs the
      consecutive heights from where it starts, one per scanned block. */
  lemma {:induction false} WalkVisitsConsecutiveHeights(node: Node, hash: BlockHash)
    requires HeightsIncrease(node) && NextIsOneHigher(node) && hash in node.blocks
    ensures var hs := Heights(Walk(node, hash).log);
      forall i :: 0 <= i < |hs| ==> hs[i] == node.blocks[hash].height + i
    decreases WalkMeasure(node, hash)
  {
    var info := node.blocks[hash];
    if info.next.Some? {
      var next := info.next.value;
      var scanned := ScanTxids(node, info.txids);
      var here := [LogHeight(info.height)] + scanned.log;
      HeightsAppend([LogHeight(info.height)], scanned.log);
      HeightsOfScan(node, info.txids);
      assert Heights([LogHeight(info.height)]) == [info.height] by {
        assert [LogHeight(info.height)][1..] == [];
      }
      assert Heights(here) == [info.height];
      WalkStep(node, hash);
      if scanned.result.Ok? {
        var rest := Walk(node, next);
        assert Walk(node, hash).log == here + rest.log;
        HeightsAppend(here, rest.log);
        if next in node.blocks {
          WalkVisitsConsecutiveHeights(node, next);
          var hs := Heights(Walk(node, hash).log);
          assert hs == [info.height] + Heights(rest.log);
          assert forall i :: 1 <= i < |hs| ==> hs[i] == Heights(rest.log)[i - 1];
        } else {
          assert rest.log == [];
        }
      } else {
        assert Walk(node, hash).log == here;
      }
    }
  }
}
