/** The `name` subcommand's commitment and transaction builder
    (src/subcommands/name/mod.rs): the `IND` OP_RETURN payload and the
    unsigned one-input, two-output transaction that carries it. */
module NameCommand {
  import opened Common
  import opened Bitcoin
  import opened Cfg

  /** The four bytes "IND\0" that open every name commitment. */
  const IND_TAG: seq<byte> := [0x49, 0x4E, 0x44, 0x00]

  const FEE_OVER_AVAILABLE: Error := Message("Fee is over available amount in tx")
  /** Indexing the fetched outputs with a `vout` beyond them panics. */
  const VOUT_OUT_OF_BOUNDS: Error := Panic("index out of bounds")

  /** The commitment bytes: the tag, the kind byte, the nsid. */
  function IndPayload(nsid: Nsid, kind: byte): (v: seq<byte>)
    ensures |v| == 5 + |nsid| == 25
    ensures v[..4] == IND_TAG && v[4] == kind && v[5..] == nsid
  {
    IND_TAG + [kind] + nsid
  }

  /** Distinct (nsid, kind) pairs never share a commitment. */
  lemma IndPayloadInjective(n1: Nsid, k1: byte, n2: Nsid, k2: byte)
    requires IndPayload(n1, k1) == IndPayload(n2, k2)
    ensures n1 == n2 && k1 == k2
  {
    assert n1 == IndPayload(n1, k1)[5..];
  }

  /** `op_return`: fills a fresh vector by `extend`, `push`, `extend`. */
  method OpReturn(nsid: Nsid, kind: byte) returns (v: seq<byte>)
    ensures |v| == 25 && v[..4] == IND_TAG && v[4] == kind && v[5..] == nsid
    ensures v == IndPayload(nsid, kind)
  {
    v := [];
    v := v + IND_TAG;
    v := v + [kind];
    v := v + nsid;
  }

  /** The shape shared by both transaction builders: version 1, lock time 0,
      one input spending `prev` with an empty script and witness, and two
      outputs — the change to `change`, then a zero-value OP_RETURN that
      carries `payload`. */
  predicate CommitmentTx(tx: Transaction, prev: OutPoint, sequence: nat, change: Script, payload: seq<byte>)
    requires |payload| < U32_MODULUS
  {
    && tx.version == 1
    && tx.lockTime == 0
    && tx.inputs == [TxIn(prev, [], sequence, [])]
    && |tx.outputs| == 2
    && tx.outputs[0].scriptPubkey == change
    && tx.outputs[1] == TxOut(0, NewOpReturn(payload))
  }

  /** The sum of the output values. */
  function TotalOut(outputs: seq<TxOut>): nat {
    if outputs == [] then 0 else outputs[0].value + TotalOut(outputs[1..])
  }

  /** `create_unsigned_tx`, with the RPC fetch of `args.txid` passed in as
      `fetched`. Indexing the fetched outputs by `args.vout` panics when out
      of range. */
  function CreateUnsignedTx(fetched: Result<Transaction>, args: TxInfo, nsid: Nsid, kind: byte): (r: Result<Transaction>)
    ensures fetched.Err? ==> r == Err(fetched.error)
    ensures fetched.Ok? && args.vout >= |fetched.value.outputs| ==> r == Err(VOUT_OUT_OF_BOUNDS)
    ensures fetched.Ok? && args.vout < |fetched.value.outputs| ==>
      (r.Err? <==> args.fee > fetched.value.outputs[args.vout].value)
    ensures fetched.Ok? && args.vout < |fetched.value.outputs| && r.Err? ==> r.error == FEE_OVER_AVAILABLE
    ensures r.Ok? ==> fetched.Ok? && CommitmentTx(
      r.value, OutPoint(args.txid, args.vout), SEQUENCE_ZERO, args.address, IndPayload(nsid, kind))
    ensures r.Ok? ==> TotalOut(r.value.outputs) + args.fee == fetched.value.outputs[args.vout].value
  {
    match fetched
    case Err(e) => Err(e)
    case Ok(tx) =>
      if args.vout >= |tx.outputs| then Err(VOUT_OUT_OF_BOUNDS)
      else
      var spent := tx.outputs[args.vout];
      if args.fee > spent.value then Err(FEE_OVER_AVAILABLE)
      else
        var txin := TxIn(OutPoint(args.txid, args.vout), [], SEQUENCE_ZERO, []);
        var change := TxOut(spent.value - args.fee, args.address);
        var opReturn := TxOut(0, NewOpReturn(IndPayload(nsid, kind)));
        var out := [change, opReturn];
        assert TotalOut(out) == change.value by {
          assert out[1..] == [opReturn] && TotalOut([opReturn]) == 0;
        }
        Ok(Transaction(1, 0, [txin], out))
  }
}
