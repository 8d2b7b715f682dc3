/** The single-file snapshot of the `name` subcommand (src/subcommands/name.rs):
    record parsing, the order in which names and children feed the nsid
    builder, and its own copies of the commitment and transaction builders. */
module NameCommandInline {
  import opened Common
  import opened Bitcoin
  import opened Text
  import opened Cfg
  import NameCommand

  // ---------------------------------------------------------------------
  // Records: "key=value" strings become an upper-cased key map.

  /** The upper-cased key a record string defines, if it has an '='. */
  function RecordKey(rec: string): Option<string> {
    match SplitOnce(rec, '=')
    case None => None
    case Some((k, _)) => Some(ToUpper(k))
  }

  /** The value a record string defines: everything after its first '='. */
  function RecordValue(rec: string): string
    requires '=' in rec
  {
    SplitOnce(rec, '=').value.1
  }

  /** `parse_records`: `filter_map(split_once('='))`, upper-case the key,
      collect into a map — so a later record overwrites an earlier one with
      the same upper-cased key. */
  function ParseRecords(records: seq<string>): map<string, string> {
    if records == [] then map[]
    else
      var m := ParseRecords(records[..|records| - 1]);
      match SplitOnce(records[|records| - 1], '=')
      case None => m
      case Some((k, v)) => m[ToUpper(k) := v]
  }

  /** A single record is split at its first '=' only: the key is the
      upper-cased text before it (which holds no '='), the value is all the
      rest, later '=' included; a record with no '=' is dropped. */
  lemma SingleRecord(rec: string)
    ensures '=' !in rec ==> ParseRecords([rec]) == map[]
    ensures '=' in rec ==>
      var i := IndexOf(rec, '=');
      ParseRecords([rec]) == map[ToUpper(rec[..i]) := rec[i + 1..]]
  {
    assert [rec][..0] == [];
    if '=' in rec {
      var i := IndexOf(rec, '=');
      assert rec[..i] + ['='] + rec[i + 1..] == rec;
    }
  }

  /** One more record either leaves the map alone (no '=') or sets its key. */
  lemma ParseRecordsStep(records: seq<string>)
    requires records != []
    ensures var last := records[|records| - 1];
      var m := ParseRecords(records[..|records| - 1]);
      && (RecordKey(last).None? ==> ParseRecords(records) == m)
      && (RecordKey(last).Some? ==> '=' in last && ParseRecords(records) == m[RecordKey(last).value := RecordValue(last)])
  {
  }

  /** The keys of the map are exactly the upper-cased keys of the records
      that contain an '='. */
  lemma {:induction false} ParseRecordsKeys(records: seq<string>, key: string)
    ensures key in ParseRecords(records) <==>
      exists i :: 0 <= i < |records| && RecordKey(records[i]) == Some(key)
  {
    if records != [] {
      var n := |records| - 1;
      var init := records[..n];
      ParseRecordsKeys(init, key);
      ParseRecordsStep(records);
      assert forall i :: 0 <= i < n ==> records[i] == init[i];
      if key in ParseRecords(records) && RecordKey(records[n]) != Some(key) {
        var i :| 0 <= i < n && RecordKey(init[i]) == Some(key);
        assert RecordKey(records[i]) == Some(key);
      }
    }
  }

  /** Every key of the map is upper case: no ASCII lower-case letter. */
  lemma RecordKeysUpperCase(records: seq<string>, key: string)
    requires key in ParseRecords(records)
    ensures forall k :: 0 <= k < |key| ==> !IsLower(key[k])
  {
    ParseRecordsKeys(records, key);
    var i :| 0 <= i < |records| && RecordKey(records[i]) == Some(key);
    ToUpperNoLower(SplitOnce(records[i], '=').value.0);
  }

  /** Record `i` defines `key`, and no later record does. */
  predicate DefinedLastAt(records: seq<string>, key: string, i: int) {
    && 0 <= i < |records|
    && RecordKey(records[i]) == Some(key)
    && forall j :: i < j < |records| ==> RecordKey(records[j]) != Some(key)
  }

  /** Each key maps to the value of the LAST record that defines it. */
  lemma {:induction false} ParseRecordsLastWins(records: seq<string>, key: string)
    requires key in ParseRecords(records)
    ensures exists i :: DefinedLastAt(records, key, i) && ParseRecords(records)[key] == RecordValue(records[i])
  {
    var n := |records| - 1;
    var init := records[..n];
    ParseRecordsStep(records);
    if RecordKey(records[n]) == Some(key) {
      assert DefinedLastAt(records, key, n);
    } else {
      assert ParseRecords(records)[key] == ParseRecords(init)[key];
      ParseRecordsLastWins(init, key);
      var i :| DefinedLastAt(init, key, i) && ParseRecords(init)[key] == RecordValue(init[i]);
      forall j | i < j < |records|
        ensures RecordKey(records[j]) != Some(key)
      {
        if j < n {
          assert records[j] == init[j];
        } else {
          assert j == n;
        }
      }
      assert records[i] == init[i];
      assert DefinedLastAt(records, key, i);
    }
  }

  // ---------------------------------------------------------------------
  // The nsid builder. Its hash is not part of this model: a builder is
  // represented by the sequence of inputs fed to it, which is all that
  // `finalize` depends on.

  datatype BuilderInput =
    | Root(name: string, pubkey: Pubkey)
    | Child(name: string, pubkey: Pubkey)
    | Previous(nsid: Nsid)

  type NsidBuilder = seq<BuilderInput>

  function NewBuilder(name: string, pubkey: Pubkey): NsidBuilder {
    [Root(name, pubkey)]
  }

  function UpdateChild(b: NsidBuilder, name: string, pubkey: Pubkey): NsidBuilder {
    b + [Child(name, pubkey)]
  }

  function Prev(b: NsidBuilder, previous: Nsid): NsidBuilder {
    b + [Previous(previous)]
  }

  /** `Iterator::fold` of `update_child` over the children. */
  function FoldChildren(b: NsidBuilder, children: seq<(string, Pubkey)>): NsidBuilder
    decreases children
  {
    if children == [] then b
    else FoldChildren(UpdateChild(b, children[0].0, children[0].1), children[1..])
  }

  function ChildInputs(children: seq<(string, Pubkey)>): (inputs: seq<BuilderInput>)
    ensures |inputs| == |children|
    ensures forall i :: 0 <= i < |children| ==> inputs[i] == Child(children[i].0, children[i].1)
  {
    seq(|children|, i requires 0 <= i < |children| => Child(children[i].0, children[i].1))
  }

  /** The fold feeds the children one after another, in the order given. */
  lemma {:induction false} FoldChildrenInOrder(b: NsidBuilder, children: seq<(string, Pubkey)>)
    ensures FoldChildren(b, children) == b + ChildInputs(children)
    decreases children
  {
    if children != [] {
      FoldChildrenInOrder(UpdateChild(b, children[0].0, children[0].1), children[1..]);
      assert [Child(children[0].0, children[0].1)] + ChildInputs(children[1..]) == ChildInputs(children);
    }
  }

  /** What `new` finalizes: the root name and key, then the children. */
  function NewNsidInput(name: string, pubkey: Pubkey, children: seq<(string, Pubkey)>): NsidBuilder {
    FoldChildren(NewBuilder(name, pubkey), children)
  }

  /** What `update` finalizes: as `new`, then the previous nsid. */
  function UpdateNsidInput(name: string, pubkey: Pubkey, children: seq<(string, Pubkey)>, previous: Nsid): NsidBuilder {
    Prev(FoldChildren(NewBuilder(name, pubkey), children), previous)
  }

  lemma NewNsidOrder(name: string, pubkey: Pubkey, children: seq<(string, Pubkey)>)
    ensures NewNsidInput(name, pubkey, children) == [Root(name, pubkey)] + ChildInputs(children)
  {
    FoldChildrenInOrder(NewBuilder(name, pubkey), children);
  }

  /** `update` feeds exactly what `new` feeds, plus the previous nsid last. */
  lemma UpdateNsidOrder(name: string, pubkey: Pubkey, children: seq<(string, Pubkey)>, previous: Nsid)
    ensures UpdateNsidInput(name, pubkey, children, previous)
         == [Root(name, pubkey)] + ChildInputs(children) + [Previous(previous)]
  {
    NewNsidOrder(name, pubkey, children);
  }

  // ---------------------------------------------------------------------
  // This file's own copies of `op_return` and `create_unsigned_tx`.

  /** `op_return`, as in the directory form of the module. */
  method OpReturn(nsid: Nsid, kind: byte) returns (v: seq<byte>)
    ensures |v| == 25 && v[..4] == NameCommand.IND_TAG && v[4] == kind && v[5..] == nsid
    ensures v == NameCommand.IndPayload(nsid, kind)
  {
    v := [];
    v := v + NameCommand.IND_TAG;
    v := v + [kind];
    v := v + nsid;
  }

  /** `create_unsigned_tx`, as in the directory form of the module. */
  function CreateUnsignedTx(fetched: Result<Transaction>, args: TxInfo, nsid: Nsid, kind: byte): (r: Result<Transaction>)
    ensures fetched.Err? ==> r == Err(fetched.error)
    ensures fetched.Ok? && args.vout >= |fetched.value.outputs| ==> r == Err(NameCommand.VOUT_OUT_OF_BOUNDS)
    ensures fetched.Ok? && args.vout < |fetched.value.outputs| ==>
      (r.Err? <==> args.fee > fetched.value.outputs[args.vout].value)
    ensures fetched.Ok? && args.vout < |fetched.value.outputs| && r.Err? ==> r.error == NameCommand.FEE_OVER_AVAILABLE
    ensures r.Ok? ==> fetched.Ok? && NameCommand.CommitmentTx(
      r.value, OutPoint(args.txid, args.vout), SEQUENCE_ZERO, args.address, NameCommand.IndPayload(nsid, kind))
    ensures r.Ok? ==> NameCommand.TotalOut(r.value.outputs) + args.fee == fetched.value.outputs[args.vout].value
  {
    match fetched
    case Err(e) => Err(e)
    case Ok(tx) =>
      if args.vout >= |tx.outputs| then Err(NameCommand.VOUT_OUT_OF_BOUNDS)
      else
      var spent := tx.outputs[args.vout];
      if args.fee > spent.value then Err(NameCommand.FEE_OVER_AVAILABLE)
      else
        var txin := TxIn(OutPoint(args.txid, args.vout), [], SEQUENCE_ZERO, []);
        var change := TxOut(spent.value - args.fee, args.address);
        var opReturn := TxOut(0, NewOpReturn(NameCommand.IndPayload(nsid, kind)));
        var out := [change, opReturn];
        assert NameCommand.TotalOut(out) == change.value by {
          assert out[1..] == [opReturn] && NameCommand.TotalOut([opReturn]) == 0;
        }
        Ok(Transaction(1, 0, [txin], out))
  }

  /** The two snapshots build the same transaction from the same inputs. */
  lemma SnapshotsAgree(fetched: Result<Transaction>, args: TxInfo, nsid: Nsid, kind: byte)
    ensures CreateUnsignedTx(fetched, args, nsid, kind) == NameCommand.CreateUnsignedTx(fetched, args, nsid, kind)
  {
  }
}
