/** How the writer and the reader of the on-chain commitment fit together:
    the "gun" OP_RETURN built by `create_new_tx` is what the block-chain
    indexer recognises, and the "IND" OP_RETURN of the `name` commands is
    not. */
module Protocol {
  import opened Common
  import opened Bitcoin
  import NameCommand
  import CreateNewTx
  import IndexBlockchain

  /** The indexer's steps (skip two header bytes, check "gun", drop three
      bytes, `parse_gun_output`) recover the namespace id from the script
      `create_new_tx` writes. */
  lemma GunRoundTrip(namespaceId: Nsid)
    ensures var script := NewOpReturn(CreateNewTx.GunPayload(namespaceId));
      && IndexBlockchain.IsGunScript(script)
      && IndexBlockchain.ParseGunOutput(script[5..]) == Ok(namespaceId)
      && IndexBlockchain.ScanOutput(script) == [IndexBlockchain.GunOutputFound(namespaceId)]
  {
    var payload := CreateNewTx.GunPayload(namespaceId);
    var script := NewOpReturn(payload);
    assert script == [OP_RETURN, 25] + payload;
    assert script[2..5] == payload[..3] == IndexBlockchain.GUN;
    assert script[5..] == [0, 0] + namespaceId;
  }

  /** Scanning a transaction `create_new_tx` builds logs exactly one find,
      the namespace id, provided the change goes to an ordinary
      (non-OP_RETURN) script. */
  lemma CreateNewTxIsIndexed(tx: Transaction, prev: OutPoint, change: Script, namespaceId: Nsid)
    requires NameCommand.CommitmentTx(tx, prev, SEQUENCE_MAX, change, CreateNewTx.GunPayload(namespaceId))
    requires !IsOpReturn(change)
    ensures IndexBlockchain.ScanOutputs(tx.outputs) == [IndexBlockchain.GunOutputFound(namespaceId)]
  {
    GunRoundTrip(namespaceId);
    var outs := tx.outputs;
    assert outs[..1][..0] == [];
    assert IndexBlockchain.ScanOutputs(outs[..1]) == IndexBlockchain.ScanOutput(change) == [];
    assert outs[..|outs| - 1] == outs[..1];
  }

  /** The `name` commands' "IND" commitment is not a "gun" output: the
      indexer logs nothing for it. */
  lemma IndCommitmentIgnored(nsid: Nsid, kind: byte)
    ensures !IndexBlockchain.IsGunScript(NewOpReturn(NameCommand.IndPayload(nsid, kind)))
    ensures IndexBlockchain.ScanOutput(NewOpReturn(NameCommand.IndPayload(nsid, kind))) == []
  {
    var payload := NameCommand.IndPayload(nsid, kind);
    var script := NewOpReturn(payload);
    assert script == [OP_RETURN, 25] + payload;
    assert script[2] == payload[0] == 0x49;
  }

  /** The two commitments never coincide. */
  lemma CommitmentsDistinct(namespaceId: Nsid, nsid: Nsid, kind: byte)
    ensures CreateNewTx.GunPayload(namespaceId) != NameCommand.IndPayload(nsid, kind)
  {
    assert CreateNewTx.GunPayload(namespaceId)[0] == 0x67;
    assert NameCommand.IndPayload(nsid, kind)[0] == 0x49;
  }
}
