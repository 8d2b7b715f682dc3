# nomen: commitments, transaction building and indexing, in Dafny

nomen is a naming layer anchored in Bitcoin.

A name is committed on chain in a zero-value OP_RETURN output.
- The `name` commands write `"IND\0" ‖ kind ‖ nsid`.
- `create_new_tx` writes `"gun\0\0" ‖ namespace id`.

The block-chain indexer walks the chain along `nextblockhash` and reports every "gun" output it finds. A second indexer stores the name-creation events fetched from Nostr relays in SQLite.

This project models that core in Dafny and proves what each part promises:
- The two commitment encoders and the `gun` decoder, with their round trip (`Protocol`).
- The unsigned one-input, two-output transactions of `create_unsigned_tx` (both snapshots of the `name` module) and of `create_new_tx`: their error cases, their shape and value conservation.
- `parse_records`, and the order in which `new` and `update` feed names into the nsid builder.
- The chain walk of `index_blockchain`, as a loop proved equal to a recursive walk.
- The create-event indexer (`create`, `save_names`, `save_event`) as methods that append rows to a `Database` object.
- The migration bookkeeping of `initialize`, and the MAX/COALESCE and COUNT readers.
- Configuration precedence: command line over file over default.

Modules follow the source files:
- `NameCommand` is `src/subcommands/name/mod.rs`.
- `NameCommandInline` is `src/subcommands/name.rs`.
- `CreateNewTx`, `IndexBlockchain`, `CreateEvents` (`index/events/create.rs`), `Db` (`src/db/mod.rs`) and `Cfg` (`src/config/cfg.rs`) follow the files of the same name.
- `Common`, `Bitcoin` and `Text` hold the value types and the library behaviour the core relies on: `new_op_return`, `split`, `split_once`, `to_uppercase` and `usize::from_str`.

## Model

| member | source | states |
|---|---|---|
| Bitcoin.NewOpReturn | src/subcommands/create_new_tx.rs:60 | the script is OP_RETURN then one push that reads back as exactly the payload; for payloads under 76 bytes it is `[0x6a, len] ‖ payload` |
| Bitcoin.LittleEndian | src/subcommands/name/mod.rs:89 | the length prefix of a push: `width` bytes that read back as the length truncated to `width` bytes, so exactly the length when it fits |
| Bitcoin.PushSlice | src/subcommands/name/mod.rs:89 | below 76 bytes a length byte then the data; below 256, 65536 and 2^32 bytes PUSHDATA1, PUSHDATA2 and PUSHDATA4 with 1, 2 and 4 length bytes; reading the push back gives the data |
| Bitcoin.PushSliceShortest | src/subcommands/name/mod.rs:89 | every single push that reads back as the data is at least as long as the one `push_slice` builds |
| Text.SplitOnce | src/subcommands/name.rs:215 | no result exactly when the separator is absent; otherwise the part before holds no separator and `before ‖ sep ‖ after` is the input |
| Text.JoinSplit | src/subcommands/create_new_tx.rs:34 | joining the pieces of `split` with the separator gives back the input |
| Text.SplitPiecesAreFree | src/subcommands/create_new_tx.rs:34 | no piece of `split` contains the separator |
| Text.SplitHasSecondPiece | src/subcommands/create_new_tx.rs:34-36 | `split` yields a second piece exactly when the separator occurs |
| Text.SplitFirstPieceStable | src/subcommands/create_new_tx.rs:34-35 | appending the separator and more text leaves the first piece unchanged |
| Text.SplitIter.constructor | src/subcommands/create_new_tx.rs:34 | a fresh iterator has all pieces of `split` still to yield |
| Text.SplitIter.Next | src/subcommands/create_new_tx.rs:35-36 | yields the next pending piece and drops it, or `None` once all are yielded |
| Text.UpperChar | src/subcommands/name.rs:216 | the result is never an ASCII lower-case letter; a lower-case letter becomes the capital at the same place in the alphabet; only lower-case letters change |
| Text.UpperCharIdempotent | src/subcommands/name.rs:216 | upper-casing an upper-cased character changes nothing |
| Text.ToUpper | src/subcommands/name.rs:216 | same length; each character upper-cased on its own |
| Text.ToUpperNoLower | src/subcommands/name.rs:216 | an upper-cased key holds no ASCII lower-case letter, and upper-casing it again changes nothing |
| Text.ParseUsize | src/subcommands/create_new_tx.rs:36 | after an optional leading '+', the text parses exactly when it is a non-empty run of decimal digits whose value is below 2^64, and the result is that value |
| Text.ParseUsizeSignAndZeros | src/subcommands/create_new_tx.rs:36 | a leading '+' or a leading '0' before digits does not change the parse |
| Text.ParseShowRoundTrip | src/subcommands/create_new_tx.rs:36 | parsing the decimal form of any `usize` gives it back |
| Cfg.RpcPort | src/config/cfg.rs:116-121 | the command line's port, else the file's; panics exactly when neither has one |
| Cfg.RpcAuth | src/config/cfg.rs:26-37 | a cookie file wins; else user and password, panicking exactly when only one of them is configured; else no authentication |
| Cfg.RpcClientSettings | src/config/cfg.rs:39-45 | URL `host:port` and the authentication; a missing port panics before an incomplete user/password pair is looked at |
| Cfg.RpcClient | src/config/cfg.rs:39-45 | the port panic, then the authentication panic, then whatever `Client::new` gives on the URL `host:port` and the authentication |
| Cfg.StartingBlockHeight | src/config/cfg.rs:84-90 | 790500 on bitcoin, 143500 on signet, 0 on every other network |
| Cfg.Confirmations | src/config/cfg.rs:181-183 | the file's confirmation depth, 3 when the file has none; never fails |
| Cfg.CliOverridesFile | src/config/cfg.rs:92-162 | a setting given on the command line decides each resolver, whatever the file says |
| Cfg.FileUsedWhenCliAbsent | src/config/cfg.rs:92-162 | each resolver whose own command-line option is absent returns the file's value, whatever the other options say |
| Cfg.DefaultsWhenUnset | src/config/cfg.rs:123-183 | defaults: host 127.0.0.1, data nomen.db, network bitcoin (so height 790500), the four relays, indexer delay 30, confirmations 3 |
| Cfg.CookieOverridesUserPass | src/config/cfg.rs:26-33 | with a cookie configured, no user/password setting changes the authentication, not even a half-configured pair that would panic |
| Cfg.ServerSettingsOutsideServer | src/config/cfg.rs:164-179 | outside the `server` subcommand, bind and indexer delay come from the file only |
| Cfg.ServerSettingsUnderServer | src/config/cfg.rs:164-179 | under `server`, a command-line bind or indexer delay beats the file; a missing one falls back to the file, and the delay then to 30 |
| Cfg.ConfirmationsIgnoreCli | src/config/cfg.rs:181-183 | the confirmation depth does not depend on the command line |
| NameCommand.IndPayload | src/subcommands/name/mod.rs:54-60 | 25 bytes: "IND\0", then the kind byte, then the nsid |
| NameCommand.IndPayloadInjective | src/subcommands/name/mod.rs:54-60 | equal commitments have equal nsid and kind |
| NameCommand.OpReturn | src/subcommands/name/mod.rs:54-60 | the vector filled by extend, push, extend is the tag, the kind and the nsid |
| NameCommand.CreateUnsignedTx | src/subcommands/name/mod.rs:62-98 | a failed fetch is passed on; a vout past the fetched outputs panics (index out of bounds); "Fee is over available amount in tx" exactly when the fee exceeds the spent value; otherwise version 1, lock time 0, one input spending (txid, vout) with sequence 0 and empty script and witness, change to the address then a zero-value IND OP_RETURN, outputs + fee = spent value |
| NameCommandInline.SingleRecord | src/subcommands/name.rs:212-218 | a record without '=' is dropped; otherwise the key is the upper-cased text before the first '=' and the value is all the rest, later '=' included |
| NameCommandInline.ParseRecordsKeys | src/subcommands/name.rs:212-218 | the map's keys are exactly the upper-cased keys of the records that contain '=' |
| NameCommandInline.RecordKeysUpperCase | src/subcommands/name.rs:212-218 | every key of the parsed records holds no ASCII lower-case letter |
| NameCommandInline.ParseRecordsLastWins | src/subcommands/name.rs:212-218 | each key maps to the value of the last record that defines it |
| NameCommandInline.FoldChildrenInOrder | src/subcommands/name.rs:45-54 | the fold feeds the children to the builder one after another, in the order given |
| NameCommandInline.NewNsidOrder | src/subcommands/name.rs:45-54 | `new` finalizes the root name and key, then the children in order |
| NameCommandInline.UpdateNsidOrder | src/subcommands/name.rs:113-124 | `update` finalizes what `new` would, then the previous nsid |
| NameCommandInline.OpReturn | src/subcommands/name.rs:245-251 | this copy of `op_return` yields the same bytes as the directory module's |
| NameCommandInline.CreateUnsignedTx | src/subcommands/name.rs:253-289 | the same failed-fetch error, out-of-bounds vout panic, checked-fee error, shape and value conservation as the directory module's |
| NameCommandInline.SnapshotsAgree | src/subcommands/name.rs:253-289 | both copies of `create_unsigned_tx` build the same result from the same inputs |
| CreateNewTx.GunPayload | src/subcommands/create_new_tx.rs:56-59 | 25 bytes: "gun", version 0, type 0, then the namespace id |
| CreateNewTx.ReadOutpoint | src/subcommands/create_new_tx.rs:34-36 | the iterator reading equals the "txid:vout" rule: txid error, then "Invalid input" without a second piece, then the vout parse error |
| CreateNewTx.CreateNewTx | src/subcommands/create_new_tx.rs:16-85 | every check's error in order (key, name, txid, vout, address, RPC client, node, output); then the unchecked fee deduction panics exactly when `vsize * fee_rate` exceeds the spent value; otherwise one input with sequence MAX, the address output then a zero-value gun OP_RETURN, outputs + fee = spent value |
| CreateNewTx.NameCheckedFirst | src/subcommands/create_new_tx.rs:24-32 | an undecodable key or invalid name fails before the input, address or node are consulted |
| CreateNewTx.InvalidInputExactly | src/subcommands/create_new_tx.rs:34-36 | "Invalid input" exactly when the input has no ':' and parses as a txid |
| CreateNewTx.ExtraPartsIgnored | src/subcommands/create_new_tx.rs:34-36 | pieces after the second do not change the outcome |
| CreateNewTx.ClientAfterAddressBeforeNode | src/subcommands/create_new_tx.rs:34-40 | the RPC client is not consulted when the input or address fails; once they parse, a client failure is the outcome whatever the node holds |
| CreateNewTx.InvalidOutputExactly | src/subcommands/create_new_tx.rs:39-41 | "Invalid output" exactly when vout indexes no output of the fetched transaction |
| IndexBlockchain.LogHeight | src/subcommands/index_blockchain.rs:41-47 | info level exactly when the height is a multiple of 10, debug otherwise |
| IndexBlockchain.StartingBlockheight | src/subcommands/index_blockchain.rs:49-56 | 1 on regtest; "Unsupported network" on bitcoin, testnet and signet |
| IndexBlockchain.ParseGunOutput | src/subcommands/index_blockchain.rs:58-65 | succeeds exactly when the input starts with two zero bytes, returning the rest; otherwise "Invalid GUN code" |
| IndexBlockchain.ScanOutput | src/subcommands/index_blockchain.rs:22-31 | corrected (see Findings): an output logs a line exactly when it is an OP_RETURN whose bytes after the two header bytes start with "gun"; the line is the parse result of what follows |
| IndexBlockchain.BareOpReturnPanics | src/subcommands/index_blockchain.rs:22-23 | the one-byte script `[OP_RETURN]` passes `is_op_return` and the `[2..]` slice panics on it |
| IndexBlockchain.ScanOutputCorrectsOnlyThePanic | src/subcommands/index_blockchain.rs:22-30 | the code as written panics only on `[OP_RETURN]`, and elsewhere logs exactly what the corrected scan logs |
| IndexBlockchain.ScanOutputsAppend | src/subcommands/index_blockchain.rs:21-32 | a parse error does not stop the scan: the lines of a list of outputs are the lines of its parts, in order |
| IndexBlockchain.ScanOutputsOnlyGun | src/subcommands/index_blockchain.rs:21-32 | outputs that are not gun scripts log nothing; every line is a find or an index error |
| IndexBlockchain.ScanTransaction | src/subcommands/index_blockchain.rs:21-32 | with the corrected scan (see Findings), the output loop logs the scan of each output in order |
| IndexBlockchain.ScanBlock | src/subcommands/index_blockchain.rs:18-33 | with the corrected scan (see Findings), the transaction loop logs each transaction's scan in order and stops at the first unknown transaction |
| IndexBlockchain.ScanTxidsStopsAtError | src/subcommands/index_blockchain.rs:18-19 | once a transaction cannot be fetched, later ones add nothing |
| IndexBlockchain.WalkChain | src/subcommands/index_blockchain.rs:13-37 | with the corrected scan (see Findings), the `while let` loop produces the recursive walk: each block with a next hash is logged and scanned, then the walk moves on |
| IndexBlockchain.WalkStep | src/subcommands/index_blockchain.rs:15-36 | one block of the walk: its height line and scan, then the rest of the walk unless the scan failed |
| IndexBlockchain.LastBlockNotScanned | src/subcommands/index_blockchain.rs:15 | the first block with no next hash ends the walk without being logged or scanned |
| IndexBlockchain.WalkVisitsConsecutiveHeights | src/subcommands/index_blockchain.rs:13-37 | on a chain whose links go up one height at a time, the logged heights are consecutive from the start block |
| IndexBlockchain.IndexBlockchainRun | src/subcommands/index_blockchain.rs:7-39 | with the corrected scan (see Findings), the whole run: the network unwrap, the start height, the RPC client, the block-hash lookup, then the walk |
| Db.StartVersion | src/db/mod.rs:40-43 | 0 on an empty schema table, otherwise one more than the largest recorded version |
| Db.FirstClash | src/db/mod.rs:45-47 | where a run from a start version stops: the first migration whose object already exists, or 11 |
| Db.FirstClashIsFirst | src/db/mod.rs:45-47 | no migration before that point has its object already |
| Db.RanStep | src/db/mod.rs:45-51 | applying migration `version + idx` adds its object and one schema row: `idx` as written, `version + idx` as corrected |
| Db.RanStop | src/db/mod.rs:45-52 | a run ends at the first clash or after the last migration |
| Db.Database.Fresh | src/config/cfg.rs:50-57 | an empty database file: no objects, no rows |
| Db.Database.Initialize | src/db/mod.rs:30-55 | runs the pending migrations in order up to the first clash, recording each one's position within the slice; fails with "already exists" exactly when a clash stops it |
| Db.Database.InitializeCorrected | src/db/mod.rs:45-51 | the same run, recording absolute migration numbers |
| Db.Database.IndexNameNsid | src/db/mod.rs:108-125 | one more `name_nsid` row; the other tables are unchanged |
| Db.Database.InsertCreateEvent | src/subcommands/index/events/create.rs:66 | one more `create_events` row; the other tables are unchanged |
| Db.FreshDatabaseMigratesOnce | src/db/mod.rs:30-55 | on a fresh database all 11 migrations run, versions 0 to 10 are recorded, and the next start is past the last migration |
| Db.CorrectedRunKeepsConsistent | src/db/mod.rs:40-51 | with absolute versions, a consistent database stays consistent and the next run applies nothing |
| Db.RelativeVersionsRerunMigrations | src/db/mod.rs:45-51 | as written, a database at version 5 records 0 to 5; the next start is 6, and migration 6 clashes with the table it already created |
| Db.NextIndexHeight | src/db/mod.rs:76-81 | one past the highest indexed height; 1 on an empty table |
| Db.LastCreateEventTime | src/db/mod.rs:83-89 | the latest `created_at` of the create events; 0 when there are none |
| Db.LastRecordsTime | src/db/mod.rs:127-133 | the latest `created_at` of the records events; 0 when there are none |
| Db.CountNsidPositive | src/db/mod.rs:167-173 | the count is positive exactly when some block-chain row has the nsid |
| Db.NamespaceExists | src/db/mod.rs:167-173 | true exactly when some block-chain row has the nsid |
| CreateEvents.ChildRows | src/subcommands/index/events/create.rs:45-48 | one row per child, in order; each child's nsid hashes its name with the parent's key, and the row keeps the child's own key and the parent nsid |
| CreateEvents.SaveNames | src/subcommands/index/events/create.rs:39-51 | the root row first; then "No children found" with only that row written, or one row per child in order |
| CreateEvents.SaveEvent | src/subcommands/index/events/create.rs:53-69 | one `create_events` row from the event's fields; nothing else changes |
| CreateEvents.IndexEvent | src/subcommands/index/events/create.rs:20-32 | an event that does not parse or validate writes nothing; a valid one writes its name rows, then its event row |
| CreateEvents.IndexEvents | src/subcommands/index/events/create.rs:19-33 | the loop appends exactly the writes of the events in order and stops at the first error |
| CreateEvents.Create | src/subcommands/index/events/create.rs:15-37 | fetches the events since the latest stored `created_at`; a fetch error writes nothing; otherwise the events' writes, in order |
| CreateEvents.CreateWritesAppend | src/subcommands/index/events/create.rs:19-33 | processing a list in two parts is processing the first, then the second unless the first failed |
| CreateEvents.CreateWritesStopsAtError | src/subcommands/index/events/create.rs:23-24 | events after a failing one write nothing |
| CreateEvents.SkippedEventInvisible | src/subcommands/index/events/create.rs:20-31 | removing an event that does not parse or validate changes nothing the run writes |
| CreateEvents.MissingChildrenAborts | src/subcommands/index/events/create.rs:22-44 | a valid event without children ends the run with its root row written and no event row |
| CreateEvents.EventRowsHaveNameRows | src/subcommands/index/events/create.rs:22-24 | every stored event has a root name row with its nsid, name and key |
| Protocol.GunRoundTrip | src/subcommands/index_blockchain.rs:22-27 | the indexer's steps recover the namespace id from the script `create_new_tx` writes |
| Protocol.CreateNewTxIsIndexed | src/subcommands/create_new_tx.rs:42-71 | scanning a transaction `create_new_tx` builds logs exactly one find, its namespace id, when the change script is not an OP_RETURN |
| Protocol.IndCommitmentIgnored | src/subcommands/name/mod.rs:54-60 | the indexer logs nothing for the `name` commands' IND commitment |
| Protocol.CommitmentsDistinct | src/subcommands/create_new_tx.rs:56-59 | a gun commitment never equals an IND commitment |

## Left out

- RPC calls (`get_raw_transaction`, `get_block_hash`, `get_block_info`) and the Nostr relay query are not modelled as I/O. Their answers are parameters: a `Node` value, a `fetched` transaction, a `rawTransactions` map and the `fetch` function of `Create`.
- `Client::new` is a library call that is not part of this model. `create_new_tx` takes its outcome as the parameter `clientNew` of Cfg.RpcClient.
- IndexBlockchain.IndexBlockchainRun: takes the outcome of `config.rpc_client()` (the node, or the error) as a parameter rather than building it from a `Config`, because the `config.network` it also reads belongs to a different snapshot of `Config`.
- IndexBlockchain.IndexBlockchainRun: the run-level model uses the corrected output scan, so it omits the panic on a one-byte `[0x6a]` output script (see Findings; IndexBlockchain.BareOpReturnPanics shows it on the code as written).
- Hashing is not modelled. NsidBuilder is represented by the sequence of inputs fed to it, and `finalize` and `Name::namespace_id` are parameters.
- `EventData::from_event` and `validate_create` are outside this model. Their outcomes are the two fields of `CreateEvents.Event`.
- Several parsers and validators are outside this model and arrive as parameters: the name validator, hex decoding of the public key, txid parsing, address parsing, `script_pubkey` and `vsize`.
- Logging output is modelled only in the block-chain indexer, where it is the only observable result. In `create`, `initialize` and `create_new_tx` the log lines and the printed transaction are dropped.
- SQL is not modelled: the query text, the views, the `include_str!` query files, primary-key and unique constraints, and duplicate rows. Each insert appends a row.
- `insert_namespace`, `insert_records_event`, `nsid_for_name`, `name_records`, `top_level_names` and `namespace::details` are storage queries whose SQL is not part of this model.
- Db.Database.InsertCreateEvent: modelled with the seven arguments `save_event` passes (src/subcommands/index/events/create.rs:66). The three-argument definition in src/db/mod.rs:91-106 belongs to a different snapshot.
- Db.Database.IndexNameNsid: `save_names` calls it with four values. The model stores `ed.nsid` both as the root and as the parent, following src/db/mod.rs:108-125.
- Db.Database.Initialize: models the database objects as the set of migrations whose object exists. It does not model the SQL each migration runs. It requires the start version to be at most 11, because the slice panics beyond that.
- IndexBlockchain.IndexBlockchainRun: reads `config.network` as an optional value that is unwrapped. `Config` in src/config/cfg.rs has no such field, because the two files come from different snapshots.
- IndexBlockchain.WalkChain: requires heights to increase along `nextblockhash` links. A Bitcoin node guarantees this. The walk's termination depends on it, so a node returning a cycle is not modelled.
- CreateNewTx.CreateNewTx: the product `vsize * fee_rate` is unbounded, so a `usize` overflow there is not modelled. The `vout as u32` cast is modelled as `vout % 2^32`.
- CreateNewTx.CreateNewTx: the fee deduction follows debug-build overflow checks and panics when the fee exceeds the value; a release build instead wraps to value − fee + 2^64.
- CreateNewTx.InvalidInputExactly: errors are compared by their text, so the lemma sets aside an RPC client whose own error text is "Invalid input".
- Cfg.RpcPort: the port is a natural number, not a `u16`.
- Integer casts between `i64`, `u64` and `usize` in the database readers are not modelled, because all stored values are non-negative.
- Text.UpperChar, Text.ToUpper: upper-case ASCII letters only. Unicode case mapping is not modelled.
- The server (src/subcommands/server.rs) is not modelled: an HTTP interface and a background sleep loop.
- Nostr event building, signing and sending are not modelled (`create_event`, `update_event`, `record`, `broadcast_new_name`), nor is key entry (`get_keys`).

## Findings

| source | as written | input that shows it | evidently intended | confidence | as-written member | corrected member |
|---|---|---|---|---|---|---|
| src/db/mod.rs:45-51 | records `idx`, the position within `MIGRATIONS[version..]`, as the schema version | a database with versions 0 to 4 recorded: the run applies migrations 5 to 10 and records 0 to 5, so the next run starts at 6 and fails with "table records_events already exists" | record the absolute migration number `version + idx` | not executed | Db.RelativeVersionsRerunMigrations | Db.CorrectedRunKeepsConsistent |
| src/subcommands/index_blockchain.rs:22-23 | slices `as_bytes()[2..]` on every OP_RETURN script | the one-byte output script `[0x6a]` (a bare OP_RETURN) panics the indexer | skip OP_RETURN scripts shorter than the two header bytes | not executed | IndexBlockchain.BareOpReturnPanics | IndexBlockchain.ScanOutputCorrectsOnlyThePanic |
