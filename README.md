# Smart-pool client object model, in Dafny

This project models the object model of the Ergo smart-pool client
(GetBlok ergo-smartpooling-contracts): the scan objects the client
registers with an Ergo node (`node.TrackingRule`, `node.Scan`), the pool
parameter sets in their three schema versions with the protocol box catalog
they own (metadata, command, holding and voting configs), the top-level
`configs.SmartPoolConfig`, and the explorer's paged transaction list
`explorer.ItemsB`.

All of it is sequential, mutable Java objects, so every Java class becomes
a Dafny class with the same fields. Each setter has a field-level frame
(`modifies this`f`), which says that it changes the field f and nothing
else, and an `ensures` that says what f holds afterwards. Constructors
state every field they set, and what they leave null. `copy()` is stated
as "a fresh object whose fields equal this one's". Its fields include the
references to the nested configs and the fee maps, so the copy shares
those objects with the original.

Java values are modelled as follows (module `Java`):
- A nullable `String` is `Option<string>` (`JString`).
- Arrays are `array?<…>`.
- `int` and `long` are the newtypes `i32` and `i64`.
- `double` is `real`; it is only stored, never computed on.
- `java.util.List` and `java.util.HashMap` are small heap classes
  (`JList`, `HashMap`) whose contents are a `seq` and a `map`, so sharing
  them is visible. A `JList` also records whether it can grow: `add` on an
  unmodifiable list (`List.of`, `Arrays.asList`) throws
  UnsupportedOperationException.

The foreign types `ScanId` and `TransactionInfo` are abstract types.
`Parameters.MinFee` is an uninterpreted constant (`Appkit.MinFee`).

For the catalog records, each setter is also described as a value: a
`…Setter` datatype, with `Apply` for one call and `Run` for a sequence of
calls. The lemma `GettersSeeLastWrite` proves that after any sequence of
setter calls, every getter returns the value of the last call that wrote
that field, or the constructor's value if none did
(`Accessors.LastWrite`; `Accessors.LastWriteIsLast` proves that this is the
write with the highest index). For `ItemsB`, `AddItemsAppends` proves the same
kind of fact for a sequence of `addItemsItem` calls.

Two facts about the code shape the model:
- `copy()` is shallow. It copies the scalar fields and re-points the nested
  configs and fee maps at the original's objects.
  `ConfigsParams.CopySharesCatalog` shows the consequence: a metadata id
  written through the copy is seen through the original.
- The TrackingRule constructors validate nothing. An empty or null `args`,
  or a rule with both `value` and `args`, is accepted, so the model's
  constructors have no preconditions.

## Model

| member | source | states |
|---|---|---|
| `Node.TrackingRule.Leaf` | src/main/scala/node/TrackingRule.java:11-14 | sets predicate and value; assetId and args stay null; no precondition |
| `Node.TrackingRule.Composite` | src/main/scala/node/TrackingRule.java:15-18 | sets predicate and stores the given args array itself (null or empty accepted); value and assetId stay null |
| `Node.TrackingRule.GetArgs` | src/main/scala/node/TrackingRule.java:44-46 | returns the very array stored, not a copy |
| `Node.TrackingRule.SetPredicate` | src/main/scala/node/TrackingRule.java:24-26 | changes only the predicate, to the given value |
| `Node.TrackingRule.SetAssetId` | src/main/scala/node/TrackingRule.java:32-34 | changes only assetId, to the given value |
| `Node.TrackingRule.SetValue` | src/main/scala/node/TrackingRule.java:40-42 | changes only value, to the given value |
| `Node.TrackingRule.SetArgs` | src/main/scala/node/TrackingRule.java:48-50 | changes only args, to the given array reference |
| `Node.Scan.WithId` | src/main/scala/node/Scan.java:13-19 | stores scanId, name, interaction, rule and offchain flag as given |
| `Node.Scan.constructor` | src/main/scala/node/Scan.java:20-25 | stores its four arguments; scanId stays null |
| `Node.Scan.WithDefaults` | src/main/scala/node/Scan.java:27-32 | walletInteraction is "off", removeOffchain is true, scanId is null, name and rule as given |
| `Node.Scan.GetScanId` | src/main/scala/node/Scan.java:66-68 | returns the id last stored (null before any) |
| `Node.Scan.SetScanName` | src/main/scala/node/Scan.java:38-40 | changes only scanName |
| `Node.Scan.SetWalletInteraction` | src/main/scala/node/Scan.java:46-48 | changes only walletInteraction |
| `Node.Scan.SetTrackingRule` | src/main/scala/node/Scan.java:54-56 | changes only trackingRule |
| `Node.Scan.SetRemoveOffchain` | src/main/scala/node/Scan.java:62-64 | changes only removeOffchain |
| `Node.Scan.SetScanId` | src/main/scala/node/Scan.java:70-72 | changes only scanId, to the given id |
| `ConfigsParams.MetadataConfig.constructor` | src/main/scala/configs/params/MetadataConfig.java:9-14 | stores id, address, type and value exactly as given, no range check |
| `ConfigsParams.MetadataConfig.GettersSeeLastWrite` | src/main/scala/configs/params/MetadataConfig.java:16-46 | after any sequence of setter calls each field holds the last value written to it, or the constructor's |
| `ConfigsParams.MetadataConfig.SetMetadataId` | src/main/scala/configs/params/MetadataConfig.java:20-22 | changes only metadataId |
| `ConfigsParams.MetadataConfig.SetMetadataAddress` | src/main/scala/configs/params/MetadataConfig.java:28-30 | changes only metadataAddress |
| `ConfigsParams.MetadataConfig.SetMetadataType` | src/main/scala/configs/params/MetadataConfig.java:36-38 | changes only metadataType |
| `ConfigsParams.MetadataConfig.SetMetadataValue` | src/main/scala/configs/params/MetadataConfig.java:44-46 | changes only metadataValue |
| `ConfigsParams.CommandConfig.constructor` | src/main/scala/configs/params/CommandConfig.java:9-14 | stores id, address, type and value exactly as given |
| `ConfigsParams.CommandConfig.GettersSeeLastWrite` | src/main/scala/configs/params/CommandConfig.java:16-46 | after any sequence of setter calls each field holds the last value written to it, or the constructor's |
| `ConfigsParams.CommandConfig.SetCommandId` | src/main/scala/configs/params/CommandConfig.java:20-22 | changes only commandId |
| `ConfigsParams.CommandConfig.SetCommandAddress` | src/main/scala/configs/params/CommandConfig.java:28-30 | changes only commandAddress |
| `ConfigsParams.CommandConfig.SetCommandType` | src/main/scala/configs/params/CommandConfig.java:36-38 | changes only commandType |
| `ConfigsParams.CommandConfig.SetCommandValue` | src/main/scala/configs/params/CommandConfig.java:44-46 | changes only commandValue |
| `ConfigsParams.HoldingConfig.constructor` | src/main/scala/configs/params/HoldingConfig.java:8-12 | stores address, type and value exactly as given; there is no id field |
| `ConfigsParams.HoldingConfig.GettersSeeLastWrite` | src/main/scala/configs/params/HoldingConfig.java:15-37 | after any sequence of setter calls each field holds the last value written to it, or the constructor's |
| `ConfigsParams.HoldingConfig.SetHoldingAddress` | src/main/scala/configs/params/HoldingConfig.java:19-21 | changes only holdingAddress |
| `ConfigsParams.HoldingConfig.SetHoldingType` | src/main/scala/configs/params/HoldingConfig.java:27-29 | changes only holdingType |
| `ConfigsParams.HoldingConfig.SetHoldingValue` | src/main/scala/configs/params/HoldingConfig.java:35-37 | changes only holdingValue |
| `ConfigsParams.VotingConfig.constructor` | src/main/scala/configs/params/VotingConfig.java:12-19 | token ids "", mint counts 0, povIncentive 0.0, voteEndHeight 0 |
| `ConfigsParams.VotingConfig.GettersSeeLastWrite` | src/main/scala/configs/params/VotingConfig.java:21-68 | after any sequence of setter calls each field holds the last value written to it, or the constructor's |
| `ConfigsParams.VotingConfig.SetVoteTokenId` | src/main/scala/configs/params/VotingConfig.java:25-27 | changes only voteTokenId |
| `ConfigsParams.VotingConfig.SetPovTokenId` | src/main/scala/configs/params/VotingConfig.java:34-36 | changes only povTokenId |
| `ConfigsParams.VotingConfig.SetVoteTokensToMint` | src/main/scala/configs/params/VotingConfig.java:42-44 | changes only voteTokensToMint |
| `ConfigsParams.VotingConfig.SetPovTokensToMint` | src/main/scala/configs/params/VotingConfig.java:50-52 | changes only povTokensToMint |
| `ConfigsParams.VotingConfig.SetPovIncentive` | src/main/scala/configs/params/VotingConfig.java:58-60 | changes only povIncentive |
| `ConfigsParams.VotingConfig.SetVoteEndHeight` | src/main/scala/configs/params/VotingConfig.java:66-68 | changes only voteEndHeight |
| `ConfigsParams.SmartPoolParameters.constructor` | src/main/scala/configs/params/SmartPoolParameters.java:27-46 | ids and operators as given; fee MinFee, "PPLNS", 50000 shares, events off; fresh "default" catalog records and a default voting config; two distinct fresh fee maps, each exactly {"address": 1.0} |
| `ConfigsParams.SmartPoolParameters.Copy` | src/main/scala/configs/params/SmartPoolParameters.java:86-100 | a fresh object, not this, whose every field equals this one's: scalars preserved, nested configs and both fee maps the same references (shallow); this unchanged |
| `ConfigsParams.CopySharesCatalog` | src/main/scala/configs/params/SmartPoolParameters.java:91-96 | a metadata id written through the copy's metadata config is seen through the original |
| `ConfigsParams.SmartPoolParameters.SetSmartPoolId` | src/main/scala/configs/params/SmartPoolParameters.java:52-54 | changes only smartPoolId |
| `ConfigsParams.SmartPoolParameters.SetPoolOperators` | src/main/scala/configs/params/SmartPoolParameters.java:62-64 | changes only poolOperators, to the given array reference |
| `ConfigsParams.SmartPoolParameters.SetInitialTxFee` | src/main/scala/configs/params/SmartPoolParameters.java:71-73 | changes only initialTxFee |
| `ConfigsParams.SmartPoolParameters.SetPoolId` | src/main/scala/configs/params/SmartPoolParameters.java:80-82 | changes only poolId |
| `ConfigsParams.SmartPoolParameters.SetPplnsNumShares` | src/main/scala/configs/params/SmartPoolParameters.java:106-108 | changes only PPLNS_NUM_SHARES |
| `ConfigsParams.SmartPoolParameters.SetPaymentType` | src/main/scala/configs/params/SmartPoolParameters.java:114-116 | changes only paymentType |
| `ConfigsParams.SmartPoolParameters.SetHoldingConf` | src/main/scala/configs/params/SmartPoolParameters.java:122-124 | changes only holdingConf, to the given reference |
| `ConfigsParams.SmartPoolParameters.SetCommandConf` | src/main/scala/configs/params/SmartPoolParameters.java:130-132 | changes only commandConf, to the given reference |
| `ConfigsParams.SmartPoolParameters.SetMetaConf` | src/main/scala/configs/params/SmartPoolParameters.java:138-140 | changes only metaConf, to the given reference |
| `ConfigsParams.SmartPoolParameters.SetVotingConf` | src/main/scala/configs/params/SmartPoolParameters.java:146-148 | changes only votingConf, to the given reference |
| `ConfigsParams.SmartPoolParameters.SetFees` | src/main/scala/configs/params/SmartPoolParameters.java:155-157 | changes only fees, to the given map reference |
| `ConfigsParams.SmartPoolParameters.SetEnableEvents` | src/main/scala/configs/params/SmartPoolParameters.java:163-165 | changes only enableEvents |
| `ConfigsParams.SmartPoolParameters.SetEventFees` | src/main/scala/configs/params/SmartPoolParameters.java:171-173 | changes only eventFees, to the given map reference |
| `ConfigParams.VotingConfig.constructor` | src/main/scala/config/params/VotingConfig.java:11-17 | token ids "", mint counts 0, povIncentive 0.0 |
| `ConfigParams.VotingConfig.GettersSeeLastWrite` | src/main/scala/config/params/VotingConfig.java:19-58 | after any sequence of setter calls each field holds the last value written to it, or the constructor's |
| `ConfigParams.VotingConfig.SetVoteTokenId` | src/main/scala/config/params/VotingConfig.java:23-25 | changes only voteTokenId |
| `ConfigParams.VotingConfig.SetPovTokenId` | src/main/scala/config/params/VotingConfig.java:32-34 | changes only povTokenId |
| `ConfigParams.VotingConfig.SetVoteTokensToMint` | src/main/scala/config/params/VotingConfig.java:40-42 | changes only voteTokensToMint |
| `ConfigParams.VotingConfig.SetPovTokensToMint` | src/main/scala/config/params/VotingConfig.java:48-50 | changes only povTokensToMint |
| `ConfigParams.VotingConfig.SetPovIncentive` | src/main/scala/config/params/VotingConfig.java:56-58 | changes only povIncentive |
| `ConfigParams.SmartPoolParameters.constructor` | src/main/scala/config/params/SmartPoolParameters.java:26-41 | ids and operators as given; fee MinFee, "PPLNS", 50000 shares; fresh "default" catalog records and a default voting config; a fresh fee map exactly {"address": 1.0} |
| `ConfigParams.SmartPoolParameters.Copy` | src/main/scala/config/params/SmartPoolParameters.java:81-92 | a fresh object, not this, with every field equal to this one's: scalars preserved, nested configs and the fee map shared by reference; this unchanged |
| `ConfigParams.SmartPoolParameters.SetSmartPoolId` | src/main/scala/config/params/SmartPoolParameters.java:47-49 | changes only smartPoolId |
| `ConfigParams.SmartPoolParameters.SetPoolOperators` | src/main/scala/config/params/SmartPoolParameters.java:57-59 | changes only poolOperators |
| `ConfigParams.SmartPoolParameters.SetInitialTxFee` | src/main/scala/config/params/SmartPoolParameters.java:66-68 | changes only initialTxFee |
| `ConfigParams.SmartPoolParameters.SetPoolId` | src/main/scala/config/params/SmartPoolParameters.java:75-77 | changes only poolId |
| `ConfigParams.SmartPoolParameters.SetPplnsNumShares` | src/main/scala/config/params/SmartPoolParameters.java:98-100 | changes only PPLNS_NUM_SHARES |
| `ConfigParams.SmartPoolParameters.SetPaymentType` | src/main/scala/config/params/SmartPoolParameters.java:106-108 | changes only paymentType |
| `ConfigParams.SmartPoolParameters.SetHoldingConf` | src/main/scala/config/params/SmartPoolParameters.java:114-116 | changes only holdingConf |
| `ConfigParams.SmartPoolParameters.SetCommandConf` | src/main/scala/config/params/SmartPoolParameters.java:122-124 | changes only commandConf |
| `ConfigParams.SmartPoolParameters.SetMetaConf` | src/main/scala/config/params/SmartPoolParameters.java:130-132 | changes only metaConf |
| `ConfigParams.SmartPoolParameters.SetVotingConf` | src/main/scala/config/params/SmartPoolParameters.java:138-140 | changes only votingConf |
| `ConfigParams.SmartPoolParameters.SetFees` | src/main/scala/config/params/SmartPoolParameters.java:147-149 | changes only fees |
| `Configs.SmartPoolConfig.constructor` | src/main/scala/configs/SmartPoolConfig.java:26-32 | stores node, parameters, persistence, logging and failures as given |
| `Configs.SmartPoolConfig.Copy` | src/main/scala/configs/SmartPoolConfig.java:106-108 | throws NullPointerException exactly when parameters is null; otherwise a fresh config whose parameters is a fresh copy (distinct object, equal fields) and whose node, persistence, logging and failures are the same references |
| `Configs.SmartPoolConfig.SetParameters` | src/main/scala/configs/SmartPoolConfig.java:48-50 | changes only parameters |
| `Configs.SmartPoolConfig.SetNode` | src/main/scala/configs/SmartPoolConfig.java:52-54 | changes only node |
| `Configs.SmartPoolConfig.SetPersistence` | src/main/scala/configs/SmartPoolConfig.java:60-62 | changes only persistence |
| `Configs.SmartPoolConfig.SetFailure` | src/main/scala/configs/SmartPoolConfig.java:68-70 | changes only failures |
| `Configs.SmartPoolConfig.SetLogging` | src/main/scala/configs/SmartPoolConfig.java:114-116 | changes only logging |
| `Config.SmartPoolParameters.constructor` | src/main/scala/config/SmartPoolParameters.java:17-27 | stores id, consensus path, both addresses, operators and minimum payout as given; metadataId, holdingIds and commandId start null |
| `Config.SmartPoolParameters.GetHoldingIds` | src/main/scala/config/SmartPoolParameters.java:85-87 | returns the very array stored |
| `Config.SmartPoolParameters.SetSmartPoolId` | src/main/scala/config/SmartPoolParameters.java:33-35 | changes only smartPoolId |
| `Config.SmartPoolParameters.SetHoldingAddress` | src/main/scala/config/SmartPoolParameters.java:41-43 | changes only holdingAddress |
| `Config.SmartPoolParameters.SetMetadataAddress` | src/main/scala/config/SmartPoolParameters.java:49-51 | changes only metadataAddress |
| `Config.SmartPoolParameters.SetPoolOperators` | src/main/scala/config/SmartPoolParameters.java:57-59 | changes only poolOperators |
| `Config.SmartPoolParameters.SetMinimumPayout` | src/main/scala/config/SmartPoolParameters.java:65-67 | changes only minimumPayout |
| `Config.SmartPoolParameters.SetConsensusPath` | src/main/scala/config/SmartPoolParameters.java:73-75 | changes only consensusPath |
| `Config.SmartPoolParameters.SetMetadataId` | src/main/scala/config/SmartPoolParameters.java:81-83 | changes only metadataId |
| `Config.SmartPoolParameters.SetHoldingIds` | src/main/scala/config/SmartPoolParameters.java:89-91 | changes only holdingIds, storing the array reference itself |
| `Config.SmartPoolParameters.SetCommandId` | src/main/scala/config/SmartPoolParameters.java:97-99 | changes only commandId |
| `Explorer.ItemsB.constructor` | src/main/scala/explorer/ItemsB.java:13-17 | a new page has a null item list and a null total |
| `Explorer.ItemsB.Items` | src/main/scala/explorer/ItemsB.java:19-22 | changes only items, to the given list reference, and returns this |
| `Explorer.ItemsB.AddItemsItem` | src/main/scala/explorer/ItemsB.java:24-30 | on a null list, items becomes a fresh list [x]; on a list that can grow, the same list with x appended; either way total unchanged and returns this. On a list that cannot grow, throws UnsupportedOperationException and leaves the page unchanged |
| `Explorer.AddItemsAppends` | src/main/scala/explorer/ItemsB.java:24-30 | successive addItemsItem calls append in call order after the existing items; from a null list they build exactly the items added |
| `Explorer.ItemsB.SetItems` | src/main/scala/explorer/ItemsB.java:41-43 | changes only items |
| `Explorer.ItemsB.Total` | src/main/scala/explorer/ItemsB.java:45-48 | changes only total and returns this |
| `Explorer.ItemsB.SetTotal` | src/main/scala/explorer/ItemsB.java:59-61 | changes only total |
| `Explorer.ItemsB.Equals` | src/main/scala/explorer/ItemsB.java:64-75 | true for this very object; false for null and for an object of another class; otherwise `Objects.equals` on the item lists (the same object, or equal elements in order) and on the totals |
| `Explorer.ItemsB.EqualsIffSamePage` | src/main/scala/explorer/ItemsB.java:64-75 | equals is true exactly when the other object is a non-null page with the same items and total; hence reflexive and false for null |

## Left out

- Every getter only returns its field, so in the model it is a read of the
  public Dafny field. Only `getArgs`, `getScanId` and `getHoldingIds` are
  written as methods.
- `toString` and `hashCode` of TrackingRule, Scan and ItemsB are not
  modelled: they depend on the platform's string building and `Objects.hash`.
- `SmartPoolConfig.load(...)` in both config packages is not modelled: it is
  JSON parsing and file I/O through the Gson library.
- `config.SmartPoolConfig` is not modelled. Apart from `load`, it only holds
  the node client's foreign configuration (`node`) and `parameters`, a
  `config.SmartPoolParameters`, each with a getter and a setter
  (config/SmartPoolConfig.java:17-18,27-45).
- The logging, persistence, failure, node, API and wallet setting classes
  have no logic. Configs.SmartPoolConfig keeps them as references to empty
  classes.
- The node scan API and the explorer API are HTTP interfaces with no bodies,
  so they are not modelled. No scan registry, lifecycle, retry or
  reconciliation logic exists in the code.
- `OutputBody` and `OutputRequest` are request payloads without behaviour,
  so they are not modelled.
- `config.params.MetadataConfig`, `CommandConfig` and `HoldingConfig` are not
  part of this model. The older parameter schema uses the `configs.params`
  records in their place, because they take the same constructor arguments.
- `Parameters.MinFee` is left uninterpreted, because its value is defined by
  the appkit library.
- Doubles are kept as `real`: the code stores fee values, `povIncentive` and
  `minimumPayout` and never computes on them, so NaN and rounding play no
  part.
- Fee maps are `map<string, real>`: null keys and null values, which a Java
  HashMap allows, are not modelled.
- Explorer.ItemsB.AddItemsItem: a list stored with `items(l)` or
  `setItems(l)` is described only by whether `add` succeeds on it
  (`Java.JList.modifiable`). Other ways `add` can fail, such as running out
  of memory, are not modelled.
- Explorer.ItemsB.EqualsIffSamePage: takes `TransactionInfo.equals` (a
  foreign class) to be value equality of the abstract type.
- In `Explorer.ItemsB.Equals`, the "object of another class" test is Dafny's
  type test `o is ItemsB`.
