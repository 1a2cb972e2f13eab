/** Package `node`: the scan objects sent to the Ergo node's scan API.

    A TrackingRule is one node of a predicate tree: a leaf carries an
    operand in `value` (and possibly an `assetId`), a composite carries its
    children in the array `args`. The class has public mutable fields and
    performs no validation, so a rule may be both, neither, or a composite
    with no children; the tree need not even be acyclic, and `args` is
    shared with whoever else holds the array. */
module Node {
  import opened Java

  /** The node client's scan identifier (org.ergoplatform.restapi.client.ScanId). */
  type ScanId(==)

  class TrackingRule {
    /** The Java field `predicate` (a Dafny keyword). */
    var pred: JString
    var assetId: JString
    var value: JString
    var args: array?<TrackingRule?>

    /** The leaf constructor: sets the predicate and the operand, leaving
        `assetId` and `args` null. */
    constructor Leaf(pred: JString, arg: JString)
      ensures this.pred == pred && value == arg
      ensures assetId == None && args == null
    {
      this.pred := pred;
      value := arg;
      assetId := None;
      args := null;
    }

    /** The composite constructor: sets the predicate and stores the given
        array itself (null and empty arrays included), leaving `value` and
        `assetId` null. */
    constructor Composite(pred: JString, rules: array?<TrackingRule?>)
      ensures this.pred == pred && args == rules
      ensures assetId == None && value == None
    {
      this.pred := pred;
      args := rules;
      assetId := None;
      value := None;
    }

    /** `getArgs()`: the very array passed to the constructor or to
        `SetArgs`, not a copy. */
    method GetArgs() returns (a: array?<TrackingRule?>)
      ensures a == args
    {
      a := args;
    }

    method SetPredicate(pred: JString)
      modifies this`pred
      ensures this.pred == pred
    {
      this.pred := pred;
    }

    method SetAssetId(assetId: JString)
      modifies this`assetId
      ensures this.assetId == assetId
    {
      this.assetId := assetId;
    }

    method SetValue(value: JString)
      modifies this`value
      ensures this.value == value
    {
      this.value := value;
    }

    method SetArgs(args: array?<TrackingRule?>)
      modifies this`args
      ensures this.args == args
    {
      this.args := args;
    }
  }

  class Scan {
    var scanId: Option<ScanId>
    var scanName: JString
    var walletInteraction: JString
    var removeOffchain: bool
    var trackingRule: TrackingRule?

    /** The five-argument constructor, for a scan whose node id is already
        known: stores every argument as given. */
    constructor WithId(id: Option<ScanId>, name: JString, interaction: JString, rule: TrackingRule?, offchain: bool)
      ensures scanId == id && scanName == name && walletInteraction == interaction
      ensures trackingRule == rule && removeOffchain == offchain
    {
      scanId, scanName, walletInteraction := id, name, interaction;
      trackingRule, removeOffchain := rule, offchain;
    }

    /** The four-argument constructor: stores its arguments; the scan has no
        id until one is set. */
    constructor (name: JString, interaction: JString, rule: TrackingRule?, offchain: bool)
      ensures scanName == name && walletInteraction == interaction
      ensures trackingRule == rule && removeOffchain == offchain
      ensures scanId == None
    {
      scanName, walletInteraction := name, interaction;
      trackingRule, removeOffchain := rule, offchain;
      scanId := None;
    }

    /** The two-argument constructor: wallet interaction "off", boxes that
        leave the chain pruned, and no id. */
    constructor WithDefaults(name: JString, rule: TrackingRule?)
      ensures scanName == name && trackingRule == rule
      ensures walletInteraction == Some("off") && removeOffchain
      ensures scanId == None
    {
      scanName, trackingRule := name, rule;
      walletInteraction, removeOffchain := Some("off"), true;
      scanId := None;
    }

    /** `getScanId()`: the id last stored, null before any. */
    method GetScanId() returns (id: Option<ScanId>)
      ensures id == scanId
    {
      id := scanId;
    }

    method SetScanName(scanName: JString)
      modifies this`scanName
      ensures this.scanName == scanName
    {
      this.scanName := scanName;
    }

    method SetWalletInteraction(walletInteraction: JString)
      modifies this`walletInteraction
      ensures this.walletInteraction == walletInteraction
    {
      this.walletInteraction := walletInteraction;
    }

    method SetTrackingRule(trackingRule: TrackingRule?)
      modifies this`trackingRule
      ensures this.trackingRule == trackingRule
    {
      this.trackingRule := trackingRule;
    }

    method SetRemoveOffchain(removeOffchain: bool)
      modifies this`removeOffchain
      ensures this.removeOffchain == removeOffchain
    {
      this.removeOffchain := removeOffchain;
    }

    method SetScanId(scanId: Option<ScanId>)
      modifies this`scanId
      ensures this.scanId == scanId
    {
      this.scanId := scanId;
    }
  }
}
