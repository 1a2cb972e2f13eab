/** Package `config`: the oldest parameter record, which names the pool's
    contract addresses directly and learns the ids of its protocol boxes
    later, through setters. */
module Config {
  import opened Java

  class SmartPoolParameters {
    var smartPoolId: JString
    var consensusPath: JString
    var holdingAddress: JString
    var metadataAddress: JString
    var poolOperators: array?<JString>
    var metadataId: JString
    var holdingIds: array?<JString>
    var commandId: JString
    var minimumPayout: real

    /** Stores its six arguments as given; the box ids start out null. */
    constructor (spId: JString, consPath: JString, holdingAddr: JString, metadataAddr: JString,
                 poolOps: array?<JString>, minPay: real)
      ensures smartPoolId == spId && consensusPath == consPath
      ensures holdingAddress == holdingAddr && metadataAddress == metadataAddr
      ensures poolOperators == poolOps && minimumPayout == minPay
      ensures metadataId == None && holdingIds == null && commandId == None
    {
      smartPoolId, consensusPath, holdingAddress, metadataAddress := spId, consPath, holdingAddr, metadataAddr;
      poolOperators, minimumPayout := poolOps, minPay;
      metadataId, holdingIds, commandId := None, null, None;
    }

    /** `getHoldingIds()`: the very array last stored, not a copy. */
    method GetHoldingIds() returns (ids: array?<JString>)
      ensures ids == holdingIds
    {
      ids := holdingIds;
    }

    method SetSmartPoolId(smartPoolId: JString)
      modifies this`smartPoolId
      ensures this.smartPoolId == smartPoolId
    {
      this.smartPoolId := smartPoolId;
    }

    method SetHoldingAddress(holdingAddress: JString)
      modifies this`holdingAddress
      ensures this.holdingAddress == holdingAddress
    {
      this.holdingAddress := holdingAddress;
    }

    method SetMetadataAddress(metadataAddress: JString)
      modifies this`metadataAddress
      ensures this.metadataAddress == metadataAddress
    {
      this.metadataAddress := metadataAddress;
    }

    method SetPoolOperators(poolOperators: array?<JString>)
      modifies this`poolOperators
      ensures this.poolOperators == poolOperators
    {
      this.poolOperators := poolOperators;
    }

    method SetMinimumPayout(minimumPayout: real)
      modifies this`minimumPayout
      ensures this.minimumPayout == minimumPayout
    {
      this.minimumPayout := minimumPayout;
    }

    method SetConsensusPath(consensusPath: JString)
      modifies this`consensusPath
      ensures this.consensusPath == consensusPath
    {
      this.consensusPath := consensusPath;
    }

    method SetMetadataId(metadataId: JString)
      modifies this`metadataId
      ensures this.metadataId == metadataId
    {
      this.metadataId := metadataId;
    }

    /** Stores the array reference itself: later writes into the caller's
        array are seen through `holdingIds`. */
    method SetHoldingIds(holdingIds: array?<JString>)
      modifies this`holdingIds
      ensures this.holdingIds == holdingIds
    {
      this.holdingIds := holdingIds;
    }

    method SetCommandId(commandId: JString)
      modifies this`commandId
      ensures this.commandId == commandId
    {
      this.commandId := commandId;
    }
  }
}
