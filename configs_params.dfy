/** Package `configs.params`: the pool's protocol box catalog (the expected
    metadata, command, holding and voting boxes) and the current parameter
    set that owns it.

    Every class here is a record of mutable fields. Each setter's frame
    `modifies this`f` says that it changes the field f and nothing else;
    its `ensures` says what f holds afterwards. The catalog records also
    describe their setters as values (a `...Setter` datatype with `Apply`),
    so that a lemma can state what the getters return after any sequence of
    setter calls: the value of the last call that wrote the field, or the
    constructor's value. */
module ConfigsParams {
  import opened Java
  import opened Accessors
  import Appkit

  // ---------------------------------------------------------------------
  // MetadataConfig

  /** The field values of a MetadataConfig. */
  datatype MetadataState = MetadataState(
    metadataId: JString, metadataAddress: JString, metadataType: JString, metadataValue: i64)

  /** A call of one of MetadataConfig's setters. */
  datatype MetadataSetter =
    | SetMetadataId(id: JString)
    | SetMetadataAddress(address: JString)
    | SetMetadataType(kind: JString)
    | SetMetadataValue(value: i64)
  {
    function IdWritten(): Option<JString> { if SetMetadataId? then Some(id) else None }
    function AddressWritten(): Option<JString> { if SetMetadataAddress? then Some(address) else None }
    function TypeWritten(): Option<JString> { if SetMetadataType? then Some(kind) else None }
    function ValueWritten(): Option<i64> { if SetMetadataValue? then Some(value) else None }
  }

  class MetadataConfig {
    var metadataId: JString
    var metadataAddress: JString
    var metadataType: JString
    var metadataValue: i64

    function Fields(): MetadataState
      reads this
    {
      MetadataState(metadataId, metadataAddress, metadataType, metadataValue)
    }

    /** The effect of one setter call on the fields. */
    static function Apply(f: MetadataState, s: MetadataSetter): MetadataState
    {
      match s
      case SetMetadataId(x) => f.(metadataId := x)
      case SetMetadataAddress(x) => f.(metadataAddress := x)
      case SetMetadataType(x) => f.(metadataType := x)
      case SetMetadataValue(x) => f.(metadataValue := x)
    }

    /** The fields after the setter calls `ss`, in order, starting from `f`. */
    static function Run(f: MetadataState, ss: seq<MetadataSetter>): MetadataState
      decreases |ss|
    {
      if ss == [] then f else Apply(Run(f, ss[..|ss| - 1]), ss[|ss| - 1])
    }

    /** Every getter returns the last value stored by the constructor or by
        the matching setter, whatever the other setters did in between. */
    static lemma {:induction false} GettersSeeLastWrite(f: MetadataState, ss: seq<MetadataSetter>)
      ensures Run(f, ss) == MetadataState(
        LastWrite(f.metadataId, ss, (s: MetadataSetter) => s.IdWritten()),
        LastWrite(f.metadataAddress, ss, (s: MetadataSetter) => s.AddressWritten()),
        LastWrite(f.metadataType, ss, (s: MetadataSetter) => s.TypeWritten()),
        LastWrite(f.metadataValue, ss, (s: MetadataSetter) => s.ValueWritten()))
    {
      if ss != [] {
        GettersSeeLastWrite(f, ss[..|ss| - 1]);
      }
    }

    /** Stores its four arguments as given; `val` is not range-checked. */
    constructor (id: JString, add: JString, kind: JString, val: i64)
      ensures Fields() == MetadataState(id, add, kind, val)
    {
      metadataId, metadataAddress, metadataType, metadataValue := id, add, kind, val;
    }

    method SetMetadataId(metadataId: JString)
      modifies this`metadataId
      ensures Fields() == Apply(old(Fields()), MetadataSetter.SetMetadataId(metadataId))
    {
      this.metadataId := metadataId;
    }

    method SetMetadataAddress(metadataAddress: JString)
      modifies this`metadataAddress
      ensures Fields() == Apply(old(Fields()), MetadataSetter.SetMetadataAddress(metadataAddress))
    {
      this.metadataAddress := metadataAddress;
    }

    method SetMetadataType(metadataType: JString)
      modifies this`metadataType
      ensures Fields() == Apply(old(Fields()), MetadataSetter.SetMetadataType(metadataType))
    {
      this.metadataType := metadataType;
    }

    method SetMetadataValue(metadataValue: i64)
      modifies this`metadataValue
      ensures Fields() == Apply(old(Fields()), MetadataSetter.SetMetadataValue(metadataValue))
    {
      this.metadataValue := metadataValue;
    }
  }

  // ---------------------------------------------------------------------
  // CommandConfig

  /** The field values of a CommandConfig. */
  datatype CommandState = CommandState(
    commandId: JString, commandAddress: JString, commandType: JString, commandValue: i64)

  /** A call of one of CommandConfig's setters. */
  datatype CommandSetter =
    | SetCommandId(id: JString)
    | SetCommandAddress(address: JString)
    | SetCommandType(kind: JString)
    | SetCommandValue(value: i64)
  {
    function IdWritten(): Option<JString> { if SetCommandId? then Some(id) else None }
    function AddressWritten(): Option<JString> { if SetCommandAddress? then Some(address) else None }
    function TypeWritten(): Option<JString> { if SetCommandType? then Some(kind) else None }
    function ValueWritten(): Option<i64> { if SetCommandValue? then Some(value) else None }
  }

  class CommandConfig {
    var commandId: JString
    var commandAddress: JString
    var commandType: JString
    var commandValue: i64

    function Fields(): CommandState
      reads this
    {
      CommandState(commandId, commandAddress, commandType, commandValue)
    }

    /** The effect of one setter call on the fields. */
    static function Apply(f: CommandState, s: CommandSetter): CommandState
    {
      match s
      case SetCommandId(x) => f.(commandId := x)
      case SetCommandAddress(x) => f.(commandAddress := x)
      case SetCommandType(x) => f.(commandType := x)
      case SetCommandValue(x) => f.(commandValue := x)
    }

    /** The fields after the setter calls `ss`, in order, starting from `f`. */
    static function Run(f: CommandState, ss: seq<CommandSetter>): CommandState
      decreases |ss|
    {
      if ss == [] then f else Apply(Run(f, ss[..|ss| - 1]), ss[|ss| - 1])
    }

    /** Every getter returns the last value stored by the constructor or by
        the matching setter. */
    static lemma {:induction false} GettersSeeLastWrite(f: CommandState, ss: seq<CommandSetter>)
      ensures Run(f, ss) == CommandState(
        LastWrite(f.commandId, ss, (s: CommandSetter) => s.IdWritten()),
        LastWrite(f.commandAddress, ss, (s: CommandSetter) => s.AddressWritten()),
        LastWrite(f.commandType, ss, (s: CommandSetter) => s.TypeWritten()),
        LastWrite(f.commandValue, ss, (s: CommandSetter) => s.ValueWritten()))
    {
      if ss != [] {
        GettersSeeLastWrite(f, ss[..|ss| - 1]);
      }
    }

    /** Stores its four arguments as given. */
    constructor (id: JString, add: JString, kind: JString, val: i64)
      ensures Fields() == CommandState(id, add, kind, val)
    {
      commandId, commandAddress, commandType, commandValue := id, add, kind, val;
    }

    method SetCommandId(commandId: JString)
      modifies this`commandId
      ensures Fields() == Apply(old(Fields()), CommandSetter.SetCommandId(commandId))
    {
      this.commandId := commandId;
    }

    method SetCommandAddress(commandAddress: JString)
      modifies this`commandAddress
      ensures Fields() == Apply(old(Fields()), CommandSetter.SetCommandAddress(commandAddress))
    {
      this.commandAddress := commandAddress;
    }

    method SetCommandType(commandType: JString)
      modifies this`commandType
      ensures Fields() == Apply(old(Fields()), CommandSetter.SetCommandType(commandType))
    {
      this.commandType := commandType;
    }

    method SetCommandValue(commandValue: i64)
      modifies this`commandValue
      ensures Fields() == Apply(old(Fields()), CommandSetter.SetCommandValue(commandValue))
    {
      this.commandValue := commandValue;
    }
  }

  // ---------------------------------------------------------------------
  // HoldingConfig (no id field)

  /** The field values of a HoldingConfig. */
  datatype HoldingState = HoldingState(holdingAddress: JString, holdingType: JString, holdingValue: i64)

  /** A call of one of HoldingConfig's setters. */
  datatype HoldingSetter =
    | SetHoldingAddress(address: JString)
    | SetHoldingType(kind: JString)
    | SetHoldingValue(value: i64)
  {
    function AddressWritten(): Option<JString> { if SetHoldingAddress? then Some(address) else None }
    function TypeWritten(): Option<JString> { if SetHoldingType? then Some(kind) else None }
    function ValueWritten(): Option<i64> { if SetHoldingValue? then Some(value) else None }
  }

  class HoldingConfig {
    var holdingAddress: JString
    var holdingType: JString
    var holdingValue: i64

    function Fields(): HoldingState
      reads this
    {
      HoldingState(holdingAddress, holdingType, holdingValue)
    }

    /** The effect of one setter call on the fields. */
    static function Apply(f: HoldingState, s: HoldingSetter): HoldingState
    {
      match s
      case SetHoldingAddress(x) => f.(holdingAddress := x)
      case SetHoldingType(x) => f.(holdingType := x)
      case SetHoldingValue(x) => f.(holdingValue := x)
    }

    /** The fields after the setter calls `ss`, in order, starting from `f`. */
    static function Run(f: HoldingState, ss: seq<HoldingSetter>): HoldingState
      decreases |ss|
    {
      if ss == [] then f else Apply(Run(f, ss[..|ss| - 1]), ss[|ss| - 1])
    }

    /** Every getter returns the last value stored by the constructor or by
        the matching setter. */
    static lemma {:induction false} GettersSeeLastWrite(f: HoldingState, ss: seq<HoldingSetter>)
      ensures Run(f, ss) == HoldingState(
        LastWrite(f.holdingAddress, ss, (s: HoldingSetter) => s.AddressWritten()),
        LastWrite(f.holdingType, ss, (s: HoldingSetter) => s.TypeWritten()),
        LastWrite(f.holdingValue, ss, (s: HoldingSetter) => s.ValueWritten()))
    {
      if ss != [] {
        GettersSeeLastWrite(f, ss[..|ss| - 1]);
      }
    }

    /** Stores its three arguments as given. */
    constructor (add: JString, kind: JString, val: i64)
      ensures Fields() == HoldingState(add, kind, val)
    {
      holdingAddress, holdingType, holdingValue := add, kind, val;
    }

    method SetHoldingAddress(holdingAddress: JString)
      modifies this`holdingAddress
      ensures Fields() == Apply(old(Fields()), HoldingSetter.SetHoldingAddress(holdingAddress))
    {
      this.holdingAddress := holdingAddress;
    }

    method SetHoldingType(holdingType: JString)
      modifies this`holdingType
      ensures Fields() == Apply(old(Fields()), HoldingSetter.SetHoldingType(holdingType))
    {
      this.holdingType := holdingType;
    }

    method SetHoldingValue(holdingValue: i64)
      modifies this`holdingValue
      ensures Fields() == Apply(old(Fields()), HoldingSetter.SetHoldingValue(holdingValue))
    {
      this.holdingValue := holdingValue;
    }
  }

  // ---------------------------------------------------------------------
  // VotingConfig

  /** The field values of a VotingConfig. */
  datatype VotingState = VotingState(
    voteTokenId: JString, povTokenId: JString, voteTokensToMint: i64, povTokensToMint: i64,
    povIncentive: real, voteEndHeight: i32)

  /** A call of one of VotingConfig's setters. */
  datatype VotingSetter =
    | SetVoteTokenId(voteToken: JString)
    | SetPovTokenId(povToken: JString)
    | SetVoteTokensToMint(voteMint: i64)
    | SetPovTokensToMint(povMint: i64)
    | SetPovIncentive(incentive: real)
    | SetVoteEndHeight(height: i32)
  {
    function VoteTokenIdWritten(): Option<JString> { if SetVoteTokenId? then Some(voteToken) else None }
    function PovTokenIdWritten(): Option<JString> { if SetPovTokenId? then Some(povToken) else None }
    function VoteTokensToMintWritten(): Option<i64> { if SetVoteTokensToMint? then Some(voteMint) else None }
    function PovTokensToMintWritten(): Option<i64> { if SetPovTokensToMint? then Some(povMint) else None }
    function PovIncentiveWritten(): Option<real> { if SetPovIncentive? then Some(incentive) else None }
    function VoteEndHeightWritten(): Option<i32> { if SetVoteEndHeight? then Some(height) else None }
  }

  class VotingConfig {
    var voteTokenId: JString
    var povTokenId: JString
    var voteTokensToMint: i64
    var povTokensToMint: i64
    var povIncentive: real
    var voteEndHeight: i32

    function Fields(): VotingState
      reads this
    {
      VotingState(voteTokenId, povTokenId, voteTokensToMint, povTokensToMint, povIncentive, voteEndHeight)
    }

    /** The effect of one setter call on the fields. */
    static function Apply(f: VotingState, s: VotingSetter): VotingState
    {
      match s
      case SetVoteTokenId(x) => f.(voteTokenId := x)
      case SetPovTokenId(x) => f.(povTokenId := x)
      case SetVoteTokensToMint(x) => f.(voteTokensToMint := x)
      case SetPovTokensToMint(x) => f.(povTokensToMint := x)
      case SetPovIncentive(x) => f.(povIncentive := x)
      case SetVoteEndHeight(x) => f.(voteEndHeight := x)
    }

    /** The fields after the setter calls `ss`, in order, starting from `f`. */
    static function Run(f: VotingState, ss: seq<VotingSetter>): VotingState
      decreases |ss|
    {
      if ss == [] then f else Apply(Run(f, ss[..|ss| - 1]), ss[|ss| - 1])
    }

    /** Every getter returns the last value stored by the constructor or by
        the matching setter. */
    static lemma {:induction false} GettersSeeLastWrite(f: VotingState, ss: seq<VotingSetter>)
      ensures Run(f, ss) == VotingState(
        LastWrite(f.voteTokenId, ss, (s: VotingSetter) => s.VoteTokenIdWritten()),
        LastWrite(f.povTokenId, ss, (s: VotingSetter) => s.PovTokenIdWritten()),
        LastWrite(f.voteTokensToMint, ss, (s: VotingSetter) => s.VoteTokensToMintWritten()),
        LastWrite(f.povTokensToMint, ss, (s: VotingSetter) => s.PovTokensToMintWritten()),
        LastWrite(f.povIncentive, ss, (s: VotingSetter) => s.PovIncentiveWritten()),
        LastWrite(f.voteEndHeight, ss, (s: VotingSetter) => s.VoteEndHeightWritten()))
    {
      if ss != [] {
        var prefix, last := ss[..|ss| - 1], ss[|ss| - 1];
        GettersSeeLastWrite(f, prefix);
        assert Run(f, ss) == Apply(Run(f, prefix), last);
      }
    }

    /** The no-argument constructor: empty token ids, nothing to mint, no
        incentive, end height 0. */
    constructor ()
      ensures Fields() == VotingState(Some(""), Some(""), 0, 0, 0.0, 0)
    {
      voteTokenId, povTokenId := Some(""), Some("");
      voteTokensToMint, povTokensToMint := 0, 0;
      povIncentive, voteEndHeight := 0.0, 0;
    }

    method SetVoteTokenId(voteTokenId: JString)
      modifies this`voteTokenId
      ensures Fields() == Apply(old(Fields()), VotingSetter.SetVoteTokenId(voteTokenId))
    {
      this.voteTokenId := voteTokenId;
    }

    method SetPovTokenId(povTokenId: JString)
      modifies this`povTokenId
      ensures Fields() == Apply(old(Fields()), VotingSetter.SetPovTokenId(povTokenId))
    {
      this.povTokenId := povTokenId;
    }

    method SetVoteTokensToMint(voteTokensToMint: i64)
      modifies this`voteTokensToMint
      ensures Fields() == Apply(old(Fields()), VotingSetter.SetVoteTokensToMint(voteTokensToMint))
    {
      this.voteTokensToMint := voteTokensToMint;
    }

    method SetPovTokensToMint(povTokensToMint: i64)
      modifies this`povTokensToMint
      ensures Fields() == Apply(old(Fields()), VotingSetter.SetPovTokensToMint(povTokensToMint))
    {
      this.povTokensToMint := povTokensToMint;
    }

    method SetPovIncentive(povIncentive: real)
      modifies this`povIncentive
      ensures Fields() == Apply(old(Fields()), VotingSetter.SetPovIncentive(povIncentive))
    {
      this.povIncentive := povIncentive;
    }

    method SetVoteEndHeight(voteEndHeight: i32)
      modifies this`voteEndHeight
      ensures Fields() == Apply(old(Fields()), VotingSetter.SetVoteEndHeight(voteEndHeight))
    {
      this.voteEndHeight := voteEndHeight;
    }
  }

  // ---------------------------------------------------------------------
  // SmartPoolParameters (the schema with event pools)

  /** The field values of a SmartPoolParameters. The nested configs and the
      fee maps are references: two parameter sets with equal fields share
      those objects. */
  datatype ParameterState = ParameterState(
    smartPoolId: JString, poolId: JString, poolOperators: array?<JString>,
    initialTxFee: i64, paymentType: JString, pplnsNumShares: i64,
    fees: HashMap?<string, real>, enableEvents: bool, eventFees: HashMap?<string, real>,
    metaConf: MetadataConfig?, commandConf: CommandConfig?,
    holdingConf: HoldingConfig?, votingConf: VotingConfig?)

  class SmartPoolParameters {
    var smartPoolId: JString
    var poolId: JString
    var poolOperators: array?<JString>
    var initialTxFee: i64
    var paymentType: JString
    /** `PPLNS_NUM_SHARES` */
    var pplnsNumShares: i64
    var fees: HashMap?<string, real>
    var enableEvents: bool
    var eventFees: HashMap?<string, real>
    var metaConf: MetadataConfig?
    var commandConf: CommandConfig?
    var holdingConf: HoldingConfig?
    var votingConf: VotingConfig?

    function Fields(): ParameterState
      reads this
    {
      ParameterState(smartPoolId, poolId, poolOperators, initialTxFee, paymentType, pplnsNumShares,
                     fees, enableEvents, eventFees, metaConf, commandConf, holdingConf, votingConf)
    }

    /** Stores the ids and the operator array as given and fills every other
        field with its default: the minimal fee, PPLNS over 50000 shares,
        events off, fresh "default" catalog records, and two distinct fresh
        fee maps that each hold the single entry "address" -> 1.0. */
    constructor (spId: JString, pId: JString, poolOps: array?<JString>)
      ensures smartPoolId == spId && poolId == pId && poolOperators == poolOps
      ensures initialTxFee == Appkit.MinFee && paymentType == Some("PPLNS") && pplnsNumShares == 50000
      ensures !enableEvents
      ensures metaConf != null && fresh(metaConf)
      ensures metaConf.Fields() == MetadataState(Some(""), Some(""), Some("default"), 0)
      ensures commandConf != null && fresh(commandConf)
      ensures commandConf.Fields() == CommandState(Some(""), Some(""), Some("default"), 0)
      ensures holdingConf != null && fresh(holdingConf)
      ensures holdingConf.Fields() == HoldingState(Some(""), Some("default"), 0)
      ensures votingConf != null && fresh(votingConf)
      ensures votingConf.Fields() == VotingState(Some(""), Some(""), 0, 0, 0.0, 0)
      ensures fees != null && fresh(fees) && fees.entries == map["address" := 1.0]
      ensures eventFees != null && fresh(eventFees) && eventFees.entries == map["address" := 1.0]
      ensures fees != eventFees
    {
      smartPoolId, poolId, poolOperators := spId, pId, poolOps;
      initialTxFee := Appkit.MinFee;
      paymentType := Some("PPLNS");
      pplnsNumShares := 50000;
      metaConf := new MetadataConfig(Some(""), Some(""), Some("default"), 0);
      commandConf := new CommandConfig(Some(""), Some(""), Some("default"), 0);
      holdingConf := new HoldingConfig(Some(""), Some("default"), 0);
      votingConf := new VotingConfig();
      var f := new HashMap<string, real>.Empty();
      f.Put("address", 1.0);
      fees := f;
      enableEvents := false;
      var ef := new HashMap<string, real>.Empty();
      ef.Put("address", 1.0);
      eventFees := ef;
    }

    /** A new parameter set that has every field of this one. It is a
        SHALLOW copy: the catalog records and the fee maps are the very
        objects this one holds, so a change made to one of them through the
        copy is seen through the original. `this` is left unchanged. */
    method Copy() returns (sp: SmartPoolParameters)
      ensures fresh(sp) && sp != this
      ensures sp.Fields() == Fields()
      ensures sp.metaConf == metaConf && sp.commandConf == commandConf
      ensures sp.holdingConf == holdingConf && sp.votingConf == votingConf
      ensures sp.fees == fees && sp.eventFees == eventFees
    {
      sp := new SmartPoolParameters(smartPoolId, poolId, poolOperators);
      sp.SetInitialTxFee(initialTxFee);
      sp.SetPplnsNumShares(pplnsNumShares);
      sp.SetPaymentType(paymentType);
      sp.SetMetaConf(metaConf);
      sp.SetCommandConf(commandConf);
      sp.SetHoldingConf(holdingConf);
      sp.SetVotingConf(votingConf);
      sp.SetFees(fees);
      sp.SetEventFees(eventFees);
      sp.SetEnableEvents(enableEvents);
    }

    method SetSmartPoolId(smartPoolId: JString)
      modifies this`smartPoolId
      ensures Fields() == old(Fields()).(smartPoolId := smartPoolId)
    {
      this.smartPoolId := smartPoolId;
    }

    method SetPoolOperators(poolOperators: array?<JString>)
      modifies this`poolOperators
      ensures Fields() == old(Fields()).(poolOperators := poolOperators)
    {
      this.poolOperators := poolOperators;
    }

    method SetInitialTxFee(initialTxFee: i64)
      modifies this`initialTxFee
      ensures Fields() == old(Fields()).(initialTxFee := initialTxFee)
    {
      this.initialTxFee := initialTxFee;
    }

    method SetPoolId(poolId: JString)
      modifies this`poolId
      ensures Fields() == old(Fields()).(poolId := poolId)
    {
      this.poolId := poolId;
    }

    method SetPplnsNumShares(pplnsNumShares: i64)
      modifies this`pplnsNumShares
      ensures Fields() == old(Fields()).(pplnsNumShares := pplnsNumShares)
    {
      this.pplnsNumShares := pplnsNumShares;
    }

    method SetPaymentType(paymentType: JString)
      modifies this`paymentType
      ensures Fields() == old(Fields()).(paymentType := paymentType)
    {
      this.paymentType := paymentType;
    }

    method SetHoldingConf(holdingConf: HoldingConfig?)
      modifies this`holdingConf
      ensures Fields() == old(Fields()).(holdingConf := holdingConf)
    {
      this.holdingConf := holdingConf;
    }

    method SetCommandConf(commandConf: CommandConfig?)
      modifies this`commandConf
      ensures Fields() == old(Fields()).(commandConf := commandConf)
    {
      this.commandConf := commandConf;
    }

    method SetMetaConf(metaConf: MetadataConfig?)
      modifies this`metaConf
      ensures Fields() == old(Fields()).(metaConf := metaConf)
    {
      this.metaConf := metaConf;
    }

    method SetVotingConf(votingConf: VotingConfig?)
      modifies this`votingConf
      ensures Fields() == old(Fields()).(votingConf := votingConf)
    {
      this.votingConf := votingConf;
    }

    method SetFees(fees: HashMap?<string, real>)
      modifies this`fees
      ensures Fields() == old(Fields()).(fees := fees)
    {
      this.fees := fees;
    }

    method SetEnableEvents(enableEvents: bool)
      modifies this`enableEvents
      ensures Fields() == old(Fields()).(enableEvents := enableEvents)
    {
      this.enableEvents := enableEvents;
    }

    method SetEventFees(eventFees: HashMap?<string, real>)
      modifies this`eventFees
      ensures Fields() == old(Fields()).(eventFees := eventFees)
    {
      this.eventFees := eventFees;
    }
  }

  /** Because `Copy` is shallow, writing a metadata id through the copy's
      metadata config changes the original's metadata config. */
  method CopySharesCatalog(p: SmartPoolParameters, id: JString) returns (c: SmartPoolParameters)
    requires p.metaConf != null
    modifies p.metaConf
    ensures fresh(c) && c != p && c.metaConf == p.metaConf
    ensures p.metaConf.metadataId == id
  {
    c := p.Copy();
    c.metaConf.SetMetadataId(id);
  }
}
