/** Package `config.params`: the older parameter schema, without event pools
    and without a vote end height. Its SmartPoolParameters refers to
    metadata, command and holding records of its own package whose source
    is not part of this model; the model gives it the catalog records of
    module ConfigsParams, whose constructors take the same arguments. */
module ConfigParams {
  import opened Java
  import opened Accessors
  import Appkit
  import ConfigsParams

  // ---------------------------------------------------------------------
  // VotingConfig (older: no vote end height)

  /** The field values of a VotingConfig. */
  datatype VotingState = VotingState(
    voteTokenId: JString, povTokenId: JString, voteTokensToMint: i64, povTokensToMint: i64,
    povIncentive: real)

  /** A call of one of VotingConfig's setters. */
  datatype VotingSetter =
    | SetVoteTokenId(voteToken: JString)
    | SetPovTokenId(povToken: JString)
    | SetVoteTokensToMint(voteMint: i64)
    | SetPovTokensToMint(povMint: i64)
    | SetPovIncentive(incentive: real)
  {
    function VoteTokenIdWritten(): Option<JString> { if SetVoteTokenId? then Some(voteToken) else None }
    function PovTokenIdWritten(): Option<JString> { if SetPovTokenId? then Some(povToken) else None }
    function VoteTokensToMintWritten(): Option<i64> { if SetVoteTokensToMint? then Some(voteMint) else None }
    function PovTokensToMintWritten(): Option<i64> { if SetPovTokensToMint? then Some(povMint) else None }
    function PovIncentiveWritten(): Option<real> { if SetPovIncentive? then Some(incentive) else None }
  }

  class VotingConfig {
    var voteTokenId: JString
    var povTokenId: JString
    var voteTokensToMint: i64
    var povTokensToMint: i64
    var povIncentive: real

    function Fields(): VotingState
      reads this
    {
      VotingState(voteTokenId, povTokenId, voteTokensToMint, povTokensToMint, povIncentive)
    }

    /** The effect of one setter call on the fields. */
    static function Apply(f: VotingState, s: VotingSetter): VotingState
    {
      match s
      case SetVoteTokenId(x) => f.(voteTokenId := x)
      case SetPovTokenId(x) => f.(povTokenId := x)
      case SetVoteTokensToMint(x) => f.(voteTokensToMint := x)
      case SetPovTokensToMint(x) => f.(povTokensToMint := x)
      case SetPovIncentive(x) => f.(povIncentive := x)
    }

    /** The fields after the setter calls `ss`, in order, starting from `f`. */
    static function Run(f: VotingState, ss: seq<VotingSetter>): VotingState
      decreases |ss|
    {
      if ss == [] then f else Apply(Run(f, ss[..|ss| - 1]), ss[|ss| - 1])
    }

    /** Every getter returns the last value stored by the constructor or by
        the matching setter. */
    static lemma {:induction false} GettersSeeLastWrite(f: VotingState, ss: seq<VotingSetter>)
      ensures Run(f, ss) == VotingState(
        LastWrite(f.voteTokenId, ss, (s: VotingSetter) => s.VoteTokenIdWritten()),
        LastWrite(f.povTokenId, ss, (s: VotingSetter) => s.PovTokenIdWritten()),
        LastWrite(f.voteTokensToMint, ss, (s: VotingSetter) => s.VoteTokensToMintWritten()),
        LastWrite(f.povTokensToMint, ss, (s: VotingSetter) => s.PovTokensToMintWritten()),
        LastWrite(f.povIncentive, ss, (s: VotingSetter) => s.PovIncentiveWritten()))
    {
      if ss != [] {
        GettersSeeLastWrite(f, ss[..|ss| - 1]);
      }
    }

    /** The no-argument constructor: empty token ids, nothing to mint, no
        incentive. */
    constructor ()
      ensures Fields() == VotingState(Some(""), Some(""), 0, 0, 0.0)
    {
      voteTokenId, povTokenId := Some(""), Some("");
      voteTokensToMint, povTokensToMint := 0, 0;
      povIncentive := 0.0;
    }

    method SetVoteTokenId(voteTokenId: JString)
      modifies this`voteTokenId
      ensures Fields() == Apply(old(Fields()), VotingSetter.SetVoteTokenId(voteTokenId))
    {
      this.voteTokenId := voteTokenId;
    }

    method SetPovTokenId(povTokenId: JString)
      modifies this`povTokenId
      ensures Fields() == Apply(old(Fields()), VotingSetter.SetPovTokenId(povTokenId))
    {
      this.povTokenId := povTokenId;
    }

    method SetVoteTokensToMint(voteTokensToMint: i64)
      modifies this`voteTokensToMint
      ensures Fields() == Apply(old(Fields()), VotingSetter.SetVoteTokensToMint(voteTokensToMint))
    {
      this.voteTokensToMint := voteTokensToMint;
    }

    method SetPovTokensToMint(povTokensToMint: i64)
      modifies this`povTokensToMint
      ensures Fields() == Apply(old(Fields()), VotingSetter.SetPovTokensToMint(povTokensToMint))
    {
      this.povTokensToMint := povTokensToMint;
    }

    method SetPovIncentive(povIncentive: real)
      modifies this`povIncentive
      ensures Fields() == Apply(old(Fields()), VotingSetter.SetPovIncentive(povIncentive))
    {
      this.povIncentive := povIncentive;
    }
  }

  // ---------------------------------------------------------------------
  // SmartPoolParameters (older schema: one fee map, no events)

  /** The field values of a SmartPoolParameters; the nested configs and the
      fee map are references. */
  datatype ParameterState = ParameterState(
    smartPoolId: JString, poolId: JString, poolOperators: array?<JString>,
    initialTxFee: i64, paymentType: JString, pplnsNumShares: i64,
    fees: HashMap?<string, real>,
    metaConf: ConfigsParams.MetadataConfig?, commandConf: ConfigsParams.CommandConfig?,
    holdingConf: ConfigsParams.HoldingConfig?, votingConf: VotingConfig?)

  class SmartPoolParameters {
    var smartPoolId: JString
    var poolId: JString
    var poolOperators: array?<JString>
    var initialTxFee: i64
    var paymentType: JString
    /** `PPLNS_NUM_SHARES` */
    var pplnsNumShares: i64
    var fees: HashMap?<string, real>
    var metaConf: ConfigsParams.MetadataConfig?
    var commandConf: ConfigsParams.CommandConfig?
    var holdingConf: ConfigsParams.HoldingConfig?
    var votingConf: VotingConfig?

    function Fields(): ParameterState
      reads this
    {
      ParameterState(smartPoolId, poolId, poolOperators, initialTxFee, paymentType, pplnsNumShares,
                     fees, metaConf, commandConf, holdingConf, votingConf)
    }

    /** Stores the ids and the operator array as given and fills every other
        field with its default: the minimal fee, PPLNS over 50000 shares,
        fresh "default" catalog records, and a fresh fee map holding the
        single entry "address" -> 1.0. */
    constructor (spId: JString, pId: JString, poolOps: array?<JString>)
      ensures smartPoolId == spId && poolId == pId && poolOperators == poolOps
      ensures initialTxFee == Appkit.MinFee && paymentType == Some("PPLNS") && pplnsNumShares == 50000
      ensures metaConf != null && fresh(metaConf)
      ensures metaConf.Fields() == ConfigsParams.MetadataState(Some(""), Some(""), Some("default"), 0)
      ensures commandConf != null && fresh(commandConf)
      ensures commandConf.Fields() == ConfigsParams.CommandState(Some(""), Some(""), Some("default"), 0)
      ensures holdingConf != null && fresh(holdingConf)
      ensures holdingConf.Fields() == ConfigsParams.HoldingState(Some(""), Some("default"), 0)
      ensures votingConf != null && fresh(votingConf)
      ensures votingConf.Fields() == VotingState(Some(""), Some(""), 0, 0, 0.0)
      ensures fees != null && fresh(fees) && fees.entries == map["address" := 1.0]
    {
      smartPoolId, poolId, poolOperators := spId, pId, poolOps;
      initialTxFee := Appkit.MinFee;
      paymentType := Some("PPLNS");
      pplnsNumShares := 50000;
      metaConf := new ConfigsParams.MetadataConfig(Some(""), Some(""), Some("default"), 0);
      commandConf := new ConfigsParams.CommandConfig(Some(""), Some(""), Some("default"), 0);
      holdingConf := new ConfigsParams.HoldingConfig(Some(""), Some("default"), 0);
      votingConf := new VotingConfig();
      var f := new HashMap<string, real>.Empty();
      f.Put("address", 1.0);
      fees := f;
    }

    /** A new parameter set with every field of this one: a SHALLOW copy
        that shares the catalog records and the fee map with the original.
        `this` is left unchanged. */
    method Copy() returns (sp: SmartPoolParameters)
      ensures fresh(sp) && sp != this
      ensures sp.Fields() == Fields()
      ensures sp.metaConf == metaConf && sp.commandConf == commandConf
      ensures sp.holdingConf == holdingConf && sp.votingConf == votingConf
      ensures sp.fees == fees
    {
      sp := new SmartPoolParameters(smartPoolId, poolId, poolOperators);
      sp.SetInitialTxFee(initialTxFee);
      sp.SetPplnsNumShares(pplnsNumShares);
      sp.SetPaymentType(paymentType);
      sp.SetMetaConf(metaConf);
      sp.SetCommandConf(commandConf);
      sp.SetHoldingConf(holdingConf);
      sp.SetVotingConf(votingConf);
      sp.SetFees(fees);
    }

    method SetSmartPoolId(smartPoolId: JString)
      modifies this`smartPoolId
      ensures Fields() == old(Fields()).(smartPoolId := smartPoolId)
    {
      this.smartPoolId := smartPoolId;
    }

    method SetPoolOperators(poolOperators: array?<JString>)
      modifies this`poolOperators
      ensures Fields() == old(Fields()).(poolOperators := poolOperators)
    {
      this.poolOperators := poolOperators;
    }

    method SetInitialTxFee(initialTxFee: i64)
      modifies this`initialTxFee
      ensures Fields() == old(Fields()).(initialTxFee := initialTxFee)
    {
      this.initialTxFee := initialTxFee;
    }

    method SetPoolId(poolId: JString)
      modifies this`poolId
      ensures Fields() == old(Fields()).(poolId := poolId)
    {
      this.poolId := poolId;
    }

    method SetPplnsNumShares(pplnsNumShares: i64)
      modifies this`pplnsNumShares
      ensures Fields() == old(Fields()).(pplnsNumShares := pplnsNumShares)
    {
      this.pplnsNumShares := pplnsNumShares;
    }

    method SetPaymentType(paymentType: JString)
      modifies this`paymentType
      ensures Fields() == old(Fields()).(paymentType := paymentType)
    {
      this.paymentType := paymentType;
    }

    method SetHoldingConf(holdingConf: ConfigsParams.HoldingConfig?)
      modifies this`holdingConf
      ensures Fields() == old(Fields()).(holdingConf := holdingConf)
    {
      this.holdingConf := holdingConf;
    }

    method SetCommandConf(commandConf: ConfigsParams.CommandConfig?)
      modifies this`commandConf
      ensures Fields() == old(Fields()).(commandConf := commandConf)
    {
      this.commandConf := commandConf;
    }

    method SetMetaConf(metaConf: ConfigsParams.MetadataConfig?)
      modifies this`metaConf
      ensures Fields() == old(Fields()).(metaConf := metaConf)
    {
      this.metaConf := metaConf;
    }

    method SetVotingConf(votingConf: VotingConfig?)
      modifies this`votingConf
      ensures Fields() == old(Fields()).(votingConf := votingConf)
    {
      this.votingConf := votingConf;
    }

    method SetFees(fees: HashMap?<string, real>)
      modifies this`fees
      ensures Fields() == old(Fields()).(fees := fees)
    {
      this.fees := fees;
    }
  }
}
