/** The start command's configuration: its flags, the record they fill and
    the validation of the contract address (cmd/blobstreamx-monitor/watch/config.go). */
module Config {
  import opened Outcomes

  const FlagEVMRPC := "evm.rpc"
  const FlagEVMContractAddress := "evm.contract-address"
  const FlagMetricsEndpoint := "metrics.endpoint"
  const FlagMetricsTLS := "metrics.tls"
  const FlagMetricsLabel := "metrics.label"
  const FlagLogLevel := "log.level"
  const FlagLogFormat := "log.format"

  const EmptyAddressMessage := "the EVM address cannot be empty"
  const InvalidAddressMessage := "valid EVM address is required"

  /** The telemetry settings carried inside the start configuration. */
  datatype MetricsConfig = MetricsConfig(endpoint: string, tls: bool, metricLabel: string)

  datatype StartConfig = StartConfig(
    evmRpc: string,
    contractAddress: string,
    metricsConfig: MetricsConfig,
    logLevel: string,
    logFormat: string)

  // ---------------------------------------------------------------------------
  // Flags

  /** The value a command-line flag holds: the start command declares string
      flags and one boolean flag. */
  datatype FlagValue = StringFlag(s: string) | BoolFlag(b: bool)

  /** The flags of a command by name, as the flag library holds them after parsing. */
  type FlagSet = map<string, FlagValue>

  function TypeName(v: FlagValue): string {
    match v
    case StringFlag(_) => "string"
    case BoolFlag(_) => "bool"
  }

  /** The flags `addStartFlags` declares, with their defaults. Every flag
      `parseStartFlags` reads is declared, with the type it is read as. */
  function StartFlags(): (flags: FlagSet)
    ensures forall p :: p in ReadOrder ==> p.0 in flags && TypeName(flags[p.0]) == p.1
  {
    map[
      FlagEVMRPC := StringFlag("http://localhost:8545"),
      FlagEVMContractAddress := StringFlag(""),
      FlagMetricsLabel := StringFlag("blobstream x"),
      FlagMetricsEndpoint := StringFlag("localhost:4318"),
      FlagMetricsTLS := BoolFlag(false),
      FlagLogLevel := StringFlag("info"),
      FlagLogFormat := StringFlag("plain")
    ]
  }

  /** The check the flag library makes before handing out a flag's value of
      type `kind`: the flag must be declared and hold a value of that type. */
  function CheckFlag(flags: FlagSet, name: string, kind: string): (r: Outcome)
    ensures r == Ok <==> name in flags && TypeName(flags[name]) == kind
  {
    if name !in flags then Err("flag accessed but not defined: " + name)
    else if TypeName(flags[name]) != kind then
      Err("trying to get " + kind + " value of flag of type " + TypeName(flags[name]))
    else Ok
  }

  function GetString(flags: FlagSet, name: string): (r: Result<string>)
    ensures r.Success? <==> CheckFlag(flags, name, "string") == Ok
    ensures r.Success? ==> flags[name] == StringFlag(r.value)
    ensures r.Failure? ==> CheckFlag(flags, name, "string") == Err(r.message)
  {
    match CheckFlag(flags, name, "string")
    case Err(m) => Failure(m)
    case Ok => Success(flags[name].s)
  }

  function GetBool(flags: FlagSet, name: string): (r: Result<bool>)
    ensures r.Success? <==> CheckFlag(flags, name, "bool") == Ok
    ensures r.Success? ==> flags[name] == BoolFlag(r.value)
    ensures r.Failure? ==> CheckFlag(flags, name, "bool") == Err(r.message)
  {
    match CheckFlag(flags, name, "bool")
    case Err(m) => Failure(m)
    case Ok => Success(flags[name].b)
  }

  /** The flags `parseStartFlags` reads, in the order it reads them, with the
      type it asks each one for. */
  const ReadOrder: seq<(string, string)> := [
    (FlagEVMContractAddress, "string"),
    (FlagEVMRPC, "string"),
    (FlagMetricsEndpoint, "string"),
    (FlagMetricsLabel, "string"),
    (FlagMetricsTLS, "bool"),
    (FlagLogLevel, "string"),
    (FlagLogFormat, "string")
  ]

  /** The error of the first lookup in `order` that fails, if any. */
  function FirstLookupError(flags: FlagSet, order: seq<(string, string)>): Option<string> {
    if order == [] then None
    else match CheckFlag(flags, order[0].0, order[0].1)
      case Err(m) => Some(m)
      case Ok => FirstLookupError(flags, order[1..])
  }

  /** Reads every flag and copies its value, unchanged, into the field it
      configures; a lookup that fails ends the parse with its error. */
  function ParseStartFlags(flags: FlagSet): (r: Result<StartConfig>)
    ensures r.Success? ==>
      && GetString(flags, FlagEVMRPC) == Success(r.value.evmRpc)
      && GetString(flags, FlagEVMContractAddress) == Success(r.value.contractAddress)
      && GetString(flags, FlagMetricsEndpoint) == Success(r.value.metricsConfig.endpoint)
      && GetBool(flags, FlagMetricsTLS) == Success(r.value.metricsConfig.tls)
      && GetString(flags, FlagMetricsLabel) == Success(r.value.metricsConfig.metricLabel)
      && GetString(flags, FlagLogLevel) == Success(r.value.logLevel)
      && GetString(flags, FlagLogFormat) == Success(r.value.logFormat)
  {
    var contractAddress :- GetString(flags, FlagEVMContractAddress);
    var evmRpc :- GetString(flags, FlagEVMRPC);
    var endpoint :- GetString(flags, FlagMetricsEndpoint);
    var metricLabel :- GetString(flags, FlagMetricsLabel);
    var tls :- GetBool(flags, FlagMetricsTLS);
    var logLevel :- GetString(flags, FlagLogLevel);
    var logFormat :- GetString(flags, FlagLogFormat);
    Success(StartConfig(
      evmRpc,
      contractAddress,
      MetricsConfig(endpoint, tls, metricLabel),
      logLevel,
      logFormat))
  }

  /** The parse fails exactly when some lookup in `ReadOrder` fails, and then
      with the error of the first such lookup: the flags are read one at a
      time, in that order, and the first failure is returned. */
  lemma ParseStartFlagsFollowsReadOrder(flags: FlagSet)
    ensures ParseStartFlags(flags).Success? <==> FirstLookupError(flags, ReadOrder) == None
    ensures ParseStartFlags(flags).Failure? ==>
      FirstLookupError(flags, ReadOrder) == Some(ParseStartFlags(flags).message)
  {
    var order := ReadOrder;
    LookupStep(flags, order);
    LookupStep(flags, order[1..]);
    LookupStep(flags, order[2..]);
    LookupStep(flags, order[3..]);
    LookupStep(flags, order[4..]);
    LookupStep(flags, order[5..]);
    LookupStep(flags, order[6..]);
    assert order[1..][1..] == order[2..];
    assert order[2..][1..] == order[3..];
    assert order[3..][1..] == order[4..];
    assert order[4..][1..] == order[5..];
    assert order[5..][1..] == order[6..];
    assert order[6..][1..] == [];
  }

  /** One lookup of `FirstLookupError`: the head's error, or the rest's. */
  lemma LookupStep(flags: FlagSet, order: seq<(string, string)>)
    requires order != []
    ensures CheckFlag(flags, order[0].0, order[0].1).Err? ==>
      FirstLookupError(flags, order) == Some(CheckFlag(flags, order[0].0, order[0].1).message)
    ensures CheckFlag(flags, order[0].0, order[0].1) == Ok ==>
      FirstLookupError(flags, order) == FirstLookupError(flags, order[1..])
  {}

  /** Every flag the start command declares parses, whatever value the user
      gave it, as long as it keeps its declared type; other flags in the set
      (such as the command's own `help`) play no part. */
  lemma DeclaredFlagsAlwaysParse(flags: FlagSet)
    requires StartFlags().Keys <= flags.Keys
    requires forall name :: name in StartFlags() ==> TypeName(flags[name]) == TypeName(StartFlags()[name])
    ensures ParseStartFlags(flags).Success?
  {}

  // ---------------------------------------------------------------------------
  // Validation

  /** Checks a contract address. `isHexAddress` stands for go-ethereum's
      `common.IsHexAddress`, which is not part of this model. */
  function ValidateEVMAddress(addr: string, isHexAddress: string -> bool): (r: Outcome)
    ensures addr == "" ==> r == Err(EmptyAddressMessage)
    ensures addr != "" && !isHexAddress(addr) ==> r == Err(InvalidAddressMessage)
    ensures r == Ok <==> addr != "" && isHexAddress(addr)
  {
    if addr == "" then Err(EmptyAddressMessage)
    else if !isHexAddress(addr) then Err(InvalidAddressMessage)
    else Ok
  }

  /** The empty address is rejected before the hex check is consulted: the
      verdict is the same whatever that check would say. */
  lemma EmptyAddressSkipsHexCheck(isHex1: string -> bool, isHex2: string -> bool)
    ensures ValidateEVMAddress("", isHex1) == ValidateEVMAddress("", isHex2) == Err(EmptyAddressMessage)
  {}

  /** The two rejections carry different messages, so a caller can tell an
      empty address from a malformed one. */
  lemma RejectionsAreDistinct(addr1: string, addr2: string, isHexAddress: string -> bool)
    requires addr1 == ""
    requires addr2 != "" && !isHexAddress(addr2)
    ensures ValidateEVMAddress(addr1, isHexAddress) != ValidateEVMAddress(addr2, isHexAddress)
  {}

  /** Validates the configuration: only the contract address is checked, and
      its error is reported with the flag that set it. */
  function ValidateBasics(cfg: StartConfig, isHexAddress: string -> bool): (r: Outcome)
    ensures r == Ok <==> ValidateEVMAddress(cfg.contractAddress, isHexAddress) == Ok
    ensures r.Err? ==>
      r.message == ValidateEVMAddress(cfg.contractAddress, isHexAddress).message
                   + ": flag --" + FlagEVMContractAddress
  {
    match ValidateEVMAddress(cfg.contractAddress, isHexAddress)
    case Err(m) => Err(m + ": flag --" + FlagEVMContractAddress)
    case Ok => Ok
  }

  /** Fields other than the contract address play no part in validation. */
  lemma ValidateBasicsReadsOnlyAddress(a: StartConfig, b: StartConfig, isHexAddress: string -> bool)
    requires a.contractAddress == b.contractAddress
    ensures ValidateBasics(a, isHexAddress) == ValidateBasics(b, isHexAddress)
  {}

  /** The configuration that the flags' defaults describe. */
  const DefaultConfig := StartConfig(
    "http://localhost:8545", "",
    MetricsConfig("localhost:4318", false, "blobstream x"),
    "info", "plain")

  /** With every flag at its default, parsing gives the defaults of
      `addStartFlags`, field by field. */
  lemma DefaultsParse()
    ensures ParseStartFlags(StartFlags()) == Success(DefaultConfig)
  {}

  /** Started with every flag at its default, the command stops at
      validation, because no contract address was given. */
  lemma DefaultsFailValidation(isHexAddress: string -> bool)
    ensures ParseStartFlags(StartFlags()) == Success(DefaultConfig)
    ensures ValidateBasics(DefaultConfig, isHexAddress)
      == Err(EmptyAddressMessage + ": flag --" + FlagEVMContractAddress)
  {
    DefaultsParse();
  }
}
