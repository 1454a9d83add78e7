/**
  The example vault crate: its own config record (with an extra `test`
  field), the state accessors of the state-management trait, its
  description constants, and its deposit and update-config handlers.
  `ExampleState` and `MyState` have the same shape as the package's `State`
  and are that record here; `ExampleConfig` and `MyConfig` likewise share one
  record.
 */
module Example {
  import opened Host
  import opened Errors
  import opened Structs
  import opened VaultState
  import opened Helpers
  import opened Handlers
  import opened ReplyHandler
  import opened Vault

  datatype ExampleConfig = ExampleConfig(strategyCap: Uint128, strategyDenom: Option<Denom>, baseDenom: Denom, test: string)

  /** The package config the example config carries, without its `test` field. */
  function AsVaultConfig(c: ExampleConfig): Config {
    Config(c.strategyCap, c.strategyDenom, c.baseDenom)
  }

  const STATE_KEY: string := "state"

  const EXAMPLE_STANDARD_VERSION: nat := 1

  const EXAMPLE_EXTENSIONS: seq<string> := ["lockup", "force-unlock"]

  /** The example vault's description; its crate name is a build-time constant, so it is a parameter here. */
  function ExampleDescribe(contractName: string): (d: Describe)
    ensures d.contractName == contractName
    ensures d.standardVersion == 1 && d.extensions == ["lockup", "force-unlock"]
  {
    Describe(contractName, EXAMPLE_STANDARD_VERSION, EXAMPLE_EXTENSIONS)
  }

  /** The example's initial config: zero cap, no strategy denom, the requested base denom, `test` set to "hello". */
  function InitConfig(msg: InstantiateMsg): (c: ExampleConfig)
    ensures c.strategyCap == 0 && c.strategyDenom.None?
    ensures c.baseDenom == msg.baseDenom && c.test == "hello"
  {
    ExampleConfig(0, None, msg.baseDenom, "hello")
  }

  /** Commits the strategy denom and nothing else. */
  function UpdateStrategyDenom(c: ExampleConfig, denom: Denom): (c': ExampleConfig)
    ensures c'.strategyDenom == Some(denom)
    ensures c'.strategyCap == c.strategyCap && c'.baseDenom == c.baseDenom && c'.test == c.test
  {
    c.(strategyDenom := Some(denom))
  }

  /** Committing the same denom twice is the same as committing it once. */
  lemma UpdateStrategyDenomIdempotent(c: ExampleConfig, denom: Denom)
    ensures UpdateStrategyDenom(UpdateStrategyDenom(c, denom), denom) == UpdateStrategyDenom(c, denom)
  {
  }

  /**
    Seen without its `test` field, the example config commits a denom exactly
    as the package's create-denom reply commits it into the package config.
   */
  lemma UpdateStrategyDenomMatchesReply(s: Store, c: ExampleConfig, denom: Denom)
    requires AsVaultConfig(c) == s.config
    ensures CreateStrategyDenomReply(s, SubOk(denom)).Ok?
    ensures CreateStrategyDenomReply(s, SubOk(denom)).value.store.config == AsVaultConfig(UpdateStrategyDenom(c, denom))
  {
  }

  /** The example's initial config is the package's, except that its cap starts at zero. */
  lemma InitConfigMatchesPackage(msg: InstantiateMsg)
    ensures AsVaultConfig(InitConfig(msg)) == InitialiseConfig(msg).(strategyCap := 0)
  {
  }

  function SetOpen(s: State, open: bool): (s': State)
    ensures s'.isOpen == open && s'.isPaused == s.isPaused && s'.lastPause == s.lastPause
  {
    s.(isOpen := open)
  }

  function SetPaused(s: State, paused: bool): (s': State)
    ensures s'.isPaused == paused && s'.isOpen == s.isOpen && s'.lastPause == s.lastPause
  {
    s.(isPaused := paused)
  }

  /** The example's initial state is the package's: closed, paused, stamped with the block time. */
  function InitState(env: Env): (s: State)
    ensures !s.isOpen && s.isPaused && s.lastPause == env.blockTime
    ensures s == InitialiseState(env)
  {
    State(false, true, env.blockTime)
  }

  /** `update_state` flips the paused flag and keeps the rest. */
  function UpdateState(s: State): (s': State)
    ensures s'.isPaused != s.isPaused
    ensures s'.isOpen == s.isOpen && s'.lastPause == s.lastPause
  {
    s.(isPaused := !s.isPaused)
  }

  /** Flipping twice restores the state: `update_state` is an involution. */
  lemma UpdateStateInvolution(s: State)
    ensures UpdateState(UpdateState(s)) == s
  {
  }

  /** Setting a flag to its current value changes nothing, and the two setters commute. */
  lemma SettersIndependent(s: State, open: bool, paused: bool)
    ensures SetOpen(s, s.isOpen) == s && SetPaused(s, s.isPaused) == s
    ensures SetOpen(SetPaused(s, paused), open) == SetPaused(SetOpen(s, open), paused)
  {
  }

  /** `is_contract_open`: reads the stored flag; a missing state item is a not-found error. */
  function IsContractOpen(stored: Option<State>): (r: Result<bool, ContractError>)
    ensures r.Ok? <==> stored.Some?
    ensures r.Ok? ==> r.value == stored.value.isOpen
    ensures r.Err? ==> r.error == Std(NotFound(STATE_KEY))
  {
    match stored
    case None => Err(Std(NotFound(STATE_KEY)))
    case Some(s) => Ok(s.isOpen)
  }

  /** `is_contract_paused`: reads the stored flag; a missing state item is a not-found error. */
  function IsContractPaused(stored: Option<State>): (r: Result<bool, ContractError>)
    ensures r.Ok? <==> stored.Some?
    ensures r.Ok? ==> r.value == stored.value.isPaused
    ensures r.Err? ==> r.error == Std(NotFound(STATE_KEY))
  {
    match stored
    case None => Err(Std(NotFound(STATE_KEY)))
    case Some(s) => Ok(s.isPaused)
  }

  /** The storage readers report what the setters, the toggle and the initialiser wrote. */
  lemma AccessorLaws(s: State, b: bool, env: Env)
    ensures IsContractOpen(Some(SetOpen(s, b))) == Ok(b) && IsContractPaused(Some(SetOpen(s, b))) == Ok(s.isPaused)
    ensures IsContractPaused(Some(SetPaused(s, b))) == Ok(b) && IsContractOpen(Some(SetPaused(s, b))) == Ok(s.isOpen)
    ensures IsContractPaused(Some(UpdateState(s))) == Ok(!s.isPaused) && IsContractOpen(Some(UpdateState(s))) == Ok(s.isOpen)
    ensures IsContractOpen(Some(InitState(env))) == Ok(false) && IsContractPaused(Some(InitState(env))) == Ok(true)
  {
  }

  datatype ConfigStep = ConfigStep(config: ExampleConfig, response: Response)

  /** `handle_update_config`: owner-only, and the stored config is written back unchanged. */
  function HandleUpdateConfig(owner: Option<Addr>, c: ExampleConfig, info: MessageInfo): (r: Result<ConfigStep, ContractError>)
    ensures r.Ok? <==> IsAdmin(owner, info.sender)
    ensures r.Err? ==> r.error == Admin(NotAdmin)
    ensures r.Ok? ==> r.value.config == c && r.value.response == EventOnly("update_config")
  {
    match AssertAdmin(owner, info.sender)
    case Err(e) => Err(e)
    case Ok(_) => Ok(ConfigStep(c, EventOnly("update_config")))
  }

  /**
    The example's `handle_deposit`. Its lifecycle guard is the default
    `is_open_and_unpaused` of the state-management trait, which is not part
    of this model: it is taken to pass exactly when the stored state is open
    and unpaused, and to fail with `lifecycleError` otherwise. Then the
    payment in the base denom, then the strategy denom; one mint of the paid
    amount, from the contract, to the sender.
   */
  function HandleDeposit(state: State, c: ExampleConfig, lifecycleError: ContractError, env: Env, info: MessageInfo)
    : (r: Result<Response, ContractError>)
    ensures r.Ok? <==> state.isOpen && !state.isPaused && PaysExactly(info.funds, c.baseDenom) && c.strategyDenom.Some?
    ensures !(state.isOpen && !state.isPaused) ==> r == Err(lifecycleError)
    ensures state.isOpen && !state.isPaused && !PaysExactly(info.funds, c.baseDenom) ==> r == Err(InvalidFunds)
    ensures (state.isOpen && !state.isPaused && PaysExactly(info.funds, c.baseDenom) && c.strategyDenom.None?)
            ==> r == Err(DenomNotInitialized)
    ensures r.Ok? ==> (r.value.messages ==
      [SubMsg(0, Mint(env.contractAddr, Coin(c.strategyDenom.value, info.funds[0].amount), info.sender), ReplyNever)])
    ensures r.Ok? ==> r.value.attributes == [] && r.value.events == []
  {
    if !(state.isOpen && !state.isPaused) then Err(lifecycleError)
    else
      match MustPay(info.funds, c.baseDenom)
      case Err(_) => Err(InvalidFunds)
      case Ok(amount) =>
        match c.strategyDenom
        case None => Err(DenomNotInitialized)
        case Some(d) => Ok(AddMessage(EmptyResponse, Mint(env.contractAddr, Coin(d, amount), info.sender)))
  }

  /**
    The two revisions of deposit: on an open, unpaused vault with matching
    configs they fail with the same error or give the same response (the
    package's store untouched); otherwise both fail, each with its own
    lifecycle error.
   */
  lemma DepositRevisionsAgree(s: Store, c: ExampleConfig, lifecycleError: ContractError, env: Env, info: MessageInfo)
    requires AsVaultConfig(c) == s.config
    ensures s.state.isOpen && !s.state.isPaused ==>
              (HandleDeposit(s.state, c, lifecycleError, env, info).Err? <==> Handlers.Deposit(s, env, info).Err?)
    ensures s.state.isOpen && !s.state.isPaused && HandleDeposit(s.state, c, lifecycleError, env, info).Err? ==>
              HandleDeposit(s.state, c, lifecycleError, env, info).error == Handlers.Deposit(s, env, info).error
    ensures s.state.isOpen && !s.state.isPaused && HandleDeposit(s.state, c, lifecycleError, env, info).Ok? ==>
              HandleDeposit(s.state, c, lifecycleError, env, info).value == Handlers.Deposit(s, env, info).value.response
              && Handlers.Deposit(s, env, info).value.store == s
    ensures !(s.state.isOpen && !s.state.isPaused) ==>
              HandleDeposit(s.state, c, lifecycleError, env, info) == Err(lifecycleError)
              && Handlers.Deposit(s, env, info).Err? && Handlers.Deposit(s, env, info).error.Std?
  {
  }

  /** The config update is gated exactly like opening the vault: the same callers are refused with the same error. */
  lemma UpdateConfigGateMatchesOpen(s: Store, c: ExampleConfig, info: MessageInfo)
    ensures HandleUpdateConfig(s.owner, c, info).Err? <==> OpenContract(s, info) == Err(Admin(NotAdmin))
    ensures HandleUpdateConfig(s.owner, c, info).Err? ==> HandleUpdateConfig(s.owner, c, info).error == Admin(NotAdmin)
  {
  }

  /** The standard-info query of the example vault reports version 1 and the two extensions, in order. */
  lemma ExampleStandardInfo(s: Store, contractName: string)
    ensures RouteQuery(s, ExampleDescribe(contractName), VaultStandardInfo)
         == Answered(StandardInfo(1, ["lockup", "force-unlock"]))
  {
  }
}
