/**
  The vault's entry points: instantiation (the first half of provisioning),
  reply routing (the second half), and the routing of execute and query
  messages, as closed variant types matched exhaustively.
 */
module Vault {
  import opened Host
  import opened Errors
  import opened Structs
  import opened VaultState
  import opened Helpers
  import opened Handlers
  import opened ReplyHandler
  import opened Query
  import opened Ownership

  const CREATE_STRATEGY_DENOM_REPLY_ID: nat := 1

  /** What a concrete vault describes about itself. */
  datatype Describe = Describe(contractName: string, standardVersion: nat, extensions: seq<string>)

  datatype MarginedExecuteMsg =
    | ClaimOwnership
    | UnPause
    | SetOpen
    | UpdateConfig
    | RejectOwner
    | Pause
    | ProposeNewOwner(newOwner: Addr, duration: nat)

  datatype ExecuteMsg =
    | Deposit(amount: Uint128, recipient: Option<Addr>)
    | Redeem(recipient: Option<Addr>, amount: Uint128)
    | VaultExtension(ext: MarginedExecuteMsg)

  /** A routed call either reaches a handler or hits an `unimplemented!` arm, which aborts the call. */
  datatype Dispatch = Handled(result: Result<Step, ContractError>) | Unimplemented

  datatype QueryMsg =
    | VaultStandardInfo
    | Info
    | PreviewDeposit(amount: Uint128)
    | PreviewRedeem(amount: Uint128)
    | TotalAssets
    | TotalVaultTokenSupply
    | ConvertToShares(amount: Uint128)
    | ConvertToAssets(amount: Uint128)
    | ConfigQuery
    | StateQuery

  datatype QueryAnswer =
    | StandardInfo(version: nat, extensions: seq<string>)
    | ConfigAnswer(config: ConfigResponse)
    | StateAnswer(state: StateResponse)

  datatype QueryDispatch = Answered(answer: QueryAnswer) | QueryUnimplemented

  /**
    Instantiation: records the contract version, initialises state and
    config, makes the sender the owner, and issues exactly one create-denom
    submessage that always replies, under reply id 1. The strategy denom
    stays absent until that reply arrives.
   */
  function Instantiate(d: Describe, crateVersion: string, env: Env, info: MessageInfo, msg: InstantiateMsg): (r: Step)
    ensures r.store.owner == Some(info.sender) && r.store.proposal.None?
    ensures !r.store.state.isOpen && r.store.state.isPaused && r.store.state.lastPause == env.blockTime
    ensures r.store.config.strategyDenom.None?
    ensures r.store.config.baseDenom == msg.baseDenom && r.store.config.strategyCap == DEFAULT_STRATEGY_CAP
    ensures r.store.version == ContractVersion("crates.io:" + d.contractName, crateVersion)
    ensures |r.response.messages| == 1
    ensures r.response.messages[0].id == CREATE_STRATEGY_DENOM_REPLY_ID && r.response.messages[0].replyOn == ReplyAlways
    ensures r.response.messages[0].msg == CreateDenom(env.contractAddr, d.contractName)
    ensures r.response.attributes == [Attribute("action", Text("instantiate"))] && r.response.events == []
  {
    var store := Store(Some(info.sender), None, InitialiseState(env), InitialiseConfig(msg),
                       ContractVersion("crates.io:" + d.contractName, crateVersion));
    var createDenom := SubMsg(CREATE_STRATEGY_DENOM_REPLY_ID, CreateDenom(env.contractAddr, d.contractName), ReplyAlways);
    Step(store, Response([createDenom], [Attribute("action", Text("instantiate"))], []))
  }

  /** Reply routing: only the create-denom reply id is known; any other id changes nothing. */
  function RouteReply(s: Store, env: Env, msg: Reply): (r: Result<Step, ContractError>)
    ensures msg.id != CREATE_STRATEGY_DENOM_REPLY_ID ==> r == Err(InvalidReplyId)
    ensures msg.id == CREATE_STRATEGY_DENOM_REPLY_ID ==> r == CreateStrategyDenomReply(s, msg.result)
  {
    if msg.id == CREATE_STRATEGY_DENOM_REPLY_ID then CreateStrategyDenomReply(s, msg.result)
    else Err(InvalidReplyId)
  }

  /**
    Execute routing: the lifecycle and ownership variants reach their
    handlers; top-level deposit and redeem and the config update are
    unimplemented in this package.
   */
  function Execute(s: Store, env: Env, info: MessageInfo, msg: ExecuteMsg, maxDuration: nat): (r: Dispatch)
    ensures r.Unimplemented? <==> msg.Deposit? || msg.Redeem? || msg == VaultExtension(UpdateConfig)
    ensures msg == VaultExtension(SetOpen) ==> r == Handled(OpenContract(s, info))
    ensures msg == VaultExtension(Pause) ==> r == Handled(Handlers.Pause(s, info))
    ensures msg == VaultExtension(UnPause) ==> r == Handled(Unpause(s, info))
    ensures msg == VaultExtension(ClaimOwnership) ==> r == Handled(Ownership.ClaimOwnership(s, env, info))
    ensures msg == VaultExtension(RejectOwner) ==> r == Handled(Ownership.RejectOwner(s, info))
    ensures msg.VaultExtension? && msg.ext.ProposeNewOwner? ==>
              r == Handled(Ownership.ProposeNewOwner(s, env, info, msg.ext.newOwner, msg.ext.duration, maxDuration))
  {
    match msg
    case Deposit(_, _) => Unimplemented
    case Redeem(_, _) => Unimplemented
    case VaultExtension(ext) =>
      match ext
      case ClaimOwnership => Handled(Ownership.ClaimOwnership(s, env, info))
      case UnPause => Handled(Unpause(s, info))
      case SetOpen => Handled(OpenContract(s, info))
      case UpdateConfig => Unimplemented
      case RejectOwner => Handled(Ownership.RejectOwner(s, info))
      case Pause => Handled(Handlers.Pause(s, info))
      case ProposeNewOwner(newOwner, duration) =>
        Handled(Ownership.ProposeNewOwner(s, env, info, newOwner, duration, maxDuration))
  }

  /**
    Query routing: the standard-info query reports the vault's description,
    the config and state queries project the store, the rest are
    unimplemented.
   */
  function RouteQuery(s: Store, d: Describe, msg: QueryMsg): (r: QueryDispatch)
    ensures msg == VaultStandardInfo ==> r == Answered(StandardInfo(d.standardVersion, d.extensions))
    ensures msg == ConfigQuery ==> r == Answered(ConfigAnswer(QueryConfig(s)))
    ensures msg == StateQuery ==> r == Answered(StateAnswer(QueryState(s)))
    ensures r.QueryUnimplemented? <==> !(msg.VaultStandardInfo? || msg.ConfigQuery? || msg.StateQuery?)
  {
    match msg
    case VaultStandardInfo => Answered(StandardInfo(d.standardVersion, d.extensions))
    case ConfigQuery => Answered(ConfigAnswer(QueryConfig(s)))
    case StateQuery => Answered(StateAnswer(QueryState(s)))
    case _ => QueryUnimplemented
  }

  /** A freshly instantiated vault fails the open-and-unpaused guard and reports no strategy denom yet. */
  lemma FreshVaultIsNotLive(d: Describe, crateVersion: string, env: Env, info: MessageInfo, msg: InstantiateMsg)
    ensures var s := Instantiate(d, crateVersion, env, info, msg).store;
            IsOpenAndUnpaused(s.state) == Err(GenericErr(NOT_OPEN_MSG)) && QueryConfig(s).strategyDenom == ""
  {
  }

  /**
    The provisioning protocol closes: replying to the one submessage that
    instantiation issued, with its own id and a created denom, commits that
    denom and nothing else.
   */
  lemma ProvisioningCompletes(d: Describe, crateVersion: string, env: Env, info: MessageInfo, msg: InstantiateMsg,
                              later: Env, denom: Denom)
    ensures var step := Instantiate(d, crateVersion, env, info, msg);
            var r := RouteReply(step.store, later, Reply(step.response.messages[0].id, SubOk(denom)));
            r.Ok? && r.value.store == step.store.(config := step.store.config.(strategyDenom := Some(denom)))
  {
  }
}
