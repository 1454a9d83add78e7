/**
  The lifecycle transitions (open, pause, unpause) and the share gate
  (deposit, redeem) of the vault package, as pure transitions over the store.

  `Pause` and `Unpause` follow the code as written: they guard on and flip
  `isOpen`, never `isPaused`, and reject non-owners with `Unauthorized`
  rather than the admin error `OpenContract` uses.
 */
module Handlers {
  import opened Host
  import opened Errors
  import opened Structs
  import opened VaultState

  /** Owner-only; refuses an open vault; opens and unpauses it. */
  function OpenContract(s: Store, info: MessageInfo): (r: Result<Step, ContractError>)
    ensures r.Ok? <==> IsAdmin(s.owner, info.sender) && !s.state.isOpen
    ensures !IsAdmin(s.owner, info.sender) ==> r == Err(Admin(NotAdmin))
    ensures IsAdmin(s.owner, info.sender) && s.state.isOpen ==> r == Err(IsOpen)
    ensures r.Ok? ==> r.value.store.state.isOpen && !r.value.store.state.isPaused
    ensures r.Ok? ==> r.value.store.state.lastPause == s.state.lastPause
    ensures r.Ok? ==> OnlyStateChanged(s, r.value.store)
    ensures r.Ok? ==> r.value.response == EventOnly("open_contract")
  {
    match AssertAdmin(s.owner, info.sender)
    case Err(e) => Err(e)
    case Ok(_) =>
      if s.state.isOpen then Err(IsOpen)
      else
        var state' := s.state.(isOpen := true, isPaused := false);
        Ok(Step(s.(state := state'), EventOnly("open_contract")))
  }

  /** Owner-only; refuses a closed vault with `Paused`; closes it. `isPaused` and `lastPause` are kept. */
  function Pause(s: Store, info: MessageInfo): (r: Result<Step, ContractError>)
    ensures r.Ok? <==> IsAdmin(s.owner, info.sender) && s.state.isOpen
    ensures !IsAdmin(s.owner, info.sender) ==> r == Err(Unauthorized)
    ensures IsAdmin(s.owner, info.sender) && !s.state.isOpen ==> r == Err(Paused)
    ensures r.Ok? ==> !r.value.store.state.isOpen
    ensures r.Ok? ==> r.value.store.state.isPaused == s.state.isPaused
    ensures r.Ok? ==> r.value.store.state.lastPause == s.state.lastPause
    ensures r.Ok? ==> OnlyStateChanged(s, r.value.store)
    ensures r.Ok? ==> r.value.response == EventOnly("paused")
  {
    if !IsAdmin(s.owner, info.sender) then Err(Unauthorized)
    else if !s.state.isOpen then Err(Paused)
    else Ok(Step(s.(state := s.state.(isOpen := false)), EventOnly("paused")))
  }

  /** Owner-only; refuses an open vault with `NotPaused`; opens it. `isPaused` and `lastPause` are kept. */
  function Unpause(s: Store, info: MessageInfo): (r: Result<Step, ContractError>)
    ensures r.Ok? <==> IsAdmin(s.owner, info.sender) && !s.state.isOpen
    ensures !IsAdmin(s.owner, info.sender) ==> r == Err(Unauthorized)
    ensures IsAdmin(s.owner, info.sender) && s.state.isOpen ==> r == Err(NotPaused)
    ensures r.Ok? ==> r.value.store.state.isOpen
    ensures r.Ok? ==> r.value.store.state.isPaused == s.state.isPaused
    ensures r.Ok? ==> r.value.store.state.lastPause == s.state.lastPause
    ensures r.Ok? ==> OnlyStateChanged(s, r.value.store)
    ensures r.Ok? ==> r.value.response == EventOnly("unpaused")
  {
    if !IsAdmin(s.owner, info.sender) then Err(Unauthorized)
    else if s.state.isOpen then Err(NotPaused)
    else Ok(Step(s.(state := s.state.(isOpen := true)), EventOnly("unpaused")))
  }

  /**
    The contract mints `amount` of the stored strategy denom to `to`; needs
    the denom to be committed.
   */
  function MintStrategyToken(strategyDenom: Option<Denom>, env: Env, to: Addr, amount: Uint128)
    : (r: Result<CosmosMsg, ContractError>)
    ensures r.Ok? <==> strategyDenom.Some?
    ensures r.Err? ==> r.error == DenomNotInitialized
    ensures r.Ok? ==> r.value.Mint? && r.value.sender == env.contractAddr && r.value.mintTo == to
    ensures r.Ok? ==> r.value.coin == Coin(strategyDenom.value, amount)
  {
    match strategyDenom
    case None => Err(DenomNotInitialized)
    case Some(d) => Ok(Mint(env.contractAddr, Coin(d, amount), to))
  }

  /**
    The contract burns `amount` of the stored strategy denom from its own
    balance; needs the denom to be committed.
   */
  function BurnStrategyToken(strategyDenom: Option<Denom>, env: Env, amount: Uint128)
    : (r: Result<CosmosMsg, ContractError>)
    ensures r.Ok? <==> strategyDenom.Some?
    ensures r.Err? ==> r.error == DenomNotInitialized
    ensures r.Ok? ==> r.value.Burn? && r.value.sender == env.contractAddr && r.value.burnFrom == env.contractAddr
    ensures r.Ok? ==> r.value.coin == Coin(strategyDenom.value, amount)
  {
    match strategyDenom
    case None => Err(DenomNotInitialized)
    case Some(d) => Ok(Burn(env.contractAddr, Coin(d, amount), env.contractAddr))
  }

  /**
    The package's deposit gate: the lifecycle guard, then the payment in
    `baseDenom`, then the strategy denom (checked inside the mint); the result
    is a 1:1 mint of the paid amount to the sender.
   */
  function DepositMint(state: State, baseDenom: Denom, strategyDenom: Option<Denom>, env: Env, info: MessageInfo)
    : (r: Result<CosmosMsg, ContractError>)
    ensures r.Ok? <==> state.isOpen && !state.isPaused && PaysExactly(info.funds, baseDenom) && strategyDenom.Some?
    ensures !state.isOpen ==> r == Err(Std(GenericErr(NOT_OPEN_MSG)))
    ensures state.isOpen && state.isPaused ==> r == Err(Std(GenericErr(PAUSED_MSG)))
    ensures state.isOpen && !state.isPaused && !PaysExactly(info.funds, baseDenom) ==> r == Err(InvalidFunds)
    ensures state.isOpen && !state.isPaused && PaysExactly(info.funds, baseDenom) && strategyDenom.None?
            ==> r == Err(DenomNotInitialized)
    ensures r.Ok? ==> r.value == Mint(env.contractAddr, Coin(strategyDenom.value, info.funds[0].amount), info.sender)
  {
    match IsOpenAndUnpaused(state)
    case Err(e) => Err(Std(e))
    case Ok(_) =>
      match MustPay(info.funds, baseDenom)
      case Err(_) => Err(InvalidFunds)
      case Ok(amount) => MintStrategyToken(strategyDenom, env, info.sender, amount)
  }

  /** `handle_deposit`: the gate above over the stored state and config; storage is untouched. */
  function Deposit(s: Store, env: Env, info: MessageInfo): (r: Result<Step, ContractError>)
    ensures r.Ok? <==> s.state.isOpen && !s.state.isPaused && PaysExactly(info.funds, s.config.baseDenom)
                       && s.config.strategyDenom.Some?
    ensures !s.state.isOpen ==> r == Err(Std(GenericErr(NOT_OPEN_MSG)))
    ensures s.state.isOpen && s.state.isPaused ==> r == Err(Std(GenericErr(PAUSED_MSG)))
    ensures s.state.isOpen && !s.state.isPaused && !PaysExactly(info.funds, s.config.baseDenom) ==> r == Err(InvalidFunds)
    ensures (s.state.isOpen && !s.state.isPaused && PaysExactly(info.funds, s.config.baseDenom)
             && s.config.strategyDenom.None?) ==> r == Err(DenomNotInitialized)
    ensures r.Ok? ==> r.value.store == s
    ensures r.Ok? ==> (r.value.response.messages ==
      [SubMsg(0, Mint(env.contractAddr, Coin(s.config.strategyDenom.value, info.funds[0].amount), info.sender), ReplyNever)])
    ensures r.Ok? ==> r.value.response.attributes == [] && r.value.response.events == []
  {
    match DepositMint(s.state, s.config.baseDenom, s.config.strategyDenom, env, info)
    case Err(e) => Err(e)
    case Ok(m) => Ok(Step(s, AddMessage(EmptyResponse, m)))
  }

  /**
    `handle_redeem`: the strategy denom first, then the payment in it; the
    result is a burn of the paid amount from the contract's own balance.
    There is no lifecycle guard and no transfer of the base asset back.
   */
  function Redeem(s: Store, env: Env, info: MessageInfo): (r: Result<Step, ContractError>)
    ensures r.Ok? <==> s.config.strategyDenom.Some? && PaysExactly(info.funds, s.config.strategyDenom.value)
    ensures s.config.strategyDenom.None? ==> r == Err(DenomNotInitialized)
    ensures s.config.strategyDenom.Some? && !PaysExactly(info.funds, s.config.strategyDenom.value)
            ==> r == Err(InvalidFunds)
    ensures r.Ok? ==> r.value.store == s
    ensures r.Ok? ==> (r.value.response.messages ==
      [SubMsg(0, Burn(env.contractAddr, info.funds[0], env.contractAddr), ReplyNever)])
    ensures r.Ok? ==> r.value.response.attributes == [] && r.value.response.events == []
  {
    match s.config.strategyDenom
    case None => Err(DenomNotInitialized)
    case Some(d) =>
      match MustPay(info.funds, d)
      case Err(_) => Err(InvalidFunds)
      case Ok(amount) =>
        match BurnStrategyToken(s.config.strategyDenom, env, amount)
        case Err(e) => Err(e)
        case Ok(m) => Ok(Step(s, AddMessage(EmptyResponse, m)))
  }

  /**
    Every owner gate reads the same owner slot: a caller the admin check
    refuses is exactly the caller pause and unpause refuse as `Unauthorized`
    and open refuses with the admin error.
   */
  lemma AdminGatesAgree(s: Store, who: Addr, funds: seq<Coin>)
    ensures AssertAdmin(s.owner, who).Err? <==> Pause(s, MessageInfo(who, funds)) == Err(Unauthorized)
    ensures AssertAdmin(s.owner, who).Err? <==> Unpause(s, MessageInfo(who, funds)) == Err(Unauthorized)
    ensures AssertAdmin(s.owner, who).Err? <==> OpenContract(s, MessageInfo(who, funds)) == Err(Admin(NotAdmin))
  {
  }

  /** From an open vault, a successful pause followed by a successful unpause restores the store exactly. */
  lemma PauseUnpauseRoundTrip(s: Store, info: MessageInfo)
    requires s.state.isOpen && IsAdmin(s.owner, info.sender)
    ensures Pause(s, info).Ok?
    ensures Unpause(Pause(s, info).value.store, info).Ok?
    ensures Unpause(Pause(s, info).value.store, info).value.store == s
  {
    var t := Pause(s, info).value.store;
    assert t.state == s.state.(isOpen := false);
  }

  /** A second pause, or a second unpause, fails with the matching already-in-state error. */
  lemma RepeatedTransitionsRefused(s: Store, info: MessageInfo)
    requires IsAdmin(s.owner, info.sender)
    ensures Pause(s, info).Ok? ==> Pause(Pause(s, info).value.store, info) == Err(Paused)
    ensures Unpause(s, info).Ok? ==> Unpause(Unpause(s, info).value.store, info) == Err(NotPaused)
    ensures OpenContract(s, info).Ok? ==> OpenContract(OpenContract(s, info).value.store, info) == Err(IsOpen)
  {
  }

  /** Until the strategy denom is committed, neither deposit nor redeem can succeed. */
  lemma ShareGateNeedsCommittedDenom(s: Store, env: Env, info: MessageInfo)
    requires s.config.strategyDenom.None?
    ensures Deposit(s, env, info).Err?
    ensures Redeem(s, env, info) == Err(DenomNotInitialized)
    ensures s.state.isOpen && !s.state.isPaused && PaysExactly(info.funds, s.config.baseDenom)
            ==> Deposit(s, env, info) == Err(DenomNotInitialized)
  {
  }
}
