/**
  The vault over sequences of calls. Each call is atomic: a failing or
  aborted call leaves the store as it was. The facts below hold for every
  sequence of execute, reply, deposit and redeem calls, and pin down the
  two-phase provisioning protocol and the lifecycle flags as the code
  actually moves them.

  Deposit and redeem appear as direct calls of the package's handlers,
  which no entry point shown here reaches: the package's execute routing
  leaves its top-level deposit and redeem arms unimplemented.

  The sequences over-approximate what the host allows. On the chain, the
  reply to the create-denom submessage runs in the same transaction as the
  instantiation, and a failed reply reverts the whole instantiation. So no
  other call can come between the two, and no live vault is left without a
  denom by a failed reply. Lemmas such as `NoSharesBeforeProvisioning` also
  cover these unreachable interleavings.
 */
module Protocol {
  import opened Host
  import opened Errors
  import opened Structs
  import opened VaultState
  import opened Handlers
  import opened ReplyHandler
  import opened Query
  import opened Vault

  datatype Call =
    | ExecuteCall(env: Env, info: MessageInfo, msg: ExecuteMsg)
    | ReplyCall(env: Env, reply: Reply)
    | DepositCall(env: Env, info: MessageInfo)
    | RedeemCall(env: Env, info: MessageInfo)

  /** The store after a call: the handler's store on success, the old one otherwise. */
  function Commit(s: Store, r: Result<Step, ContractError>): Store {
    if r.Ok? then r.value.store else s
  }

  /**
    One call. Whatever the call, the base denom, the cap, the contract
    version and the last-pause stamp are kept; the paused flag is never
    raised; an owner is never unset; only a reply touches the config, and a
    committed strategy denom stays committed.
   */
  function Apply(s: Store, c: Call, maxDuration: nat): (t: Store)
    ensures t.config.baseDenom == s.config.baseDenom && t.config.strategyCap == s.config.strategyCap
    ensures t.version == s.version
    ensures t.state.lastPause == s.state.lastPause
    ensures t.state.isPaused ==> s.state.isPaused
    ensures s.owner.Some? ==> t.owner.Some?
    ensures !c.ReplyCall? ==> t.config == s.config
    ensures s.config.strategyDenom.Some? ==> t.config.strategyDenom.Some?
  {
    match c
    case ExecuteCall(env, info, msg) =>
      (match Execute(s, env, info, msg, maxDuration)
       case Handled(r) => Commit(s, r)
       case Unimplemented => s)
    case ReplyCall(env, reply) => Commit(s, RouteReply(s, env, reply))
    case DepositCall(env, info) => Commit(s, Handlers.Deposit(s, env, info))
    case RedeemCall(env, info) => Commit(s, Handlers.Redeem(s, env, info))
  }

  function Run(s: Store, calls: seq<Call>, maxDuration: nat): Store
    decreases |calls|
  {
    if |calls| == 0 then s else Run(Apply(s, calls[0], maxDuration), calls[1..], maxDuration)
  }

  predicate NoReplies(calls: seq<Call>) {
    forall i :: 0 <= i < |calls| ==> !calls[i].ReplyCall?
  }

  /** The base denom, the cap, the contract version and the last-pause stamp never change. */
  lemma {:induction false} RunKeepsFixedFields(s: Store, calls: seq<Call>, maxDuration: nat)
    ensures Run(s, calls, maxDuration).config.baseDenom == s.config.baseDenom
    ensures Run(s, calls, maxDuration).config.strategyCap == s.config.strategyCap
    ensures Run(s, calls, maxDuration).version == s.version
    ensures Run(s, calls, maxDuration).state.lastPause == s.state.lastPause
    decreases |calls|
  {
    if |calls| > 0 {
      RunKeepsFixedFields(Apply(s, calls[0], maxDuration), calls[1..], maxDuration);
    }
  }

  /**
    No call ever raises the paused flag: a vault paused at the end was
    paused at the start. Once opened (which clears the flag) it stays unpaused
    for good, and only the open flag gates it.
   */
  lemma {:induction false} RunNeverRaisesPaused(s: Store, calls: seq<Call>, maxDuration: nat)
    ensures Run(s, calls, maxDuration).state.isPaused ==> s.state.isPaused
    decreases |calls|
  {
    if |calls| > 0 {
      RunNeverRaisesPaused(Apply(s, calls[0], maxDuration), calls[1..], maxDuration);
    }
  }

  /** Once there is an owner there always is one. */
  lemma {:induction false} RunKeepsOwner(s: Store, calls: seq<Call>, maxDuration: nat)
    requires s.owner.Some?
    ensures Run(s, calls, maxDuration).owner.Some?
    decreases |calls|
  {
    if |calls| > 0 {
      RunKeepsOwner(Apply(s, calls[0], maxDuration), calls[1..], maxDuration);
    }
  }

  /** Without a reply the config does not change at all. */
  lemma {:induction false} RunWithoutRepliesKeepsConfig(s: Store, calls: seq<Call>, maxDuration: nat)
    requires NoReplies(calls)
    ensures Run(s, calls, maxDuration).config == s.config
    decreases |calls|
  {
    if |calls| > 0 {
      assert NoReplies(calls[1..]) by {
        forall i | 0 <= i < |calls[1..]|
          ensures !calls[1..][i].ReplyCall?
        {
          assert calls[1..][i] == calls[i + 1];
        }
      }
      RunWithoutRepliesKeepsConfig(Apply(s, calls[0], maxDuration), calls[1..], maxDuration);
    }
  }

  /** A committed strategy denom is never withdrawn. */
  lemma {:induction false} RunKeepsDenomCommitted(s: Store, calls: seq<Call>, maxDuration: nat)
    requires s.config.strategyDenom.Some?
    ensures Run(s, calls, maxDuration).config.strategyDenom.Some?
    decreases |calls|
  {
    if |calls| > 0 {
      RunKeepsDenomCommitted(Apply(s, calls[0], maxDuration), calls[1..], maxDuration);
    }
  }

  /**
    Provisioning gates the share ledger: after instantiation and any calls
    without the create-denom reply, every deposit and every redeem fails, and
    a redeem fails with `DenomNotInitialized`.
   */
  lemma NoSharesBeforeProvisioning(d: Describe, crateVersion: string, env: Env, info: MessageInfo, msg: InstantiateMsg,
                                   calls: seq<Call>, maxDuration: nat, later: Env, caller: MessageInfo)
    requires NoReplies(calls)
    ensures var s := Run(Instantiate(d, crateVersion, env, info, msg).store, calls, maxDuration);
            Handlers.Deposit(s, later, caller).Err? && Handlers.Redeem(s, later, caller) == Err(DenomNotInitialized)
  {
    var s0 := Instantiate(d, crateVersion, env, info, msg).store;
    RunWithoutRepliesKeepsConfig(s0, calls, maxDuration);
    ShareGateNeedsCommittedDenom(Run(s0, calls, maxDuration), later, caller);
  }

  /**
    Pause as written closes the vault and leaves `isPaused` false: after open
    then pause the state query reads closed and unpaused, where the admin
    test of the same flow expects open and paused. Deposits are still
    refused, by the not-open guard.
   */
  lemma PauseAfterOpenClosesVault(d: Describe, crateVersion: string, env: Env, owner: Addr, msg: InstantiateMsg,
                                  later: Env, depositor: MessageInfo)
    ensures var s0 := Instantiate(d, crateVersion, env, MessageInfo(owner, []), msg).store;
            var s1 := Commit(s0, OpenContract(s0, MessageInfo(owner, [])));
            var r := Handlers.Pause(s1, MessageInfo(owner, []));
            r.Ok? && QueryState(r.value.store) == StateResponse(false, false, env.blockTime)
            && Handlers.Deposit(r.value.store, later, depositor) == Err(Std(GenericErr(NOT_OPEN_MSG)))
  {
  }

  /**
    Unpause on a fresh vault opens it while leaving it paused: the vault is
    then open yet refuses deposits as paused, and `open` refuses it as
    already open.
   */
  lemma UnpauseOnFreshVault(d: Describe, crateVersion: string, env: Env, owner: Addr, msg: InstantiateMsg,
                            later: Env, depositor: MessageInfo)
    ensures var s0 := Instantiate(d, crateVersion, env, MessageInfo(owner, []), msg).store;
            var r := Unpause(s0, MessageInfo(owner, []));
            r.Ok? && r.value.store.state.isOpen && r.value.store.state.isPaused
            && Handlers.Deposit(r.value.store, later, depositor) == Err(Std(GenericErr(PAUSED_MSG)))
            && OpenContract(r.value.store, MessageInfo(owner, [])) == Err(IsOpen)
  {
  }

  /** Redeem consults neither flag: a committed vault burns shares even while closed. */
  lemma RedeemIgnoresLifecycle(s: Store, env: Env, info: MessageInfo)
    requires s.config.strategyDenom.Some? && PaysExactly(info.funds, s.config.strategyDenom.value)
    ensures Handlers.Redeem(s, env, info).Ok?
    ensures Handlers.Redeem(s.(state := s.state.(isOpen := false, isPaused := true)), env, info).Ok?
  {
  }

  const SCENARIO_AMOUNT: Uint128 := 20_000_000

  /**
    The end-to-end flow, through the package's handlers called directly:
    instantiate, the create-denom reply, open, a deposit of 20,000,000 of the base denom by `x`, then a redeem of the
    20,000,000 shares. The deposit mints exactly that many shares to `x`; the
    redeem burns exactly that many from the contract; the store is the
    provisioned, opened one throughout.
   */
  lemma EndToEndScenario(d: Describe, crateVersion: string, env: Env, owner: Addr, base: Denom, denom: Denom, x: Addr)
    ensures var s0 := Instantiate(d, crateVersion, env, MessageInfo(owner, []), InstantiateMsg(base)).store;
            var s1 := Commit(s0, RouteReply(s0, env, Reply(CREATE_STRATEGY_DENOM_REPLY_ID, SubOk(denom))));
            var s2 := Commit(s1, OpenContract(s1, MessageInfo(owner, [])));
            var dep := Handlers.Deposit(s2, env, MessageInfo(x, [Coin(base, SCENARIO_AMOUNT)]));
            var red := Handlers.Redeem(s2, env, MessageInfo(x, [Coin(denom, SCENARIO_AMOUNT)]));
            && dep.Ok? && dep.value.store == s2
            && dep.value.response.messages == [SubMsg(0, Mint(env.contractAddr, Coin(denom, SCENARIO_AMOUNT), x), ReplyNever)]
            && red.Ok? && red.value.store == s2
            && red.value.response.messages
               == [SubMsg(0, Burn(env.contractAddr, Coin(denom, SCENARIO_AMOUNT), env.contractAddr), ReplyNever)]
  {
  }
}
