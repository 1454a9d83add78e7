/**
  Instantiation helpers: the initial lifecycle state and the initial config.
 */
module Helpers {
  import opened Host
  import opened Structs
  import opened VaultState

  /** A new vault is closed and paused, stamped with the block time. */
  function InitialiseState(env: Env): (s: State)
    ensures !s.isOpen && s.isPaused
    ensures s.lastPause == env.blockTime
    ensures IsOpenAndUnpaused(s) == Err(GenericErr(NOT_OPEN_MSG))
  {
    State(false, true, env.blockTime)
  }

  /** A new vault has the default cap, no strategy denom yet, and the requested base denom. */
  function InitialiseConfig(msg: InstantiateMsg): (c: Config)
    ensures c.strategyCap == DEFAULT_STRATEGY_CAP
    ensures c.strategyDenom.None?
    ensures c.baseDenom == msg.baseDenom
  {
    Config(DEFAULT_STRATEGY_CAP, None, msg.baseDenom)
  }
}
