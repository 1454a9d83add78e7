/**
  The vault's records: the lifecycle state, the configuration, the query
  responses that project them, the instantiate message, and the pending
  ownership proposal.
 */
module Structs {
  import opened Host

  datatype Config = Config(strategyCap: Uint128, strategyDenom: Option<Denom>, baseDenom: Denom)

  datatype State = State(isOpen: bool, isPaused: bool, lastPause: Timestamp)

  /** The config as a query returns it: an absent strategy denom reads as "". */
  datatype ConfigResponse = ConfigResponse(strategyCap: Uint128, strategyDenom: string, baseDenom: Denom, version: string)

  datatype StateResponse = StateResponse(isOpen: bool, isPaused: bool, lastPause: Timestamp)

  datatype InstantiateMsg = InstantiateMsg(baseDenom: Denom)

  /** A pending handover: the candidate (`owner` in the source) and the expiry in seconds. */
  datatype OwnerProposal = OwnerProposal(owner: Addr, expiry: nat)
}
