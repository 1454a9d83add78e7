/**
  The vault's storage: four singleton items (owner, ownership proposal,
  state, config) plus the contract version written at instantiation, held
  as the fields of one record. Also the read-only lifecycle guard and the
  admin check of `cw_controllers::Admin`.
 */
module VaultState {
  import opened Host
  import opened Errors
  import opened Structs

  const DEFAULT_STRATEGY_CAP: Uint128 := 10_000_000_000_000_000_000_000

  datatype ContractVersion = ContractVersion(contract: string, version: string)

  /** One slot per storage item; a single `proposal` slot means at most one proposal. */
  datatype Store = Store(
    owner: Option<Addr>,
    proposal: Option<OwnerProposal>,
    state: State,
    config: Config,
    version: ContractVersion)

  /** The store a successful call leaves behind, and what it hands to the chain. */
  datatype Step = Step(store: Store, response: Response)

  const NOT_OPEN_MSG: string := "Cannot perform action as contract is not open"
  const PAUSED_MSG: string := "Cannot perform action as contract is paused"

  /** `State::is_open_and_unpaused`: not-open is reported before paused. */
  function IsOpenAndUnpaused(s: State): (r: Result<(), StdError>)
    ensures r.Ok? <==> s.isOpen && !s.isPaused
    ensures !s.isOpen ==> r == Err(GenericErr(NOT_OPEN_MSG))
    ensures s.isOpen && s.isPaused ==> r == Err(GenericErr(PAUSED_MSG))
  {
    if !s.isOpen then Err(GenericErr(NOT_OPEN_MSG))
    else if s.isPaused then Err(GenericErr(PAUSED_MSG))
    else Ok(())
  }

  /** `Admin::is_admin`: an unset owner admits nobody. */
  function IsAdmin(owner: Option<Addr>, who: Addr): (r: bool)
    ensures r <==> owner.Some? && owner.value == who
  {
    owner == Some(who)
  }

  /** `Admin::assert_admin`. */
  function AssertAdmin(owner: Option<Addr>, who: Addr): (r: Result<(), ContractError>)
    ensures r.Ok? <==> owner.Some? && owner.value == who
    ensures r.Err? ==> r.error == Admin(NotAdmin)
  {
    if IsAdmin(owner, who) then Ok(()) else Err(Admin(NotAdmin))
  }

  /** `t` differs from `s` at most in the lifecycle state. */
  predicate OnlyStateChanged(s: Store, t: Store) {
    t.owner == s.owner && t.proposal == s.proposal && t.config == s.config && t.version == s.version
  }

  /** `t` differs from `s` at most in the owner and the proposal. */
  predicate OnlyOwnershipChanged(s: Store, t: Store) {
    t.state == s.state && t.config == s.config && t.version == s.version
  }
}
