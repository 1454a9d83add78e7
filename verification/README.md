# Margined example vault: administrative and lifecycle core in Dafny

This project models the administrative core of the Margined example vault,
a CosmWasm contract. The vault holds a pooled position and gates deposits
and redemptions behind three mechanisms:

- **Ownership.** A single owner, plus at most one pending handover
  proposal. The proposal has an expiry and is claimed by its candidate.
- **Lifecycle.** The `is_open` / `is_paused` flags gate deposits.
- **Provisioning.** At instantiation the vault asks the token factory to
  create its share (strategy) denom. The answer arrives as a reply, in the
  same transaction as the instantiation. Until then `strategy_denom` is
  absent and no shares can be minted or burned.

Every execute and reply handler is a pure function from the store to
`Result<Step, ContractError>`. Instantiation returns a bare `Step`, the
queries return their responses, and the example crate's handlers return
its own result types. The store is one record holding the owner,
the proposal, the state, the config and the contract version. A `Step` is
the new store plus the response. Mint, burn and create-denom messages are
plain records of intent.

Modules follow the source files:

- `Host`: the CosmWasm types and `must_pay`
- `Errors`, `Structs`, `VaultState`, `Helpers`, `Handlers`, `ReplyHandler`,
  `Query`: one each for the package's `errors`, `structs`, `state`,
  `helpers`, `handlers`, `reply` and `query`
- `Ownership`: the handover protocol, derived from the tests
- `Vault`: instantiation and the routing of execute, reply and query
  messages (`lib.rs`)
- `Example`: the example crate under `src/`
- `Protocol`: the vault over arbitrary sequences of calls

Assumptions stated explicitly:

- `must_pay` (`Host.MustPay`) has the `cw_utils` library semantics. It
  succeeds exactly when the funds are one coin of the required denom with
  a nonzero amount. Its code is not part of this model.
- The ownership module is not part of this model either. `Ownership` states
  what tests/ownership.rs and tests/own.rs assert. Where the tests are
  silent, the model makes its own assumptions:
  - the checks in a claim run in the order not-found, unauthorized,
    expired;
  - a non-owner who proposes or rejects gets `Unauthorized`;
  - a claim in the expiry second itself succeeds (the tests only check a
    claim one second later);
  - a duration equal to `MAX_DURATION` is accepted (the tests only check
    `MAX_DURATION + 1`);
  - a reject with no pending proposal succeeds;
  - propose and claim each emit exactly one event carrying exactly the
    listed attributes (the tests only check that those attributes are
    present).
- `MAX_DURATION` is a parameter (`maxDuration`) because its value is not
  shown. Expiry is counted in whole seconds of block time, and timestamps
  are nanoseconds.
- A failed create-denom reply becomes `Std(GenericErr(msg))`. A successful
  reply is taken as already decoded into the new denom.
- The example crate's lifecycle guard is the state-management trait's
  default `is_open_and_unpaused`, whose code is not shown.
  `Example.HandleDeposit` assumes it passes exactly when the state is open
  and unpaused, and takes its error as a parameter.
- The example's `is_contract_open` and `is_contract_paused` report a missing
  state item as `Std(NotFound(kind))`, with the item's key `"state"` as the
  kind.

## Where the code and its tests disagree, and other observations

The model follows the code. Each disagreement below is stated as a lemma
or a contract.

- **Pause and unpause flip the wrong flag.** In
  packages/margined-vault/src/handlers.rs, `pause` guards on `is_open` and
  clears it, and `unpause` guards on `!is_open` and sets it. Neither
  touches `is_paused`.
  - tests/admin.rs:60-63 expects `is_open` to stay true and `is_paused` to
    become true after a pause. `Protocol.PauseAfterOpenClosesVault` shows
    the code gives closed and unpaused instead. Deposits are still refused,
    because of the not-open check.
  - `Protocol.RunNeverRaisesPaused` shows that no call ever raises
    `is_paused`.
  - `Protocol.UnpauseOnFreshVault` shows that unpausing a fresh vault
    leaves it open and still paused. `open` then refuses it as already
    open.
- **Non-owner error.** `pause` and `unpause` reject non-owners with
  `Unauthorized`. The admin tests (tests/admin.rs:81, 132) expect the
  admin error that `open` raises.
- **`last_pause`.** The field name suggests that pause stamps
  `last_pause`. No handler writes it. `Protocol.RunKeepsFixedFields` proves
  it never changes after instantiation.
- **Redeem.** The code's redeem has no open/paused guard
  (`Protocol.RedeemIgnoresLifecycle`) and sends no base asset back.
  tests/handle.rs:53-61 expects the vault's base balance to return to
  zero.
- **Second reply.** The reply handler has no already-set check: a second
  successful create-denom reply overwrites the denom
  (`ReplyHandler.SecondReplyOverwrites`).
- **Unreachable handlers.** The package's execute routing never reaches
  its `deposit` or `redeem` handlers; those arms are `unimplemented!`.
  `Protocol` therefore treats deposit and redeem as direct calls of the
  package's handlers.

## Model

| member | source | states |
|---|---|---|
| `Host.Seconds` | tests/ownership.rs:80-85 | The seconds reading of a block time is whole seconds rounded down: it brackets the nanosecond timestamp. |
| `Host.AddMessage` | packages/margined-vault/src/handlers.rs:81 | Adding a plain message appends exactly one submessage, id 0, never replying; attributes and events are kept. |
| `Host.MustPay` | packages/margined-vault/src/handlers.rs:77 | Payment succeeds iff the funds are exactly one coin of the denom with a nonzero amount, and then yields that amount. No funds and several coins are told apart (assumed library semantics). |
| `VaultState.IsOpenAndUnpaused` | packages/margined-vault/src/state.rs:16-28 | The guard passes iff open and not paused. A closed vault reports "not open" whatever its paused flag. Only an open vault can report "paused". |
| `VaultState.IsAdmin` | packages/margined-vault/src/handlers.rs:36 | True iff the stored owner is set and equals the caller; an unset owner admits nobody. |
| `VaultState.AssertAdmin` | packages/margined-vault/src/handlers.rs:17 | Passes iff the stored owner is set and equals the caller; otherwise the admin error. |
| `Helpers.InitialiseState` | packages/margined-vault/src/helpers.rs:6-14 | A new vault is closed, paused, stamped with the block time, and fails the open-and-unpaused guard as not open. |
| `Helpers.InitialiseConfig` | packages/margined-vault/src/helpers.rs:16-31 | The initial config has the default cap, no strategy denom, and the requested base denom. |
| `Handlers.OpenContract` | packages/margined-vault/src/handlers.rs:12-30 | Succeeds iff the caller is owner and the vault is closed. Errors: the admin error first, then `IsOpen`. On success the vault is open and unpaused, `last_pause` is kept, only the state changes, and the `open_contract` event is emitted. |
| `Handlers.Pause` | packages/margined-vault/src/handlers.rs:32-48 | Succeeds iff the caller is owner and the vault is open. Errors: `Unauthorized`, then `Paused`. On success only `is_open` is cleared; `is_paused`, `last_pause` and everything else are kept. |
| `Handlers.Unpause` | packages/margined-vault/src/handlers.rs:50-67 | Succeeds iff the caller is owner and the vault is closed. Errors: `Unauthorized`, then `NotPaused`. On success only `is_open` is set; all else is kept. |
| `Handlers.MintStrategyToken` | packages/margined-vault/src/handlers.rs:114-134 | Fails `DenomNotInitialized` iff no strategy denom is committed. Otherwise the contract mints the given amount of that denom to the given address. |
| `Handlers.BurnStrategyToken` | packages/margined-vault/src/handlers.rs:136-155 | Fails `DenomNotInitialized` iff no strategy denom is committed. Otherwise the contract burns the amount of that denom from its own address. |
| `Handlers.DepositMint` | packages/margined-vault/src/handlers.rs:69-82 | The deposit gate. Succeeds iff open, unpaused, paid exactly in the base denom, and the denom is committed. Errors come in that order: not open, paused, `InvalidFunds`, `DenomNotInitialized`. The result mints the paid amount 1:1 to the sender. |
| `Handlers.Deposit` | packages/margined-vault/src/handlers.rs:69-82 | Same success condition and error order as the gate. On success the store is unchanged and the response is exactly one mint of the paid amount of the strategy denom, from the contract to the sender. |
| `Handlers.Redeem` | packages/margined-vault/src/handlers.rs:84-112 | Checks `DenomNotInitialized` first, then requires exact payment in the strategy denom (`InvalidFunds`). On success the store is unchanged and the response is exactly one burn of the paid coin from the contract's own address. There is no lifecycle check and no base transfer. |
| `Handlers.AdminGatesAgree` | packages/margined-vault/src/handlers.rs:17-56 | The admin check, pause, unpause and open refuse exactly the same callers: pause and unpause with `Unauthorized`, open with the admin error. |
| `Handlers.PauseUnpauseRoundTrip` | packages/margined-vault/src/handlers.rs:40-64 | From an open vault, owner pause then owner unpause both succeed and restore the store exactly. |
| `Handlers.RepeatedTransitionsRefused` | packages/margined-vault/src/handlers.rs:19-66 | A second consecutive open, pause or unpause by the owner fails with `IsOpen`, `Paused` or `NotPaused` respectively. |
| `Handlers.ShareGateNeedsCommittedDenom` | packages/margined-vault/src/handlers.rs:89-124 | With no strategy denom, deposit always fails and redeem fails `DenomNotInitialized`. An open, unpaused, correctly paid deposit fails `DenomNotInitialized` too. |
| `ReplyHandler.CreateStrategyDenomReply` | packages/margined-vault/src/reply.rs:7-24 | Fails iff the submessage failed, with its error text, committing nothing. On success it commits exactly the new denom, keeps base denom, cap and all other storage, and reports the denom as the `strategy_denom` attribute. |
| `ReplyHandler.SecondReplyOverwrites` | packages/margined-vault/src/reply.rs:15-21 | A second successful reply succeeds and leaves the same store as if only it had arrived: there is no already-set check. |
| `Query.QueryConfig` | packages/margined-vault/src/query.rs:6-17 | An absent strategy denom reads as "" and a committed one as itself. Cap and base denom are copied; the version is the stored contract version. |
| `Query.QueryState` | packages/margined-vault/src/query.rs:19-27 | The response carries exactly `is_open`, `is_paused` and `last_pause`. |
| `Query.QueryStateFaithful` | packages/margined-vault/src/query.rs:22-26 | Two stores give the same state response iff their states are equal. |
| `Query.QueryConfigConflatesEmptyDenom` | packages/margined-vault/src/query.rs:13 | No denom and a committed empty denom give the same config response. |
| `Ownership.ProposeNewOwner` | tests/ownership.rs:45-87 | Succeeds iff the caller is owner and the duration is at most the maximum. Errors: `Unauthorized`, then `InvalidDuration(max)`. On success the single proposal slot holds the candidate with expiry = now in seconds + duration (so within the maximum); owner, state and config are kept; the event carries candidate and expiry. |
| `Ownership.ClaimOwnership` | tests/ownership.rs:10-43 | Succeeds iff a proposal exists, the caller is its candidate, and now is no later than its expiry. Errors: `ProposalNotFound`, `Unauthorized`, `Expired`, in that order. On success the caller is owner, the proposal is gone, and state and config are kept. |
| `Ownership.RejectOwner` | tests/ownership.rs:162-193 | Succeeds iff the caller is owner, else `Unauthorized`. On success the proposal is gone and owner, state and config are kept. |
| `Ownership.QueryOwnershipProposal` | tests/ownership.rs:178-192 | Returns the stored proposal, or not-found under the proposal key when there is none. |
| `Ownership.SecondsShift` | tests/ownership.rs:153 | Advancing block time by k whole seconds advances its seconds reading by exactly k. |
| `Ownership.HandoverCompletes` | tests/ownership.rs:89-133 | The owner proposes; the candidate claims at any time up to expiry; the candidate is then owner, no proposal remains, and nothing else changed. |
| `Ownership.ClaimAfterExpiryFails` | tests/ownership.rs:135-160 | A claim by the candidate duration + 1 seconds after the proposal fails `Expired`. |
| `Ownership.ProposeReplacesPrior` | packages/margined-vault/src/state.rs:11 | A second proposal replaces the first: the first candidate's claim then fails `Unauthorized`. |
| `Ownership.CurrentOwnerCannotClaim` | tests/own.rs:21-35 | The owner who proposed someone else cannot claim the proposal: `Unauthorized`. |
| `Ownership.RejectThenClaimFails` | tests/ownership.rs:178-192 | After a rejection the proposal query is not-found and every claim fails `ProposalNotFound`. |
| `Vault.Instantiate` | packages/margined-vault/src/lib.rs:154-180 | The owner is the sender and there is no proposal. State is closed, paused, stamped now. The config has no strategy denom, the requested base denom and the default cap. The version is recorded. Exactly one create-denom submessage is issued, reply-always, with reply id 1, plus the `action=instantiate` attribute. |
| `Vault.RouteReply` | packages/margined-vault/src/lib.rs:143-148 | A reply with id other than 1 fails `InvalidReplyId`, changing nothing. Id 1 goes to the create-denom reply handler. |
| `Vault.Execute` | packages/margined-vault/src/lib.rs:50-102 | `SetOpen`, `Pause` and `UnPause` reach the lifecycle handlers. Propose, claim and reject reach the ownership handlers. Exactly top-level deposit, top-level redeem and `UpdateConfig` are unimplemented. |
| `Vault.RouteQuery` | packages/margined-vault/src/lib.rs:104-141 | Standard info reports the vault's version and extensions. Config and state are the two projections. Exactly the other queries are unimplemented. |
| `Vault.FreshVaultIsNotLive` | packages/margined-vault/src/helpers.rs:7-11 | A freshly instantiated vault fails the open-and-unpaused guard as not open, and its config query reports no strategy denom. |
| `Vault.ProvisioningCompletes` | packages/margined-vault/src/lib.rs:172-178 | Replying with the id of the one submessage instantiation issued, and a created denom, commits that denom and changes nothing else. |
| `Example.ExampleDescribe` | src/lib.rs:23-27 | The example vault describes itself as standard version 1 with extensions `lockup`, `force-unlock`. |
| `Example.InitConfig` | src/lib.rs:57-67 | Zero cap, no strategy denom, the requested base denom, `test` = "hello". `MyConfig` in src/config.rs:23-33 is identical. |
| `Example.UpdateStrategyDenom` | src/config.rs:19-21 | Commits the denom; cap, base denom and `test` are kept. |
| `Example.UpdateStrategyDenomIdempotent` | src/lib.rs:53-55 | Committing the same denom twice equals committing it once. |
| `Example.UpdateStrategyDenomMatchesReply` | src/config.rs:19-21 | For matching configs, the package's create-denom reply succeeds and leaves the package config that the example's denom update gives, without its `test` field. |
| `Example.InitConfigMatchesPackage` | src/lib.rs:57-67 | The example's initial config is the package's initial config with the cap set to zero. |
| `Example.SetOpen` | src/lib.rs:81-83 | Sets `is_open` to the argument and keeps the other fields. |
| `Example.SetPaused` | src/lib.rs:85-87 | Sets `is_paused` to the argument and keeps the other fields. |
| `Example.InitState` | src/state.rs:33-40 | Closed, paused, stamped with the block time: the package's initial state. |
| `Example.UpdateState` | src/state.rs:42-45 | Negates `is_paused` and keeps `is_open` and `last_pause`. |
| `Example.UpdateStateInvolution` | src/lib.rs:98-101 | Toggling twice restores the state. |
| `Example.SettersIndependent` | src/state.rs:25-31 | Setting a flag to its current value is a no-op, and the two setters commute. |
| `Example.IsContractOpen` | src/state.rs:15-18 | Reads the stored `is_open`; a missing state item is a not-found error. |
| `Example.IsContractPaused` | src/state.rs:20-23 | Reads the stored `is_paused`; a missing state item is a not-found error. |
| `Example.AccessorLaws` | src/state.rs:15-45 | The open and paused readers return what `set_open`, `set_paused`, `update_state` and the initialiser wrote, and the other flag is untouched. |
| `Example.HandleUpdateConfig` | src/handle.rs:14-27 | Succeeds iff the caller is owner, else the admin error. The config is unchanged and the `update_config` event is emitted. |
| `Example.HandleDeposit` | src/handle.rs:28-57 | Succeeds iff open, unpaused, paid exactly in the base denom, and the denom is committed. The lifecycle error comes first, then `InvalidFunds`, then `DenomNotInitialized`. The response is exactly one mint of the paid amount to the sender. |
| `Example.DepositRevisionsAgree` | src/handle.rs:34-56 | For matching configs on an open, unpaused vault, the example's deposit and the package's deposit fail with the same error or give the same response, and the package keeps its store. Otherwise both fail: the example with its lifecycle error, the package with a standard error. |
| `Example.UpdateConfigGateMatchesOpen` | src/handle.rs:19 | The config update refuses exactly the callers that open refuses with the admin error, and with that same error. |
| `Example.ExampleStandardInfo` | tests/integration.rs:24-27 | The standard-info query of the example vault answers version 1 and `["lockup", "force-unlock"]`. |
| `Protocol.Apply` | packages/margined-vault/src/handlers.rs:12-155 | Any single call keeps base denom, cap, version and `last_pause`. It never raises `is_paused`, never unsets the owner, never withdraws a committed denom, and leaves the config alone unless it is a reply. |
| `Protocol.RunKeepsFixedFields` | packages/margined-vault/src/handlers.rs:23-62 | Over any call sequence, base denom, cap, contract version and `last_pause` never change. |
| `Protocol.RunNeverRaisesPaused` | packages/margined-vault/src/handlers.rs:40-62 | Over any call sequence, a vault paused at the end was paused at the start. |
| `Protocol.RunKeepsOwner` | packages/margined-vault/src/lib.rs:170 | Once an owner is set, it stays set over any call sequence. |
| `Protocol.RunWithoutRepliesKeepsConfig` | packages/margined-vault/src/reply.rs:15-21 | Over any call sequence without replies, the config is unchanged. |
| `Protocol.RunKeepsDenomCommitted` | packages/margined-vault/src/reply.rs:15-21 | A committed strategy denom stays committed over any call sequence. |
| `Protocol.NoSharesBeforeProvisioning` | packages/margined-vault/src/lib.rs:167-178 | After instantiation and any calls without the create-denom reply, every deposit fails and every redeem fails `DenomNotInitialized`. |
| `Protocol.PauseAfterOpenClosesVault` | packages/margined-vault/src/handlers.rs:40-43 | Instantiate, open, pause: the state query reads closed and unpaused (the admin test expects open and paused), and deposits fail as not open. |
| `Protocol.UnpauseOnFreshVault` | packages/margined-vault/src/handlers.rs:58-62 | Unpausing a fresh vault leaves it open and paused. Deposits then fail as paused and `open` fails `IsOpen`. |
| `Protocol.RedeemIgnoresLifecycle` | packages/margined-vault/src/handlers.rs:84-112 | A valid redeem succeeds whether or not the vault is open or paused. |
| `Protocol.EndToEndScenario` | tests/handle.rs:31-62 | The amounts of the redeem test, run through the package's handlers called directly, with the create-denom reply and the `open` call added (the test deploys the example contract, whose redeem is unimplemented). After instantiate, reply and open, a deposit of 20,000,000 base mints exactly 20,000,000 shares to the depositor, and a redeem of 20,000,000 shares burns exactly that many from the contract. |

## Left out

- Entry points and wrappers: `entry_point` functions, src/contract.rs,
  src/lib.rs:144-177, the signatures-only traits.rs, and the duplicate
  constants in src/describe.rs.
- `ExampleState` / `MyState` and `ExampleConfig` / `MyConfig`: each pair is
  one record here, because the two source copies are identical.
- Their getters `is_open` / `is_paused` are the record's fields.
- Serialisation and storage plumbing: JSON encoding, `cw2` version storage
  beyond recording the pair, storage keys, and the decimal rendering of
  amounts and of the `expiry` attribute.
- Load failures of items that instantiation always writes are not modelled.
- Chain-side execution: bank balances, token supply and token-factory denom
  creation. The balance claims of tests/handle.rs are not modelled. The
  redeem there expects base funds returned, but no shown code emits a base
  transfer.
- Decoding of the create-denom response: a successful reply is taken as
  already decoded.
- The disabled share-price and cap logic (handlers.rs:157-194). `migrate`,
  `Info`, `Preview*`, `Convert*`, `TotalAssets` and `TotalVaultTokenSupply`
  are `unimplemented!` and appear only as unimplemented routes.
- The example crate's redeem and its `src/lib.rs` deposit are
  `unimplemented!`.
- The owner query is not modelled; the owner slot is `Store.owner`.
- Host.MustPay: specified by the `cw_utils` library semantics, not by its
  code, which is not part of this model.
- Ownership.ProposeNewOwner: derived from tests; does not model u64
  overflow of `now + duration`, nor any check the ownership module may make
  on the candidate address, because that module is not part of this model.
- Ownership.RejectOwner: the response (event name) is left empty, because
  the ownership module is not part of this model.
- Example.HandleDeposit: the lifecycle error is a parameter, not a
  specific message, because the trait's default `is_open_and_unpaused` is
  not part of this model.
- Example.IsContractOpen: the missing-item error is `NotFound` with the key
  `"state"` as its kind; how the storage library renders the kind is not
  modelled.
- Example.IsContractPaused: the same as `Example.IsContractOpen`.
- Protocol.Run: call sequences over-approximate the chain. The
  create-denom reply runs in the instantiation's transaction, and a failed
  reply reverts the instantiation. So sequences with calls between the two,
  or with a failed reply left behind, cannot happen. Lemmas such as
  `Protocol.NoSharesBeforeProvisioning` also cover them.
- Concurrency and scheduling are not modelled: calls are atomic and
  sequential, which `Protocol.Run` reflects.
