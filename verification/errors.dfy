/**
  The vault's error taxonomy, as the handlers and the tests name it.
 */
module Errors {
  import opened Host

  /** `cw_controllers::AdminError`, raised by `Admin::assert_admin`. */
  datatype AdminError = NotAdmin

  datatype ContractError =
    | Std(std: StdError)
    | Admin(admin: AdminError)
    | Unauthorized
    | IsOpen
    | Paused
    | NotPaused
    | InvalidFunds
    | DenomNotInitialized
    | InvalidReplyId
    | ProposalNotFound
    | Expired
    | InvalidDuration(max: nat)
}
