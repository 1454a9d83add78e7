/**
  The config and state queries: read-only projections of the store.
 */
module Query {
  import opened Host
  import opened Structs
  import opened VaultState

  /** An absent strategy denom reads as ""; cap and base denom are copied; the version comes from the stored contract version. */
  function QueryConfig(s: Store): (r: ConfigResponse)
    ensures s.config.strategyDenom.None? ==> r.strategyDenom == ""
    ensures s.config.strategyDenom.Some? ==> r.strategyDenom == s.config.strategyDenom.value
    ensures r.strategyCap == s.config.strategyCap && r.baseDenom == s.config.baseDenom
    ensures r.version == s.version.version
  {
    ConfigResponse(s.config.strategyCap, s.config.strategyDenom.UnwrapOr(""), s.config.baseDenom, s.version.version)
  }

  function QueryState(s: Store): (r: StateResponse)
    ensures r.isOpen == s.state.isOpen && r.isPaused == s.state.isPaused && r.lastPause == s.state.lastPause
  {
    StateResponse(s.state.isOpen, s.state.isPaused, s.state.lastPause)
  }

  /** The state response determines the stored state: nothing is lost in the projection. */
  lemma QueryStateFaithful(s: Store, t: Store)
    ensures QueryState(s) == QueryState(t) <==> s.state == t.state
  {
  }

  /**
    The config response loses one distinction: a committed empty denom and
    no denom at all read the same.
   */
  lemma QueryConfigConflatesEmptyDenom(s: Store)
    ensures QueryConfig(s.(config := s.config.(strategyDenom := None)))
         == QueryConfig(s.(config := s.config.(strategyDenom := Some(""))))
  {
  }
}
