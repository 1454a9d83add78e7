/**
  The two-phase ownership handover: the owner proposes a candidate with a
  bounded lifetime, the candidate claims before the proposal expires, or the
  owner rejects it. The implementing module is not part of this model; this
  is the behaviour its tests (tests/ownership.rs, tests/own.rs) pin down.
  Where they are silent, this model makes its own assumptions: a claim checks
  not-found, then the caller, then the expiry; a non-owner who proposes or
  rejects gets `Unauthorized`; a claim in the expiry second itself succeeds;
  a duration equal to `maxDuration` is accepted; a reject with nothing
  pending succeeds; and propose and claim each emit exactly one event with
  exactly the listed attributes. `maxDuration` is the crate's
  `MAX_DURATION`, whose value is not part of this model.
 */
module Ownership {
  import opened Host
  import opened Errors
  import opened Structs
  import opened VaultState

  /** The storage key of the proposal item, reported when it is missing. */
  const PROPOSAL_KEY: string := "ownership_proposals"

  /**
    Owner-only; the duration may not exceed `maxDuration`; stores the one
    proposal (replacing any earlier one) expiring `duration` seconds from now.
   */
  function ProposeNewOwner(s: Store, env: Env, info: MessageInfo, newOwner: Addr, duration: nat, maxDuration: nat)
    : (r: Result<Step, ContractError>)
    ensures r.Ok? <==> IsAdmin(s.owner, info.sender) && duration <= maxDuration
    ensures !IsAdmin(s.owner, info.sender) ==> r == Err(Unauthorized)
    ensures IsAdmin(s.owner, info.sender) && duration > maxDuration ==> r == Err(InvalidDuration(maxDuration))
    ensures r.Ok? ==> r.value.store.proposal == Some(OwnerProposal(newOwner, Seconds(env.blockTime) + duration))
    ensures r.Ok? ==> r.value.store.proposal.value.expiry <= Seconds(env.blockTime) + maxDuration
    ensures r.Ok? ==> r.value.store.owner == s.owner && OnlyOwnershipChanged(s, r.value.store)
    ensures r.Ok? ==> (r.value.response.events ==
      [Event("propose_proposed_owner",
             [Attribute("proposed_owner", Text(newOwner)), Attribute("expiry", Number(Seconds(env.blockTime) + duration))])])
  {
    if !IsAdmin(s.owner, info.sender) then Err(Unauthorized)
    else if duration > maxDuration then Err(InvalidDuration(maxDuration))
    else
      var expiry := Seconds(env.blockTime) + duration;
      var event := Event("propose_proposed_owner",
                         [Attribute("proposed_owner", Text(newOwner)), Attribute("expiry", Number(expiry))]);
      Ok(Step(s.(proposal := Some(OwnerProposal(newOwner, expiry))), Response([], [], [event])))
  }

  /**
    Only the candidate of a live proposal may claim: no proposal is
    `ProposalNotFound`, anyone else (the current owner included) is
    `Unauthorized`, and a claim after the expiry second is `Expired`. A
    successful claim installs the candidate and consumes the proposal.
   */
  function ClaimOwnership(s: Store, env: Env, info: MessageInfo): (r: Result<Step, ContractError>)
    ensures r.Ok? <==> s.proposal.Some? && info.sender == s.proposal.value.owner
                       && Seconds(env.blockTime) <= s.proposal.value.expiry
    ensures s.proposal.None? ==> r == Err(ProposalNotFound)
    ensures s.proposal.Some? && info.sender != s.proposal.value.owner ==> r == Err(Unauthorized)
    ensures (s.proposal.Some? && info.sender == s.proposal.value.owner
             && Seconds(env.blockTime) > s.proposal.value.expiry) ==> r == Err(Expired)
    ensures r.Ok? ==> r.value.store.owner == Some(info.sender) && r.value.store.proposal.None?
    ensures r.Ok? ==> OnlyOwnershipChanged(s, r.value.store)
    ensures r.Ok? ==> r.value.response.events == [Event("update_owner", [Attribute("new_owner", Text(info.sender))])]
  {
    match s.proposal
    case None => Err(ProposalNotFound)
    case Some(p) =>
      if info.sender != p.owner then Err(Unauthorized)
      else if Seconds(env.blockTime) > p.expiry then Err(Expired)
      else
        var event := Event("update_owner", [Attribute("new_owner", Text(p.owner))]);
        Ok(Step(s.(owner := Some(p.owner), proposal := None), Response([], [], [event])))
  }

  /** Owner-only; removes the proposal whether or not there is one (the response is left empty). */
  function RejectOwner(s: Store, info: MessageInfo): (r: Result<Step, ContractError>)
    ensures r.Ok? <==> IsAdmin(s.owner, info.sender)
    ensures r.Err? ==> r.error == Unauthorized
    ensures r.Ok? ==> r.value.store.proposal.None? && r.value.store.owner == s.owner
    ensures r.Ok? ==> OnlyOwnershipChanged(s, r.value.store)
  {
    if !IsAdmin(s.owner, info.sender) then Err(Unauthorized)
    else Ok(Step(s.(proposal := None), EmptyResponse))
  }

  /** The proposal query: a missing item is reported as not found under its key. */
  function QueryOwnershipProposal(s: Store): (r: Result<OwnerProposal, StdError>)
    ensures r.Ok? <==> s.proposal.Some?
    ensures r.Ok? ==> r.value == s.proposal.value
    ensures r.Err? ==> r.error == NotFound(PROPOSAL_KEY)
  {
    match s.proposal
    case None => Err(NotFound(PROPOSAL_KEY))
    case Some(p) => Ok(p)
  }

  /** Shifting a timestamp by whole seconds shifts its seconds reading by exactly that much. */
  lemma {:induction false} SecondsShift(t: Timestamp, k: nat)
    ensures Seconds(t + k * NANOS_PER_SECOND) == Seconds(t) + k
  {
    if k > 0 {
      SecondsShift(t, k - 1);
      assert t + k * NANOS_PER_SECOND == (t + (k - 1) * NANOS_PER_SECOND) + NANOS_PER_SECOND;
    }
  }

  /**
    The handover completes: after the owner proposes `candidate` for
    `duration` seconds, a claim by the candidate at any time up to the expiry
    makes the candidate the owner, consumes the proposal, and leaves the
    lifecycle state and the config as they were.
   */
  lemma HandoverCompletes(s: Store, env: Env, info: MessageInfo, candidate: Addr, duration: nat, maxDuration: nat, later: Env)
    requires IsAdmin(s.owner, info.sender) && duration <= maxDuration
    requires Seconds(later.blockTime) <= Seconds(env.blockTime) + duration
    ensures ProposeNewOwner(s, env, info, candidate, duration, maxDuration).Ok?
    ensures var s1 := ProposeNewOwner(s, env, info, candidate, duration, maxDuration).value.store;
            var r := ClaimOwnership(s1, later, MessageInfo(candidate, []));
            r.Ok? && r.value.store == s.(owner := Some(candidate), proposal := None)
  {
  }

  /**
    A claim one second past the proposal's lifetime fails `Expired`, even for
    the candidate.
   */
  lemma ClaimAfterExpiryFails(s: Store, env: Env, info: MessageInfo, candidate: Addr, duration: nat, maxDuration: nat)
    requires IsAdmin(s.owner, info.sender) && duration <= maxDuration
    ensures ProposeNewOwner(s, env, info, candidate, duration, maxDuration).Ok?
    ensures var s1 := ProposeNewOwner(s, env, info, candidate, duration, maxDuration).value.store;
            var later := env.(blockTime := env.blockTime + (duration + 1) * NANOS_PER_SECOND);
            ClaimOwnership(s1, later, MessageInfo(candidate, [])) == Err(Expired)
  {
    SecondsShift(env.blockTime, duration + 1);
  }

  /** A new proposal discards the earlier one: its candidate can no longer claim. */
  lemma ProposeReplacesPrior(s: Store, env: Env, info: MessageInfo, c1: Addr, c2: Addr, d1: nat, d2: nat, maxDuration: nat, later: Env)
    requires IsAdmin(s.owner, info.sender) && d1 <= maxDuration && d2 <= maxDuration && c1 != c2
    ensures ProposeNewOwner(s, env, info, c1, d1, maxDuration).Ok?
    ensures var s1 := ProposeNewOwner(s, env, info, c1, d1, maxDuration).value.store;
            var r2 := ProposeNewOwner(s1, env, info, c2, d2, maxDuration);
            r2.Ok? && ClaimOwnership(r2.value.store, later, MessageInfo(c1, [])) == Err(Unauthorized)
  {
  }

  /** The owner who proposed cannot claim the proposal for themselves. */
  lemma CurrentOwnerCannotClaim(s: Store, env: Env, owner: Addr, candidate: Addr, duration: nat, maxDuration: nat, later: Env)
    requires s.owner == Some(owner) && owner != candidate && duration <= maxDuration
    ensures ProposeNewOwner(s, env, MessageInfo(owner, []), candidate, duration, maxDuration).Ok?
    ensures var s1 := ProposeNewOwner(s, env, MessageInfo(owner, []), candidate, duration, maxDuration).value.store;
            ClaimOwnership(s1, later, MessageInfo(owner, [])) == Err(Unauthorized)
  {
  }

  /** After a rejection the proposal query reports not-found and any claim fails `ProposalNotFound`. */
  lemma RejectThenClaimFails(s: Store, info: MessageInfo, env: Env, claimer: MessageInfo)
    requires IsAdmin(s.owner, info.sender)
    ensures RejectOwner(s, info).Ok?
    ensures QueryOwnershipProposal(RejectOwner(s, info).value.store) == Err(NotFound(PROPOSAL_KEY))
    ensures ClaimOwnership(RejectOwner(s, info).value.store, env, claimer) == Err(ProposalNotFound)
  {
  }
}
