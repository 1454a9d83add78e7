/**
  The second half of provisioning: the host's notification that the
  strategy denom was (or was not) created, committed into the config.
 */
module ReplyHandler {
  import opened Host
  import opened Errors
  import opened Structs
  import opened VaultState

  /**
    The outcome of the create-denom submessage as the host reports it. A
    successful outcome is taken as already decoded into the new denom; a
    failed one carries the host's error text.
   */
  datatype SubMsgResult = SubOk(newTokenDenom: Denom) | SubErr(msg: string)

  datatype Reply = Reply(id: nat, result: SubMsgResult)

  /**
    `handle_create_strategy_denom_reply`: a failed outcome is an error and
    commits nothing; a successful one overwrites the strategy denom (there is
    no "already set" check) and reports it as the `strategy_denom` attribute.
   */
  function CreateStrategyDenomReply(s: Store, res: SubMsgResult): (r: Result<Step, ContractError>)
    ensures r.Err? <==> res.SubErr?
    ensures res.SubErr? ==> r.error == Std(GenericErr(res.msg))
    ensures r.Ok? ==> r.value.store.config.strategyDenom == Some(res.newTokenDenom)
    ensures r.Ok? ==> r.value.store.config.baseDenom == s.config.baseDenom
    ensures r.Ok? ==> r.value.store.config.strategyCap == s.config.strategyCap
    ensures r.Ok? ==> r.value.store == s.(config := r.value.store.config)
    ensures r.Ok? ==> r.value.response.attributes == [Attribute("strategy_denom", Text(res.newTokenDenom))]
    ensures r.Ok? ==> r.value.response.messages == [] && r.value.response.events == []
  {
    match res
    case SubErr(msg) => Err(Std(GenericErr(msg)))
    case SubOk(d) =>
      var config' := s.config.(strategyDenom := Some(d));
      Ok(Step(s.(config := config'), Response([], [Attribute("strategy_denom", Text(d))], [])))
  }

  /** A second successful reply replaces the first denom; the last one wins. */
  lemma SecondReplyOverwrites(s: Store, d1: Denom, d2: Denom)
    ensures CreateStrategyDenomReply(s, SubOk(d1)).Ok?
    ensures var s1 := CreateStrategyDenomReply(s, SubOk(d1)).value.store;
            CreateStrategyDenomReply(s1, SubOk(d2)).Ok? &&
            CreateStrategyDenomReply(s1, SubOk(d2)).value.store == CreateStrategyDenomReply(s, SubOk(d2)).value.store
  {
  }
}
