/**
 * Hand-overs between handlers. Several handlers end a turn by setting a new
 * state and calling another handler on the same or a rewritten message:
 * the search handler (`handle_non_dealer_choice`) or the intent handler
 * (`handle_detect_intent`). A handler's turn is described by a `Next`: the
 * snapshot reached so far and the hand-over still to run, if any. Keeping the
 * called handler out of the description keeps the facts about a handler
 * independent of the handlers it calls; `Run` completes the turn.
 */
module Handoff {
  import opened Session
  import NDC = NonDealerChoiceHandler
  import DI = DetectIntentHandler

  datatype Next =
    | Stop(snap: Snapshot)
      // the turn ends here
    | ToSearch(snap: Snapshot, msg: Message)
      // `handle_non_dealer_choice(msg, ...)` runs next
    | ToDetect(snap: Snapshot, msg: Message, withCatalog: bool)
      // `handle_detect_intent(msg, ...)` runs next, with or without the catalogue and the index

  /** The environment the intent handler is called with. */
  function DetectEnv(env: Env, withCatalog: bool): (r: Env)
    requires EnvOk(env)
    ensures EnvOk(r)
    ensures withCatalog ==> r == env
    ensures !withCatalog ==> r.catalog.None? && r.semantic.None? && r.findBrand == env.findBrand && r.llm == env.llm
  {
    if withCatalog then env else WithoutCatalog(env)
  }

  /** The whole turn: the snapshot reached, then the hand-over. */
  function Run(n: Next, env: Env): Snapshot
    requires EnvOk(env)
  {
    match n
    case Stop(t) => t
    case ToSearch(t, m) => NDC.NonDealerChoiceStep(t, env, m)
    case ToDetect(t, m, full) => DI.DetectIntentStep(t, DetectEnv(env, full), m)
  }

  /** Runs the hand-over a handler ended with, on the conversation it left. */
  method Continue(ctx: Conversation, env: Env, n: Next)
    requires EnvOk(env) && ctx.Snap() == n.snap
    modifies ctx
    ensures ctx.Snap() == Run(n, env)
  {
    match n
    case Stop(_) =>
    case ToSearch(_, m) => NDC.HandleNonDealerChoice(ctx, env, m);
    case ToDetect(_, m, full) => DI.HandleDetectIntent(ctx, DetectEnv(env, full), m);
  }
}
