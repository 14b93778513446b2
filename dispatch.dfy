/**
 * One incoming message, end to end (app/loader.py): the routers are asked in
 * the order they are registered, `start` first, and inside a router in the
 * order its handlers are declared. So the commands `/start` and `/id` are
 * answered in every state, and every other message goes to the handler of
 * the current state; with no state set, no handler matches and the message
 * is dropped.
 */
module Dispatch {
  import opened Wrappers
  import opened Text
  import opened States
  import opened Session
  import opened Handoff
  import StartHandler
  import DI = DetectIntentHandler
  import CollectBrandHandler
  import CollectSpecsHandler
  import CollectRepairTypeHandler
  import CollectPhoneHandler
  import ConfirmHandler
  import NDC = NonDealerChoiceHandler

  const IdCommand: string := "/id"

  /** `cmd_id`: the chat's id, as a number. */
  function IdReply(chatId: int): string { "Chat ID: " + IntToString(chatId) }

  /**
   * A state's handler on a message that is neither command, as the hand-over
   * it ends with. The intent handler and the search handler are themselves
   * hand-overs, with the full environment.
   */
  function StateNext(s: Snapshot, env: Env, msg: Message): Next {
    match s.state
    case None => Stop(s)
    case Some(Greeting) => StartHandler.GreetingNext(s, env, msg)
    case Some(DetectIntent) => ToDetect(s, msg, true)
    case Some(CollectBrand) => Stop(CollectBrandHandler.CollectBrandStep(s, env, msg))
    case Some(CollectSpecs) => CollectSpecsHandler.SpecsNext(s, env, msg)
    case Some(CollectRepairType) => CollectRepairTypeHandler.RepairNext(s, env, msg)
    case Some(CollectPhone) => CollectPhoneHandler.PhoneNext(s, msg)
    case Some(Confirm) => Stop(ConfirmHandler.AskConfirmStep(s))
    case Some(ConfirmFinal) => Stop(ConfirmHandler.FinalConfirmStep(s, env, msg))
    case Some(Finished) => StartHandler.FinishedNext(s, msg)
    case Some(NonDealerChoice) => ToSearch(s, msg)
  }

  /** One message in the chat `chatId`. */
  function Turn(s: Snapshot, env: Env, msg: Message, chatId: int): Snapshot
    requires EnvOk(env)
  {
    if msg.text == Some(StartHandler.StartCommand) then StartHandler.StartStep(s)
    else if msg.text == Some(IdCommand) then Say(s, IdReply(chatId))
    else Run(StateNext(s, env, msg), env)
  }

  /** The dispatcher, with the handlers as the routers order them. */
  method Deliver(ctx: Conversation, env: Env, msg: Message, chatId: int)
    requires EnvOk(env)
    modifies ctx
    ensures ctx.Snap() == Turn(old(ctx.Snap()), env, msg, chatId)
  {
    if msg.text == Some(StartHandler.StartCommand) {
      StartHandler.CmdStart(ctx);
      return;
    }
    if msg.text == Some(IdCommand) {
      ctx.Answer(IdReply(chatId));
      return;
    }
    match ctx.state
    case None =>
    case Some(Greeting) => StartHandler.HandleGreeting(ctx, env, msg);
    case Some(DetectIntent) => DI.HandleDetectIntent(ctx, env, msg);
    case Some(CollectBrand) => CollectBrandHandler.HandleCollectBrand(ctx, env, msg);
    case Some(CollectSpecs) => CollectSpecsHandler.HandleCollectSpecs(ctx, env, msg);
    case Some(CollectRepairType) => CollectRepairTypeHandler.HandleCollectRepairType(ctx, env, msg);
    case Some(CollectPhone) => CollectPhoneHandler.HandleCollectPhone(ctx, env, msg);
    case Some(Confirm) => ConfirmHandler.AskConfirm(ctx);
    case Some(ConfirmFinal) => ConfirmHandler.HandleFinalConfirm(ctx, env, msg);
    case Some(Finished) => StartHandler.HandleFinished(ctx, env, msg);
    case Some(NonDealerChoice) => NDC.HandleNonDealerChoice(ctx, env, msg);
  }
}
