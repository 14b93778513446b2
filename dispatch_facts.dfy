/** What the dispatcher guarantees whatever state a conversation is in. */
module DispatchFacts {
  import opened Wrappers
  import opened Text
  import opened States
  import opened Session
  import opened Handoff
  import opened StartHandler
  import StartFacts
  import opened Dispatch

  /** A message that is neither command. */
  predicate Plain(msg: Message) { msg.text != Some(StartCommand) && msg.text != Some(IdCommand) }

  /** `/start` wins in every state: the record is emptied, the state becomes `greeting` and the welcome is sent. */
  lemma StartEverywhere(s: Snapshot, env: Env, msg: Message, chatId: int)
    requires EnvOk(env) && msg.text == Some(StartCommand)
    ensures Turn(s, env, msg, chatId) == Snapshot(EmptyData, Some(Greeting), s.outbox + [ToUser(Welcome)])
  {
    StartFacts.StartResets(s);
  }

  /** `/id` in every state: only the chat id is sent back; the state and the record stay. */
  lemma IdEverywhere(s: Snapshot, env: Env, msg: Message, chatId: int)
    requires EnvOk(env) && msg.text == Some(IdCommand)
    ensures var r := Turn(s, env, msg, chatId);
      && r.data == s.data && r.state == s.state
      && r.outbox == s.outbox + [ToUser(IdReply(chatId))]
  {
  }

  /** With no state set, only a command gets an answer: any other message changes nothing. */
  lemma NoStateNoAnswer(s: Snapshot, env: Env, msg: Message, chatId: int)
    requires EnvOk(env) && s.state.None? && Plain(msg)
    ensures Turn(s, env, msg, chatId) == s
  {
  }

  /**
   * The `/start` branch of `handle_finished` is never taken: a `/start` is
   * answered before the state is looked at, so in `finished` every message the
   * handler sees starts a new request.
   */
  lemma FinishedNeverSeesStart(s: Snapshot, env: Env, msg: Message)
    requires s.state == Some(Finished) && Plain(msg)
    ensures StateNext(s, env, msg) == FinishedNext(s, msg)
    ensures FinishedNext(s, msg).ToDetect?
  {
    StartFacts.FinishedStartsOver(s, msg);
  }

  /**
   * A dialogue from its first command: `/start`, then "Роман, хочу купить ФВ
   * Тигуан". The name is stored, the welcome is the only message so far, and
   * the request goes straight to the intent handler.
   */
  lemma {:induction false} RomanOpensDialogue(s: Snapshot, env: Env, start: Message, reply: Message, chatId: int)
    requires EnvOk(env) && start.text == Some(StartCommand)
    requires reply.text == Some("Роман, хочу купить ФВ Тигуан")
    ensures Turn(Turn(s, env, start, chatId), env, reply, chatId) ==
      DI.DetectIntentStep(Snapshot(EmptyData.(name := Some("Роман")), Some(DetectIntent), s.outbox + [ToUser(Welcome)]),
                          env, WithText(reply, "хочу купить ФВ Тигуан"))
  {
    var t := Turn(s, env, start, chatId);
    StartEverywhere(s, env, start, chatId);
    assert reply.text != Some(StartCommand) && reply.text != Some(IdCommand);
    StartFacts.RomanGreeting(t, env, reply);
  }
}
