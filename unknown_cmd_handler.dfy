/** The fallback handler (src/bot/handlers/unknown_cmd_handler.py): any
    message that looks like a command but is not one of the bot's commands
    is answered with a fixed hint. */
module UnknownCmdHandler {
  import opened Wrappers
  import opened Text
  import opened BotState

  /** `valid_commands` */
  const ValidCommands: set<string> :=
    {"/start", "/help", "/track", "/untrack", "/list", "/notifications", "/upds_by_tags"}

  const UnknownText: string := "Неизвестная команда. Пожалуйста, используйте правильные команды."

  /** Text that starts with "/" and is not a listed command. */
  predicate IsUnknownCommand(text: string) {
    StartsWith(text, "/") && text !in ValidCommands
  }

  /** The reply to a message, if any. */
  function UnknownReply(text: string): (r: Option<string>)
    ensures r.Some? <==> |text| >= 1 && text[0] == '/' && text !in ValidCommands
    ensures r.Some? ==> r.value == UnknownText
  {
    if IsUnknownCommand(text) then Some(UnknownText) else None
  }

  /** Each listed command is left to its own handler. */
  lemma ListedCommandsAreSilent(text: string)
    requires text in ValidCommands
    ensures UnknownReply(text) == None
  {
  }

  /** Text that does not start with "/" is never answered. */
  lemma PlainTextIsSilent(text: string)
    requires text == [] || text[0] != '/'
    ensures UnknownReply(text) == None
  {
  }

  /** A lone "/" and made-up commands are answered. */
  lemma MadeUpCommandsAreAnswered()
    ensures UnknownReply("/") == Some(UnknownText)
    ensures UnknownReply("/unknown_command") == Some(UnknownText)
    ensures UnknownReply("/list_all") == Some(UnknownText)
  {
  }

  /** A listed command followed by anything is not listed, so `/track x` and
      `/list_all` are answered. */
  lemma ExtendedCommandIsAnswered(cmd: string, rest: string)
    requires cmd in ValidCommands && rest != []
    requires cmd + rest !in ValidCommands
    ensures UnknownReply(cmd + rest) == Some(UnknownText)
  {
    assert (cmd + rest)[0] == cmd[0];
  }

  /** `unknown_cmd_handler`: reply in `chat` when the text is an unknown command. */
  method UnknownCmd(b: BotState, chat: int, text: string)
    modifies b
    ensures b.Data() == old(b.Data()).(replies := old(b.replies) +
              (if UnknownReply(text).Some? then [Reply(chat, UnknownText)] else []))
  {
    if StartsWith(text, "/") && text !in ValidCommands {
      b.Say(chat, UnknownText);
    }
  }
}
