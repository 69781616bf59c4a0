/** `/upds_by_tags` (src/bot/handlers/upds_by_tag_cmd_handler.py): ask for
    tags, then fetch the chat's updates for them and send one reply per
    update. */
module UpdsByTagCmdHandler {
  import opened Wrappers
  import opened Text
  import opened Schemas
  import opened BotState
  import opened UnknownCmdHandler

  const AskTagsText: string := "📝 Введите один или несколько тегов через пробел:"
  /** The command the "at least one tag" hint names, as written. */
  const HintedCommandAsWritten: string := "/upds_by_tag"
  /** The command that asks for tags. */
  const UpdsCommand: string := "/upds_by_tags"
  const FetchErrorPrefix: string := "❌ Ошибка при запросе обновлений: "
  const NoUpdatesText: string := "ℹ️ Обновлений по заданным тегам не найдено."

  /** The reply to a message without tags, naming the command to retry with. */
  function NeedTagText(retry: string): (text: string)
    ensures |text| > |retry| && text[|text| - |retry|..] == retry
  {
    "❗ Нужен хотя бы один тег. Попробуйте заново: " + retry
  }

  /** As written, the hint names a command the bot does not have: sending it
      gets the unknown-command reply instead of the tag prompt. */
  lemma HintAsWrittenIsUnknown()
    ensures var hint := NeedTagText(HintedCommandAsWritten);
            hint[|hint| - |HintedCommandAsWritten|..] == HintedCommandAsWritten
    ensures HintedCommandAsWritten !in ValidCommands
    ensures UnknownReply(HintedCommandAsWritten) == Some(UnknownText)
  {
  }

  /** The hint this model sends names the tag command itself, which the
      unknown-command handler leaves alone. */
  lemma HintNamesTagCommand()
    ensures UpdsCommand in ValidCommands
    ensures UnknownReply(UpdsCommand) == None
    ensures NeedTagText(UpdsCommand)[|NeedTagText(UpdsCommand)| - |UpdsCommand|..] == UpdsCommand
  {
  }

  /** The reply for one update. */
  function UpdateText(u: LinkUpdate): string {
    "⚡ Обновление по ссылке " + u.url + ":\n" + u.description
  }

  /** One reply per update, in order. */
  function UpdateReplies(chat: int, us: seq<LinkUpdate>): seq<Reply>
    decreases |us|
  {
    if us == [] then [] else UpdateReplies(chat, us[..|us| - 1]) + [Reply(chat, UpdateText(us[|us| - 1]))]
  }

  /** Reply i is about update i. */
  lemma {:induction false} UpdateRepliesShape(chat: int, us: seq<LinkUpdate>)
    ensures |UpdateReplies(chat, us)| == |us|
    ensures forall i :: 0 <= i < |us| ==> UpdateReplies(chat, us)[i] == Reply(chat, UpdateText(us[i]))
    decreases |us|
  {
    if us != [] {
      UpdateRepliesShape(chat, us[..|us| - 1]);
    }
  }

  /** `raw_text.strip().split()` */
  function Tags(raw: string): (tags: seq<string>)
    ensures tags == [] <==> forall i :: 0 <= i < |Strip(raw)| ==> IsSpace(Strip(raw)[i])
    ensures forall i :: 0 <= i < |tags| ==> tags[i] != []
  {
    SplitWhitespace(Strip(raw))
  }

  /** Typed tags are non-empty after stripping exactly when some non-space
      character was typed. */
  lemma NoTagsOnlyForBlankText(raw: string)
    ensures Tags(raw) == [] <==> Strip(raw) == []
  {
    var s := Strip(raw);
    if s != [] {
      assert !IsSpace(s[0]);
    }
  }

  /** `/upds_by_tags`: ask, then wait for the tags. */
  function AskStep(d: BotData, chat: int): (r: BotData)
    ensures chat in r.userStates && r.userStates[chat] == AwaitingUpdsTags
    ensures r.replies == d.replies + [Reply(chat, AskTagsText)]
  {
    d.(userStates := d.userStates[chat := AwaitingUpdsTags], replies := d.replies + [Reply(chat, AskTagsText)])
  }

  /** The message handler. `fetch` is `GET /updates_by_tags` for the chat and
      the tags: the updates, or the text of the exception it raised. */
  function TagsStep(d: BotData, chat: int, raw: string, fetch: seq<string> -> Result<seq<LinkUpdate>, string>)
    : (r: BotData)
    ensures chat !in d.userStates || d.userStates[chat] != AwaitingUpdsTags ==> r == d
    ensures chat in d.userStates && d.userStates[chat] == AwaitingUpdsTags ==>
              && r == d.(userStates := d.userStates - {chat}, replies := r.replies)
              && |r.replies| > |d.replies| && r.replies[..|d.replies|] == d.replies
    ensures chat in d.userStates && d.userStates[chat] == AwaitingUpdsTags && Tags(raw) == [] ==>
              r.replies == d.replies + [Reply(chat, NeedTagText(UpdsCommand))]
  {
    if chat !in d.userStates || d.userStates[chat] != AwaitingUpdsTags then d
    else
      var d1 := d.(userStates := d.userStates - {chat});
      var tags := Tags(raw);
      if tags == [] then d1.(replies := d.replies + [Reply(chat, NeedTagText(UpdsCommand))])
      else match fetch(tags)
        case Failure(e) => d1.(replies := d.replies + [Reply(chat, FetchErrorPrefix + e)])
        case Success(us) =>
          if us == [] then d1.(replies := d.replies + [Reply(chat, NoUpdatesText)])
          else
            UpdateRepliesShape(chat, us);
            d1.(replies := d.replies + UpdateReplies(chat, us))
  }

  /** With tags typed and updates found, the chat gets exactly one reply per
      update, in order, and nothing else. */
  lemma OneReplyPerUpdate(d: BotData, chat: int, raw: string, fetch: seq<string> -> Result<seq<LinkUpdate>, string>)
    requires chat in d.userStates && d.userStates[chat] == AwaitingUpdsTags
    requires Tags(raw) != [] && fetch(Tags(raw)).Success? && fetch(Tags(raw)).value != []
    ensures var us := fetch(Tags(raw)).value;
            var added := TagsStep(d, chat, raw, fetch).replies[|d.replies|..];
            |added| == |us| && forall i :: 0 <= i < |us| ==> added[i] == Reply(chat, UpdateText(us[i]))
  {
    var us := fetch(Tags(raw)).value;
    UpdateRepliesShape(chat, us);
    assert TagsStep(d, chat, raw, fetch).replies[|d.replies|..] == UpdateReplies(chat, us);
  }

  /** A failed request or an empty result is answered with one message. */
  lemma OneReplyOnErrorOrNothing(d: BotData, chat: int, raw: string, fetch: seq<string> -> Result<seq<LinkUpdate>, string>)
    requires chat in d.userStates && d.userStates[chat] == AwaitingUpdsTags && Tags(raw) != []
    ensures fetch(Tags(raw)).Failure? ==>
              TagsStep(d, chat, raw, fetch).replies == d.replies + [Reply(chat, FetchErrorPrefix + fetch(Tags(raw)).error)]
    ensures fetch(Tags(raw)) == Success([]) ==>
              TagsStep(d, chat, raw, fetch).replies == d.replies + [Reply(chat, NoUpdatesText)]
  {
  }

  /** `/upds_by_tags` followed by a message: the message is taken as tags,
      and a second message is no longer taken. */
  lemma AskThenAnswerOnce(d: BotData, chat: int, raw: string, raw2: string,
                          fetch: seq<string> -> Result<seq<LinkUpdate>, string>)
    ensures var d2 := TagsStep(AskStep(d, chat), chat, raw, fetch);
            chat !in d2.userStates && TagsStep(d2, chat, raw2, fetch) == d2
  {
  }

  /** `upds_by_tag_cmd_handler` */
  method UpdsByTagCmd(b: BotState, chat: int)
    modifies b
    ensures b.Data() == AskStep(old(b.Data()), chat)
  {
    b.Say(chat, AskTagsText);
    b.userStates := b.userStates[chat := AwaitingUpdsTags];
  }

  /** The reply loop: one reply per update, in order. */
  method SendUpdates(b: BotState, chat: int, us: seq<LinkUpdate>)
    modifies b
    ensures b.Data() == old(b.Data()).(replies := old(b.replies) + UpdateReplies(chat, us))
  {
    ghost var start := b.Data();
    for k := 0 to |us|
      invariant b.Data() == start.(replies := start.replies + UpdateReplies(chat, us[..k]))
    {
      assert us[..k + 1][..k] == us[..k];
      b.Say(chat, UpdateText(us[k]));
    }
    assert us[..|us|] == us;
  }

  /** `upds_by_tag_handler` */
  method UpdsByTagHandler(b: BotState, chat: int, raw: string, fetch: seq<string> -> Result<seq<LinkUpdate>, string>)
    modifies b
    ensures b.Data() == TagsStep(old(b.Data()), chat, raw, fetch)
  {
    if chat !in b.userStates || b.userStates[chat] != AwaitingUpdsTags {
      return;
    }
    b.userStates := b.userStates - {chat};
    var tags := Tags(raw);
    if tags == [] {
      b.Say(chat, NeedTagText(UpdsCommand));
      return;
    }
    var fetched := fetch(tags);
    if fetched.Failure? {
      b.Say(chat, FetchErrorPrefix + fetched.error);
      return;
    }
    var us := fetched.value;
    if us == [] {
      b.Say(chat, NoUpdatesText);
      return;
    }
    SendUpdates(b, chat, us);
  }
}
