/** `/untrack` (src/bot/handlers/untrack_cmd_handler.py): show the chat's
    links numbered, read the number of the one to drop, confirm, send
    `DELETE /links` and drop the link from the cached list. */
module UntrackCmdHandler {
  import opened Wrappers
  import opened Text
  import opened Schemas
  import opened BotState
  import opened ListCmdHandler

  const BadInputText: string := "❌ Некорректный ввод номера ссылки."
  const BadNumberText: string := "❌ Неверный номер ссылки."
  const DeleteFailedText: string := "❌ Произошла ошибка при удалении ссылки"
  const CancelledText: string := "❌ Удаление отменено"
  const NothingToDeleteText: string := "Список отслеживаемых ссылок пуст\nУдалять нечего"
  const ChooseHeader: string := "Выберите номер ссылки, которую хотите прекратить отслеживать🔗:\n\n"

  function ChoicePrompt(n: int): string {
    "Перестать отслеживать ресурс под номером " + IntToString(n) + "?"
  }

  function RemovedText(url: string): string {
    "✅ Ссылка " + url + " успешно удалена из отслеживания!"
  }

  /** The urls of a fetched list, in order. */
  function ResponseUrls(data: ListLinksResponse): (urls: seq<string>)
    ensures |urls| == |data.links|
    ensures forall i :: 0 <= i < |urls| ==> urls[i] == data.links[i].url
  {
    Urls(ToCache(data).links)
  }

  /** What `/untrack` shows for the fetched list: the same numbered lines as
      `/list`, under its own header. */
  function ChoiceText(data: ListLinksResponse): string {
    if data.size == 0 then NothingToDeleteText else ChooseHeader + Numbered(ResponseUrls(data), 1)
  }

  /** The cached links that do not have `url`, in their order. */
  function Without(links: seq<CachedLink>, url: string): (r: seq<CachedLink>)
    ensures |r| <= |links|
    ensures forall x :: x in r <==> x in links && x.url != url
    ensures forall x :: multiset(r)[x] == if x.url == url then 0 else multiset(links)[x]
    decreases |links|
  {
    if links == [] then []
    else
      var rest := Without(links[..|links| - 1], url);
      var last := links[|links| - 1];
      assert links == links[..|links| - 1] + [last];
      if last.url == url then rest else rest + [last]
  }

  /** Removal works piece by piece: the kept links stay in their order. */
  lemma {:induction false} WithoutAppend(a: seq<CachedLink>, b: seq<CachedLink>, url: string)
    ensures Without(a + b, url) == Without(a, url) + Without(b, url)
    decreases |b|
  {
    if b == [] {
      assert a + b == a;
    } else {
      var last := b[|b| - 1];
      var init := b[..|b| - 1];
      assert (a + b)[..|a + b| - 1] == a + init;
      assert (a + b)[|a + b| - 1] == last;
      assert b[..|b| - 1] == init;
      WithoutAppend(a, init, url);
    }
  }

  /** A single link is kept exactly when its url differs. */
  lemma WithoutOne(x: CachedLink, url: string)
    ensures Without([x], url) == if x.url == url then [] else [x]
  {
  }

  /** The cache after a deletion: nothing cached stays uncached; a value that
      is not JSON becomes the empty list; a list loses the links with `url`. */
  function CacheAfterRemove(entry: Option<CacheEntry>, url: string): (r: Option<CachedList>)
    ensures r.None? <==> entry.None?
    ensures r.Some? ==> r.value.size == |r.value.links|
    ensures r.Some? ==> forall x :: x in r.value.links <==>
                          entry.value.Parsed? && x in entry.value.list.links && x.url != url
    ensures entry == Some(Unparseable) ==> r == Some(CachedList([], 0))
    ensures entry.Some? && entry.value.Parsed? ==> r.Some? && r.value.links == Without(entry.value.list.links, url)
  {
    match entry
    case None => None
    case Some(Unparseable) => Some(CachedList([], 0))
    case Some(Parsed(list)) =>
      var links := Without(list.links, url);
      Some(CachedList(links, |links|))
  }

  /** `/untrack`: wait for a number; `status` and `data` are the scrapper's
      answer to `GET /links`. */
  function UntrackStart(d: BotData, user: int, status: int, data: ListLinksResponse): (r: BotData)
    ensures user in r.userStates && r.userStates[user] == UntrackWaitingForChoice
    ensures status == 200 ==> r.userLinks == Some(data) && r.replies == d.replies + [Reply(user, ChoiceText(data))]
    ensures status != 200 ==> r.userLinks == d.userLinks && r.replies == d.replies + [Reply(user, FetchFailedText)]
    ensures r.cache == d.cache
  {
    var d1 := d.(userStates := d.userStates[user := UntrackWaitingForChoice]);
    if status != 200 then d1.(replies := d.replies + [Reply(user, FetchFailedText)])
    else d1.(userLinks := Some(data), replies := d.replies + [Reply(user, ChoiceText(data))])
  }

  /** `int(text.strip())`, or `None` for the `ValueError`. */
  function ChosenNumber(text: string): Option<int> {
    ParseInt(Strip(text))
  }

  /** Typing `str(n)` chooses n. */
  lemma TypedNumberIsChosen(n: int)
    ensures ChosenNumber(IntToString(n)) == Some(n)
  {
    IntToStringClean(n);
    ParseIntToString(n);
  }

  /** A number was sent: keep it and ask for confirmation; anything that is
      not an integer is answered and the state stays as it was. */
  function ChoiceStep(d: BotData, user: int, text: string): (r: BotData)
    ensures ChosenNumber(text).None? ==> r == d.(replies := d.replies + [Reply(user, BadInputText)])
    ensures ChosenNumber(text).Some? ==>
              && r.deletedLinkNumber == ChosenNumber(text)
              && user in r.userStates && r.userStates[user] == UntrackWaitingForConfirmation
              && r.replies == d.replies + [Reply(user, ChoicePrompt(ChosenNumber(text).value))]
    ensures r.userLinks == d.userLinks && r.cache == d.cache
  {
    match ChosenNumber(text)
    case None => d.(replies := d.replies + [Reply(user, BadInputText)])
    case Some(n) =>
      d.(deletedLinkNumber := Some(n), userStates := d.userStates[user := UntrackWaitingForConfirmation],
         replies := d.replies + [Reply(user, ChoicePrompt(n))])
  }

  /** The confirmation step. `delete` is the scrapper's status for
      `DELETE /links` with a url. A confirmation without a chosen number or
      without a fetched list raises `ValueError` and changes nothing; a
      number outside the list is answered and keeps the conversation going;
      every other answer ends it. */
  function ConfirmStep(d: BotData, user: int, text: string, delete: string -> int): (r: (bool, BotData))
    ensures r.0 <==> Confirmed(text) && (d.deletedLinkNumber.None? || d.userLinks.None?)
    ensures r.0 ==> r.1 == d
    ensures !Confirmed(text) ==>
              r.1 == d.(userStates := d.userStates - {user}, replies := d.replies + [Reply(user, CancelledText)])
    ensures Confirmed(text) && !r.0 && !(1 <= d.deletedLinkNumber.value <= |d.userLinks.value.links|) ==>
              r.1 == d.(replies := d.replies + [Reply(user, BadNumberText)])
  {
    if !Confirmed(text) then
      (false, d.(userStates := d.userStates - {user}, replies := d.replies + [Reply(user, CancelledText)]))
    else DeleteStep(d, user, delete)
  }

  /** The confirmed branch of the confirmation step. */
  function DeleteStep(d: BotData, user: int, delete: string -> int): (r: (bool, BotData))
    ensures r.0 <==> d.deletedLinkNumber.None? || d.userLinks.None?
    ensures r.0 ==> r.1 == d
  {
    if d.deletedLinkNumber.None? || d.userLinks.None? then (true, d)
    else
      var n := d.deletedLinkNumber.value;
      var links := d.userLinks.value.links;
      if !(1 <= n <= |links|) then (false, d.(replies := d.replies + [Reply(user, BadNumberText)]))
      else
        var url := links[n - 1].url;
        if delete(url) == 200 then
          var entry := CacheOf(d, user);
          var cache := if entry.Some? then d.cache[user := Parsed(CacheAfterRemove(entry, url).value)] else d.cache;
          (false, d.(cache := cache, userStates := d.userStates - {user},
                     replies := d.replies + [Reply(user, RemovedText(url))]))
        else
          (false, d.(userStates := d.userStates - {user}, replies := d.replies + [Reply(user, DeleteFailedText)]))
  }

  /** The line "{n}. {url}" that `/untrack` shows for entry n names the url that
      choosing n deletes. */
  lemma ShownLineNamesChoice(data: ListLinksResponse, n: int)
    requires data.size != 0 && 1 <= n <= |data.links|
    requires forall i :: 0 <= i < |data.links| ==> '\n' !in data.links[i].url
    ensures ChoiceText(data)[..|ChooseHeader|] == ChooseHeader
    ensures Split(ChoiceText(data)[|ChooseHeader|..], '\n') == NumberedLines(ResponseUrls(data), 1) + [""]
    ensures Split(ChoiceText(data)[|ChooseHeader|..], '\n')[n - 1] == Line(n, data.links[n - 1].url)
  {
    var urls := ResponseUrls(data);
    assert ChoiceText(data)[|ChooseHeader|..] == Numbered(urls, 1);
    NumberedReadBack(urls, 1);
  }

  /** `/untrack` and `/list` number a fetched list identically. */
  lemma SameNumberingAsList(data: ListLinksResponse)
    requires data.size != 0
    ensures ChoiceText(data)[|ChooseHeader|..] == ListText(ToCache(data))[|ListHeader|..]
  {
  }

  /** The whole conversation: after /untrack fetched `data`, sending text that
      `int(text.strip())` reads as a listed n (`str(n)` is such a text, by
      TypedNumberIsChosen) and confirming sends `DELETE /links` for the n-th
      url and ends the conversation; on 200 no cached link of the chat keeps
      that url. */
  lemma WholeConversation(d: BotData, user: int, data: ListLinksResponse, typed: string, n: int,
                          yes: string, delete: string -> int)
    requires ChosenNumber(typed) == Some(n) && Confirmed(yes) && 1 <= n <= |data.links|
    ensures var d1 := UntrackStart(d, user, 200, data);
            var d2 := ChoiceStep(d1, user, typed);
            var (raised, d3) := ConfirmStep(d2, user, yes, delete);
            var url := data.links[n - 1].url;
            && d2.deletedLinkNumber == Some(n)
            && !raised && user !in d3.userStates
            && d3.replies[|d3.replies| - 1] == Reply(user, if delete(url) == 200 then RemovedText(url) else DeleteFailedText)
            && (delete(url) == 200 && user in d.cache ==>
                  (user in d3.cache && d3.cache[user].Parsed?
                   && forall x :: x in d3.cache[user].list.links ==> x.url != url))
            && (delete(url) != 200 || user !in d.cache ==> d3.cache == d.cache)
  {
    var d2 := ChoiceStep(UntrackStart(d, user, 200, data), user, typed);
    assert d2.deletedLinkNumber == Some(n) && d2.userLinks == Some(data) && d2.cache == d.cache;
    assert d2.userLinks.value.links[d2.deletedLinkNumber.value - 1].url == data.links[n - 1].url;
    ConfirmedRemoval(d2, user, yes, delete);
  }

  /** A confirmed deletion of a listed number ends the conversation with the
      reply for the scrapper's status and, on 200, filters any cached list. */
  lemma ConfirmedRemoval(d: BotData, user: int, text: string, delete: string -> int)
    requires Confirmed(text) && d.deletedLinkNumber.Some? && d.userLinks.Some?
    requires 1 <= d.deletedLinkNumber.value <= |d.userLinks.value.links|
    ensures var url := d.userLinks.value.links[d.deletedLinkNumber.value - 1].url;
            var (raised, after) := ConfirmStep(d, user, text, delete);
            && !raised && user !in after.userStates
            && after.replies[|after.replies| - 1] == Reply(user, if delete(url) == 200 then RemovedText(url) else DeleteFailedText)
            && (delete(url) == 200 && user in d.cache ==>
                  (user in after.cache && after.cache[user].Parsed?
                   && forall x :: x in after.cache[user].list.links ==> x.url != url))
            && (delete(url) != 200 || user !in d.cache ==> after.cache == d.cache)
  {
  }

  /** A confirmed deletion in a chat with a cached list keeps exactly the
      other cached links. */
  lemma ConfirmedRemovalFiltersCache(d: BotData, user: int, text: string, delete: string -> int)
    requires Confirmed(text) && d.deletedLinkNumber.Some? && d.userLinks.Some?
    requires 1 <= d.deletedLinkNumber.value <= |d.userLinks.value.links|
    requires user in d.cache && d.cache[user].Parsed?
    ensures var url := d.userLinks.value.links[d.deletedLinkNumber.value - 1].url;
            var after := ConfirmStep(d, user, text, delete).1;
            delete(url) == 200 ==>
              (user in after.cache && after.cache[user].Parsed?
               && forall x :: x in after.cache[user].list.links <==> x in d.cache[user].list.links && x.url != url)
  {
    var url := d.userLinks.value.links[d.deletedLinkNumber.value - 1].url;
    var entry := CacheOf(d, user);
    assert entry == Some(d.cache[user]);
    var kept := CacheAfterRemove(entry, url);
    assert kept.Some? && forall x :: x in kept.value.links <==> x in d.cache[user].list.links && x.url != url;
    if delete(url) == 200 {
      var after := ConfirmStep(d, user, text, delete).1;
      assert after.cache == d.cache[user := Parsed(kept.value)];
      assert after.cache[user].list == kept.value;
    }
  }

  /** The listing loop of the handler. */
  method RenderChoices(data: ListLinksResponse) returns (text: string)
    ensures text == ChoiceText(data)
  {
    if data.size == 0 {
      text := NothingToDeleteText;
    } else {
      text := ChooseHeader;
      var links := data.links;
      ghost var urls := ResponseUrls(data);
      for k := 0 to |links|
        invariant text == ChooseHeader + Numbered(urls[..k], 1)
      {
        assert urls[k] == links[k].url;
        assert urls[..k + 1] == urls[..k] + [urls[k]];
        NumberedAppend(urls[..k], links[k].url, 1);
        text := text + (Line(k + 1, links[k].url) + "\n");
      }
      assert urls[..|links|] == urls;
    }
  }

  /** `untrack_cmd_handler`. */
  method UntrackCmd(b: BotState, user: int, status: int, data: ListLinksResponse)
    modifies b
    ensures b.Data() == UntrackStart(old(b.Data()), user, status, data)
  {
    b.userStates := b.userStates[user := UntrackWaitingForChoice];
    if status != 200 {
      b.Say(user, FetchFailedText);
      return;
    }
    b.userLinks := Some(data);
    var text := RenderChoices(data);
    b.Say(user, text);
  }

  /** `handle_waiting_for_choice`. */
  method HandleWaitingForChoice(b: BotState, user: int, text: string)
    modifies b
    ensures b.Data() == ChoiceStep(old(b.Data()), user, text)
  {
    ghost var d := b.Data();
    var parsed := ChosenNumber(text);
    if parsed.None? {
      b.Say(user, BadInputText);
      return;
    }
    var n := parsed.value;
    b.deletedLinkNumber := parsed;
    b.userStates := b.userStates[user := UntrackWaitingForConfirmation];
    b.Say(user, ChoicePrompt(n));
    assert b.Data() == d.(deletedLinkNumber := Some(n), userStates := d.userStates[user := UntrackWaitingForConfirmation],
                          replies := d.replies + [Reply(user, ChoicePrompt(n))]);
  }

  /** The cache step after a successful `DELETE /links`. */
  method DropFromCache(b: BotState, user: int, url: string)
    modifies b
    ensures var entry := CacheOf(old(b.Data()), user);
            b.Data() == old(b.Data()).(cache := if entry.Some? then old(b.cache)[user := Parsed(CacheAfterRemove(entry, url).value)]
                                                else old(b.cache))
  {
    if user in b.cache {
      var kept := CachedList([], 0);
      if b.cache[user].Parsed? {
        var links := Without(b.cache[user].list.links, url);
        kept := CachedList(links, |links|);
      }
      b.cache := b.cache[user := Parsed(kept)];
    }
  }

  /** `handle_waiting_for_confirmation`; `raised` is the `ValueError`. */
  method HandleWaitingForConfirmation(b: BotState, user: int, text: string, delete: string -> int)
    returns (raised: bool)
    modifies b
    ensures (raised, b.Data()) == ConfirmStep(old(b.Data()), user, text, delete)
  {
    if Confirmed(text) {
      raised := DeleteChosen(b, user, delete);
    } else {
      b.Say(user, CancelledText);
      b.userStates := b.userStates - {user};
      raised := false;
    }
  }

  /** The confirmed branch: delete the chosen url and end the conversation. */
  method DeleteChosen(b: BotState, user: int, delete: string -> int) returns (raised: bool)
    modifies b
    ensures (raised, b.Data()) == DeleteStep(old(b.Data()), user, delete)
  {
    raised := false;
    if b.deletedLinkNumber.None? || b.userLinks.None? {
      return true;
    }
    var n := b.deletedLinkNumber.value;
    var links := b.userLinks.value.links;
    if !(1 <= n <= |links|) {
      b.Say(user, BadNumberText);
      return;
    }
    var url := links[n - 1].url;
    if delete(url) == 200 {
      b.Say(user, RemovedText(url));
      DropFromCache(b, user, url);
    } else {
      b.Say(user, DeleteFailedText);
    }
    b.userStates := b.userStates - {user};
  }

  /** `handle_messages`: route a message by the sender's state; a sender in
      no /untrack state is ignored. */
  method HandleMessages(b: BotState, user: int, text: string, delete: string -> int) returns (raised: bool)
    modifies b
    ensures user !in old(b.userStates) || old(b.userStates)[user] !in {UntrackWaitingForChoice, UntrackWaitingForConfirmation}
            ==> !raised && b.Data() == old(b.Data())
    ensures user in old(b.userStates) && old(b.userStates)[user] == UntrackWaitingForChoice
            ==> !raised && b.Data() == ChoiceStep(old(b.Data()), user, text)
    ensures user in old(b.userStates) && old(b.userStates)[user] == UntrackWaitingForConfirmation
            ==> (raised, b.Data()) == ConfirmStep(old(b.Data()), user, text, delete)
  {
    raised := false;
    if user in b.userStates {
      if b.userStates[user] == UntrackWaitingForChoice {
        HandleWaitingForChoice(b, user, text);
      } else if b.userStates[user] == UntrackWaitingForConfirmation {
        raised := HandleWaitingForConfirmation(b, user, text, delete);
      }
    }
  }
}
