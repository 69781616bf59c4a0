/** `/track` (src/bot/handlers/track_cmd_handler.py): a four-step
    conversation (link, tags, filters, confirmation) that ends in
    `POST /links` and, on success, in an append to the cached link list. */
module TrackCmdHandler {
  import opened Wrappers
  import opened Text
  import opened Schemas
  import opened BotState

  const LinkPrompt: string := "Пожалуйста, отправьте ссылку, которую хотите отслеживать."
  const TagsPrompt: string := "Пожалуйста, введите теги, каждый с новой строки (опционально)\nИли «-», если теги не нужны"
  const FiltersPrompt: string := "Пожалуйста, введите фильтры, каждый с новой строки (опционально)\nИли «-», если фильтры не нужны"
  const AlreadyTrackedText: string := "❌ Вы уже отслеживаете эту ссылку"
  const NotAddedText: string := "❌ Ссылка не добавлена"

  /** `text.strip().split("\n")`: one entry per line. */
  function Lines(text: string): (items: seq<string>)
    ensures |items| >= 1 && forall i :: 0 <= i < |items| ==> '\n' !in items[i]
  {
    Split(Strip(text), '\n')
  }

  /** `«item»` */
  function Quote(item: string): string {
    "«" + item + "»"
  }

  function QuotedAll(items: seq<string>): (q: seq<string>)
    ensures |q| == |items|
  {
    seq(|items|, i requires 0 <= i < |items| => Quote(items[i]))
  }

  /** The tags part of the summary: "-" for ["-"], otherwise one quoted tag per line. */
  function TagsBlock(tags: seq<string>): string {
    if tags == ["-"] then "-\n" else Join("\n", QuotedAll(tags)) + "\n"
  }

  /** The filters part of the summary, without a final newline. */
  function FiltersBlock(filters: seq<string>): string {
    if filters == ["-"] then "-" else Join("\n", QuotedAll(filters))
  }

  /** The summary shown before confirmation. */
  function ConfirmationText(link: string, tags: seq<string>, filters: seq<string>): string {
    "Вы хотите отслеживать ссылку: " + link + "\n" + "теги:\n" + TagsBlock(tags) + "фильтры:\n" + FiltersBlock(filters)
  }

  /** ["-"] stands for "none". */
  function DashToEmpty(items: seq<string>): (r: seq<string>)
    ensures items == ["-"] ==> r == []
    ensures items != ["-"] ==> r == items
  {
    if items == ["-"] then [] else items
  }

  function AddedText(link: string): string {
    "✅ Ссылка " + link + " успешно добавлена в список отслеживаемых!"
  }

  /** The reply to the scrapper's status for `POST /links`. */
  function AddReply(status: int, link: string): (text: string)
    ensures status == 200 ==> text == AddedText(link)
    ensures status == 409 ==> text == AlreadyTrackedText
    ensures status != 200 && status != 409 ==> text == NotAddedText
  {
    match status
    case 200 => AddedText(link)
    case 409 => AlreadyTrackedText
    case _ => NotAddedText
  }

  /** The cached list after a successful add: the cached list (or an empty one
      when nothing, or no JSON, is cached) with the request appended. */
  function CacheAfterAdd(entry: Option<CacheEntry>, req: AddLinkRequest): (r: CachedList)
    ensures r.size == |r.links| && |r.links| >= 1
    ensures r.links[|r.links| - 1] == CachedLink(None, req.url, req.tags, req.filters)
    ensures entry.Some? && entry.value.Parsed? ==> r.links[..|r.links| - 1] == entry.value.list.links
    ensures !(entry.Some? && entry.value.Parsed?) ==> |r.links| == 1
  {
    var old_links := if entry.Some? && entry.value.Parsed? then entry.value.list.links else [];
    var links := old_links + [CachedLink(None, req.url, req.tags, req.filters)];
    assert links[..|links| - 1] == old_links;
    CachedList(links, |links|)
  }

  /** The summary reads back: after its header lines, each filter sits on its
      own line, quoted (filters without newlines). */
  lemma FiltersReadBack(filters: seq<string>)
    requires filters != ["-"] && |filters| >= 1
    requires forall i :: 0 <= i < |filters| ==> '\n' !in filters[i]
    ensures Split(FiltersBlock(filters), '\n') == QuotedAll(filters)
  {
    var q := QuotedAll(filters);
    forall i | 0 <= i < |q| ensures '\n' !in q[i] {
      assert q[i] == "«" + filters[i] + "»";
    }
    SplitJoin(q, '\n');
  }

  /** Likewise for tags, followed by the newline before "фильтры:". */
  lemma TagsReadBack(tags: seq<string>)
    requires tags != ["-"] && |tags| >= 1
    requires forall i :: 0 <= i < |tags| ==> '\n' !in tags[i]
    ensures TagsBlock(tags) == FiltersBlock(tags) + "\n"
    ensures Split(FiltersBlock(tags), '\n') == QuotedAll(tags)
  {
    FiltersReadBack(tags);
  }

  /** Reading the lines of typed text and joining them back gives the stripped text. */
  lemma LinesRoundTrip(text: string)
    ensures Join("\n", Lines(text)) == Strip(text)
  {
    JoinSplit(Strip(text), '\n');
  }

  /** Entries typed one per line come back as the list of entries. */
  lemma LinesOfTypedList(items: seq<string>)
    requires |items| >= 1
    requires forall i :: 0 <= i < |items| ==> '\n' !in items[i]
    requires Strip(Join("\n", items)) == Join("\n", items)
    ensures Lines(Join("\n", items)) == items
  {
    SplitJoin(items, '\n');
  }

  /** The request the confirmation sends. */
  function Request(link: string, tags: seq<string>, filters: seq<string>): AddLinkRequest {
    AddLinkRequest(link, DashToEmpty(tags), DashToEmpty(filters))
  }

  /** `/track`: wait for the link. */
  function TrackStart(d: BotData, user: int): (r: BotData)
    ensures user in r.userStates && r.userStates[user] == TrackWaitingForLink && r.replies == d.replies + [Reply(user, LinkPrompt)]
  {
    d.(userStates := d.userStates[user := TrackWaitingForLink], replies := d.replies + [Reply(user, LinkPrompt)])
  }

  /** A link was sent: keep it stripped, wait for the tags. */
  function LinkStep(d: BotData, user: int, text: string): (r: BotData)
    ensures r.enteredLink == Some(Strip(text)) && user in r.userStates && r.userStates[user] == TrackWaitingForTags
    ensures r.userStates == d.userStates[user := TrackWaitingForTags]
  {
    d.(enteredLink := Some(Strip(text)), userStates := d.userStates[user := TrackWaitingForTags],
       replies := d.replies + [Reply(user, TagsPrompt)])
  }

  /** Tags were sent: keep them one per line, wait for the filters. */
  function TagsStep(d: BotData, user: int, text: string): (r: BotData)
    ensures r.enteredTags == Some(Lines(text)) && user in r.userStates && r.userStates[user] == TrackWaitingForFilters
  {
    d.(enteredTags := Some(Lines(text)), userStates := d.userStates[user := TrackWaitingForFilters],
       replies := d.replies + [Reply(user, FiltersPrompt)])
  }

  /** Filters were sent: keep them, wait for the confirmation, and show the
      summary. Reading a missing link or missing tags raises `KeyError` after
      the filters and the state are stored and before anything is said. */
  function FiltersStep(d: BotData, user: int, text: string): (r: (bool, BotData))
    ensures r.0 <==> d.enteredTags.None? || d.enteredLink.None?
    ensures r.1.enteredFilters == Some(Lines(text)) && user in r.1.userStates && r.1.userStates[user] == TrackWaitingForConfirmation
    ensures !r.0 ==> r.1.replies == d.replies + [Reply(user, ConfirmationText(d.enteredLink.value, d.enteredTags.value, Lines(text)))]
    ensures r.0 ==> r.1.replies == d.replies
  {
    var d1 := d.(enteredFilters := Some(Lines(text)), userStates := d.userStates[user := TrackWaitingForConfirmation]);
    if d.enteredTags.None? || d.enteredLink.None? then (true, d1)
    else (false, d1.(replies := d.replies + [Reply(user, ConfirmationText(d.enteredLink.value, d.enteredTags.value, Lines(text)))]))
  }

  /** The end of the conversation: the user's state and the three entered
      values are dropped. */
  function Forget(d: BotData, user: int): (r: BotData)
    ensures user !in r.userStates && r.enteredLink.None? && r.enteredTags.None? && r.enteredFilters.None?
  {
    d.(userStates := d.userStates - {user}, enteredLink := None, enteredTags := None, enteredFilters := None)
  }

  /** The confirmation step. `post` is the scrapper's status for `POST /links`
      with a request. Confirming with data missing raises `ValueError` and
      changes nothing; any other answer ends the conversation. */
  function ConfirmStep(d: BotData, user: int, text: string, post: AddLinkRequest -> int): (r: (bool, BotData))
    ensures r.0 <==> Confirmed(text) && (d.enteredLink.None? || d.enteredTags.None? || d.enteredFilters.None?)
    ensures r.0 ==> r.1 == d
    ensures !r.0 ==> user !in r.1.userStates && r.1.enteredLink.None? && r.1.enteredTags.None? && r.1.enteredFilters.None?
    ensures !r.0 ==> r.1.deletedLinkNumber == d.deletedLinkNumber && r.1.userLinks == d.userLinks
    ensures !Confirmed(text) ==> r.1.cache == d.cache && r.1.replies == d.replies + [Reply(user, NotAddedText)]
  {
    if !Confirmed(text) then (false, Forget(d, user).(replies := d.replies + [Reply(user, NotAddedText)]))
    else AddStep(d, user, post)
  }

  /** The confirmed branch of the confirmation step. */
  function AddStep(d: BotData, user: int, post: AddLinkRequest -> int): (r: (bool, BotData))
    ensures r.0 <==> d.enteredLink.None? || d.enteredTags.None? || d.enteredFilters.None?
    ensures r.0 ==> r.1 == d
  {
    if d.enteredLink.None? || d.enteredTags.None? || d.enteredFilters.None? then (true, d)
    else
      var req := Request(d.enteredLink.value, d.enteredTags.value, d.enteredFilters.value);
      var status := post(req);
      var cache := if status == 200 then d.cache[user := Parsed(CacheAfterAdd(CacheOf(d, user), req))] else d.cache;
      (false, Forget(d, user).(cache := cache, replies := d.replies + [Reply(user, AddReply(status, req.url))]))
  }

  /** The whole conversation: after /track, a link, tags and filters, a
      confirmation posts the link with "-" read as "none"; on 200 the cached
      list ends with the new link and the bot says it was added, on 409 it
      says the link is already tracked. */
  lemma WholeConversation(d: BotData, user: int, link: string, tags: string, filters: string, yes: string,
                          post: AddLinkRequest -> int)
    requires Confirmed(yes)
    ensures var d4 := FiltersStep(TagsStep(LinkStep(TrackStart(d, user), user, link), user, tags), user, filters);
            var (raised, d5) := ConfirmStep(d4.1, user, yes, post);
            var req := AddLinkRequest(Strip(link), DashToEmpty(Lines(tags)), DashToEmpty(Lines(filters)));
            && !d4.0 && !raised && user !in d5.userStates
            && d5.replies[|d5.replies| - 1] == Reply(user, AddReply(post(req), Strip(link)))
            && (post(req) == 200 ==>
                  (user in d5.cache && d5.cache[user].Parsed?
                   && Last(d5.cache[user].list.links) == CachedLink(None, req.url, req.tags, req.filters)))
            && (post(req) != 200 ==> d5.cache == d.cache)
  {
  }

  /** The entered values are one shared dictionary, not one per chat: when a
      second chat sends a link while the first is still in its conversation,
      the first chat's confirmation posts the second chat's link. */
  lemma SharedEntries(d: BotData, a: int, b: int, linkA: string, linkB: string)
    requires a != b
    ensures var d1 := LinkStep(LinkStep(d, a, linkA), b, linkB);
            d1.enteredLink == Some(Strip(linkB)) && d1.userStates[a] == TrackWaitingForTags
  {
  }

  function Last<T>(xs: seq<T>): T
    requires xs != []
  {
    xs[|xs| - 1]
  }

  /** `track_cmd_handler`. */
  method TrackCmd(b: BotState, user: int)
    modifies b
    ensures b.Data() == TrackStart(old(b.Data()), user)
  {
    b.userStates := b.userStates[user := TrackWaitingForLink];
    b.Say(user, LinkPrompt);
  }

  /** `handle_waiting_for_link`. */
  method HandleWaitingForLink(b: BotState, user: int, text: string)
    modifies b
    ensures b.Data() == LinkStep(old(b.Data()), user, text)
  {
    b.enteredLink := Some(Strip(text));
    b.userStates := b.userStates[user := TrackWaitingForTags];
    b.Say(user, TagsPrompt);
  }

  /** `handle_waiting_for_tags`. */
  method HandleWaitingForTags(b: BotState, user: int, text: string)
    modifies b
    ensures b.Data() == TagsStep(old(b.Data()), user, text)
  {
    b.enteredTags := Some(Lines(text));
    b.userStates := b.userStates[user := TrackWaitingForFilters];
    b.Say(user, FiltersPrompt);
  }

  /** `handle_waiting_for_filters`; `raised` is the `KeyError`. */
  method HandleWaitingForFilters(b: BotState, user: int, text: string) returns (raised: bool)
    modifies b
    ensures (raised, b.Data()) == FiltersStep(old(b.Data()), user, text)
  {
    b.enteredFilters := Some(Lines(text));
    b.userStates := b.userStates[user := TrackWaitingForConfirmation];
    if b.enteredTags.None? || b.enteredLink.None? {
      return true;
    }
    b.Say(user, ConfirmationText(b.enteredLink.value, b.enteredTags.value, b.enteredFilters.value));
    raised := false;
  }

  /** `handle_waiting_for_confirmation`; `raised` is the `ValueError`. */
  method HandleWaitingForConfirmation(b: BotState, user: int, text: string, post: AddLinkRequest -> int)
    returns (raised: bool)
    modifies b
    ensures (raised, b.Data()) == ConfirmStep(old(b.Data()), user, text, post)
  {
    if Confirmed(text) {
      raised := AddEntered(b, user, post);
    } else {
      b.Say(user, NotAddedText);
      raised := false;
      b.userStates := b.userStates - {user};
      b.enteredLink, b.enteredTags, b.enteredFilters := None, None, None;
    }
  }

  /** The confirmed branch: post the entered link and end the conversation. */
  method AddEntered(b: BotState, user: int, post: AddLinkRequest -> int) returns (raised: bool)
    modifies b
    ensures (raised, b.Data()) == AddStep(old(b.Data()), user, post)
  {
    if b.enteredLink.None? || b.enteredTags.None? || b.enteredFilters.None? {
      return true;
    }
    var req := Request(b.enteredLink.value, b.enteredTags.value, b.enteredFilters.value);
    var status := post(req);
    if status == 200 {
      var entry := if user in b.cache then Some(b.cache[user]) else None;
      b.cache := b.cache[user := Parsed(CacheAfterAdd(entry, req))];
    }
    b.Say(user, AddReply(status, req.url));
    raised := false;
    b.userStates := b.userStates - {user};
    b.enteredLink, b.enteredTags, b.enteredFilters := None, None, None;
  }

  /** `handle_confirm_track_messages`: route a message by the sender's state;
      a sender in no /track state is ignored. */
  method HandleConfirmTrackMessages(b: BotState, user: int, text: string, post: AddLinkRequest -> int)
    returns (raised: bool)
    modifies b
    ensures user !in old(b.userStates) || old(b.userStates)[user] !in
              {TrackWaitingForLink, TrackWaitingForTags, TrackWaitingForFilters, TrackWaitingForConfirmation}
            ==> !raised && b.Data() == old(b.Data())
    ensures user in old(b.userStates) && old(b.userStates)[user] == TrackWaitingForLink
            ==> !raised && b.Data() == LinkStep(old(b.Data()), user, text)
    ensures user in old(b.userStates) && old(b.userStates)[user] == TrackWaitingForTags
            ==> !raised && b.Data() == TagsStep(old(b.Data()), user, text)
    ensures user in old(b.userStates) && old(b.userStates)[user] == TrackWaitingForFilters
            ==> (raised, b.Data()) == FiltersStep(old(b.Data()), user, text)
    ensures user in old(b.userStates) && old(b.userStates)[user] == TrackWaitingForConfirmation
            ==> (raised, b.Data()) == ConfirmStep(old(b.Data()), user, text, post)
  {
    raised := false;
    if user !in b.userStates {
      return;
    }
    match b.userStates[user]
    case TrackWaitingForLink => HandleWaitingForLink(b, user, text);
    case TrackWaitingForTags => HandleWaitingForTags(b, user, text);
    case TrackWaitingForFilters => raised := HandleWaitingForFilters(b, user, text);
    case TrackWaitingForConfirmation => raised := HandleWaitingForConfirmation(b, user, text, post);
    case _ =>
  }
}
