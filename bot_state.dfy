/** The bot's conversation state: the global `user_states` and `user_data`
    dictionaries (declared in src/database/sql_database.py), the Redis cache of
    link lists, and the log of what the bot says. All handlers share one
    instance. `user_data` is a single dictionary for every user, so its keys
    are plain fields here, not keyed by chat. */
module BotState {
  import opened Wrappers
  import opened Schemas
  import opened Text

  /** The answers both conversations accept as "yes", after `strip().lower()`. */
  const ConfirmWords: seq<string> := ["✅ подтвердить", "подтвердить"]

  predicate Confirmed(text: string) {
    Lower(Strip(text)) in ConfirmWords
  }

  /** The confirmation button's own caption, with its capital letter, confirms. */
  lemma ConfirmButton()
    ensures Confirmed("✅ Подтвердить")
  {
    var s := "✅ Подтвердить";
    StripClean(s);
    assert Lower(s) == "✅ подтвердить";
  }

  /** The values `user_states` holds: the members of `TrackState`, those of
      `UnTrackState` (a different enum, so its WAITING_FOR_CONFIRMATION is a
      different value) and the string "AWAITING_UPDS_TAGS". */
  datatype UserState =
    | TrackWaitingForLink | TrackWaitingForTags | TrackWaitingForFilters | TrackWaitingForConfirmation
    | UntrackWaitingForChoice | UntrackWaitingForConfirmation
    | AwaitingUpdsTags

  /** One entry of a cached link list. Entries written by `/track` carry no id. */
  datatype CachedLink = CachedLink(id: Option<int>, url: string, tags: seq<string>, filters: seq<string>)

  /** The JSON object cached under "links:{user_id}". */
  datatype CachedList = CachedList(links: seq<CachedLink>, size: int)

  /** A cache value: a list, or text that `json.loads` rejects. */
  datatype CacheEntry = Parsed(list: CachedList) | Unparseable

  /** A message the bot sends into a chat (`respond`, `reply`). */
  datatype Reply = Reply(chat: int, text: string)

  /** All of the state as one value. */
  datatype BotData = BotData(userStates: map<int, UserState>, enteredLink: Option<string>,
                             enteredTags: Option<seq<string>>, enteredFilters: Option<seq<string>>,
                             deletedLinkNumber: Option<int>, userLinks: Option<ListLinksResponse>,
                             cache: map<int, CacheEntry>, replies: seq<Reply>)

  /** A cached list entry for a link the scrapper returned. */
  function FromResponse(l: LinkResponse): CachedLink {
    CachedLink(Some(l.id), l.url, l.tags, l.filters)
  }

  /** A response list as the cache stores it. */
  function ToCache(r: ListLinksResponse): (c: CachedList)
    ensures |c.links| == |r.links| && c.size == r.size
    ensures forall i :: 0 <= i < |r.links| ==>
              c.links[i] == CachedLink(Some(r.links[i].id), r.links[i].url, r.links[i].tags, r.links[i].filters)
  {
    CachedList(seq(|r.links|, i requires 0 <= i < |r.links| => FromResponse(r.links[i])), r.size)
  }

  /** The cache entry of `user`, if any. */
  function CacheOf(d: BotData, user: int): Option<CacheEntry> {
    if user in d.cache then Some(d.cache[user]) else None
  }

  class BotState {
    var userStates: map<int, UserState>
    var enteredLink: Option<string>
    var enteredTags: Option<seq<string>>
    var enteredFilters: Option<seq<string>>
    var deletedLinkNumber: Option<int>
    /** `user_data["user_links"]`: the list `/untrack` fetched last. */
    var userLinks: Option<ListLinksResponse>
    /** Redis, keyed by chat id (the key "links:{user_id}"). */
    var cache: map<int, CacheEntry>
    var replies: seq<Reply>

    function Data(): BotData
      reads this
    {
      BotData(userStates, enteredLink, enteredTags, enteredFilters, deletedLinkNumber, userLinks, cache, replies)
    }

    /** Empty dictionaries, an empty cache, nothing said. */
    constructor ()
      ensures Data() == BotData(map[], None, None, None, None, None, map[], [])
    {
      userStates, enteredLink, enteredTags, enteredFilters := map[], None, None, None;
      deletedLinkNumber, userLinks, cache, replies := None, None, map[], [];
    }

    /** `event.respond(text)` / `event.reply(text)` in `chat`. */
    method Say(chat: int, text: string)
      modifies this
      ensures Data() == old(Data()).(replies := old(replies) + [Reply(chat, text)])
    {
      replies := replies + [Reply(chat, text)];
    }
  }
}
