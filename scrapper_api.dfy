/** The scrapper's HTTP routes (src/api/scrapper_api/scrapper_api.py). Each
    route calls one store operation of the configured backend and maps its
    outcome to a status code and a body. The store is the `Tables` value of
    `Subscriptions`; both backends are proved to implement it. */
module ScrapperApi {
  import opened Wrappers
  import opened Text
  import opened Schemas
  import opened Subscriptions

  const Registered: string := "Чат зарегистрирован"
  const ChatDeleted: string := "Чат удален"
  const ChatMissing: string := "Чат не существует"
  const AlreadyAdded: string := "Ссылка уже добавлена пользователем"
  const LinkMissing: string := "Ссылка не найдена"
  const LinkMissingDetail: string := "Ссылка не отслеживается пользователем или не существует"

  /** `ApiErrorResponse`. */
  datatype ApiError = ApiError(description: string, code: string, exceptionName: string,
                               exceptionMessage: string, stacktrace: seq<string>)

  /** What a route answers. */
  datatype Response =
    | Note(status: int, message: string)          // `{"message": ...}`
    | Error(status: int, error: ApiError)
    | Link(link: LinkResponse)                    // 200
    | LinkList(list: ListLinksResponse)           // 200
    | UpdateList(links: seq<LinkUpdate>)          // 200, `ListLinksUpdate`

  function Status(r: Response): int {
    match r
    case Note(s, _) => s
    case Error(s, _) => s
    case _ => 200
  }

  /** Which processor `db_processor` is. */
  datatype Backend = Sql | Orm

  /** The text of the `ValueError` that `add_link_for_user` raises. */
  function StoreErrorText(e: StoreError, chat: int, url: string): string {
    match e
    case NotRegistered => "Пользователь " + IntToString(chat) + " не зарегистрирован"
    case AlreadyTracking => "Пользователь " + IntToString(chat) + " уже отслеживает ссылку " + url
  }

  /** `POST /tg-chat/{tg_chat_id}`. */
  function RegisterUser(t: Tables, chat: int): (r: (Response, Tables))
    ensures Status(r.0) == 200 && r.0 == Note(200, Registered)
    ensures chat in r.1.users && r.1.rows == t.rows && r.1.linkIds == t.linkIds
    ensures chat in t.users ==> r.1 == t
  {
    (Note(200, Registered), AddUser(t, chat))
  }

  /** `DELETE /tg-chat/{tg_chat_id}`. */
  function DeleteChatRoute(t: Tables, chat: int): (r: (Response, Tables))
    ensures Status(r.0) == 200 <==> chat in t.users
    ensures Status(r.0) == 404 <==> chat !in t.users
    ensures Status(r.0) == 200 ==> r.0 == Note(200, ChatDeleted)
    ensures Status(r.0) == 404 ==> r.0.Error? && r.0.error.description == ChatMissing && r.1 == t
    ensures chat !in r.1.users
  {
    var (ok, t1) := Subscriptions.DeleteChat(t, chat);
    if !ok then (Error(404, ApiError(ChatMissing, "404", "KeyError", "KeyError", [])), t1)
    else (Note(200, ChatDeleted), t1)
  }

  /** `GET /links`. */
  function GetLinks(t: Tables, chat: int): (r: Response)
    ensures r.LinkList? && r.list.size == |r.list.links|
    ensures r.list.links == UserLinks(t, chat)
  {
    var links := UserLinks(t, chat);
    LinkList(ListLinksResponse(links, |links|))
  }

  /** `POST /links`: any `ValueError` of the store is answered with 409. */
  function AddLinkRoute(t: Tables, chat: int, req: AddLinkRequest): (r: (Response, Tables))
    ensures Status(r.0) == 200 <==> AddLink(t, chat, req).0.Success?
    ensures Status(r.0) == 200 ==> r.0.Link? && r.0.link == LinkResponse(AddLink(t, chat, req).0.value, req.url, req.tags, req.filters)
    ensures Status(r.0) != 200 ==> Status(r.0) == 409 && r.0.Error? && r.0.error.exceptionName == "LinkAlreadyExists" && r.1 == t
    ensures chat !in t.users ==> Status(r.0) == 409
  {
    var (res, t1) := AddLink(t, chat, req);
    match res
    case Success(id) => (Link(LinkResponse(id, req.url, req.tags, req.filters)), t1)
    case Failure(e) =>
      (Error(409, ApiError(AlreadyAdded, "409", "LinkAlreadyExists", StoreErrorText(e, chat, req.url), [])), t1)
  }

  /** `DELETE /links`. */
  function DeleteLinkRoute(t: Tables, chat: int, url: string): (r: (Response, Tables))
    ensures Status(r.0) == 404 <==> url !in t.linkIds || RowIndex(t.rows, chat, t.linkIds[url]).None?
    ensures Status(r.0) == 404 ==> r.0.Error? && r.0.error == ApiError(LinkMissing, "404", "KeyError", LinkMissingDetail, []) && r.1 == t
    ensures Status(r.0) != 404 ==>
              (Status(r.0) == 200 && r.0.Link? && r.0.link.url == url
               && r.0.link.id == t.linkIds[url] && |r.1.rows| == |t.rows| - 1)
    ensures Status(r.0) != 404 ==>
              (url in t.linkIds && RowIndex(t.rows, chat, t.linkIds[url]).Some? &&
               var k := RowIndex(t.rows, chat, t.linkIds[url]).value;
               r.0.link == LinkResponse(t.linkIds[url], url, t.rows[k].tags, t.rows[k].filters) &&
               r.1 == t.(rows := t.rows[..k] + t.rows[k + 1..]))
  {
    var (removed, t1) := Subscriptions.RemoveUserLink(t, chat, url);
    match removed
    case None => (Error(404, ApiError(LinkMissing, "404", "KeyError", LinkMissingDetail, [])), t1)
    case Some(Removed(id, tags, filters)) => (Link(LinkResponse(id, url, tags, filters)), t1)
  }

  /** `GET /updates`: the sweep of the configured backend. */
  function CheckUpdates(b: Backend, resolve: string -> Option<UpdateInfo>, t: Tables): (r: Response)
    ensures r.UpdateList? && Status(r) == 200
    ensures Valid(t) ==> multiset(r.links) == multiset(SqlSweep(resolve, t))
  {
    match b
    case Sql => UpdateList(SqlSweep(resolve, t))
    case Orm =>
      if Valid(t) then
        SweepsAgree(resolve, t);
        UpdateList(OrmSweep(resolve, t))
      else UpdateList(OrmSweep(resolve, t))
  }

  /** `GET /updates_by_tags`: the tag query of the configured backend. */
  function CheckUpdatesByTags(b: Backend, resolve: string -> Option<UpdateInfo>, t: Tables, chat: int,
                              tags: seq<string>): (r: Response)
    ensures r.UpdateList? && Status(r) == 200
    ensures forall u :: u in r.links ==> u in SqlTagUpdates(resolve, t, chat, tags)
  {
    TagQueriesCompare(resolve, t, chat, tags);
    match b
    case Sql => UpdateList(SqlTagUpdates(resolve, t, chat, tags))
    case Orm => UpdateList(OrmTagUpdates(resolve, t, chat, tags))
  }

  /** An unregistered chat lists nothing. */
  lemma GetLinksUnregistered(t: Tables, chat: int)
    requires Valid(t) && chat !in t.users
    ensures GetLinks(t, chat).list == ListLinksResponse([], 0)
  {
    LinksOfNone(t.linkUrls, t.rows, chat);
  }

  /** `GET /updates` reports an update exactly when some joined row of the
      sweep yields it, whichever backend answers. */
  lemma CheckUpdatesReports(b: Backend, resolve: string -> Option<UpdateInfo>, t: Tables, u: LinkUpdate)
    requires Valid(t)
    ensures u in CheckUpdates(b, resolve, t).links <==>
              exists i :: 0 <= i < |SweepRows(t, t.rows)| && ProcessUserLink(resolve, SweepRows(t, t.rows)[i]) == Some(u)
  {
    var links := CheckUpdates(b, resolve, t).links;
    var sweep := SqlSweep(resolve, t);
    assert sweep == Updates(resolve, SweepRows(t, t.rows));
    UpdatesMember(resolve, SweepRows(t, t.rows), u);
    assert multiset(links) == multiset(sweep);
    assert u in links <==> multiset(links)[u] > 0;
    assert u in sweep <==> multiset(sweep)[u] > 0;
  }

  /** Both backends answer `GET /updates` with the same updates, up to order. */
  lemma BackendsAgreeOnUpdates(resolve: string -> Option<UpdateInfo>, t: Tables)
    requires Valid(t)
    ensures multiset(CheckUpdates(Sql, resolve, t).links) == multiset(CheckUpdates(Orm, resolve, t).links)
  {
    SweepsAgree(resolve, t);
  }

  /** Registering and then deleting a chat succeeds with "Чат удален". */
  lemma RegisterThenDelete(t: Tables, chat: int)
    ensures var t1 := RegisterUser(t, chat).1;
            DeleteChatRoute(t1, chat).0 == Note(200, ChatDeleted)
  {
  }

  /** Deleting a chat twice: the second answer is 404. */
  lemma DeleteChatTwice(t: Tables, chat: int)
    ensures var t1 := DeleteChatRoute(t, chat).1;
            Status(DeleteChatRoute(t1, chat).0) == 404
  {
  }

  /** Posting the same link twice: the first answer is 200 (for a registered
      chat that did not track it), the second is 409 and changes nothing. */
  lemma AddDuplicateLink(t: Tables, chat: int, req: AddLinkRequest)
    requires Valid(t)
    requires Status(AddLinkRoute(t, chat, req).0) == 200
    ensures var t1 := AddLinkRoute(t, chat, req).1;
            var r2 := AddLinkRoute(t1, chat, req);
            Status(r2.0) == 409 && r2.1 == t1
  {
    AddLinkTwice(t, chat, req, req);
  }

  /** A link added to a fresh registration is removed with 200, echoing the
      url, tags and filters it was added with. */
  lemma AddThenDeleteLink(t: Tables, chat: int, req: AddLinkRequest)
    requires Valid(t)
    requires Status(AddLinkRoute(t, chat, req).0) == 200
    ensures var (added, t1) := AddLinkRoute(t, chat, req);
            var (removed, t2) := DeleteLinkRoute(t1, chat, req.url);
            removed == Link(added.link) && t2.rows == t.rows
  {
    AddThenRemove(t, chat, req);
  }

  /** Deleting a url that was never added answers 404 and changes nothing. */
  lemma DeleteUnknownLink(t: Tables, chat: int, url: string)
    requires url !in t.linkIds
    ensures DeleteLinkRoute(t, chat, url) == (Error(404, ApiError(LinkMissing, "404", "KeyError", LinkMissingDetail, [])), t)
  {
  }

  /** After a successful add the listing grows by one, ending in the added link. */
  lemma AddThenGetLinks(t: Tables, chat: int, req: AddLinkRequest)
    requires Valid(t)
    requires Status(AddLinkRoute(t, chat, req).0) == 200
    ensures var (added, t1) := AddLinkRoute(t, chat, req);
            var before := GetLinks(t, chat).list;
            var after := GetLinks(t1, chat).list;
            after.size == before.size + 1 && after.links == before.links + [added.link]
  {
    AddThenList(t, chat, req);
  }
}
