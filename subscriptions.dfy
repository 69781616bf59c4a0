/** The subscription store shared by both database backends: the three tables
    (users, links, user_links) as abstract state, the effect of every store
    operation on them, the per-subscription emit rule of the update sweep, and
    the tag query. The classes of the two backends are proved against these
    functions. */
module Subscriptions {
  import opened Wrappers
  import opened Schemas
  import opened StringMakers

  /** One user_links row: a chat tracks a link with its tags and author filters. */
  datatype UserLink = UserLink(userId: int, linkId: int, tags: seq<string>, filters: seq<string>)

  /** The tables. `users` holds chat ids in insertion order; the links table is
      kept through its two unique indexes (url → id and id → url) together
      with the serial that numbers the next new link; `rows` holds user_links
      in insertion order. */
  datatype Tables = Tables(users: seq<int>, linkIds: map<string, int>, linkUrls: map<int, string>,
                           nextId: int, rows: seq<UserLink>)

  /** Why an insertion was refused (both are `ValueError` in the source). */
  datatype StoreError = NotRegistered | AlreadyTracking

  /** What `remove_user_link` returns for the row it deleted. */
  datatype Removed = Removed(linkId: int, tags: seq<string>, filters: seq<string>)

  /** A row of the sweep's join of user_links with links. */
  datatype SweepRow = SweepRow(userId: int, linkId: int, url: string, filters: seq<string>)

  /** No chat id occurs twice. */
  predicate Distinct(users: seq<int>) {
    forall i, j :: 0 <= i < j < |users| ==> users[i] != users[j]
  }

  /** No (chat, link) pair occurs twice. */
  predicate UniquePairs(rows: seq<UserLink>) {
    forall i, j :: 0 <= i < j < |rows| ==> rows[i].userId != rows[j].userId || rows[i].linkId != rows[j].linkId
  }

  /** The database's integrity constraints: primary keys, the unique url index,
      the serial above every id, and the foreign keys of user_links. */
  predicate Valid(t: Tables) {
    && Distinct(t.users)
    && t.nextId >= 1
    && (forall url :: url in t.linkIds ==>
          1 <= t.linkIds[url] < t.nextId && t.linkIds[url] in t.linkUrls && t.linkUrls[t.linkIds[url]] == url)
    && (forall id :: id in t.linkUrls ==> t.linkUrls[id] in t.linkIds && t.linkIds[t.linkUrls[id]] == id)
    && (forall i :: 0 <= i < |t.rows| ==> t.rows[i].userId in t.users && t.rows[i].linkId in t.linkUrls)
    && UniquePairs(t.rows)
  }

  /** The freshly created database. */
  function Empty(): (t: Tables)
    ensures Valid(t) && t.users == [] && t.rows == []
  {
    Tables([], map[], map[], 1, [])
  }

  /** The position of the row for (chat, link id), the first one if any. */
  function RowIndex(rows: seq<UserLink>, chat: int, id: int): (r: Option<nat>)
    ensures r.Some? ==> r.value < |rows| && rows[r.value].userId == chat && rows[r.value].linkId == id
    ensures r.None? ==> forall i :: 0 <= i < |rows| ==> rows[i].userId != chat || rows[i].linkId != id
    ensures r.Some? ==> forall i :: 0 <= i < r.value ==> rows[i].userId != chat || rows[i].linkId != id
    decreases |rows|
  {
    if rows == [] then None
    else if rows[0].userId == chat && rows[0].linkId == id then Some(0)
    else match RowIndex(rows[1..], chat, id)
      case None =>
        assert forall i :: 1 <= i < |rows| ==> rows[i] == rows[1..][i - 1];
        None
      case Some(k) =>
        assert forall i :: 1 <= i < k + 1 ==> rows[i] == rows[1..][i - 1];
        Some(k + 1)
  }

  /** `add_user`: insert the chat unless it is already there. */
  function AddUser(t: Tables, chat: int): (r: Tables)
    ensures chat in r.users
    ensures chat in t.users ==> r == t
    ensures chat !in t.users ==> r.users == t.users + [chat] && r == t.(users := r.users)
  {
    if chat in t.users then t else t.(users := t.users + [chat])
  }

  /** `add_link_for_user`: refuse an unknown chat, find the link by url or give
      it the next serial id, refuse a pair already tracked, else insert the
      row. A refusal rolls the whole transaction back. */
  function AddLink(t: Tables, chat: int, req: AddLinkRequest): (r: (Result<int, StoreError>, Tables))
    ensures r.0.Failure? ==> r.1 == t
    ensures chat !in t.users <==> r.0 == Failure(NotRegistered)
    ensures r.0.Success? ==> r.1.users == t.users && r.1.rows == t.rows + [UserLink(chat, r.0.value, req.tags, req.filters)]
    ensures Valid(t) && chat in t.users ==>
              (r.0 == Failure(AlreadyTracking) <==> req.url in t.linkIds && RowIndex(t.rows, chat, t.linkIds[req.url]).Some?)
  {
    if chat !in t.users then (Failure(NotRegistered), t)
    else
      var id := if req.url in t.linkIds then t.linkIds[req.url] else t.nextId;
      if RowIndex(t.rows, chat, id).Some? then
        NoRowOfNextId(t, chat);
        (Failure(AlreadyTracking), t)
      else
        var withLink :=
          if req.url in t.linkIds then t
          else t.(linkIds := t.linkIds[req.url := id], linkUrls := t.linkUrls[id := req.url], nextId := t.nextId + 1);
        (Success(id), withLink.(rows := t.rows + [UserLink(chat, id, req.tags, req.filters)]))
  }

  /** In valid tables no row refers to the serial's next id: it is above every link id. */
  lemma NoRowOfNextId(t: Tables, chat: int)
    ensures Valid(t) ==> RowIndex(t.rows, chat, t.nextId).None?
  {
  }

  /** The response for one row of the chat, when its link exists. */
  function LinkOfRow(urls: map<int, string>, row: UserLink, chat: int): Option<LinkResponse> {
    if row.userId == chat && row.linkId in urls then
      Some(LinkResponse(row.linkId, urls[row.linkId], row.tags, row.filters))
    else None
  }

  /** `get_user_links` over a prefix of the rows: the chat's rows joined with
      their urls, in row order. */
  function LinksOf(urls: map<int, string>, rows: seq<UserLink>, chat: int): (r: seq<LinkResponse>)
    ensures |r| <= |rows|
    decreases |rows|
  {
    if rows == [] then []
    else
      var last := LinkOfRow(urls, rows[|rows| - 1], chat);
      LinksOf(urls, rows[..|rows| - 1], chat) + (if last.Some? then [last.value] else [])
  }

  /** `get_user_links` */
  function UserLinks(t: Tables, chat: int): seq<LinkResponse> {
    LinksOf(t.linkUrls, t.rows, chat)
  }

  /** Without rows of the chat, the chat has no links. */
  lemma {:induction false} LinksOfNone(urls: map<int, string>, rows: seq<UserLink>, chat: int)
    requires forall i :: 0 <= i < |rows| ==> rows[i].userId != chat
    ensures LinksOf(urls, rows, chat) == []
    decreases |rows|
  {
    if rows != [] {
      LinksOfNone(urls, rows[..|rows| - 1], chat);
    }
  }

  /** Rows of other chats do not affect a chat's links. */
  lemma {:induction false} LinksOfAppend(urls: map<int, string>, a: seq<UserLink>, b: seq<UserLink>, chat: int)
    ensures LinksOf(urls, a + b, chat) == LinksOf(urls, a, chat) + LinksOf(urls, b, chat)
    decreases |b|
  {
    if b == [] {
      assert a + b == a;
    } else {
      assert (a + b)[..|a + b| - 1] == a + b[..|b| - 1];
      LinksOfAppend(urls, a, b[..|b| - 1], chat);
    }
  }

  /** `delete_chat`: false for an unknown chat; otherwise the chat and, by the
      cascade, all its rows are deleted. */
  function DeleteChat(t: Tables, chat: int): (r: (bool, Tables))
    ensures !r.0 <==> chat !in t.users
    ensures !r.0 ==> r.1 == t
    ensures r.0 ==> chat !in r.1.users && r.1.linkIds == t.linkIds && r.1.linkUrls == t.linkUrls
    ensures r.0 ==> forall i :: 0 <= i < |r.1.rows| ==> r.1.rows[i].userId != chat
    ensures |r.1.users| <= |t.users| && |r.1.rows| <= |t.rows|
    ensures r.0 ==> forall u :: u in r.1.users <==> u in t.users && u != chat
    ensures r.0 ==> forall x :: x in r.1.rows <==> x in t.rows && x.userId != chat
  {
    if chat !in t.users then (false, t)
    else (true, t.(users := WithoutUser(t.users, chat), rows := WithoutUserRows(t.rows, chat)))
  }

  /** The users other than `chat`, in order. */
  function WithoutUser(users: seq<int>, chat: int): (r: seq<int>)
    ensures chat !in r && |r| <= |users|
    ensures forall u :: u in r <==> u in users && u != chat
    decreases |users|
  {
    if users == [] then []
    else WithoutUser(users[..|users| - 1], chat)
         + (if users[|users| - 1] == chat then [] else [users[|users| - 1]])
  }

  /** The rows of chats other than `chat`, in order. */
  function WithoutUserRows(rows: seq<UserLink>, chat: int): (r: seq<UserLink>)
    ensures |r| <= |rows|
    ensures forall i :: 0 <= i < |r| ==> r[i].userId != chat
    ensures forall x :: x in r <==> x in rows && x.userId != chat
    decreases |rows|
  {
    if rows == [] then []
    else WithoutUserRows(rows[..|rows| - 1], chat)
         + (if rows[|rows| - 1].userId == chat then [] else [rows[|rows| - 1]])
  }

  /** The row sequence without position `k`. */
  function RemoveAt(rows: seq<UserLink>, k: nat): (r: seq<UserLink>)
    requires k < |rows|
    ensures |r| == |rows| - 1
  {
    rows[..k] + rows[k + 1..]
  }

  /** `remove_user_link`: nothing for an unknown url or an untracked pair;
      otherwise exactly that row is deleted (the link itself stays) and its
      id, tags and filters are returned. */
  function RemoveUserLink(t: Tables, chat: int, url: string): (r: (Option<Removed>, Tables))
    ensures r.0.None? ==> r.1 == t
    ensures r.0.None? <==> url !in t.linkIds || RowIndex(t.rows, chat, t.linkIds[url]).None?
    ensures r.0.Some? ==> r.1 == t.(rows := r.1.rows) && |r.1.rows| == |t.rows| - 1 && r.0.value.linkId == t.linkIds[url]
    ensures r.0.Some? ==>
              (url in t.linkIds && RowIndex(t.rows, chat, t.linkIds[url]).Some? &&
               var k := RowIndex(t.rows, chat, t.linkIds[url]).value;
               r.1.rows == t.rows[..k] + t.rows[k + 1..] &&
               r.0.value == Removed(t.linkIds[url], t.rows[k].tags, t.rows[k].filters))
  {
    if url !in t.linkIds then (None, t)
    else
      var id := t.linkIds[url];
      match RowIndex(t.rows, chat, id)
      case None => (None, t)
      case Some(k) => (Some(Removed(id, t.rows[k].tags, t.rows[k].filters)), t.(rows := RemoveAt(t.rows, k)))
  }

  // ---- Properties of the store operations ----

  /** Every operation keeps the integrity constraints. */
  lemma AddUserValid(t: Tables, chat: int)
    requires Valid(t)
    ensures Valid(AddUser(t, chat))
  {
    var r := AddUser(t, chat);
    if chat !in t.users {
      forall i | 0 <= i < |r.rows| ensures r.rows[i].userId in r.users {
        assert r.rows[i].userId in t.users;
      }
    }
  }

  lemma AddLinkValid(t: Tables, chat: int, req: AddLinkRequest)
    requires Valid(t)
    ensures Valid(AddLink(t, chat, req).1)
  {
    var (res, r) := AddLink(t, chat, req);
    if res.Success? {
      var id := res.value;
      if req.url !in t.linkIds {
        assert id == t.nextId && id !in t.linkUrls;
        forall u | u in r.linkIds
          ensures 1 <= r.linkIds[u] < r.nextId && r.linkIds[u] in r.linkUrls && r.linkUrls[r.linkIds[u]] == u
        {
          if u != req.url { assert r.linkIds[u] == t.linkIds[u] != id; }
        }
      }
      forall i, j | 0 <= i < j < |r.rows|
        ensures r.rows[i].userId != r.rows[j].userId || r.rows[i].linkId != r.rows[j].linkId
      {
        if j == |t.rows| {
          if req.url !in t.linkIds {
            assert r.rows[i].linkId in t.linkUrls;
          }
        }
      }
    }
  }

  lemma DeleteChatValid(t: Tables, chat: int)
    requires Valid(t)
    ensures Valid(DeleteChat(t, chat).1)
  {
    var r := DeleteChat(t, chat).1;
    if chat in t.users {
      WithoutUserDistinct(t.users, chat);
      forall i | 0 <= i < |r.rows| ensures r.rows[i].userId in r.users && r.rows[i].linkId in r.linkUrls {
        assert r.rows[i] in t.rows;
      }
      WithoutUserRowsDistinct(t.rows, chat);
    }
  }

  lemma {:induction false} WithoutUserDistinct(users: seq<int>, chat: int)
    requires Distinct(users)
    ensures Distinct(WithoutUser(users, chat))
    decreases |users|
  {
    if users != [] {
      var init := users[..|users| - 1];
      var last := users[|users| - 1];
      WithoutUserDistinct(init, chat);
      assert last !in init;
      var ri := WithoutUser(init, chat);
      assert last !in ri;
      assert WithoutUser(users, chat) == ri + (if last == chat then [] else [last]);
      if last != chat {
        var r := ri + [last];
        forall i, j | 0 <= i < j < |r| ensures r[i] != r[j] {
          if j == |ri| {
            assert r[i] == ri[i] && ri[i] in ri;
            assert r[j] == last;
          } else {
            assert r[i] == ri[i] && r[j] == ri[j];
          }
        }
      }
    }
  }

  lemma {:induction false} WithoutUserRowsDistinct(rows: seq<UserLink>, chat: int)
    requires UniquePairs(rows)
    ensures UniquePairs(WithoutUserRows(rows, chat))
    decreases |rows|
  {
    if rows != [] {
      var init := rows[..|rows| - 1];
      var last := rows[|rows| - 1];
      WithoutUserRowsDistinct(init, chat);
      var ri := WithoutUserRows(init, chat);
      forall i | 0 <= i < |ri| ensures ri[i].userId != last.userId || ri[i].linkId != last.linkId {
        assert ri[i] in init;
        var k :| 0 <= k < |init| && init[k] == ri[i];
        assert rows[k] == init[k];
      }
      assert WithoutUserRows(rows, chat) == ri + (if last.userId == chat then [] else [last]);
      if last.userId != chat {
        var r := ri + [last];
        forall i, j | 0 <= i < j < |r| ensures r[i].userId != r[j].userId || r[i].linkId != r[j].linkId {
          if j == |ri| {
            assert r[i] == ri[i] && r[j] == last;
          } else {
            assert r[i] == ri[i] && r[j] == ri[j];
          }
        }
      }
    }
  }

  lemma RemoveUserLinkValid(t: Tables, chat: int, url: string)
    requires Valid(t)
    ensures Valid(RemoveUserLink(t, chat, url).1)
  {
    var (res, r) := RemoveUserLink(t, chat, url);
    if res.Some? {
      var k := RowIndex(t.rows, chat, t.linkIds[url]).value;
      assert r.rows == t.rows[..k] + t.rows[k + 1..];
      forall i | 0 <= i < |r.rows| ensures r.rows[i] == t.rows[if i < k then i else i + 1] { }
    }
  }

  /** `add_user` is idempotent, and adding a known chat changes nothing. */
  lemma AddUserIdempotent(t: Tables, chat: int)
    ensures AddUser(AddUser(t, chat), chat) == AddUser(t, chat)
    ensures chat in t.users ==> AddUser(t, chat) == t
  {
  }

  /** An unregistered chat cannot add a link, and the tables stay unchanged. */
  lemma AddLinkUnregistered(t: Tables, chat: int, req: AddLinkRequest)
    requires chat !in t.users
    ensures AddLink(t, chat, req) == (Failure(NotRegistered), t)
  {
  }

  /** A known url keeps its id; an unseen url receives an id no other link has,
      and the serial moves past it. */
  lemma AddLinkIds(t: Tables, chat: int, req: AddLinkRequest)
    requires Valid(t)
    requires AddLink(t, chat, req).0.Success?
    ensures var (res, r) := AddLink(t, chat, req);
            (req.url in t.linkIds ==> res.value == t.linkIds[req.url] && r.linkIds == t.linkIds && r.nextId == t.nextId)
            && (req.url !in t.linkIds ==> res.value !in t.linkUrls && r.linkIds == t.linkIds[req.url := res.value]
                                          && r.nextId == t.nextId + 1)
  {
  }

  /** Adding the same link twice: the second attempt is refused as a duplicate
      and changes nothing. */
  lemma AddLinkTwice(t: Tables, chat: int, req: AddLinkRequest, req2: AddLinkRequest)
    requires Valid(t) && req2.url == req.url
    requires AddLink(t, chat, req).0.Success?
    ensures var t1 := AddLink(t, chat, req).1;
            AddLink(t1, chat, req2) == (Failure(AlreadyTracking), t1)
  {
    var (res, t1) := AddLink(t, chat, req);
    var k := |t.rows|;
    assert t1.rows[k] == UserLink(chat, res.value, req.tags, req.filters);
    assert req.url in t1.linkIds && t1.linkIds[req.url] == res.value;
    assert RowIndex(t1.rows, chat, res.value).Some?;
  }

  /** After a successful add, the chat's list gains exactly the new link at
      its end, echoing the request's url, tags and filters. */
  lemma AddThenList(t: Tables, chat: int, req: AddLinkRequest)
    requires Valid(t)
    requires AddLink(t, chat, req).0.Success?
    ensures var (res, t1) := AddLink(t, chat, req);
            UserLinks(t1, chat) == UserLinks(t, chat) + [LinkResponse(res.value, req.url, req.tags, req.filters)]
  {
    var (res, t1) := AddLink(t, chat, req);
    var row := UserLink(chat, res.value, req.tags, req.filters);
    assert t1.rows[..|t1.rows| - 1] == t.rows;
    LinksOfSameJoin(t.linkUrls, t1.linkUrls, t.rows, chat);
  }

  /** Rows whose links exist in both url indexes list the same way with both. */
  lemma {:induction false} LinksOfSameJoin(urls: map<int, string>, urls1: map<int, string>, rows: seq<UserLink>, chat: int)
    requires forall i :: 0 <= i < |rows| ==> rows[i].linkId in urls
    requires forall id :: id in urls ==> id in urls1 && urls1[id] == urls[id]
    ensures LinksOf(urls1, rows, chat) == LinksOf(urls, rows, chat)
    decreases |rows|
  {
    if rows != [] {
      LinksOfSameJoin(urls, urls1, rows[..|rows| - 1], chat);
    }
  }

  /** Removing a link right after adding it returns the added row and restores
      the rows (the link itself stays known). */
  lemma AddThenRemove(t: Tables, chat: int, req: AddLinkRequest)
    requires Valid(t)
    requires AddLink(t, chat, req).0.Success?
    ensures var (res, t1) := AddLink(t, chat, req);
            var (removed, t2) := RemoveUserLink(t1, chat, req.url);
            removed == Some(Removed(res.value, req.tags, req.filters)) && t2.rows == t.rows && t2.users == t.users
            && req.url in t2.linkIds
  {
    var (res, t1) := AddLink(t, chat, req);
    var k := |t.rows|;
    assert RowIndex(t.rows, chat, res.value).None?;
    RowIndexAppend(t.rows, UserLink(chat, res.value, req.tags, req.filters));
    assert t1.rows[..k] == t.rows;
  }

  /** A pair absent from the rows is found in the last position once appended. */
  lemma {:induction false} RowIndexAppend(rows: seq<UserLink>, row: UserLink)
    requires RowIndex(rows, row.userId, row.linkId).None?
    ensures RowIndex(rows + [row], row.userId, row.linkId) == Some(|rows|)
    decreases |rows|
  {
    if rows != [] {
      assert (rows + [row])[1..] == rows[1..] + [row];
      RowIndexAppend(rows[1..], row);
    }
  }

  /** Removing a url the chat never added, or an unknown url, answers nothing. */
  lemma RemoveUntracked(t: Tables, chat: int, url: string)
    requires url !in t.linkIds || forall i :: 0 <= i < |t.rows| ==> t.rows[i].userId != chat || t.rows[i].linkId != t.linkIds[url]
    ensures RemoveUserLink(t, chat, url) == (None, t)
  {
  }

  /** Deleting a chat empties its list and leaves every other chat's list as it was. */
  lemma DeleteChatCascade(t: Tables, chat: int, other: int)
    requires chat in t.users && other != chat
    ensures var t1 := DeleteChat(t, chat).1;
            UserLinks(t1, chat) == [] && UserLinks(t1, other) == UserLinks(t, other)
  {
    var t1 := DeleteChat(t, chat).1;
    assert t1.rows == WithoutUserRows(t.rows, chat) && t1.linkUrls == t.linkUrls;
    LinksOfNone(t1.linkUrls, t1.rows, chat);
    LinksOfWithout(t.linkUrls, t.rows, chat, other);
  }

  lemma {:induction false} LinksOfWithout(urls: map<int, string>, rows: seq<UserLink>, chat: int, other: int)
    requires other != chat
    ensures LinksOf(urls, WithoutUserRows(rows, chat), other) == LinksOf(urls, rows, other)
    decreases |rows|
  {
    if rows != [] {
      var init := rows[..|rows| - 1];
      var last := rows[|rows| - 1];
      LinksOfWithout(urls, init, chat, other);
      LinksOfAppend(urls, WithoutUserRows(init, chat), if last.userId == chat then [] else [last], other);
      if last.userId != chat {
        assert [last][..0] == [];
      } else {
        assert LinksOf(urls, [], other) == [];
      }
    }
  }

  // ---- Update detection ----

  /** `_process_user_link`: a row yields an update exactly when its link
      resolves and either it has no filters or the author is one of them. */
  function ProcessUserLink(resolve: string -> Option<UpdateInfo>, row: SweepRow): (r: Option<LinkUpdate>)
    ensures r.Some? <==> resolve(row.url).Some? && (row.filters == [] || resolve(row.url).value.userName in row.filters)
    ensures r.Some? ==> r.value == LinkUpdate(row.linkId, row.url, MakeDescription(resolve(row.url).value), row.userId)
  {
    match resolve(row.url)
    case None => None
    case Some(info) =>
      if row.filters == [] || info.userName in row.filters then
        Some(LinkUpdate(id := row.linkId, url := row.url, description := MakeDescription(info), tgChatId := row.userId))
      else None
  }

  /** The gathered results with the missing ones dropped, in row order. */
  function Updates(resolve: string -> Option<UpdateInfo>, rs: seq<SweepRow>): (r: seq<LinkUpdate>)
    ensures |r| <= |rs|
    decreases |rs|
  {
    if rs == [] then []
    else
      var last := ProcessUserLink(resolve, rs[|rs| - 1]);
      Updates(resolve, rs[..|rs| - 1]) + (if last.Some? then [last.value] else [])
  }

  /** The results of `asyncio.gather` over the rows, in row order. */
  function Gather(resolve: string -> Option<UpdateInfo>, rs: seq<SweepRow>): (r: seq<Option<LinkUpdate>>)
    ensures |r| == |rs|
    ensures forall i :: 0 <= i < |rs| ==> r[i] == ProcessUserLink(resolve, rs[i])
  {
    seq(|rs|, i requires 0 <= i < |rs| => ProcessUserLink(resolve, rs[i]))
  }

  /** `[res for res in results if res is not None]` */
  function Present(results: seq<Option<LinkUpdate>>): (r: seq<LinkUpdate>)
    ensures |r| <= |results|
    decreases |results|
  {
    if results == [] then []
    else Present(results[..|results| - 1])
         + (if results[|results| - 1].Some? then [results[|results| - 1].value] else [])
  }

  /** Gathering and dropping the missing results gives the row updates. */
  lemma {:induction false} PresentGather(resolve: string -> Option<UpdateInfo>, rs: seq<SweepRow>)
    ensures Present(Gather(resolve, rs)) == Updates(resolve, rs)
    decreases |rs|
  {
    if rs != [] {
      var init := rs[..|rs| - 1];
      assert Gather(resolve, rs)[..|rs| - 1] == Gather(resolve, init);
      PresentGather(resolve, init);
    }
  }

  /** Updates distribute over consecutive batches. */
  lemma {:induction false} UpdatesAppend(resolve: string -> Option<UpdateInfo>, a: seq<SweepRow>, b: seq<SweepRow>)
    ensures Updates(resolve, a + b) == Updates(resolve, a) + Updates(resolve, b)
    decreases |b|
  {
    if b == [] {
      assert a + b == a;
    } else {
      assert (a + b)[..|a + b| - 1] == a + b[..|b| - 1];
      UpdatesAppend(resolve, a, b[..|b| - 1]);
    }
  }

  /** An update is in the result exactly when some row yields it. */
  lemma {:induction false} UpdatesMember(resolve: string -> Option<UpdateInfo>, rs: seq<SweepRow>, u: LinkUpdate)
    ensures u in Updates(resolve, rs) <==> exists i :: 0 <= i < |rs| && ProcessUserLink(resolve, rs[i]) == Some(u)
    decreases |rs|
  {
    if rs != [] {
      var init := rs[..|rs| - 1];
      UpdatesMember(resolve, init, u);
      if u in Updates(resolve, init) {
        var i :| 0 <= i < |init| && ProcessUserLink(resolve, init[i]) == Some(u);
        assert rs[i] == init[i];
      }
      if exists i :: 0 <= i < |rs| && ProcessUserLink(resolve, rs[i]) == Some(u) {
        var i :| 0 <= i < |rs| && ProcessUserLink(resolve, rs[i]) == Some(u);
        if i < |init| { assert init[i] == rs[i]; }
      }
    }
  }

  /** The sweep's join of user_links with links, in row order; rows whose
      link is missing are dropped by the join. */
  function SweepRows(t: Tables, rows: seq<UserLink>): (r: seq<SweepRow>)
    ensures |r| <= |rows|
    decreases |rows|
  {
    if rows == [] then []
    else
      var row := rows[|rows| - 1];
      SweepRows(t, rows[..|rows| - 1])
      + (if row.linkId in t.linkUrls then [SweepRow(row.userId, row.linkId, t.linkUrls[row.linkId], row.filters)] else [])
  }

  /** Every joined row belongs to a registered chat. */
  lemma {:induction false} SweepRowsUsers(t: Tables, rows: seq<UserLink>)
    requires forall i :: 0 <= i < |rows| ==> rows[i].userId in t.users
    ensures forall i :: 0 <= i < |SweepRows(t, rows)| ==> SweepRows(t, rows)[i].userId in t.users
    decreases |rows|
  {
    if rows != [] {
      SweepRowsUsers(t, rows[..|rows| - 1]);
    }
  }

  /** Every update is addressed to the chat of the row it came from. */
  lemma {:induction false} UpdatesChats(resolve: string -> Option<UpdateInfo>, rs: seq<SweepRow>, chats: seq<int>)
    requires forall i :: 0 <= i < |rs| ==> rs[i].userId in chats
    ensures forall i :: 0 <= i < |Updates(resolve, rs)| ==> Updates(resolve, rs)[i].tgChatId in chats
    decreases |rs|
  {
    if rs != [] {
      UpdatesChats(resolve, rs[..|rs| - 1], chats);
    }
  }

  /** The result of the SQL sweep: one candidate per joined row, in row order. */
  function SqlSweep(resolve: string -> Option<UpdateInfo>, t: Tables): seq<LinkUpdate> {
    Updates(resolve, SweepRows(t, t.rows))
  }

  /** The joined rows of one chat. */
  function RowsOf(rs: seq<SweepRow>, chat: int): (r: seq<SweepRow>)
    ensures |r| <= |rs|
    decreases |rs|
  {
    if rs == [] then []
    else RowsOf(rs[..|rs| - 1], chat) + (if rs[|rs| - 1].userId == chat then [rs[|rs| - 1]] else [])
  }

  /** The joined rows of the given chats, chat by chat (the ORM's traversal). */
  function RowsOfUsers(rs: seq<SweepRow>, users: seq<int>): seq<SweepRow>
    decreases |users|
  {
    if users == [] then [] else RowsOfUsers(rs, users[..|users| - 1]) + RowsOf(rs, users[|users| - 1])
  }

  lemma {:induction false} RowsOfUsersAppend(rs: seq<SweepRow>, a: seq<int>, b: seq<int>)
    ensures RowsOfUsers(rs, a + b) == RowsOfUsers(rs, a) + RowsOfUsers(rs, b)
    decreases |b|
  {
    if b == [] {
      assert a + b == a;
    } else {
      var front := b[..|b| - 1];
      var last := RowsOf(rs, b[|b| - 1]);
      assert (a + b)[..|a + b| - 1] == a + front;
      assert (a + b)[|a + b| - 1] == b[|b| - 1];
      assert RowsOfUsers(rs, a + b) == RowsOfUsers(rs, a + front) + last;
      RowsOfUsersAppend(rs, a, front);
      assert RowsOfUsers(rs, b) == RowsOfUsers(rs, front) + last;
      assert (RowsOfUsers(rs, a) + RowsOfUsers(rs, front)) + last == RowsOfUsers(rs, a) + (RowsOfUsers(rs, front) + last);
    }
  }

  /** The result of the ORM sweep: the users page by page, each user's rows in
      turn. */
  function OrmSweep(resolve: string -> Option<UpdateInfo>, t: Tables): seq<LinkUpdate> {
    Updates(resolve, RowsOfUsers(SweepRows(t, t.rows), t.users))
  }

  /** The updates addressed to one chat, in order. */
  function ForChat(us: seq<LinkUpdate>, chat: int): (r: seq<LinkUpdate>)
    ensures |r| <= |us|
    ensures forall i :: 0 <= i < |r| ==> r[i].tgChatId == chat
    decreases |us|
  {
    if us == [] then []
    else ForChat(us[..|us| - 1], chat) + (if us[|us| - 1].tgChatId == chat then [us[|us| - 1]] else [])
  }

  /** The updates grouped chat by chat, in the order of `chats`. */
  function ForChats(us: seq<LinkUpdate>, chats: seq<int>): seq<LinkUpdate>
    decreases |chats|
  {
    if chats == [] then [] else ForChats(us, chats[..|chats| - 1]) + ForChat(us, chats[|chats| - 1])
  }

  /** The updates whose chat is one of `chats`, in order. */
  function ForChatSet(us: seq<LinkUpdate>, chats: set<int>): seq<LinkUpdate>
    decreases |us|
  {
    if us == [] then []
    else ForChatSet(us[..|us| - 1], chats) + (if us[|us| - 1].tgChatId in chats then [us[|us| - 1]] else [])
  }

  lemma {:induction false} ForChatSetAll(us: seq<LinkUpdate>, chats: set<int>)
    requires forall i :: 0 <= i < |us| ==> us[i].tgChatId in chats
    ensures ForChatSet(us, chats) == us
    decreases |us|
  {
    if us != [] {
      ForChatSetAll(us[..|us| - 1], chats);
    }
  }

  lemma {:induction false} ForChatSetSplit(us: seq<LinkUpdate>, chat: int, chats: set<int>)
    requires chat !in chats
    ensures multiset(ForChatSet(us, chats + {chat})) == multiset(ForChatSet(us, chats)) + multiset(ForChat(us, chat))
    decreases |us|
  {
    if us != [] {
      ForChatSetSplit(us[..|us| - 1], chat, chats);
    }
  }

  lemma {:induction false} ForChatsMultiset(us: seq<LinkUpdate>, chats: seq<int>)
    requires Distinct(chats)
    ensures multiset(ForChats(us, chats)) == multiset(ForChatSet(us, set c | c in chats))
    decreases |chats|
  {
    if chats == [] {
      assert (set c | c in chats) == {};
      ForChatSetNone(us);
    } else {
      var init := chats[..|chats| - 1];
      var last := chats[|chats| - 1];
      ForChatsMultiset(us, init);
      assert last !in init;
      assert (set c | c in chats) == (set c | c in init) + {last};
      ForChatSetSplit(us, last, set c | c in init);
    }
  }

  lemma {:induction false} ForChatSetNone(us: seq<LinkUpdate>)
    ensures ForChatSet(us, {}) == []
    decreases |us|
  {
    if us != [] {
      ForChatSetNone(us[..|us| - 1]);
    }
  }

  /** Grouping by chat loses and invents nothing: when every update's chat is
      listed once, the groups together are a permutation of the updates. */
  lemma GroupingIsPermutation(us: seq<LinkUpdate>, chats: seq<int>)
    requires Distinct(chats)
    requires forall i :: 0 <= i < |us| ==> us[i].tgChatId in chats
    ensures multiset(ForChats(us, chats)) == multiset(us)
  {
    ForChatsMultiset(us, chats);
    ForChatSetAll(us, set c | c in chats);
  }

  /** Taking one chat's rows and then resolving equals resolving and then
      taking that chat's updates. */
  lemma {:induction false} UpdatesRowsOf(resolve: string -> Option<UpdateInfo>, rs: seq<SweepRow>, chat: int)
    ensures Updates(resolve, RowsOf(rs, chat)) == ForChat(Updates(resolve, rs), chat)
    decreases |rs|
  {
    if rs != [] {
      var init := rs[..|rs| - 1];
      var last := rs[|rs| - 1];
      UpdatesRowsOf(resolve, init, chat);
      UpdatesAppend(resolve, RowsOf(init, chat), if last.userId == chat then [last] else []);
      var p := ProcessUserLink(resolve, last);
      ForChatAppend(Updates(resolve, init), if p.Some? then [p.value] else [], chat);
      if last.userId == chat {
        assert [last][..0] == [];
      }
    }
  }

  lemma {:induction false} ForChatAppend(a: seq<LinkUpdate>, b: seq<LinkUpdate>, chat: int)
    ensures ForChat(a + b, chat) == ForChat(a, chat) + ForChat(b, chat)
    decreases |b|
  {
    if b == [] {
      assert a + b == a;
    } else {
      assert (a + b)[..|a + b| - 1] == a + b[..|b| - 1];
      ForChatAppend(a, b[..|b| - 1], chat);
    }
  }

  lemma {:induction false} UpdatesRowsOfUsers(resolve: string -> Option<UpdateInfo>, rs: seq<SweepRow>, users: seq<int>)
    ensures Updates(resolve, RowsOfUsers(rs, users)) == ForChats(Updates(resolve, rs), users)
    decreases |users|
  {
    if users != [] {
      var init := users[..|users| - 1];
      UpdatesRowsOfUsers(resolve, rs, init);
      UpdatesAppend(resolve, RowsOfUsers(rs, init), RowsOf(rs, users[|users| - 1]));
      UpdatesRowsOf(resolve, rs, users[|users| - 1]);
    }
  }

  /** The two backends' sweeps find the same updates, each as often; only the
      order differs (row order against user-by-user order). */
  lemma SweepsAgree(resolve: string -> Option<UpdateInfo>, t: Tables)
    requires Valid(t)
    ensures multiset(OrmSweep(resolve, t)) == multiset(SqlSweep(resolve, t))
  {
    var rs := SweepRows(t, t.rows);
    UpdatesRowsOfUsers(resolve, rs, t.users);
    SweepRowsUsers(t, t.rows);
    UpdatesChats(resolve, rs, t.users);
    GroupingIsPermutation(Updates(resolve, rs), t.users);
  }

  // ---- Tag query ----

  /** Postgres `&&` on text arrays: some tag in common. */
  predicate Overlaps(a: seq<string>, b: seq<string>) {
    exists i :: 0 <= i < |a| && a[i] in b
  }

  /** The chat's joined rows whose tags overlap the requested ones. */
  function TagRows(t: Tables, rows: seq<UserLink>, chat: int, tags: seq<string>): (r: seq<SweepRow>)
    ensures forall i :: 0 <= i < |r| ==> r[i].userId == chat
    decreases |rows|
  {
    if rows == [] then []
    else
      var row := rows[|rows| - 1];
      TagRows(t, rows[..|rows| - 1], chat, tags)
      + (if row.userId == chat && Overlaps(row.tags, tags) && row.linkId in t.linkUrls
         then [SweepRow(row.userId, row.linkId, t.linkUrls[row.linkId], row.filters)] else [])
  }

  /** The rows with their filters replaced by the empty list. */
  function WithoutFilters(rs: seq<SweepRow>): (r: seq<SweepRow>)
    ensures |r| == |rs|
    ensures forall i :: 0 <= i < |rs| ==> r[i] == rs[i].(filters := [])
  {
    seq(|rs|, i requires 0 <= i < |rs| => rs[i].(filters := []))
  }

  /** The SQL tag query resolves the selected rows ignoring their filters. */
  function SqlTagUpdates(resolve: string -> Option<UpdateInfo>, t: Tables, chat: int, tags: seq<string>): seq<LinkUpdate> {
    Updates(resolve, WithoutFilters(TagRows(t, t.rows, chat, tags)))
  }

  /** The ORM tag query applies each selected row's filters. */
  function OrmTagUpdates(resolve: string -> Option<UpdateInfo>, t: Tables, chat: int, tags: seq<string>): seq<LinkUpdate> {
    Updates(resolve, TagRows(t, t.rows, chat, tags))
  }

  /** Every update the ORM tag query reports, the SQL one reports too; they
      agree when no selected row has filters. */
  lemma TagQueriesCompare(resolve: string -> Option<UpdateInfo>, t: Tables, chat: int, tags: seq<string>)
    ensures forall u :: u in OrmTagUpdates(resolve, t, chat, tags) ==> u in SqlTagUpdates(resolve, t, chat, tags)
    ensures (forall i :: 0 <= i < |t.rows| ==> t.rows[i].filters == [])
            ==> OrmTagUpdates(resolve, t, chat, tags) == SqlTagUpdates(resolve, t, chat, tags)
  {
    var rs := TagRows(t, t.rows, chat, tags);
    forall u | u in Updates(resolve, rs) ensures u in Updates(resolve, WithoutFilters(rs)) {
      UpdatesMember(resolve, rs, u);
      var i :| 0 <= i < |rs| && ProcessUserLink(resolve, rs[i]) == Some(u);
      assert ProcessUserLink(resolve, WithoutFilters(rs)[i]) == Some(u);
      UpdatesMember(resolve, WithoutFilters(rs), u);
    }
    if forall i :: 0 <= i < |t.rows| ==> t.rows[i].filters == [] {
      TagRowsNoFilters(t, t.rows, chat, tags);
      assert WithoutFilters(rs) == rs;
    }
  }

  lemma {:induction false} TagRowsNoFilters(t: Tables, rows: seq<UserLink>, chat: int, tags: seq<string>)
    requires forall i :: 0 <= i < |rows| ==> rows[i].filters == []
    ensures forall i :: 0 <= i < |TagRows(t, rows, chat, tags)| ==> TagRows(t, rows, chat, tags)[i].filters == []
    decreases |rows|
  {
    if rows != [] {
      TagRowsNoFilters(t, rows[..|rows| - 1], chat, tags);
    }
  }

  /** Only rows of the chat whose tags overlap the request can produce a tag
      update, in either backend. */
  lemma TagUpdatesSelected(resolve: string -> Option<UpdateInfo>, t: Tables, chat: int, tags: seq<string>, u: LinkUpdate)
    requires u in SqlTagUpdates(resolve, t, chat, tags)
    ensures u.tgChatId == chat
    ensures exists i :: 0 <= i < |t.rows| && t.rows[i].userId == chat && t.rows[i].linkId == u.id && Overlaps(t.rows[i].tags, tags)
  {
    var rs := WithoutFilters(TagRows(t, t.rows, chat, tags));
    UpdatesMember(resolve, rs, u);
    var i :| 0 <= i < |rs| && ProcessUserLink(resolve, rs[i]) == Some(u);
    TagRowsFrom(t, t.rows, chat, tags, i);
  }

  lemma {:induction false} TagRowsFrom(t: Tables, rows: seq<UserLink>, chat: int, tags: seq<string>, k: nat)
    requires k < |TagRows(t, rows, chat, tags)|
    ensures exists i :: 0 <= i < |rows| && rows[i].userId == chat && rows[i].linkId == TagRows(t, rows, chat, tags)[k].linkId
                        && Overlaps(rows[i].tags, tags)
    decreases |rows|
  {
    var init := rows[..|rows| - 1];
    if k < |TagRows(t, init, chat, tags)| {
      TagRowsFrom(t, init, chat, tags, k);
      var i :| 0 <= i < |init| && init[i].userId == chat && init[i].linkId == TagRows(t, init, chat, tags)[k].linkId
               && Overlaps(init[i].tags, tags);
      assert rows[i] == init[i];
    } else {
      assert rows[|rows| - 1].linkId == TagRows(t, rows, chat, tags)[k].linkId;
    }
  }

  /** The converse for the SQL query: a row of the chat whose tags overlap the
      request and whose joined link resolves reports that update, whatever the
      row's filters. */
  lemma TagUpdateOfRow(resolve: string -> Option<UpdateInfo>, t: Tables, chat: int, tags: seq<string>, i: nat)
    requires i < |t.rows| && t.rows[i].userId == chat && Overlaps(t.rows[i].tags, tags)
    requires t.rows[i].linkId in t.linkUrls && resolve(t.linkUrls[t.rows[i].linkId]).Some?
    ensures var url := t.linkUrls[t.rows[i].linkId];
            LinkUpdate(t.rows[i].linkId, url, MakeDescription(resolve(url).value), chat)
              in SqlTagUpdates(resolve, t, chat, tags)
  {
    var row := t.rows[i];
    var url := t.linkUrls[row.linkId];
    var rs := TagRows(t, t.rows, chat, tags);
    TagRowsHas(t, t.rows, chat, tags, i);
    var k :| 0 <= k < |rs| && rs[k] == SweepRow(chat, row.linkId, url, row.filters);
    var u := LinkUpdate(row.linkId, url, MakeDescription(resolve(url).value), chat);
    assert ProcessUserLink(resolve, WithoutFilters(rs)[k]) == Some(u);
    UpdatesMember(resolve, WithoutFilters(rs), u);
  }

  lemma {:induction false} TagRowsHas(t: Tables, rows: seq<UserLink>, chat: int, tags: seq<string>, i: nat)
    requires i < |rows| && rows[i].userId == chat && Overlaps(rows[i].tags, tags) && rows[i].linkId in t.linkUrls
    ensures exists k :: 0 <= k < |TagRows(t, rows, chat, tags)|
                        && TagRows(t, rows, chat, tags)[k]
                           == SweepRow(chat, rows[i].linkId, t.linkUrls[rows[i].linkId], rows[i].filters)
    decreases |rows|
  {
    var init := rows[..|rows| - 1];
    var target := SweepRow(chat, rows[i].linkId, t.linkUrls[rows[i].linkId], rows[i].filters);
    if i < |init| {
      assert init[i] == rows[i];
      TagRowsHas(t, init, chat, tags, i);
      var k :| 0 <= k < |TagRows(t, init, chat, tags)| && TagRows(t, init, chat, tags)[k] == target;
      assert TagRows(t, rows, chat, tags)[k] == target;
    } else {
      var k := |TagRows(t, init, chat, tags)|;
      assert TagRows(t, rows, chat, tags)[k] == target;
    }
  }
}
