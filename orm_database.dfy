/** `OrmDbProcessor` (src/database/orm_database.py): the same store through
    SQLAlchemy sessions. The user object owns its user_links (delete-orphan
    cascade), lookups go through the user, and the sweep pages over users
    with an offset. Proved against the same `Subscriptions` functions as the
    SQL backend. */
module OrmDatabase {
  import opened Wrappers
  import opened Schemas
  import opened Subscriptions

  /** `ul.link and ul.link.link_url == link_url` for a user's row. */
  predicate LinkOfUrl(urls: map<int, string>, ul: UserLink, chat: int, url: string) {
    ul.userId == chat && ul.linkId in urls && urls[ul.linkId] == url
  }

  class OrmDbProcessor {
    var users: seq<int>
    var linkIds: map<string, int>
    var linkUrls: map<int, string>
    var nextId: int
    var rows: seq<UserLink>

    const BatchSize: nat := 500

    function Snapshot(): Tables
      reads this
    {
      Tables(users, linkIds, linkUrls, nextId, rows)
    }

    ghost predicate Valid()
      reads this
    {
      Subscriptions.Valid(Snapshot())
    }

    constructor ()
      ensures Valid() && Snapshot() == Empty()
    {
      users, linkIds, linkUrls, nextId, rows := [], map[], map[], 1, [];
    }

    /** `add_user`: an existing user means nothing to do. */
    method AddUser(chat: int)
      requires Valid()
      modifies this
      ensures Valid()
      ensures Snapshot() == Subscriptions.AddUser(old(Snapshot()), chat)
    {
      AddUserValid(Snapshot(), chat);
      if chat in users {
        return;
      }
      users := users + [chat];
    }

    /** `select(UserLink).filter_by(user_id=…, link_id=…).first()` */
    method FirstUserLink(chat: int, id: int) returns (found: bool)
      ensures found <==> RowIndex(rows, chat, id).Some?
    {
      found := false;
      for k := 0 to |rows|
        invariant !found ==> forall i :: 0 <= i < k ==> rows[i].userId != chat || rows[i].linkId != id
        invariant found ==> RowIndex(rows, chat, id).Some?
      {
        if !found && rows[k].userId == chat && rows[k].linkId == id {
          found := true;
        }
      }
    }

    /** `add_link_for_user`: a new link is added and flushed to obtain its id
        before the duplicate check; a refusal rolls the session back. */
    method AddLinkForUser(chat: int, req: AddLinkRequest) returns (r: Result<int, StoreError>)
      requires Valid()
      modifies this
      ensures Valid()
      ensures (r, Snapshot()) == AddLink(old(Snapshot()), chat, req)
    {
      AddLinkValid(Snapshot(), chat, req);
      if chat !in users {
        return Failure(NotRegistered);
      }
      var ids, urls, serial := linkIds, linkUrls, nextId;
      if req.url !in ids {
        ids, urls, serial := ids[req.url := serial], urls[serial := req.url], serial + 1;
      }
      var linkId := ids[req.url];
      var existTrack := FirstUserLink(chat, linkId);
      if existTrack {
        return Failure(AlreadyTracking);
      }
      linkIds, linkUrls, nextId := ids, urls, serial;
      rows := rows + [UserLink(chat, linkId, req.tags, req.filters)];
      return Success(linkId);
    }

    /** `get_user_links`: nothing for an unknown user, else the user's links. */
    method GetUserLinks(chat: int) returns (links: seq<LinkResponse>)
      requires Valid()
      ensures links == UserLinks(Snapshot(), chat)
    {
      if chat !in users {
        LinksOfNone(linkUrls, rows, chat);
        return [];
      }
      links := [];
      for k := 0 to |rows|
        invariant links == LinksOf(linkUrls, rows[..k], chat)
      {
        assert rows[..k + 1][..k] == rows[..k];
        var ul := rows[k];
        if ul.userId == chat {
          assert ul.linkId in linkUrls;
          links := links + [LinkResponse(ul.linkId, linkUrls[ul.linkId], ul.tags, ul.filters)];
        }
      }
      assert rows[..|rows|] == rows;
    }

    /** `delete_chat`: deleting the user deletes its orphaned user_links. */
    method DeleteChat(chat: int) returns (deleted: bool)
      requires Valid()
      modifies this
      ensures Valid()
      ensures (deleted, Snapshot()) == Subscriptions.DeleteChat(old(Snapshot()), chat)
    {
      DeleteChatValid(Snapshot(), chat);
      if chat !in users {
        return false;
      }
      rows := WithoutUserRows(rows, chat);
      users := WithoutUser(users, chat);
      return true;
    }

    /** `remove_user_link`: scan the user's links for the url and stop at the
        first match. */
    method RemoveUserLink(chat: int, url: string) returns (removed: Option<Removed>)
      requires Valid()
      modifies this
      ensures Valid()
      ensures (removed, Snapshot()) == Subscriptions.RemoveUserLink(old(Snapshot()), chat, url)
    {
      RemoveUserLinkValid(Snapshot(), chat, url);
      if chat !in users {
        assert RowIndex(rows, chat, if url in linkIds then linkIds[url] else 0).None?;
        return None;
      }
      var found := false;
      var k := 0;
      while k < |rows|
        invariant 0 <= k <= |rows|
        invariant forall i :: 0 <= i < k ==> !LinkOfUrl(linkUrls, rows[i], chat, url)
      {
        if LinkOfUrl(linkUrls, rows[k], chat, url) {
          found := true;
          break;
        }
        k := k + 1;
      }
      if !found {
        assert url in linkIds ==> RowIndex(rows, chat, linkIds[url]).None?;
        return None;
      }
      assert RowIndex(rows, chat, linkIds[url]) == Some(k);
      removed := Some(Removed(rows[k].linkId, rows[k].tags, rows[k].filters));
      rows := RemoveAt(rows, k);
    }

    /** The joined rows of a page of users, user by user. */
    method PageTasks(joined: seq<SweepRow>, page: seq<int>) returns (tasks: seq<SweepRow>)
      ensures tasks == RowsOfUsers(joined, page)
    {
      tasks := [];
      for k := 0 to |page|
        invariant tasks == RowsOfUsers(joined, page[..k])
      {
        assert page[..k + 1][..k] == page[..k];
        tasks := tasks + RowsOf(joined, page[k]);
      }
      assert page[..|page|] == page;
    }

    /** `check_updates_for_all_users`: page over users 500 at a time with an
        offset until a page is empty; for each page, resolve every user_link of
        every user on it and keep the updates. */
    method CheckUpdatesForAllUsers(resolve: string -> Option<UpdateInfo>) returns (updates: seq<LinkUpdate>)
      ensures updates == OrmSweep(resolve, Snapshot())
    {
      var joined := SweepRows(Snapshot(), rows);
      updates := [];
      var offset := 0;
      while true
        invariant 0 <= offset <= |users|
        invariant updates == Updates(resolve, RowsOfUsers(joined, users[..offset]))
        decreases |users| - offset
      {
        var end := if offset + BatchSize <= |users| then offset + BatchSize else |users|;
        var page := users[offset..end];
        if page == [] {
          break;
        }
        var tasks := PageTasks(joined, page);
        var batchResults := Gather(resolve, tasks);
        PresentGather(resolve, tasks);
        assert users[..end] == users[..offset] + page;
        RowsOfUsersAppend(joined, users[..offset], page);
        UpdatesAppend(resolve, RowsOfUsers(joined, users[..offset]), tasks);
        updates := updates + Present(batchResults);
        offset := end;
      }
      assert users[..offset] == users;
    }

    /** `get_updates_for_one_user_by_tags`: the chat's rows with an overlapping
        tag, each resolved with its own filters. */
    method GetUpdatesForOneUserByTags(resolve: string -> Option<UpdateInfo>, chat: int, tags: seq<string>)
      returns (updates: seq<LinkUpdate>)
      ensures updates == OrmTagUpdates(resolve, Snapshot(), chat, tags)
    {
      var links := TagRows(Snapshot(), rows, chat, tags);
      var results := Gather(resolve, links);
      PresentGather(resolve, links);
      updates := Present(results);
    }
  }
}
