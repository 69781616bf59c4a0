/** `SqlDbProcessor` (src/database/sql_database.py): the store on raw SQL.
    Each mutating method is proved to have exactly the effect of the matching
    function of `Subscriptions`; the sweep reads the join through a cursor in
    batches of 500. */
module SqlDatabase {
  import opened Wrappers
  import opened Schemas
  import opened Subscriptions

  class SqlDbProcessor {
    /** The users table (chat ids, in insertion order). */
    var users: seq<int>
    /** The links table through its unique url index and its primary key. */
    var linkIds: map<string, int>
    var linkUrls: map<int, string>
    /** The next value of the links id serial. */
    var nextId: int
    /** The user_links table, in insertion order. */
    var rows: seq<UserLink>

    const BatchSize: nat := 500

    /** The tables as a value. */
    function Snapshot(): Tables
      reads this
    {
      Tables(users, linkIds, linkUrls, nextId, rows)
    }

    ghost predicate Valid()
      reads this
    {
      Subscriptions.Valid(Snapshot())
    }

    /** A processor over a freshly migrated, empty database. */
    constructor ()
      ensures Valid() && Snapshot() == Empty()
    {
      users, linkIds, linkUrls, nextId, rows := [], map[], map[], 1, [];
    }

    /** `SELECT 1 FROM user_links WHERE user_id = $1 AND link_id = $2`: the
        position of the row for the pair, if any. */
    method FindRow(chat: int, id: int) returns (r: Option<nat>)
      ensures r == RowIndex(rows, chat, id)
    {
      var k := 0;
      while k < |rows|
        invariant 0 <= k <= |rows|
        invariant forall i :: 0 <= i < k ==> rows[i].userId != chat || rows[i].linkId != id
      {
        if rows[k].userId == chat && rows[k].linkId == id {
          return Some(k);
        }
        k := k + 1;
      }
      return None;
    }

    /** `add_user`: `INSERT ... ON CONFLICT DO NOTHING`. */
    method AddUser(chat: int)
      requires Valid()
      modifies this
      ensures Valid()
      ensures Snapshot() == Subscriptions.AddUser(old(Snapshot()), chat)
    {
      AddUserValid(Snapshot(), chat);
      if chat !in users {
        users := users + [chat];
      }
    }

    /** `add_link_for_user`. The link insert and the row insert share one
        transaction, so a refusal leaves every table as it was. */
    method AddLinkForUser(chat: int, req: AddLinkRequest) returns (r: Result<int, StoreError>)
      requires Valid()
      modifies this
      ensures Valid()
      ensures (r, Snapshot()) == AddLink(old(Snapshot()), chat, req)
    {
      AddLinkValid(Snapshot(), chat, req);
      if chat !in users {
        return Failure(NotRegistered);
      }
      var ids, urls, serial := linkIds, linkUrls, nextId;
      var linkId: int;
      if req.url in ids {
        linkId := ids[req.url];
      } else {
        linkId := serial;
        ids, urls, serial := ids[req.url := linkId], urls[linkId := req.url], serial + 1;
      }
      var tracked := FindRow(chat, linkId);
      if tracked.Some? {
        return Failure(AlreadyTracking);
      }
      linkIds, linkUrls, nextId := ids, urls, serial;
      rows := rows + [UserLink(chat, linkId, req.tags, req.filters)];
      return Success(linkId);
    }

    /** `get_user_links`: the chat's rows joined with their urls. */
    method GetUserLinks(chat: int) returns (links: seq<LinkResponse>)
      ensures links == UserLinks(Snapshot(), chat)
    {
      links := [];
      var k := 0;
      while k < |rows|
        invariant 0 <= k <= |rows|
        invariant links == LinksOf(linkUrls, rows[..k], chat)
      {
        assert rows[..k + 1][..k] == rows[..k];
        var row := rows[k];
        if row.userId == chat && row.linkId in linkUrls {
          links := links + [LinkResponse(row.linkId, linkUrls[row.linkId], row.tags, row.filters)];
        }
        k := k + 1;
      }
      assert rows[..k] == rows;
    }

    /** `delete_chat`: the `ON DELETE CASCADE` of user_links removes the chat's rows. */
    method DeleteChat(chat: int) returns (deleted: bool)
      requires Valid()
      modifies this
      ensures Valid()
      ensures (deleted, Snapshot()) == Subscriptions.DeleteChat(old(Snapshot()), chat)
    {
      DeleteChatValid(Snapshot(), chat);
      if chat !in users {
        return false;
      }
      users := WithoutUser(users, chat);
      rows := WithoutUserRows(rows, chat);
      return true;
    }

    /** `remove_user_link`: look the link up by url, then the pair. */
    method RemoveUserLink(chat: int, url: string) returns (removed: Option<Removed>)
      requires Valid()
      modifies this
      ensures Valid()
      ensures (removed, Snapshot()) == Subscriptions.RemoveUserLink(old(Snapshot()), chat, url)
    {
      RemoveUserLinkValid(Snapshot(), chat, url);
      if url !in linkIds {
        return None;
      }
      var linkId := linkIds[url];
      var k := FindRow(chat, linkId);
      if k.None? {
        return None;
      }
      removed := Some(Removed(linkId, rows[k.value].tags, rows[k.value].filters));
      rows := RemoveAt(rows, k.value);
    }

    /** `check_updates_for_all_users`: fetch the join in batches of at most
        500 until a batch comes back empty, resolve each batch's rows, and
        keep the updates in row order. */
    method CheckUpdatesForAllUsers(resolve: string -> Option<UpdateInfo>) returns (updates: seq<LinkUpdate>)
      ensures updates == SqlSweep(resolve, Snapshot())
    {
      var cursor := SweepRows(Snapshot(), rows);
      updates := [];
      var pos := 0;
      while true
        invariant 0 <= pos <= |cursor|
        invariant updates == Updates(resolve, cursor[..pos])
        decreases |cursor| - pos
      {
        var end := if pos + BatchSize <= |cursor| then pos + BatchSize else |cursor|;
        var batch := cursor[pos..end];
        if batch == [] {
          break;
        }
        var batchResults := Gather(resolve, batch);
        PresentGather(resolve, batch);
        assert cursor[..end] == cursor[..pos] + batch;
        UpdatesAppend(resolve, cursor[..pos], batch);
        updates := updates + Present(batchResults);
        pos := end;
      }
      assert cursor[..pos] == cursor;
    }

    /** `get_updates_for_one_user_by_tags`: the chat's rows with an overlapping
        tag, each resolved with an empty filter list. */
    method GetUpdatesForOneUserByTags(resolve: string -> Option<UpdateInfo>, chat: int, tags: seq<string>)
      returns (updates: seq<LinkUpdate>)
      ensures updates == SqlTagUpdates(resolve, Snapshot(), chat, tags)
    {
      var selected := TagRows(Snapshot(), rows, chat, tags);
      var results := Gather(resolve, WithoutFilters(selected));
      PresentGather(resolve, WithoutFilters(selected));
      updates := Present(results);
    }
  }
}
