/** `send_messages_to_users` (src/api/bot_api/bot_send_message.py): the bot
    groups a batch of link updates by chat and sends each chat one digest
    message that lists its updates in arrival order. */
module BotSendMessage {
  import opened Wrappers
  import opened Schemas
  import opened Subscriptions

  /** The fixed head of every digest entry. */
  const EntryHead: string := "⚡ Есть обновления по ссылке "

  /** The decoded batch: `links` is `None` when the key is missing. */
  datatype Payload = Payload(links: Option<seq<LinkUpdate>>)

  /** A message handed to the Telegram client. */
  datatype Message = Message(chatId: int, text: string)

  /** `data.get("links", [])`. */
  function Entries(p: Payload): seq<LinkUpdate> {
    if p.links.Some? then p.links.value else []
  }

  /** Whether some update is addressed to `chat`. */
  predicate Addressed(links: seq<LinkUpdate>, chat: int) {
    exists i :: 0 <= i < |links| && links[i].tgChatId == chat
  }

  /** The position of the first update addressed to `chat`. */
  function FirstIndex(links: seq<LinkUpdate>, chat: int): (k: nat)
    requires Addressed(links, chat)
    ensures k < |links| && links[k].tgChatId == chat
    ensures forall m :: 0 <= m < k ==> links[m].tgChatId != chat
    decreases |links|
  {
    if links[0].tgChatId == chat then 0
    else
      assert Addressed(links[1..], chat) by {
        var i :| 0 <= i < |links| && links[i].tgChatId == chat;
        assert links[1..][i - 1] == links[i];
      }
      var k := FirstIndex(links[1..], chat);
      assert forall m :: 0 < m <= k ==> links[m] == links[1..][m - 1];
      1 + k
  }

  /** The keys of the grouping dictionary: each addressed chat once, in the
      order of its first update (the iteration order of a Python dict). */
  function ChatOrder(links: seq<LinkUpdate>): (r: seq<int>)
    ensures Distinct(r)
    ensures forall c :: c in r <==> Addressed(links, c)
    ensures forall i, j :: 0 <= i < j < |r| ==>
              Addressed(links, r[i]) && Addressed(links, r[j]) && FirstIndex(links, r[i]) < FirstIndex(links, r[j])
    decreases |links|
  {
    if links == [] then []
    else
      var init := ChatOrder(links[..|links| - 1]);
      ChatOrderStep(links, init);
      if links[|links| - 1].tgChatId in init then init else init + [links[|links| - 1].tgChatId]
  }

  /** One more update keeps the order of the chats seen so far and appends its
      chat when it is new. */
  lemma ChatOrderStep(links: seq<LinkUpdate>, init: seq<int>)
    requires links != []
    requires Distinct(init)
    requires forall c :: c in init <==> Addressed(links[..|links| - 1], c)
    requires forall i, j :: 0 <= i < j < |init| ==>
               Addressed(links[..|links| - 1], init[i]) && Addressed(links[..|links| - 1], init[j])
               && FirstIndex(links[..|links| - 1], init[i]) < FirstIndex(links[..|links| - 1], init[j])
    ensures var c := links[|links| - 1].tgChatId;
            var r := if c in init then init else init + [c];
            Distinct(r)
            && (forall d :: d in r <==> Addressed(links, d))
            && (forall i, j :: 0 <= i < j < |r| ==>
                  Addressed(links, r[i]) && Addressed(links, r[j]) && FirstIndex(links, r[i]) < FirstIndex(links, r[j]))
  {
    var n := |links| - 1;
    var prefix := links[..n];
    var c := links[n].tgChatId;
    var r := if c in init then init else init + [c];
    forall d ensures Addressed(links, d) <==> Addressed(prefix, d) || d == c {
      AddressedExtend(links, d);
    }
    forall i | 0 <= i < |init|
      ensures Addressed(links, init[i]) && FirstIndex(links, init[i]) == FirstIndex(prefix, init[i]) < n
    {
      assert init[i] in init;
      FirstIndexPrefix(links, n, init[i]);
    }
    if c !in init {
      NewChatFirstAtEnd(links);
      assert forall i :: 0 <= i < |init| ==> r[i] == init[i];
      assert r[|init|] == c;
    }
  }

  /** One more update addresses the chats addressed before and its own chat. */
  lemma AddressedExtend(links: seq<LinkUpdate>, chat: int)
    requires links != []
    ensures Addressed(links, chat) <==> Addressed(links[..|links| - 1], chat) || chat == links[|links| - 1].tgChatId
  {
    var prefix := links[..|links| - 1];
    if Addressed(links, chat) && chat != links[|links| - 1].tgChatId {
      var i :| 0 <= i < |links| && links[i].tgChatId == chat;
      assert prefix[i] == links[i];
    }
    if Addressed(prefix, chat) {
      var i :| 0 <= i < |prefix| && prefix[i].tgChatId == chat;
      assert links[i] == prefix[i];
    }
  }

  /** The last update's chat, when no earlier update addresses it, is first
      addressed at the end. */
  lemma NewChatFirstAtEnd(links: seq<LinkUpdate>)
    requires links != [] && !Addressed(links[..|links| - 1], links[|links| - 1].tgChatId)
    ensures Addressed(links, links[|links| - 1].tgChatId)
    ensures FirstIndex(links, links[|links| - 1].tgChatId) == |links| - 1
  {
    var n := |links| - 1;
    var c := links[n].tgChatId;
    forall m | 0 <= m < n ensures links[m].tgChatId != c {
      assert links[..n][m] == links[m];
    }
  }

  /** A chat already addressed in a prefix is first addressed where the prefix
      first addresses it. */
  lemma FirstIndexPrefix(links: seq<LinkUpdate>, n: nat, chat: int)
    requires n <= |links| && Addressed(links[..n], chat)
    ensures Addressed(links, chat) && FirstIndex(links, chat) == FirstIndex(links[..n], chat)
  {
    var k := FirstIndex(links[..n], chat);
    assert links[k] == links[..n][k];
    assert forall m :: 0 <= m < k ==> links[m] == links[..n][m];
  }

  /** One digest entry. */
  function EntryText(u: LinkUpdate): string {
    EntryHead + u.url + ":\n" + u.description + "\n\n"
  }

  /** The digest of a group: its entries concatenated in order. */
  function ChatText(group: seq<LinkUpdate>): (text: string)
    ensures text == [] <==> group == []
    decreases |group|
  {
    if group == [] then [] else ChatText(group[..|group| - 1]) + EntryText(group[|group| - 1])
  }

  /** The messages for the chats of `chats`, in that order; a chat whose
      digest is empty is skipped (`if text:`). */
  function DispatchOver(links: seq<LinkUpdate>, chats: seq<int>): seq<Message>
    decreases |chats|
  {
    if chats == [] then []
    else
      var c := chats[|chats| - 1];
      var text := ChatText(ForChat(links, c));
      DispatchOver(links, chats[..|chats| - 1]) + (if text != [] then [Message(c, text)] else [])
  }

  /** Everything `send_messages_to_users` sends for a batch. */
  function Dispatch(p: Payload): seq<Message> {
    DispatchOver(Entries(p), ChatOrder(Entries(p)))
  }

  /** The Telegram client, reduced to the log of what it was asked to send. */
  class TelegramClient {
    var sent: seq<Message>

    constructor ()
      ensures sent == []
    {
      sent := [];
    }

    /** `send_message(chat, text)`. */
    method SendMessage(chat: int, text: string)
      modifies this
      ensures sent == old(sent) + [Message(chat, text)]
    {
      sent := sent + [Message(chat, text)];
    }
  }

  /** The `defaultdict(list)` pass: the keys in first-occurrence order and,
      under each key, that chat's updates in arrival order. */
  method GroupByChat(links: seq<LinkUpdate>) returns (order: seq<int>, groups: map<int, seq<LinkUpdate>>)
    ensures order == ChatOrder(links)
    ensures forall c :: c in groups <==> c in order
    ensures forall c :: c in groups ==> groups[c] == ForChat(links, c)
  {
    order, groups := [], map[];
    for k := 0 to |links|
      invariant order == ChatOrder(links[..k])
      invariant forall c :: c in groups <==> c in order
      invariant forall c :: c in groups ==> groups[c] == ForChat(links[..k], c)
      invariant forall c :: c !in groups ==> ForChat(links[..k], c) == []
    {
      assert links[..k + 1][..k] == links[..k];
      var c := links[k].tgChatId;
      if c !in groups {
        order := order + [c];
        groups := groups[c := []];
      }
      groups := groups[c := groups[c] + [links[k]]];
    }
    assert links[..|links|] == links;
  }

  /** The loop building one chat's digest. */
  method BuildDigest(group: seq<LinkUpdate>) returns (text: string)
    ensures text == ChatText(group)
  {
    text := "";
    for j := 0 to |group|
      invariant text == ChatText(group[..j])
    {
      assert group[..j + 1][..j] == group[..j];
      text := text + EntryText(group[j]);
    }
    assert group[..|group|] == group;
  }

  /** Dispatching over one more chat adds that chat's message, if any. */
  lemma DispatchOverSnoc(links: seq<LinkUpdate>, chats: seq<int>, i: nat)
    requires i < |chats|
    ensures var text := ChatText(ForChat(links, chats[i]));
            DispatchOver(links, chats[..i + 1])
            == DispatchOver(links, chats[..i]) + (if text != [] then [Message(chats[i], text)] else [])
  {
    assert chats[..i + 1][..i] == chats[..i];
  }

  /** The sending loop: each chat of `order`, in turn, gets its digest when
      the digest is not empty. */
  method SendDigests(links: seq<LinkUpdate>, order: seq<int>, groups: map<int, seq<LinkUpdate>>, client: TelegramClient)
    requires forall k :: 0 <= k < |order| ==> order[k] in groups && groups[order[k]] == ForChat(links, order[k])
    modifies client
    ensures client.sent == old(client.sent) + DispatchOver(links, order)
  {
    for i := 0 to |order|
      invariant client.sent == old(client.sent) + DispatchOver(links, order[..i])
    {
      var c := order[i];
      var text := BuildDigest(groups[c]);
      ghost var sent := old(client.sent);
      ghost var prefix := DispatchOver(links, order[..i]);
      ghost var step := if text != [] then [Message(c, text)] else [];
      DispatchOverSnoc(links, order, i);
      if text != "" {
        client.SendMessage(c, text);
      }
      assert (sent + prefix) + step == sent + (prefix + step);
    }
    assert order[..|order|] == order;
  }

  /** `send_messages_to_users`: group, then build and send each chat's digest. */
  method SendMessagesToUsers(data: Payload, client: TelegramClient)
    modifies client
    ensures client.sent == old(client.sent) + Dispatch(data)
  {
    var links := Entries(data);
    var order, groups := GroupByChat(links);
    forall k | 0 <= k < |order|
      ensures order[k] in groups && groups[order[k]] == ForChat(links, order[k])
    {
      assert order[k] in order;
    }
    SendDigests(links, order, groups, client);
  }

  /** A chat that some update addresses has a non-empty group. */
  lemma {:induction false} ForChatAddressed(links: seq<LinkUpdate>, chat: int)
    requires Addressed(links, chat)
    ensures ForChat(links, chat) != []
    decreases |links|
  {
    var last := links[|links| - 1];
    if last.tgChatId != chat {
      var i :| 0 <= i < |links| && links[i].tgChatId == chat;
      assert links[..|links| - 1][i] == links[i];
      ForChatAddressed(links[..|links| - 1], chat);
    }
  }

  /** When every listed chat has updates, each one gets exactly one message,
      in the listed order, carrying its digest. */
  lemma {:induction false} DispatchOverShape(links: seq<LinkUpdate>, chats: seq<int>)
    requires forall c :: c in chats ==> Addressed(links, c)
    ensures |DispatchOver(links, chats)| == |chats|
    ensures forall i :: 0 <= i < |chats| ==>
              DispatchOver(links, chats)[i] == Message(chats[i], ChatText(ForChat(links, chats[i])))
    decreases |chats|
  {
    if chats != [] {
      var init := chats[..|chats| - 1];
      var c := chats[|chats| - 1];
      assert forall d :: d in init ==> d in chats;
      DispatchOverShape(links, init);
      ForChatAddressed(links, c);
      var m := Message(c, ChatText(ForChat(links, c)));
      assert DispatchOver(links, chats) == DispatchOver(links, init) + [m];
      forall i | 0 <= i < |chats|
        ensures DispatchOver(links, chats)[i] == Message(chats[i], ChatText(ForChat(links, chats[i])))
      {
        if i < |init| {
          assert init[i] == chats[i];
        }
      }
    }
  }

  /** One message per distinct chat of the batch, and no other message: the
      i-th message goes to the i-th chat in first-occurrence order and holds
      that chat's updates, in arrival order, as digest entries. */
  lemma OneMessagePerChat(p: Payload)
    ensures var order := ChatOrder(Entries(p));
            |Dispatch(p)| == |order|
            && (forall i :: 0 <= i < |order| ==>
                  Dispatch(p)[i] == Message(order[i], ChatText(ForChat(Entries(p), order[i]))))
    ensures forall i, j :: 0 <= i < j < |Dispatch(p)| ==> Dispatch(p)[i].chatId != Dispatch(p)[j].chatId
    ensures forall c :: (exists i :: 0 <= i < |Dispatch(p)| && Dispatch(p)[i].chatId == c) <==> Addressed(Entries(p), c)
  {
    var links := Entries(p);
    var order := ChatOrder(links);
    DispatchOverShape(links, order);
    forall c | Addressed(links, c)
      ensures exists i :: 0 <= i < |Dispatch(p)| && Dispatch(p)[i].chatId == c
    {
      var i :| 0 <= i < |order| && order[i] == c;
      assert Dispatch(p)[i].chatId == c;
    }
  }

  /** The digests together hold every update exactly once: the groups in
      message order are a permutation of the batch. */
  lemma DigestsCoverBatch(p: Payload)
    ensures multiset(ForChats(Entries(p), ChatOrder(Entries(p)))) == multiset(Entries(p))
  {
    var links := Entries(p);
    forall i | 0 <= i < |links| ensures links[i].tgChatId in ChatOrder(links) {
      assert Addressed(links, links[i].tgChatId);
    }
    GroupingIsPermutation(links, ChatOrder(links));
  }

  /** A batch without a `links` key, or with an empty list, sends nothing. */
  lemma NoLinksNoMessages(p: Payload)
    requires p.links.None? || p.links == Some([])
    ensures Dispatch(p) == []
  {
    assert Entries(p) == [];
  }

  /** A batch of one update sends its chat a single message holding that one
      entry. */
  lemma SingleUpdate(u: LinkUpdate)
    ensures Dispatch(Payload(Some([u]))) == [Message(u.tgChatId, EntryText(u))]
  {
    var links := [u];
    var c := u.tgChatId;
    assert links[..0] == [];
    assert Entries(Payload(Some([u]))) == links;
    assert ChatOrder(links) == [c];
    assert ForChat(links, c) == [u];
    assert [u][..0] == [];
    assert ChatText([u]) == EntryText(u);
    assert [c][..0] == [];
    assert DispatchOver(links, [c]) == DispatchOver(links, []) + [Message(c, EntryText(u))];
  }
}
