/** `/list` (src/bot/handlers/list_cmd_handler.py): show the chat's tracked
    links, from the Redis cache when it holds them and from the scrapper
    otherwise, as a numbered list. The numbered rendering is shared with
    `/untrack`. */
module ListCmdHandler {
  import opened Wrappers
  import opened Text
  import opened Schemas
  import opened BotState

  const ListHeader: string := "Список отслеживаемых ссылок🔗:\n\n"
  const EmptyListText: string := "Список отслеживаемых ссылок пуст\nВы можете добавить ссылку с помощью /track"
  const FetchFailedText: string := "❌ Произошла ошибка при получении списка отслеживаемых ссылок"

  /** One list line without its newline: "{n}. {url}". */
  function Line(n: int, url: string): string {
    IntToString(n) + ". " + url
  }

  /** `for num, link in enumerate(links, start)`: the lines "{num}. {url}\n". */
  function Numbered(urls: seq<string>, start: int): string
    decreases |urls|
  {
    if urls == [] then "" else Line(start, urls[0]) + "\n" + Numbered(urls[1..], start + 1)
  }

  /** The numbered lines as a list. */
  function NumberedLines(urls: seq<string>, start: int): (lines: seq<string>)
    ensures |lines| == |urls|
  {
    seq(|urls|, i requires 0 <= i < |urls| => Line(start + i, urls[i]))
  }

  /** The urls of a list, in order. */
  function Urls(links: seq<CachedLink>): (urls: seq<string>)
    ensures |urls| == |links|
  {
    seq(|links|, i requires 0 <= i < |links| => links[i].url)
  }

  /** What `/list` shows for a list. */
  function ListText(data: CachedList): string {
    if data.size == 0 then EmptyListText else ListHeader + Numbered(Urls(data.links), 1)
  }

  /** Appending one url appends one numbered line. */
  lemma {:induction false} NumberedAppend(urls: seq<string>, url: string, start: int)
    ensures Numbered(urls + [url], start) == Numbered(urls, start) + (Line(start + |urls|, url) + "\n")
    decreases |urls|
  {
    if urls == [] {
      assert ([] + [url])[1..] == [];
    } else {
      var head := Line(start, urls[0]) + "\n";
      var last := Line(start + |urls|, url) + "\n";
      assert start + 1 + |urls[1..]| == start + |urls|;
      NumberedAppend(urls[1..], url, start + 1);
      NumberedSnoc(urls, url, start);
      assert Numbered(urls, start) == head + Numbered(urls[1..], start + 1);
      ConcatAssoc(head, Numbered(urls[1..], start + 1), last);
    }
  }

  /** Unfolding the rendering of a non-empty list with one url appended. */
  lemma NumberedSnoc(urls: seq<string>, url: string, start: int)
    requires urls != []
    ensures Numbered(urls + [url], start)
         == Line(start, urls[0]) + "\n" + Numbered(urls[1..] + [url], start + 1)
  {
    assert (urls + [url])[0] == urls[0];
    assert (urls + [url])[1..] == urls[1..] + [url];
  }

  /** Kept as a lemma so that `NumberedAppend` sees this one equation only. */
  lemma ConcatAssoc(a: string, b: string, c: string)
    ensures a + (b + c) == (a + b) + c
  {
  }

  /** The rendering is the numbered lines joined by newlines, with a final newline. */
  lemma {:induction false} NumberedIsJoin(urls: seq<string>, start: int)
    ensures Numbered(urls, start) == Join("\n", NumberedLines(urls, start) + [""])
    decreases |urls|
  {
    if urls != [] {
      var rest := NumberedLines(urls[1..], start + 1) + [""];
      NumberedIsJoin(urls[1..], start + 1);
      NumberedLinesCons(urls, start);
      var parts := NumberedLines(urls, start) + [""];
      assert parts == [Line(start, urls[0])] + rest;
      assert parts[0] == Line(start, urls[0]) && parts[1..] == rest;
    }
  }

  /** The first numbered line, then the others numbered from the next number. */
  lemma NumberedLinesCons(urls: seq<string>, start: int)
    requires urls != []
    ensures NumberedLines(urls, start) == [Line(start, urls[0])] + NumberedLines(urls[1..], start + 1)
  {
    var lines := NumberedLines(urls, start);
    var tail := NumberedLines(urls[1..], start + 1);
    var both := [Line(start, urls[0])] + tail;
    assert |lines| == |both|;
    forall i | 0 <= i < |lines|
      ensures lines[i] == both[i]
    {
      if i > 0 {
        assert urls[1..][i - 1] == urls[i];
        assert tail[i - 1] == Line(start + 1 + (i - 1), urls[i]);
        assert both[i] == tail[i - 1];
      }
    }
    assert lines == both;
  }

  /** A numbered line holds no newline when its url holds none. */
  lemma LineHasNoNewline(n: int, url: string)
    requires n >= 1 && '\n' !in url
    ensures '\n' !in Line(n, url)
  {
    assert IntToString(n) == NatToString(n);
  }

  /** Read back line by line, the rendering gives line k as "{start + k}. {url k}"
      and nothing else but the empty piece after the final newline. */
  lemma NumberedReadBack(urls: seq<string>, start: int)
    requires start >= 1
    requires forall i :: 0 <= i < |urls| ==> '\n' !in urls[i]
    ensures Split(Numbered(urls, start), '\n') == NumberedLines(urls, start) + [""]
  {
    NumberedIsJoin(urls, start);
    var parts := NumberedLines(urls, start) + [""];
    forall i | 0 <= i < |parts| ensures '\n' !in parts[i] {
      if i < |urls| {
        LineHasNoNewline(start + i, urls[i]);
      }
    }
    SplitJoin(parts, '\n');
  }

  /** An empty list shows the fixed text; a non-empty one shows the header and
      then line k as "{k + 1}. {url}". */
  lemma ListTextShape(data: CachedList)
    requires forall i :: 0 <= i < |data.links| ==> '\n' !in data.links[i].url
    ensures data.size == 0 ==> ListText(data) == EmptyListText
    ensures data.size != 0 ==>
              && ListText(data)[..|ListHeader|] == ListHeader
              && Split(ListText(data)[|ListHeader|..], '\n') == NumberedLines(Urls(data.links), 1) + [""]
  {
    if data.size != 0 {
      var body := Numbered(Urls(data.links), 1);
      assert ListText(data)[|ListHeader|..] == body;
      NumberedReadBack(Urls(data.links), 1);
    }
  }

  /** The urls of one more link are one more url. */
  lemma UrlsPrefix(links: seq<CachedLink>, k: nat)
    requires k < |links|
    ensures Urls(links[..k + 1]) == Urls(links[..k]) + [links[k].url]
  {
    assert links[..k + 1][..k] == links[..k];
  }

  /** The rendering loop of the handler. */
  method RenderList(data: CachedList) returns (text: string)
    ensures text == ListText(data)
  {
    if data.size == 0 {
      text := EmptyListText;
    } else {
      text := ListHeader;
      var links := data.links;
      for k := 0 to |links|
        invariant text == ListHeader + Numbered(Urls(links[..k]), 1)
      {
        UrlsPrefix(links, k);
        NumberedAppend(Urls(links[..k]), links[k].url, 1);
        text := text + (Line(k + 1, links[k].url) + "\n");
      }
      assert links[..|links|] == links;
    }
  }

  /** `list_cmd_handler`. `status` and `fetched` are the scrapper's answer to
      `GET /links`, used only on a cache miss (`requested`). A cached value
      that is not JSON makes `json.loads` raise (`raised`). */
  method ListCmd(b: BotState, user: int, status: int, fetched: ListLinksResponse) returns (requested: bool, raised: bool)
    modifies b
    ensures requested <==> user !in old(b.cache)
    ensures raised <==> user in old(b.cache) && old(b.cache)[user].Unparseable?
    ensures raised ==> b.Data() == old(b.Data())
    ensures user in old(b.cache) && old(b.cache)[user].Parsed? ==>
              b.Data() == old(b.Data()).(replies := old(b.replies) + [Reply(user, ListText(old(b.cache)[user].list))])
    ensures requested && status == 200 ==>
              b.Data() == old(b.Data()).(cache := old(b.cache)[user := Parsed(ToCache(fetched))],
                                         replies := old(b.replies) + [Reply(user, ListText(ToCache(fetched)))])
    ensures requested && status != 200 ==>
              b.Data() == old(b.Data()).(replies := old(b.replies) + [Reply(user, FetchFailedText)])
  {
    var data: CachedList;
    if user in b.cache {
      requested := false;
      match b.cache[user]
      case Unparseable =>
        return false, true;
      case Parsed(list) =>
        data := list;
    } else {
      requested := true;
      if status == 200 {
        data := ToCache(fetched);
        b.cache := b.cache[user := Parsed(data)];
      } else {
        b.Say(user, FetchFailedText);
        return true, false;
      }
    }
    raised := false;
    var text := RenderList(data);
    b.Say(user, text);
  }
}
