/** Resolving a tracked URL to its latest activity (src/api/scrapper_api/utils_scrapper_api.py):
    classifying GitHub and StackOverflow URLs, building the provider endpoints,
    choosing the newest item, truncating previews, and the final assembly of a
    provider's answers into an `UpdateInfo`. The HTTP requests are the parameter
    `get` (an answer other than 200 is `None`), the conversion of timestamps to
    Moscow display time is a parameter, and the notification-window gate is the
    predicate `isNew`. */
module ScrapperUtils {
  import opened Wrappers
  import opened Text
  import opened Schemas

  const GithubPrefix := "https://github.com/"
  const GithubApiBase := "https://api.github.com/repos/"
  const StackOverflowPrefix := "https://stackoverflow.com/questions/"
  const StackExchangeBase := "https://api.stackexchange.com/2.3/questions/"
  const PreviewMaxLength := 200

  /** The endpoint path segment for an item kind: "pull" becomes "pulls". */
  function ApiItemType(kind: string): string {
    if kind == "pull" then "pulls" else kind
  }

  /** What `(\d+)$` accepts as the rest of the text: digits, possibly followed
      by the one final newline before which `$` also matches. */
  function DigitsAtEnd(s: string): (r: Option<string>)
    ensures r.Some? ==> r.value != "" && AllDigits(r.value)
  {
    if |s| >= 1 && AllDigits(s) then Some(s)
    else if |s| >= 2 && s[|s| - 1] == '\n' && AllDigits(s[..|s| - 1]) then Some(s[..|s| - 1])
    else None
  }

  /** `github_url_to_api`: after stripping trailing slashes, the whole URL must be
      `https://github.com/<owner>/<repo>` or `.../<owner>/<repo>/(issues|pull)/<digits>`. */
  function GithubUrlToApi(url: string): (r: Option<string>)
    ensures r.Some? ==> StartsWith(url, GithubPrefix) && StartsWith(r.value, GithubApiBase)
  {
    var u := RStrip(url, '/');
    if !StartsWith(u, GithubPrefix) then None
    else
      assert url[..|GithubPrefix|] == u[..|GithubPrefix|];
      var segs := Split(u[|GithubPrefix|..], '/');
      if |segs| == 2 && segs[0] != "" && segs[1] != "" then
        Some(GithubApiBase + segs[0] + "/" + segs[1])
      else if |segs| == 4 && segs[0] != "" && segs[1] != ""
           && (segs[2] == "issues" || segs[2] == "pull") && DigitsAtEnd(segs[3]).Some? then
        Some(GithubApiBase + segs[0] + "/" + segs[1] + "/" + ApiItemType(segs[2]) + "/" + DigitsAtEnd(segs[3]).value)
      else None
  }

  /** A path segment: non-empty and free of '/'. */
  predicate Segment(s: string) { s != "" && '/' !in s }

  /** The path after the GitHub prefix splits into exactly the given segments. */
  lemma GithubSegments(parts: seq<string>)
    requires |parts| >= 1 && forall i :: 0 <= i < |parts| ==> '/' !in parts[i]
    ensures (GithubPrefix + Join("/", parts))[|GithubPrefix|..] == Join("/", parts)
    ensures Split(Join("/", parts), '/') == parts
  {
    SplitJoin(parts, '/');
  }

  /** Joining four path segments. */
  lemma JoinFour(a: string, b: string, c: string, d: string)
    ensures Join("/", [a, b, c, d]) == a + "/" + b + "/" + c + "/" + d
  {
    assert [a, b, c, d][1..] == [b, c, d];
    assert [b, c, d][1..] == [c, d];
    assert [c, d][1..] == [d];
    var cd := c + "/" + d;
    assert Join("/", [c, d]) == cd;
    var bcd := b + "/" + cd;
    assert Join("/", [b, c, d]) == bcd;
    assert bcd == b + "/" + c + "/" + d;
    assert a + "/" + bcd == a + "/" + b + "/" + c + "/" + d;
  }

  /** Joining five path segments. */
  lemma JoinFive(a: string, b: string, c: string, d: string, e: string)
    ensures Join("/", [a, b, c, d, e]) == a + "/" + b + "/" + c + "/" + d + "/" + e
  {
    assert [a, b, c, d, e][1..] == [b, c, d, e];
    JoinFour(b, c, d, e);
    var bcde := b + "/" + c + "/" + d + "/" + e;
    assert a + "/" + bcde == a + "/" + b + "/" + c + "/" + d + "/" + e;
  }

  /** A bare repository URL maps to the repository endpoint. */
  lemma {:induction false} GithubRepoUrl(owner: string, repo: string)
    requires Segment(owner) && Segment(repo)
    ensures GithubUrlToApi(GithubPrefix + owner + "/" + repo) == Some(GithubApiBase + owner + "/" + repo)
  {
    var url := GithubPrefix + owner + "/" + repo;
    assert repo[|repo| - 1] in repo;
    assert url[|url| - 1] == repo[|repo| - 1];
    assert Join("/", [owner, repo]) == owner + "/" + repo;
    assert url == GithubPrefix + Join("/", [owner, repo]);
    GithubSegments([owner, repo]);
  }

  /** An issue or pull-request URL maps to the item endpoint, with "pull"
      rewritten to "pulls" and "issues" kept. */
  lemma {:induction false} GithubItemUrl(owner: string, repo: string, kind: string, number: string)
    requires Segment(owner) && Segment(repo) && (kind == "issues" || kind == "pull")
    requires number != "" && AllDigits(number)
    ensures GithubUrlToApi(GithubPrefix + owner + "/" + repo + "/" + kind + "/" + number)
            == Some(GithubApiBase + owner + "/" + repo + "/" + (if kind == "pull" then "pulls" else "issues") + "/" + number)
  {
    var url := GithubPrefix + owner + "/" + repo + "/" + kind + "/" + number;
    assert url[|url| - 1] == number[|number| - 1];
    assert IsDigit(number[|number| - 1]);
    var parts := [owner, repo, kind, number];
    assert '/' !in kind;
    DigitsAreSegment(number);
    ItemUrlJoin(owner, repo, kind, number);
    GithubSegments(parts);
  }

  /** A trailing slash does not change the endpoint. */
  lemma GithubTrailingSlash(url: string)
    ensures GithubUrlToApi(url + "/") == GithubUrlToApi(url)
  {
    RStripAppend(url, '/');
  }

  /** A URL with any other number of path segments has no endpoint: for example
      a file inside the repository. */
  lemma {:induction false} GithubOtherShape(parts: seq<string>)
    requires |parts| != 2 && |parts| != 4 && |parts| >= 1
    requires forall i :: 0 <= i < |parts| ==> Segment(parts[i])
    ensures GithubUrlToApi(GithubPrefix + Join("/", parts)) == None
  {
    var last := parts[|parts| - 1];
    assert last[|last| - 1] in last;
    JoinEndsWith(parts);
    GithubSegments(parts);
  }

  /** Joined non-empty parts end with the last part's last character. */
  lemma {:induction false} JoinEndsWith(parts: seq<string>)
    requires |parts| >= 1 && parts[|parts| - 1] != ""
    ensures |Join("/", parts)| >= 1
    ensures Join("/", parts)[|Join("/", parts)| - 1] == parts[|parts| - 1][|parts[|parts| - 1]| - 1]
    decreases |parts|
  {
    if |parts| > 1 {
      JoinEndsWith(parts[1..]);
    }
  }

  /** A link to a file inside a repository has no endpoint. */
  lemma {:induction false} GithubFileUrlRejected(owner: string, repo: string, branch: string, file: string)
    requires Segment(owner) && Segment(repo) && Segment(branch) && Segment(file)
    ensures GithubUrlToApi(GithubPrefix + owner + "/" + repo + "/" + "blob" + "/" + branch + "/" + file) == None
  {
    var parts := [owner, repo, "blob", branch, file];
    JoinFive(owner, repo, "blob", branch, file);
    var j := owner + "/" + repo + "/" + "blob" + "/" + branch + "/" + file;
    assert GithubPrefix + owner + "/" + repo + "/" + "blob" + "/" + branch + "/" + file == GithubPrefix + j;
    GithubOtherShape(parts);
  }

  /** `get_stackoverflow_question_id`: the digit run right after the questions
      prefix; matching is anchored only at the start. */
  function StackOverflowQuestionId(url: string): (r: Option<string>)
    ensures r.Some? ==> r.value != "" && AllDigits(r.value) && StartsWith(url, StackOverflowPrefix + r.value)
    ensures !StartsWith(url, StackOverflowPrefix) ==> r.None?
  {
    if StartsWith(url, StackOverflowPrefix) then
      var d := LeadingDigits(url[|StackOverflowPrefix|..]);
      assert url[..|StackOverflowPrefix| + |d|] == StackOverflowPrefix + d;
      if d != "" then Some(d) else None
    else None
  }

  /** Whatever follows the digits (nothing, "/", "?query") is ignored. */
  lemma {:induction false} QuestionIdOf(id: string, rest: string)
    requires id != "" && AllDigits(id)
    requires rest == "" || !IsDigit(rest[0])
    ensures StackOverflowQuestionId(StackOverflowPrefix + id + rest) == Some(id)
  {
    var url := StackOverflowPrefix + id + rest;
    assert url[|StackOverflowPrefix|..] == id + rest;
    LeadingDigitsOf(id, rest);
  }

  lemma {:induction false} LeadingDigitsOf(id: string, rest: string)
    requires AllDigits(id)
    requires rest == "" || !IsDigit(rest[0])
    ensures LeadingDigits(id + rest) == id
    decreases |id|
  {
    if id != [] {
      assert (id + rest)[1..] == id[1..] + rest;
      LeadingDigitsOf(id[1..], rest);
      assert id == [id[0]] + id[1..];
    } else {
      assert id + rest == rest;
    }
  }

  /** `get_stackoverflow_info_api_url` */
  function StackOverflowInfoApiUrl(url: string): (r: Option<string>)
    ensures r.None? <==> StackOverflowQuestionId(url).None?
    ensures r.Some? ==> r.value == StackExchangeBase + StackOverflowQuestionId(url).value + "?site=stackoverflow"
  {
    match StackOverflowQuestionId(url)
    case None => None
    case Some(id) => Some(StackExchangeBase + id + "?site=stackoverflow")
  }

  /** `get_stackoverflow_last_answer_api_url` */
  function StackOverflowLastAnswerApiUrl(url: string): (r: Option<string>)
    ensures r.None? <==> StackOverflowQuestionId(url).None?
    ensures r.Some? ==> r.value == StackExchangeBase + StackOverflowQuestionId(url).value
                                   + "/answers?order=desc&sort=creation&site=stackoverflow&filter=withbody"
  {
    match StackOverflowQuestionId(url)
    case None => None
    case Some(id) => Some(StackExchangeBase + id + "/answers?order=desc&sort=creation&site=stackoverflow&filter=withbody")
  }

  /** `get_stackoverflow_comments_api_url` */
  function StackOverflowCommentsApiUrl(url: string): (r: Option<string>)
    ensures r.None? <==> StackOverflowQuestionId(url).None?
    ensures r.Some? ==> r.value == StackExchangeBase + StackOverflowQuestionId(url).value
                                   + "/comments?order=desc&sort=creation&site=stackoverflow&filter=withbody"
  {
    match StackOverflowQuestionId(url)
    case None => None
    case Some(id) => Some(StackExchangeBase + id + "/comments?order=desc&sort=creation&site=stackoverflow&filter=withbody")
  }

  /** A question URL, with or without a trailing part, gets the info endpoint
      of its question id. */
  lemma {:induction false} StackOverflowInfoOf(id: string, rest: string)
    requires id != "" && AllDigits(id)
    requires rest == "" || !IsDigit(rest[0])
    ensures StackOverflowInfoApiUrl(StackOverflowPrefix + id + rest) == Some(StackExchangeBase + id + "?site=stackoverflow")
  {
    QuestionIdOf(id, rest);
  }

  /** `json_data.get("items")` of a decoded response, when it is an object. */
  function Items(data: Json): Option<Json> {
    if data.JObj? && "items" in data.fields then Some(data.fields["items"]) else None
  }

  /** `get_first_item`: the head of a non-empty "items" list, or nothing for a
      missing response, an empty one, or a missing or empty list. */
  function GetFirstItem(data: Option<Json>): (r: Option<Json>)
    ensures r.Some? <==> data.Some? && Items(data.value).Some? && Items(data.value).value.JArr?
                         && Items(data.value).value.items != []
    ensures r.Some? ==> r.value == Items(data.value).value.items[0]
  {
    if data.None? || !Truthy(data.value) then None
    else match Items(data.value)
      case None => None
      case Some(items) =>
        if !Truthy(items) || !items.JArr? then None else Some(items.items[0])
  }

  /** An item that Python's `not item` treats as missing. */
  predicate Absent(item: Option<Json>) {
    item.None? || !Truthy(item.value)
  }

  /** The fields of an item that is an object (an empty map otherwise). */
  function Fields(item: Json): map<string, Json> {
    if item.JObj? then item.fields else map[]
  }

  /** `item.get("creation_date", 0)` */
  function CreationDate(item: Json): int {
    GetInt(Fields(item), "creation_date", 0)
  }

  /** `pick_latest`: the newer of an answer and a comment; a comment wins only
      when it is strictly newer, so ties keep the answer. */
  function PickLatest(a: Option<Json>, b: Option<Json>): (r: Option<Json>)
    ensures r.None? <==> Absent(a) && Absent(b)
    ensures r.Some? ==> !Absent(r) && (r == a || r == b)
    ensures !Absent(a) && Absent(b) ==> r == a
    ensures Absent(a) && !Absent(b) ==> r == b
    ensures !Absent(a) && !Absent(b) ==>
              CreationDate(r.value) >= CreationDate(a.value) && CreationDate(r.value) >= CreationDate(b.value)
              && (CreationDate(a.value) >= CreationDate(b.value) ==> r == a)
  {
    if Absent(a) && Absent(b) then None
    else if Absent(a) then b
    else if Absent(b) then a
    else if CreationDate(b.value) > CreationDate(a.value) then b
    else a
  }

  /** The preview: bodies longer than 200 characters are cut to their first 200
      characters followed by "...". */
  function Preview(body: string): (r: string)
    ensures |body| <= PreviewMaxLength ==> r == body
    ensures |body| > PreviewMaxLength ==>
              (|r| == PreviewMaxLength + 3 && r[..PreviewMaxLength] == body[..PreviewMaxLength]
               && r[PreviewMaxLength..] == "...")
    ensures |r| <= PreviewMaxLength + 3
  {
    if |body| > PreviewMaxLength then body[..PreviewMaxLength] + "..." else body
  }

  /** `get_stackoverflow_last_link_upd`, given the provider's answers: the
      question supplies the title, the newer of the latest answer and the latest
      comment supplies author, time and preview. */
  function StackOverflowLastLinkUpd(url: string, get: string -> Option<Json>, displayTime: int -> string): (r: Option<UpdateInfo>)
    ensures r.Some? ==> StackOverflowQuestionId(url).Some?
    ensures r.Some? ==> |r.value.preview| <= PreviewMaxLength + 3
  {
    match StackOverflowInfoApiUrl(url)
    case None => None
    case Some(questionApiUrl) =>
      var infoItem := GetFirstItem(get(questionApiUrl));
      if Absent(infoItem) then None
      else
        var title := GetStr(Fields(infoItem.value), "title", "");
        var latestAnswer := GetFirstItem(get(StackOverflowLastAnswerApiUrl(url).value));
        var latestComment := GetFirstItem(get(StackOverflowCommentsApiUrl(url).value));
        match PickLatest(latestAnswer, latestComment)
        case None => None
        case Some(latest) =>
          Some(UpdateInfo(
            title := title,
            userName := GetStr(GetObj(Fields(latest), "owner"), "display_name", "Unknown"),
            creationDate := displayTime(CreationDate(latest)),
            preview := Preview(GetStr(Fields(latest), "body", ""))))
  }

  const GithubIssuesListing := "/issues?state=all&sort=created&direction=desc"
  const GithubCommentsQuery := "/comments?sort=created&direction=desc"

  /** `get_github_api_url`: the endpoint to query and whether the URL names one
      issue or pull request (prefix matches, so anything after is ignored). */
  function GithubApiUrl(url: string): (r: (Option<string>, bool))
    ensures r.1 ==> r.0.Some?
    ensures r.0.Some? ==> StartsWith(url, GithubPrefix) && StartsWith(r.0.value, GithubApiBase)
  {
    if !StartsWith(url, GithubPrefix) then (None, false)
    else
      var segs := Split(url[|GithubPrefix|..], '/');
      if |segs| >= 4 && segs[0] != "" && segs[1] != "" && (segs[2] == "issues" || segs[2] == "pull")
         && LeadingDigits(segs[3]) != "" then
        (Some(GithubApiBase + segs[0] + "/" + segs[1] + "/" + ApiItemType(segs[2]) + "/" + LeadingDigits(segs[3])), true)
      else if |segs| >= 2 && segs[0] != "" && segs[1] != "" then
        (Some(GithubApiBase + segs[0] + "/" + segs[1] + GithubIssuesListing), false)
      else (None, false)
  }

  /** The two GitHub classifiers agree on an item URL: both give the item
      endpoint, and it is reported as direct. */
  lemma {:induction false} GithubClassifiersAgreeOnItem(owner: string, repo: string, kind: string, number: string)
    requires Segment(owner) && Segment(repo) && (kind == "issues" || kind == "pull")
    requires number != "" && AllDigits(number)
    ensures var item := GithubPrefix + owner + "/" + repo + "/" + kind + "/" + number;
            GithubApiUrl(item) == (GithubUrlToApi(item), true)
  {
    GithubItemUrl(owner, repo, kind, number);
    GithubApiUrlOfItem(owner, repo, kind, number);
  }

  lemma {:induction false} GithubApiUrlOfItem(owner: string, repo: string, kind: string, number: string)
    requires Segment(owner) && Segment(repo) && (kind == "issues" || kind == "pull")
    requires number != "" && AllDigits(number)
    ensures GithubApiUrl(GithubPrefix + owner + "/" + repo + "/" + kind + "/" + number)
            == (Some(GithubApiBase + owner + "/" + repo + "/" + (if kind == "pull" then "pulls" else "issues") + "/" + number), true)
  {
    var parts := [owner, repo, kind, number];
    DigitsAreSegment(number);
    ItemUrlJoin(owner, repo, kind, number);
    GithubSegments(parts);
    LeadingDigitsOf(number, "");
    assert number + "" == number;
    var item := GithubPrefix + owner + "/" + repo + "/" + kind + "/" + number;
    var segs := Split(item[|GithubPrefix|..], '/');
    assert segs == parts;
    assert segs[0] == owner && segs[1] == repo && segs[2] == kind && segs[3] == number;
    assert LeadingDigits(segs[3]) == number;
  }

  /** A non-empty run of digits is a path segment. */
  lemma DigitsAreSegment(number: string)
    requires number != "" && AllDigits(number)
    ensures Segment(number)
  {
    forall i | 0 <= i < |number| ensures number[i] != '/' { assert IsDigit(number[i]); }
  }

  /** An item URL is the GitHub prefix followed by its four joined segments. */
  lemma ItemUrlJoin(owner: string, repo: string, kind: string, number: string)
    ensures GithubPrefix + owner + "/" + repo + "/" + kind + "/" + number
            == GithubPrefix + Join("/", [owner, repo, kind, number])
  {
    JoinFour(owner, repo, kind, number);
  }

  /** On a repository URL, the listing classifier asks for the repository's
      issues below the endpoint the other classifier gives. */
  lemma {:induction false} GithubClassifiersAgreeOnRepo(owner: string, repo: string)
    requires Segment(owner) && Segment(repo)
    ensures var bare := GithubPrefix + owner + "/" + repo;
            GithubUrlToApi(bare) == Some(GithubApiBase + owner + "/" + repo)
            && GithubApiUrl(bare) == (Some(GithubApiBase + owner + "/" + repo + GithubIssuesListing), false)
  {
    GithubRepoUrl(owner, repo);
    GithubApiUrlOfRepo(owner, repo);
  }

  lemma {:induction false} GithubApiUrlOfRepo(owner: string, repo: string)
    requires Segment(owner) && Segment(repo)
    ensures GithubApiUrl(GithubPrefix + owner + "/" + repo)
            == (Some(GithubApiBase + owner + "/" + repo + GithubIssuesListing), false)
  {
    assert Join("/", [owner, repo]) == owner + "/" + repo;
    GithubSegments([owner, repo]);
    var bare := GithubPrefix + owner + "/" + repo;
    assert bare == GithubPrefix + Join("/", [owner, repo]);
    assert Split(bare[|GithubPrefix|..], '/') == [owner, repo];
  }

  /** `get_github_last_link_update`, given the provider's answers. For an issue
      or pull request the preview is the newest comment (empty without one);
      for a repository it is the body of the newest issue or pull request. */
  function GithubLastLinkUpdate(url: string, get: string -> Option<Json>, displayTime: string -> string): (r: Option<UpdateInfo>)
    ensures r.Some? ==> GithubApiUrl(url).0.Some? && get(GithubApiUrl(url).0.value).Some?
    ensures r.Some? ==> |r.value.preview| <= PreviewMaxLength + 3
  {
    var (apiUrl, isDirect) := GithubApiUrl(url);
    if apiUrl.None? then None
    else match get(apiUrl.value)
      case None => None
      case Some(data) =>
        if !Truthy(data) then None
        else if !isDirect && !data.JArr? then None
        else
          var latest := if isDirect then data else data.items[0];
          var preview :=
            if isDirect then
              match get(apiUrl.value + GithubCommentsQuery)
              case Some(JArr(comments)) => if comments != [] then GetStr(Fields(comments[0]), "body", "") else ""
              case _ => ""
            else GetStr(Fields(latest), "body", "");
          Some(UpdateInfo(
            title := GetStr(Fields(latest), "title", ""),
            userName := GetStr(GetObj(Fields(latest), "user"), "login", "Unknown"),
            creationDate := displayTime(GetStr(Fields(latest), "created_at", "")),
            preview := Preview(preview)))
  }

  /** `_remove_unsafe_bytes_from_url`: tabs, carriage returns and newlines are dropped. */
  function RemoveUnsafe(s: string): (r: string)
    ensures '\t' !in r && '\r' !in r && '\n' !in r
    ensures ('\t' !in s && '\r' !in s && '\n' !in s) ==> r == s
    decreases |s|
  {
    if s == [] then ""
    else
      var rest := RemoveUnsafe(s[1..]);
      assert ('\t' !in s && '\r' !in s && '\n' !in s) ==> ('\t' !in s[1..] && '\r' !in s[1..] && '\n' !in s[1..]);
      if s[0] == '\t' || s[0] == '\r' || s[0] == '\n' then rest
      else
        assert s == [s[0]] + s[1..];
        [s[0]] + rest
  }

  /** `url.lstrip(_WHATWG_C0_CONTROL_OR_SPACE)` */
  function StripLeadingControls(s: string): (r: string)
    ensures r == [] || r[0] > ' '
    ensures |s| > 0 && s[0] > ' ' ==> r == s
    decreases |s|
  {
    if s != [] && s[0] <= ' ' then StripLeadingControls(s[1..]) else s
  }

  predicate IsAsciiLetter(c: char) { 'a' <= c <= 'z' || 'A' <= c <= 'Z' }

  predicate IsSchemeChar(c: char) { IsAsciiLetter(c) || IsDigit(c) || c == '+' || c == '-' || c == '.' }

  /** What `urlsplit` leaves after removing a scheme ("https:" and the like). */
  function AfterScheme(u: string): string {
    var i := Find(u, ':');
    if i > 0 && IsAsciiLetter(u[0]) && forall k :: 0 <= k < i ==> IsSchemeChar(u[k]) then u[i + 1..] else u
  }

  /** Index of the first '/', '?' or '#', or the length when there is none. */
  function NetLocEnd(s: string): (n: nat)
    ensures n <= |s|
    ensures forall k :: 0 <= k < n ==> s[k] != '/' && s[k] != '?' && s[k] != '#'
    ensures n < |s| ==> s[n] == '/' || s[n] == '?' || s[n] == '#'
    decreases |s|
  {
    if s == [] || s[0] == '/' || s[0] == '?' || s[0] == '#' then 0 else 1 + NetLocEnd(s[1..])
  }

  /** `urlparse(url).netloc`: the authority after "//", up to the first '/', '?' or '#'. */
  function NetLoc(url: string): (host: string)
    ensures '/' !in host && '?' !in host && '#' !in host
  {
    var u := AfterScheme(StripLeadingControls(RemoveUnsafe(url)));
    if StartsWith(u, "//") then u[2..][..NetLocEnd(u[2..])] else ""
  }

  /** A scheme of letters is removed together with its colon. */
  lemma {:induction false} AfterSchemeOf(scheme: string, rest: string)
    requires scheme != "" && IsAsciiLetter(scheme[0])
    requires forall k :: 0 <= k < |scheme| ==> IsAsciiLetter(scheme[k])
    ensures AfterScheme(scheme + ":" + rest) == rest
  {
    var u := scheme + ":" + rest;
    assert ':' !in scheme by {
      forall k | 0 <= k < |scheme| ensures scheme[k] != ':' { assert IsAsciiLetter(scheme[k]); }
    }
    FindFirst(scheme, rest, ':');
    assert u == scheme + [':'] + rest;
    assert u[..|scheme|] == scheme;
  }

  /** The host of an https URL is the part between "//" and the path. */
  lemma {:induction false} NetLocOfHttps(host: string, path: string)
    requires '/' !in host && '?' !in host && '#' !in host
    requires '\t' !in host && '\r' !in host && '\n' !in host
    requires '\t' !in path && '\r' !in path && '\n' !in path
    requires path == "" || path[0] == '/' || path[0] == '?' || path[0] == '#'
    ensures NetLoc("https://" + host + path) == host
  {
    var url := "https://" + host + path;
    var rest := "//" + host + path;
    CleanHttpsUrl(host, path);
    HttpsSplits(host, path);
    AfterSchemeOf("https", rest);
    AuthorityOf(host, path);
  }

  lemma CleanHttpsUrl(host: string, path: string)
    requires '\t' !in host && '\r' !in host && '\n' !in host
    requires '\t' !in path && '\r' !in path && '\n' !in path
    ensures var url := "https://" + host + path; StripLeadingControls(RemoveUnsafe(url)) == url
  {
    var url := "https://" + host + path;
    assert '\t' !in url && '\r' !in url && '\n' !in url;
    assert RemoveUnsafe(url) == url;
    assert url[0] == 'h';
  }

  lemma HttpsSplits(host: string, path: string)
    ensures "https://" + host + path == "https" + ":" + ("//" + host + path)
  {
  }

  lemma {:induction false} AuthorityOf(host: string, path: string)
    requires '/' !in host && '?' !in host && '#' !in host
    requires path == "" || path[0] == '/' || path[0] == '?' || path[0] == '#'
    ensures var u := "//" + host + path; StartsWith(u, "//") && u[2..][..NetLocEnd(u[2..])] == host
  {
    var rest := "//" + host + path;
    assert rest[2..] == host + path;
    NetLocEndOf(host, path);
  }

  lemma {:induction false} NetLocEndOf(host: string, path: string)
    requires '/' !in host && '?' !in host && '#' !in host
    requires path == "" || path[0] == '/' || path[0] == '?' || path[0] == '#'
    ensures NetLocEnd(host + path) == |host| && (host + path)[..|host|] == host
    decreases |host|
  {
    if host != [] {
      assert host[0] in host;
      assert (host + path)[1..] == host[1..] + path;
      assert '/' !in host[1..] && '?' !in host[1..] && '#' !in host[1..] by {
        forall k | 0 <= k < |host[1..]| ensures host[1..][k] == host[k + 1] { }
      }
      NetLocEndOf(host[1..], path);
    } else {
      assert host + path == path;
    }
  }

  /** `check_last_update`: the provider is chosen by the host, GitHub first;
      other hosts and a provider without an answer give nothing, and an answer
      is kept only when the notification-window gate `isNew` accepts it. */
  function CheckLastUpdate(url: string, get: string -> Option<Json>, githubTime: string -> string,
                           stackOverflowTime: int -> string, isNew: UpdateInfo -> bool): (r: Option<UpdateInfo>)
    ensures !Contains(NetLoc(url), "github.com") && !Contains(NetLoc(url), "stackoverflow.com") ==> r.None?
    ensures r.Some? ==> isNew(r.value)
    ensures r.Some? && Contains(NetLoc(url), "github.com") ==> r == GithubLastLinkUpdate(url, get, githubTime)
    ensures r.Some? && !Contains(NetLoc(url), "github.com") ==> r == StackOverflowLastLinkUpd(url, get, stackOverflowTime)
    ensures Contains(NetLoc(url), "github.com") && GithubLastLinkUpdate(url, get, githubTime).None? ==> r.None?
    ensures !Contains(NetLoc(url), "github.com") && StackOverflowLastLinkUpd(url, get, stackOverflowTime).None? ==> r.None?
    ensures Contains(NetLoc(url), "github.com") && GithubLastLinkUpdate(url, get, githubTime).Some?
            && isNew(GithubLastLinkUpdate(url, get, githubTime).value)
            ==> r == GithubLastLinkUpdate(url, get, githubTime)
    ensures !Contains(NetLoc(url), "github.com") && Contains(NetLoc(url), "stackoverflow.com")
            && StackOverflowLastLinkUpd(url, get, stackOverflowTime).Some?
            && isNew(StackOverflowLastLinkUpd(url, get, stackOverflowTime).value)
            ==> r == StackOverflowLastLinkUpd(url, get, stackOverflowTime)
  {
    var domain := NetLoc(url);
    var lastLinkUpdate :=
      if Contains(domain, "github.com") then GithubLastLinkUpdate(url, get, githubTime)
      else if Contains(domain, "stackoverflow.com") then StackOverflowLastLinkUpd(url, get, stackOverflowTime)
      else None;
    if lastLinkUpdate.Some? && isNew(lastLinkUpdate.value) then lastLinkUpdate else None
  }

  /** A StackOverflow URL is routed to the StackOverflow provider, whatever its
      path: `/questions/<id>`, `/questions/<id>/<slug>`, or a query. */
  lemma StackOverflowUrlRouted(path: string, get: string -> Option<Json>, githubTime: string -> string,
                               stackOverflowTime: int -> string, isNew: UpdateInfo -> bool)
    requires '\t' !in path && '\r' !in path && '\n' !in path
    requires path == "" || path[0] == '/' || path[0] == '?' || path[0] == '#'
    ensures var url := "https://stackoverflow.com" + path;
            var so := StackOverflowLastLinkUpd(url, get, stackOverflowTime);
            CheckLastUpdate(url, get, githubTime, stackOverflowTime, isNew)
            == (if so.Some? && isNew(so.value) then so else None)
  {
    var url := "https://stackoverflow.com" + path;
    StackOverflowHostOf(path);
    StackOverflowRouting(url, get, githubTime, stackOverflowTime, isNew);
  }

  /** The host of a StackOverflow URL. */
  lemma StackOverflowHostOf(path: string)
    requires '\t' !in path && '\r' !in path && '\n' !in path
    requires path == "" || path[0] == '/' || path[0] == '?' || path[0] == '#'
    ensures Contains(NetLoc("https://stackoverflow.com" + path), "stackoverflow.com")
    ensures !Contains(NetLoc("https://stackoverflow.com" + path), "github.com")
  {
    StackOverflowNetLoc(path);
    StackOverflowHostRouting();
  }

  lemma StackOverflowNetLoc(path: string)
    requires '\t' !in path && '\r' !in path && '\n' !in path
    requires path == "" || path[0] == '/' || path[0] == '?' || path[0] == '#'
    ensures NetLoc("https://stackoverflow.com" + path) == "stackoverflow.com"
  {
    StackOverflowHostClean();
    StackOverflowUrlSplits(path);
    NetLocOfHttps("stackoverflow.com", path);
  }

  lemma StackOverflowUrlSplits(path: string)
    ensures "https://stackoverflow.com" + path == "https://" + "stackoverflow.com" + path
  {
  }

  /** A host naming StackOverflow and not GitHub is served by the StackOverflow provider. */
  lemma StackOverflowRouting(url: string, get: string -> Option<Json>, githubTime: string -> string,
                             stackOverflowTime: int -> string, isNew: UpdateInfo -> bool)
    requires Contains(NetLoc(url), "stackoverflow.com") && !Contains(NetLoc(url), "github.com")
    ensures var so := StackOverflowLastLinkUpd(url, get, stackOverflowTime);
            CheckLastUpdate(url, get, githubTime, stackOverflowTime, isNew)
            == (if so.Some? && isNew(so.value) then so else None)
  {
  }

  /** The StackOverflow host names the StackOverflow provider and not GitHub. */
  lemma StackOverflowHostRouting()
    ensures Contains("stackoverflow.com", "stackoverflow.com") && !Contains("stackoverflow.com", "github.com")
  {
    ContainsAt("stackoverflow.com", "stackoverflow.com", 0);
    assert "github.com"[0] == 'g';
    NotContainsWithoutFirstChar("stackoverflow.com", "github.com");
  }

  /** A question URL, with any trailing slug or query, is routed there. */
  lemma StackOverflowQuestionRouted(id: string, rest: string, get: string -> Option<Json>, githubTime: string -> string,
                                    stackOverflowTime: int -> string, isNew: UpdateInfo -> bool)
    requires AllDigits(id)
    requires '\t' !in rest && '\r' !in rest && '\n' !in rest
    ensures var url := StackOverflowPrefix + id + rest;
            var so := StackOverflowLastLinkUpd(url, get, stackOverflowTime);
            CheckLastUpdate(url, get, githubTime, stackOverflowTime, isNew)
            == (if so.Some? && isNew(so.value) then so else None)
  {
    var path := "/questions/" + id + rest;
    assert '\t' !in id && '\r' !in id && '\n' !in id by {
      forall k | 0 <= k < |id| ensures IsDigit(id[k]) { }
    }
    assert StackOverflowPrefix + id + rest == "https://stackoverflow.com" + path;
    StackOverflowUrlRouted(path, get, githubTime, stackOverflowTime, isNew);
  }

  lemma StackOverflowHostClean()
    ensures var host := "stackoverflow.com";
            '/' !in host && '?' !in host && '#' !in host && '\t' !in host && '\r' !in host && '\n' !in host
  {
  }

  /** A GitHub URL is routed to the GitHub provider. */
  lemma GithubUrlRouted(path: string, get: string -> Option<Json>, githubTime: string -> string,
                        stackOverflowTime: int -> string, isNew: UpdateInfo -> bool)
    requires '\t' !in path && '\r' !in path && '\n' !in path
    ensures var url := GithubPrefix + path;
            var gh := GithubLastLinkUpdate(url, get, githubTime);
            CheckLastUpdate(url, get, githubTime, stackOverflowTime, isNew)
            == (if gh.Some? && isNew(gh.value) then gh else None)
  {
    GithubUrlParts(path);
    GithubHostClean();
    NetLocOfHttps("github.com", "/" + path);
    ContainsAt("github.com", "github.com", 0);
    assert Contains(NetLoc(GithubPrefix + path), "github.com");
  }

  lemma GithubUrlParts(path: string)
    requires '\t' !in path && '\r' !in path && '\n' !in path
    ensures GithubPrefix + path == "https://" + "github.com" + ("/" + path)
    ensures '\t' !in "/" + path && '\r' !in "/" + path && '\n' !in "/" + path
    ensures ("/" + path)[0] == '/'
  {
    assert GithubPrefix == "https://" + "github.com" + "/";
  }

  lemma GithubHostClean()
    ensures var host := "github.com";
            '/' !in host && '?' !in host && '#' !in host && '\t' !in host && '\r' !in host && '\n' !in host
  {
  }
}
