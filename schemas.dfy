/** The records exchanged between the scrapper service, the bot and the store
    (the pydantic models of src/api/schemas/schemas.py), and the JSON values the
    providers answer with. */
module Schemas {
  import opened Wrappers

  /** The latest activity on a tracked resource, ready to be described. */
  datatype UpdateInfo = UpdateInfo(title: string, userName: string, creationDate: string, preview: string)

  /** One detected update, addressed to one chat. */
  datatype LinkUpdate = LinkUpdate(id: int, url: string, description: string, tgChatId: int)

  /** One tracked link as the API reports it. */
  datatype LinkResponse = LinkResponse(id: int, url: string, tags: seq<string>, filters: seq<string>)

  datatype AddLinkRequest = AddLinkRequest(url: string, tags: seq<string>, filters: seq<string>)

  datatype ListLinksResponse = ListLinksResponse(links: seq<LinkResponse>, size: int)

  /** A decoded JSON document. */
  datatype Json =
    | JNull
    | JBool(b: bool)
    | JInt(i: int)
    | JStr(s: string)
    | JArr(items: seq<Json>)
    | JObj(fields: map<string, Json>)

  /** Python truthiness of a decoded JSON value: `None`, `False`, `0`, `""`,
      `[]` and `{}` are false. */
  predicate Truthy(j: Json) {
    match j
    case JNull => false
    case JBool(b) => b
    case JInt(i) => i != 0
    case JStr(s) => s != ""
    case JArr(a) => a != []
    case JObj(m) => m != map[]
  }

  /** `obj.get(key, default)` where the value is a string; a value of another
      JSON type is read as the default. */
  function GetStr(obj: map<string, Json>, key: string, default: string): (r: string)
    ensures key !in obj ==> r == default
    ensures key in obj && obj[key].JStr? ==> r == obj[key].s
    ensures key in obj && !obj[key].JStr? ==> r == default
  {
    if key in obj && obj[key].JStr? then obj[key].s else default
  }

  /** `obj.get(key, default)` where the value is an integer; a value of another
      JSON type is read as the default. */
  function GetInt(obj: map<string, Json>, key: string, default: int): (r: int)
    ensures key !in obj ==> r == default
    ensures key in obj && obj[key].JInt? ==> r == obj[key].i
    ensures key in obj && !obj[key].JInt? ==> r == default
  {
    if key in obj && obj[key].JInt? then obj[key].i else default
  }

  /** `obj.get(key, {})`: a nested object, or the empty one; a value of
      another JSON type is read as the empty object. */
  function GetObj(obj: map<string, Json>, key: string): (r: map<string, Json>)
    ensures key !in obj ==> r == map[]
    ensures key in obj && obj[key].JObj? ==> r == obj[key].fields
    ensures key in obj && !obj[key].JObj? ==> r == map[]
  {
    if key in obj && obj[key].JObj? then obj[key].fields else map[]
  }
}
