/**
 * The endpoint catalogue of APIEndpoint.swift. Every endpoint answers four
 * questions: its path, its HTTP method, its static headers and whether it
 * needs a bearer token. The protocol extension supplies defaults (GET,
 * token required, `Accept: application/json`, URL = server base + path),
 * and each case overrides some of them. `BareUrlEndpoint` stores all four
 * itself, its URL included.
 */
module Endpoints {
  import opened Wrappers
  import opened Http
  import Decimal
  import opened FilterModel

  datatype AuthCase = Login | Register

  datatype ItemCase =
    | SaveItem
    | UpdateItem
    | UpdateImage
    | LoadImage
    | FetchImage(itemId: int)
    | FetchItem(page: int, filter: SearchFilter)

  datatype ChatCase = CreateChat | SendMessage | GetMessages | GetChats

  datatype Endpoint =
    | BareUrl(storedUrl: string, storedAuth: bool, storedHeaders: seq<Header>, storedMethod: HttpMethod)
    | AuthEndpoint(auth: AuthCase)
    | CategoryEndpoint
    | LocationEndpoint
    | StatusEndpoint
    | ProfileEndpoint(userId: int)
    | ItemEndpoint(item: ItemCase)
    | ChatEndpoint(chat: ChatCase)

  const BaseUrl := "http://127.0.0.1:8083/"

  /** The headers an endpoint sends unless it says otherwise. */
  const DefaultHeaders := [Accept("application/json")]

  /** `BareUrlEndpoint(urlString:authRequired:headers:method:)` with its default arguments. */
  function MakeBareUrl(urlString: string, authRequired: bool := true,
                       headers: seq<Header> := DefaultHeaders, httpMethod: HttpMethod := Get): (e: Endpoint)
    ensures e.BareUrl?
  {
    BareUrl(urlString, authRequired, headers, httpMethod)
  }

  const AuthBase := "api/v1/auth/"
  const ItemBase := "api/v1/item/"
  const UserBase := "api/v1/user/"
  const ImageDownloadBase := "api/v1/objects/download?itemId="
  const SearchBase := "api/v1/item/search?"
  const PageKey := "&page="
  const ChatBase := "chat/"

  function ChatName(c: ChatCase): string {
    match c
    case CreateChat => "create_chat"
    case SendMessage => "send_message"
    case GetMessages => "get_messages"
    case GetChats => "get_chats"
  }

  /** `getEndpoint()` */
  function GetEndpoint(e: Endpoint): string {
    match e
    case BareUrl(_, _, _, _) => ""
    case AuthEndpoint(c) => AuthBase + (if c == Login then "login" else "register")
    case CategoryEndpoint => "api/v1/category/all"
    case LocationEndpoint => "api/v1/location/all"
    case StatusEndpoint => "api/v1/status/all"
    case ProfileEndpoint(id) => UserBase + Decimal.IntToString(id)
    case ItemEndpoint(c) =>
      (match c
       case UpdateItem => ItemBase + "update"
       case SaveItem => ItemBase + "create"
       case LoadImage => "api/v1/objects"
       case UpdateImage => "api/v1/objects/update"
       case FetchImage(itemId) => ImageDownloadBase + Decimal.IntToString(itemId)
       case FetchItem(page, filter) => SearchBase + Query(filter) + PageKey + Decimal.IntToString(page))
    case ChatEndpoint(c) => ChatBase + ChatName(c)
  }

  /** `urlString`: the stored string of a bare endpoint, otherwise the server base followed by the path. */
  function UrlString(e: Endpoint): string {
    if e.BareUrl? then e.storedUrl else BaseUrl + GetEndpoint(e)
  }

  /** `method` */
  function Method(e: Endpoint): HttpMethod {
    match e
    case BareUrl(_, _, _, m) => m
    case AuthEndpoint(_) => Post
    case ItemEndpoint(c) => if c.FetchImage? || c.FetchItem? then Get else Post
    case ChatEndpoint(_) => Post
    case _ => Get
  }

  /** `authRequired` */
  predicate AuthRequired(e: Endpoint) {
    match e
    case BareUrl(_, a, _, _) => a
    case AuthEndpoint(_) => false
    case _ => true
  }

  /** `headers` */
  function Headers(e: Endpoint): seq<Header> {
    match e
    case BareUrl(_, _, hs, _) => hs
    case ItemEndpoint(c) =>
      if c.FetchImage? then []
      else if c == LoadImage || c == UpdateImage then [Accept("*/*"), ContentType("multipart/form-data")]
      else DefaultHeaders
    case _ => DefaultHeaders
  }

  /** The four requirements of the `Endpoint` protocol, which is all the client sees of an endpoint. */
  datatype Target = Target(urlString: string, httpMethod: HttpMethod, headers: seq<Header>, authRequired: bool)

  /**
   * What the client learns of an endpoint: a bare endpoint reports what it
   * stores; any other lives under the server base, needs a token unless it
   * is an auth endpoint, and is fetched by GET exactly when it only reads.
   */
  function Describe(e: Endpoint): (t: Target)
    ensures e.BareUrl? ==> t == Target(e.storedUrl, e.storedMethod, e.storedHeaders, e.storedAuth)
    ensures !e.BareUrl? ==> t.urlString == BaseUrl + GetEndpoint(e)
    ensures !e.BareUrl? ==> (t.authRequired <==> !e.AuthEndpoint?)
    ensures !e.BareUrl? ==>
              (t.httpMethod == Get <==>
                 || e.CategoryEndpoint? || e.LocationEndpoint? || e.StatusEndpoint? || e.ProfileEndpoint?
                 || (e.ItemEndpoint? && (e.item.FetchImage? || e.item.FetchItem?)))
    ensures !e.BareUrl? && t.httpMethod != Get ==> t.httpMethod == Post
  {
    Target(UrlString(e), Method(e), Headers(e), AuthRequired(e))
  }

  /** `AuthEndpoint.login` as the client sees it. */
  const LoginTarget := Target(BaseUrl + AuthBase + "login", Post, DefaultHeaders, false)

  lemma LoginTargetDescribesLogin()
    ensures Describe(AuthEndpoint(Login)) == LoginTarget
  {
  }

  /** A bare endpoint built with only a URL uses that URL verbatim and the protocol defaults for the rest. */
  lemma BareUrlDefaults(url: string)
    ensures UrlString(MakeBareUrl(url)) == url && GetEndpoint(MakeBareUrl(url)) == ""
    ensures Method(MakeBareUrl(url)) == Get && AuthRequired(MakeBareUrl(url))
    ensures Headers(MakeBareUrl(url)) == DefaultHeaders
  {
  }

  /** Every endpoint other than a bare one lives under the server base, and its path is what follows it. */
  lemma UrlIsBasePlusPath(e: Endpoint)
    requires !e.BareUrl?
    ensures |UrlString(e)| > |BaseUrl| && UrlString(e)[..|BaseUrl|] == BaseUrl
    ensures UrlString(e)[|BaseUrl|..] == GetEndpoint(e)
  {
  }

  /** The category, location, status and profile endpoints keep every default. */
  lemma LookupEndpointsUseDefaults(e: Endpoint)
    requires e.CategoryEndpoint? || e.LocationEndpoint? || e.StatusEndpoint? || e.ProfileEndpoint?
    ensures Method(e) == Get && AuthRequired(e) && Headers(e) == DefaultHeaders
  {
  }

  /** Login and registration are POSTs that need no token, under the auth base. */
  lemma AuthEndpointsArePublic(c: AuthCase)
    ensures Method(AuthEndpoint(c)) == Post && !AuthRequired(AuthEndpoint(c))
    ensures Headers(AuthEndpoint(c)) == DefaultHeaders
    ensures GetEndpoint(AuthEndpoint(Login)) == "api/v1/auth/login"
    ensures GetEndpoint(AuthEndpoint(Register)) == "api/v1/auth/register"
  {
  }

  /** Only the two downloads among the item endpoints are GETs; all item endpoints need a token. */
  lemma ItemMethods(c: ItemCase)
    ensures Method(ItemEndpoint(c)) == Get <==> c.FetchImage? || c.FetchItem?
    ensures Method(ItemEndpoint(c)) != Get ==> Method(ItemEndpoint(c)) == Post
    ensures AuthRequired(ItemEndpoint(c))
  {
  }

  /** The image download sends no headers, the uploads announce multipart, the rest ask for JSON. */
  lemma ItemHeaders(c: ItemCase)
    ensures Headers(ItemEndpoint(c)) == [] <==> c.FetchImage?
    ensures c == LoadImage || c == UpdateImage ==>
              Headers(ItemEndpoint(c)) == [Accept("*/*"), ContentType("multipart/form-data")]
    ensures c == SaveItem || c == UpdateItem || c.FetchItem? ==> Headers(ItemEndpoint(c)) == DefaultHeaders
  {
  }

  /** Every chat endpoint is a token-guarded POST under `chat/`, and no two share a path. */
  lemma ChatEndpointsArePosts(c: ChatCase, d: ChatCase)
    ensures Method(ChatEndpoint(c)) == Post && AuthRequired(ChatEndpoint(c))
    ensures GetEndpoint(ChatEndpoint(c)) == ChatBase + ChatName(c)
    ensures GetEndpoint(ChatEndpoint(c))[..|ChatBase|] == ChatBase
    ensures GetEndpoint(ChatEndpoint(c)) == GetEndpoint(ChatEndpoint(d)) <==> c == d
  {
    var p, q := GetEndpoint(ChatEndpoint(c)), GetEndpoint(ChatEndpoint(d));
    if c != d {
      assert p[5..] == ChatName(c) && q[5..] == ChatName(d);
      assert ChatName(c)[|ChatName(c)| - 4..] != ChatName(d)[|ChatName(d)| - 4..] || ChatName(c)[0] != ChatName(d)[0];
    }
  }

  /** The profile path and the image-download path end in the decimal id, which reads back as the id. */
  lemma ProfileAndImageIdsReadBack(userId: int, itemId: int)
    ensures var p := GetEndpoint(ProfileEndpoint(userId));
            |p| > |UserBase| && p[..|UserBase|] == UserBase && Decimal.ParseInt(p[|UserBase|..]) == Some(userId)
    ensures var p := GetEndpoint(ItemEndpoint(FetchImage(itemId)));
            |p| > |ImageDownloadBase| && p[..|ImageDownloadBase|] == ImageDownloadBase &&
            Decimal.ParseInt(p[|ImageDownloadBase|..]) == Some(itemId)
  {
    Decimal.ParseIntToString(userId);
    Decimal.ParseIntToString(itemId);
    assert GetEndpoint(ProfileEndpoint(userId))[|UserBase|..] == Decimal.IntToString(userId);
    assert GetEndpoint(ItemEndpoint(FetchImage(itemId)))[|ImageDownloadBase|..] == Decimal.IntToString(itemId);
  }

  /** The text after the last '&' (all of it when there is none). */
  function AfterLastAmp(s: string): (r: string)
    ensures '&' !in r
    ensures |r| <= |s| && r == s[|s| - |r|..]
  {
    if s == [] then ""
    else if s[|s| - 1] == '&' then ""
    else AfterLastAmp(s[..|s| - 1]) + [s[|s| - 1]]
  }

  lemma {:induction false} AfterLastAmpOf(a: string, b: string)
    requires '&' !in b
    ensures AfterLastAmp(a + "&" + b) == b
    decreases |b|
  {
    if b == [] {
      assert (a + "&" + b)[|a + "&" + b| - 1] == '&';
    } else {
      var s := a + "&" + b;
      var b' := b[..|b| - 1];
      assert s[..|s| - 1] == a + "&" + b';
      assert s[|s| - 1] == b[|b| - 1];
      AfterLastAmpOf(a, b');
      assert b' + [b[|b| - 1]] == b;
    }
  }

  /** The page of a search reads back from the end of its path, whatever the filter's name holds. */
  lemma SearchPageReadsBack(page: int, f: SearchFilter)
    ensures var p := GetEndpoint(ItemEndpoint(FetchItem(page, f)));
            var last := AfterLastAmp(p);
            |last| > 5 && last[..5] == "page=" && Decimal.ParseInt(last[5..]) == Some(page)
  {
    var digits := Decimal.IntToString(page);
    var p := GetEndpoint(ItemEndpoint(FetchItem(page, f)));
    assert p == SearchBase + Query(f) + "&" + ("page=" + digits);
    Decimal.IntToStringHasNoAmpersand(page);
    AfterLastAmpOf(SearchBase + Query(f), "page=" + digits);
    assert ("page=" + digits)[5..] == digits;
    Decimal.ParseIntToString(page);
  }

  /** The search path is the search base, the filter's query, then the page component. */
  lemma SearchPathHoldsQuery(page: int, f: SearchFilter)
    ensures var p := GetEndpoint(ItemEndpoint(FetchItem(page, f)));
            var tail := PageKey + Decimal.IntToString(page);
            |p| == |SearchBase| + |Query(f)| + |tail| &&
            p[..|SearchBase|] == SearchBase &&
            p[|SearchBase|..|SearchBase| + |Query(f)|] == Query(f) &&
            p[|SearchBase| + |Query(f)|..] == tail
  {
    var q, digits := Query(f), Decimal.IntToString(page);
    Slices(SearchBase, q, PageKey, digits);
  }

  /** Where the pieces of a concatenation sit in it. */
  lemma Slices(a: string, b: string, c: string, d: string)
    ensures var s := a + b + c + d;
            |s| == |a| + |b| + |c + d| && s[..|a|] == a && s[|a|..|a| + |b|] == b && s[|a| + |b|..] == c + d
  {
    var s := a + b + c + d;
    assert s == a + b + (c + d);
  }
}
