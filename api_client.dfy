/**
 * `MIAPIClient` of APIClient.swift: the decisions the client makes around
 * each request. It decides whether a bearer token is needed and present,
 * which headers and body go out, commits an `AuthResponse` to the credential
 * state, refreshes and retries on 401, and takes separate paths for
 * downloads and photo uploads.
 *
 * The network is a finite script of replies. Each request that goes out is
 * appended to the `sent` log and consumes the next reply; when the script is
 * exhausted, the request stays unanswered and the call is `Pending` (its
 * completion is never called). `FetchRun`, `RefreshRun`, `TryAuthRun`,
 * `DownloadRun` and `UploadRun` state what the client does to a `Wire`
 * (credential state, remaining replies, sent log). The class's methods are
 * proved to do exactly that.
 */
module ApiClient {
  import opened Wrappers
  import opened Http
  import opened AppState
  import opened Endpoints
  import Decimal
  import Items

  /** The part of Alamofire's `AFError` the client looks at. */
  datatype AFError = AFError(responseCode: Option<int>, errorDescription: Option<string>)

  /** `APIError` of APIError.swift. */
  datatype APIError =
    | Auth(message: string)
    | DataCorrupted(message: string)
    | Download(message: string)
    | Request(message: string)
    | Other(message: string)
    | StatusCode(message: string)
    | Network(error: AFError)

  /** AuthModel.swift's `AuthResponse`. */
  datatype AuthResponse = AuthResponse(accessToken: string, refreshToken: string, userId: int, tokenLifetime: Option<Int32>)

  /** CreateItemService.swift's `PhotoUploadResponse`. */
  datatype PhotoUploadResponse = PhotoUploadResponse(filename: string)

  /** What a response body decodes to, for the type the caller asked for. */
  datatype Decoded =
    | AuthValue(auth: AuthResponse)
    | PhotoValue(photo: PhotoUploadResponse)
    | OtherValue
    | Undecodable

  datatype Body = Body(data: seq<bv8>, decoded: Decoded)

  /** One scripted reply: a body, a success without a body, or a failure (a 4xx/5xx status among them). */
  datatype Reply = Answer(body: Body) | NoData | Fail(error: AFError)

  /** The `parameters` a request is sent with. */
  datatype Params = NoParams | CredentialsParams(credentials: Option<Credentials>) | ItemParams(dto: Items.ItemDTO)

  datatype RequestBody = NoBody | JsonBody(params: Params) | Multipart(photo: seq<bv8>, itemId: string)

  datatype HttpRequest = HttpRequest(url: string, httpMethod: HttpMethod, headers: seq<Header>, body: RequestBody)

  /** A call either completes once with a result or never completes. */
  datatype Outcome<T> = Done(result: Result<T, APIError>) | Pending

  datatype Wire = Wire(state: Snapshot, replies: seq<Reply>, sent: seq<HttpRequest>)

  /** The lifetime used when an `AuthResponse` carries none. */
  const DefaultLifetime: Int32 := 1000000000

  /** The failure a body that does not decode (or is missing) turns into; its text is not modelled. */
  const SerializationFailure := AFError(None, None)

  const ReauthMessage := "Перезайди в приложение"
  const DownloadMethodMessage := "Download should have GET method"
  const NoDataMessage := "No data received"

  /** `w2` follows `w1`: replies are only consumed from the front and requests only appended. */
  predicate Follows(w1: Wire, w2: Wire) {
    && |w2.replies| <= |w1.replies|
    && w2.replies == w1.replies[|w1.replies| - |w2.replies|..]
    && |w1.sent| <= |w2.sent|
    && w2.sent[..|w1.sent|] == w1.sent
  }

  /** Sends `req` and takes the next scripted reply, if there is one. */
  function Exchange(w: Wire, req: HttpRequest): (r: (Option<Reply>, Wire))
    ensures r.1.state == w.state && r.1.sent == w.sent + [req]
    ensures r.0.None? <==> w.replies == []
    ensures r.0.Some? ==> r.0.value == w.replies[0] && r.1.replies == w.replies[1..]
    ensures r.0.None? ==> r.1.replies == []
  {
    if w.replies == [] then (None, w.(sent := w.sent + [req]))
    else (Some(w.replies[0]), w.(replies := w.replies[1..], sent := w.sent + [req]))
  }

  /** `setToken(accessToken, tokenLifetime ?? 1000000000)` followed by `setUserId(userId)`. */
  function Commit(s: Snapshot, a: AuthResponse): Snapshot {
    AfterSetUserId(AfterSetToken(s, a.accessToken, Some(a.tokenLifetime.GetOr(DefaultLifetime))), a.userId)
  }

  /** The endpoint's headers, plus the bearer token when the endpoint needs one and there is one. */
  function RequestHeaders(e: Target, token: Option<string>): seq<Header> {
    if e.authRequired && token.Some? then Add(e.headers, Bearer(token.value)) else e.headers
  }

  /** The request `fetch` sends: GET requests go without parameters. */
  function EndpointRequest(e: Target, p: Params, token: Option<string>): HttpRequest {
    HttpRequest(e.urlString, e.httpMethod, RequestHeaders(e, token), if e.httpMethod != Get then JsonBody(p) else NoBody)
  }

  /** The login request of `withTryAuth`: the stored credentials and the login endpoint's own headers. */
  function LoginRequest(c: Option<Credentials>): HttpRequest {
    HttpRequest(LoginTarget.urlString, LoginTarget.httpMethod, LoginTarget.headers, JsonBody(CredentialsParams(c)))
  }

  /** `fetch(with:parameters:responseType:completion:)` */
  function FetchRun(w: Wire, e: Target, p: Params): (r: (Outcome<Body>, Wire))
    ensures Follows(w, r.1)
    ensures r.0.Pending? ==> r.1.replies == []
    ensures r.0.Done? ==> |r.1.sent| - |w.sent| == |w.replies| - |r.1.replies|
    decreases |w.replies|, 2
  {
    if e.authRequired && ReadToken(w.state).0.None? then
      RefreshRun(w.(state := ReadToken(w.state).1), e, p)
    else
      var token := if e.authRequired then ReadToken(w.state).0 else None;
      var x := Exchange(w, EndpointRequest(e, p, token));
      if x.0.None? then (Pending, x.1)
      else HandleRun(x.1, x.0.value, e, p)
  }

  /** `handleResponse`: commits an `AuthResponse`, retries after a 401, reports anything else once. */
  function HandleRun(w: Wire, reply: Reply, e: Target, p: Params): (r: (Outcome<Body>, Wire))
    ensures Follows(w, r.1)
    ensures r.0.Pending? ==> r.1.replies == []
    ensures r.0.Done? ==> |r.1.sent| - |w.sent| == |w.replies| - |r.1.replies|
    decreases |w.replies|, 1
  {
    match reply
    case Answer(b) =>
      if b.decoded.Undecodable? then (Done(Failure(Network(SerializationFailure))), w)
      else if b.decoded.AuthValue? then (Done(Success(b)), w.(state := Commit(w.state, b.decoded.auth)))
      else (Done(Success(b)), w)
    case NoData => (Done(Failure(Network(SerializationFailure))), w)
    case Fail(err) =>
      if err.responseCode == Some(401) then RefreshRun(w, e, p)
      else (Done(Failure(Network(err))), w)
  }

  /** `refreshAuthAndRetry`: log in again, then re-issue the original fetch, or give up with the login's error. */
  function RefreshRun(w: Wire, e: Target, p: Params): (r: (Outcome<Body>, Wire))
    ensures Follows(w, r.1)
    ensures r.0.Pending? ==> r.1.replies == []
    ensures r.0.Done? ==> |r.1.sent| - |w.sent| == |w.replies| - |r.1.replies|
    decreases |w.replies|, 0
  {
    var a := TryAuthRun(w);
    match a.0
    case Pending => (Pending, a.1)
    case Done(Success(_)) => FetchRun(a.1, e, p)
    case Done(Failure(err)) => (Done(Failure(err)), a.1)
  }

  /** `withTryAuth`: invalidate the token, send the stored credentials to the login endpoint, commit or forget. */
  function TryAuthRun(w: Wire): (r: (Outcome<AuthResponse>, Wire))
    ensures Follows(w, r.1) && |r.1.sent| == |w.sent| + 1
    ensures r.1.sent[|w.sent|] == LoginRequest(w.state.credentials)
    ensures r.0.Pending? <==> w.replies == []
    ensures r.0.Pending? ==> r.1.replies == [] && r.1.state == AfterSetToken(w.state, "", Some(-1))
    ensures r.0.Done? ==> r.1.replies == w.replies[1..]
  {
    var s := AfterSetToken(w.state, "", Some(-1));
    var x := Exchange(w.(state := s), LoginRequest(s.credentials));
    if x.0.None? then (Pending, x.1)
    else
      match x.0.value
      case Answer(Body(_, AuthValue(a))) => (Done(Success(a)), x.1.(state := Commit(s, a)))
      case Answer(_) => (Done(Failure(Network(SerializationFailure))), x.1.(state := AfterSetCredentials(s, None)))
      case NoData => (Done(Failure(Network(SerializationFailure))), x.1.(state := AfterSetCredentials(s, None)))
      case Fail(err) => (Done(Failure(Network(err))), x.1.(state := AfterSetCredentials(s, None)))
  }

  /** The token those paths read, if the endpoint needs one, and the state after the read. */
  function TokenIfRequired(s: Snapshot, e: Target): (Option<string>, Snapshot) {
    if e.authRequired then ReadToken(s) else (None, s)
  }

  /** `downloadData(with:completion:)` */
  function DownloadRun(w: Wire, e: Target): (r: (Outcome<seq<bv8>>, Wire))
    ensures Follows(w, r.1)
  {
    if e.httpMethod != Get then (Done(Failure(Download(DownloadMethodMessage))), w)
    else
      var t := TokenIfRequired(w.state, e);
      var x := Exchange(w.(state := t.1), HttpRequest(e.urlString, Get, RequestHeaders(e, t.0), NoBody));
      if x.0.None? then (Pending, x.1)
      else
        match x.0.value
        case Answer(b) => (Done(Success(b.data)), x.1)
        case NoData => (Done(Failure(Download(NoDataMessage))), x.1)
        case Fail(err) => (Done(Failure(Network(err))), x.1)
  }

  /** The headers of a photo upload: only the bearer token and the Content-Length. */
  function UploadHeaders(token: Option<string>, data: seq<bv8>, itemId: int): seq<Header> {
    var auth := if token.Some? then Add([], Bearer(token.value)) else [];
    Add(auth, Header("Content-Length", Decimal.IntToString(|data| + |Decimal.IntToString(itemId)|)))
  }

  /** `uploadPhoto(with:data:itemId:completion:)` */
  function UploadRun(w: Wire, e: Target, data: seq<bv8>, itemId: int): (r: (Outcome<PhotoUploadResponse>, Wire))
    ensures Follows(w, r.1)
  {
    var t := TokenIfRequired(w.state, e);
    if e.authRequired && t.0.None? then (Done(Failure(Auth(ReauthMessage))), w.(state := t.1))
    else
      var req := HttpRequest(e.urlString, Post, UploadHeaders(t.0, data, itemId),
                         Multipart(data, Decimal.IntToString(itemId)));
      var x := Exchange(w.(state := t.1), req);
      if x.0.None? then (Pending, x.1) else (Done(UploadResult(x.0.value)), x.1)
  }

  /** What `uploadPhoto` reports for a reply: the decoded file name, or `.dataCorrupted`. */
  function UploadResult(reply: Reply): Result<PhotoUploadResponse, APIError> {
    match reply
    case Answer(Body(_, PhotoValue(photo))) => Success(photo)
    case Answer(_) => Failure(DataCorrupted(SerializationFailure.errorDescription.GetOr("")))
    case NoData => Failure(DataCorrupted(SerializationFailure.errorDescription.GetOr("")))
    case Fail(err) => Failure(DataCorrupted(err.errorDescription.GetOr("")))
  }

  // Properties of the request paths.

  /** Committing an `AuthResponse` stores its token with the given or default lifetime and its user id, and nothing else. */
  lemma CommitEffect(s: Snapshot, a: AuthResponse)
    ensures var c, l := Commit(s, a), a.tokenLifetime.GetOr(DefaultLifetime);
            && c.token == Some(a.accessToken) && c.expiration == Some(s.now + l as int)
            && c.userId == Some(a.userId) && c.credentials == s.credentials && c.now == s.now
            && ReadToken(c).0 == (if l > 0 then Some(a.accessToken) else None)
  {
    var l := a.tokenLifetime.GetOr(DefaultLifetime);
    SetTokenThenRead(s, a.accessToken, l);
  }

  /** A committed state is still one whose fields agree with the store. */
  lemma CommitPersisted(s: Snapshot, a: AuthResponse)
    requires Persisted(s)
    ensures Persisted(Commit(s, a))
  {
    var l := a.tokenLifetime.GetOr(DefaultLifetime);
    SetTokenPersisted(s, a.accessToken, Some(l));
    SetUserIdPersisted(AfterSetToken(s, a.accessToken, Some(l)), a.userId);
  }

  /**
   * The bearer header is there exactly when the endpoint needs a token and
   * one is present; every static header of the endpoint is kept.
   */
  lemma BearerIffRequiredAndPresent(e: Target, token: Option<string>)
    requires !HasHeaderNamed(e.headers, "Authorization")
    ensures HasHeaderNamed(RequestHeaders(e, token), "Authorization") <==> e.authRequired && token.Some?
    ensures e.authRequired && token.Some? ==> RequestHeaders(e, token) == e.headers + [Bearer(token.value)]
    ensures forall h :: h in e.headers ==> h in RequestHeaders(e, token)
  {
    var hs := RequestHeaders(e, token);
    if e.authRequired && token.Some? {
      assert hs[|e.headers|] == Bearer(token.value);
    }
  }

  /** No endpoint of the catalogue carries an Authorization header of its own. */
  lemma CatalogueHasNoAuthorization(e: Endpoint)
    requires !e.BareUrl?
    ensures !HasHeaderNamed(Describe(e).headers, "Authorization")
  {
  }

  /** GET requests go without a body; the other methods carry the parameters. */
  lemma BodyOnlyBeyondGet(e: Target, p: Params, token: Option<string>)
    ensures var req := EndpointRequest(e, p, token);
            && req.url == e.urlString && req.httpMethod == e.httpMethod
            && (req.body == NoBody <==> e.httpMethod == Get)
            && (e.httpMethod != Get ==> req.body == JsonBody(p))
  {
  }

  /** What `Follows` keeps: an entry already in the log stays where it was. */
  lemma FollowsKeeps(w1: Wire, w2: Wire, i: nat)
    requires Follows(w1, w2) && i < |w1.sent|
    ensures i < |w2.sent| && w2.sent[i] == w1.sent[i]
  {
    assert w2.sent[..|w1.sent|][i] == w1.sent[i];
  }

  /** The first request `RefreshRun` puts on the wire is the login with the stored credentials. */
  lemma RefreshSendsLoginFirst(w: Wire, e: Target, p: Params)
    ensures var r := RefreshRun(w, e, p);
            |r.1.sent| > |w.sent| && r.1.sent[|w.sent|] == LoginRequest(w.state.credentials)
  {
    var a := TryAuthRun(w);
    var r := RefreshRun(w, e, p);
    assert Follows(a.1, r.1);
    FollowsKeeps(a.1, r.1, |w.sent|);
  }

  /**
   * An auth-required fetch with no live token sends nothing to the
   * endpoint: the first request it sends is the login.
   */
  lemma FetchWithoutTokenLogsInFirst(w: Wire, e: Target, p: Params)
    requires e.authRequired && ReadToken(w.state).0.None?
    ensures var r := FetchRun(w, e, p);
            |r.1.sent| > |w.sent| && r.1.sent[|w.sent|] == LoginRequest(w.state.credentials)
  {
    RefreshSendsLoginFirst(w.(state := ReadToken(w.state).1), e, p);
  }

  /** Otherwise the first request is the endpoint's own, with the token that was read. */
  lemma FetchWithTokenSendsRequest(w: Wire, e: Target, p: Params)
    requires !e.authRequired || ReadToken(w.state).0.Some?
    ensures var r := FetchRun(w, e, p);
            var token := if e.authRequired then ReadToken(w.state).0 else None;
            |r.1.sent| > |w.sent| && r.1.sent[|w.sent|] == EndpointRequest(e, p, token)
  {
    var token := if e.authRequired then ReadToken(w.state).0 else None;
    var x := Exchange(w, EndpointRequest(e, p, token));
    assert x.1.sent[|w.sent|] == EndpointRequest(e, p, token);
    if x.0.Some? {
      var h := HandleRun(x.1, x.0.value, e, p);
      assert FetchRun(w, e, p) == h;
      FollowsKeeps(x.1, h.1, |w.sent|);
    }
  }

  /** An `AuthResponse` payload is committed and delivered unchanged; no further request goes out. */
  lemma AuthPayloadCommitted(w: Wire, b: Body, e: Target, p: Params)
    requires b.decoded.AuthValue?
    ensures var r := HandleRun(w, Answer(b), e, p);
            var a := b.decoded.auth;
            && r.0 == Done(Success(b)) && r.1.sent == w.sent && r.1.replies == w.replies
            && r.1.state.token == Some(a.accessToken) && r.1.state.userId == Some(a.userId)
            && r.1.state.expiration == Some(w.state.now + a.tokenLifetime.GetOr(DefaultLifetime) as int)
  {
    var a := b.decoded.auth;
    assert HandleRun(w, Answer(b), e, p) == (Done(Success(b)), w.(state := Commit(w.state, a)));
    CommitEffect(w.state, a);
  }

  /** Any other decoded payload is delivered unchanged and the state is left alone. */
  lemma OtherPayloadDelivered(w: Wire, b: Body, e: Target, p: Params)
    requires b.decoded.OtherValue? || b.decoded.PhotoValue?
    ensures HandleRun(w, Answer(b), e, p) == (Done(Success(b)), w)
  {
  }

  /** A failure other than 401 is delivered once as `.network`, with no request and no state change. */
  lemma OtherFailureDeliveredOnce(w: Wire, err: AFError, e: Target, p: Params)
    requires err.responseCode != Some(401)
    ensures HandleRun(w, Fail(err), e, p) == (Done(Failure(Network(err))), w)
  {
  }

  /** A 401 answer leads to a login with the stored credentials. */
  lemma UnauthorizedLogsIn(w: Wire, err: AFError, e: Target, p: Params)
    requires err.responseCode == Some(401)
    ensures var r := HandleRun(w, Fail(err), e, p);
            |r.1.sent| > |w.sent| && r.1.sent[|w.sent|] == LoginRequest(w.state.credentials)
  {
    RefreshSendsLoginFirst(w, e, p);
  }

  /** The login request carries the stored credentials, and no bearer header: the token was just invalidated. */
  lemma LoginCarriesNoBearer(w: Wire)
    ensures var r := TryAuthRun(w);
            var req := r.1.sent[|w.sent|];
            && req.body == JsonBody(CredentialsParams(w.state.credentials))
            && req.httpMethod == Post && !HasHeaderNamed(req.headers, "Authorization")
            && ReadToken(AfterSetToken(w.state, "", Some(-1))).0.None?
  {
    LoginTargetDescribesLogin();
    CatalogueHasNoAuthorization(AuthEndpoint(Login));
    InvalidateToken(w.state);
  }

  /** The state `withTryAuth` sends the login from. */
  function Invalidated(w: Wire): Wire {
    w.(state := AfterSetToken(w.state, "", Some(-1)))
  }

  /** A successful login commits its response and re-issues the original fetch. */
  lemma LoginSuccessRetries(w: Wire, e: Target, p: Params, d: seq<bv8>, a: AuthResponse)
    requires w.replies != [] && w.replies[0] == Answer(Body(d, AuthValue(a)))
    ensures var v := Invalidated(w);
            var after := Wire(Commit(v.state, a), w.replies[1..], w.sent + [LoginRequest(w.state.credentials)]);
            RefreshRun(w, e, p) == FetchRun(after, e, p)
  {
  }

  /** A failed login forgets the credentials and delivers the error to the caller without retrying. */
  lemma LoginFailureGivesUp(w: Wire, e: Target, p: Params)
    requires w.replies != [] && !(w.replies[0].Answer? && w.replies[0].body.decoded.AuthValue?)
    ensures var r := RefreshRun(w, e, p);
            && r.0.Done? && r.0.result.Failure? && r.0.result.error.Network?
            && (w.replies[0].Fail? ==> r.0.result.error == Network(w.replies[0].error))
            && r.1.state.credentials.None? && ReadToken(r.1.state).0.None?
            && r.1.sent == w.sent + [LoginRequest(w.state.credentials)] && r.1.replies == w.replies[1..]
  {
    var s := AfterSetToken(w.state, "", Some(-1));
    InvalidateToken(w.state);
    assert ReadToken(AfterSetCredentials(s, None)).0 == ReadToken(s).0;
  }

  /** A download from a non-GET endpoint fails with `.download` and sends nothing. */
  lemma DownloadNeedsGet(w: Wire, e: Target)
    requires e.httpMethod != Get
    ensures DownloadRun(w, e) == (Done(Failure(Download(DownloadMethodMessage))), w)
  {
  }

  /**
   * A GET download sends exactly one request, with the bearer header when
   * required and present, and maps the reply without ever refreshing: no
   * body is `.download`, any failure (401 among them) is `.network`.
   */
  lemma DownloadReplies(w: Wire, e: Target)
    requires e.httpMethod == Get && w.replies != []
    ensures var r := DownloadRun(w, e);
            var t := TokenIfRequired(w.state, e);
            && r.1.sent == w.sent + [HttpRequest(e.urlString, Get, RequestHeaders(e, t.0), NoBody)]
            && r.1.replies == w.replies[1..] && r.1.state == t.1
            && (w.replies[0].NoData? ==> r.0 == Done(Failure(Download(NoDataMessage))))
            && (w.replies[0].Fail? ==> r.0 == Done(Failure(Network(w.replies[0].error))))
            && (w.replies[0].Answer? ==> r.0 == Done(Success(w.replies[0].body.data)))
  {
  }

  /** An upload that needs a token and has none fails with `.auth` and sends nothing. */
  lemma UploadWithoutToken(w: Wire, e: Target, data: seq<bv8>, itemId: int)
    requires e.authRequired && ReadToken(w.state).0.None?
    ensures var r := UploadRun(w, e, data, itemId);
            r.0 == Done(Failure(Auth(ReauthMessage))) && r.1.sent == w.sent && r.1.replies == w.replies
  {
  }

  /**
   * The upload headers are the bearer token, when there is one, and the
   * Content-Length: the data length plus the length of the decimal item id.
   * None of the endpoint's static headers is used.
   */
  lemma UploadHeadersShape(token: Option<string>, data: seq<bv8>, itemId: int)
    ensures var hs := UploadHeaders(token, data, itemId);
            && Header("Content-Length", Decimal.IntToString(|data| + |Decimal.IntToString(itemId)|)) in hs
            && (forall h :: h in hs ==> h.name == "Authorization" || h.name == "Content-Length")
            && (HasHeaderNamed(hs, "Authorization") <==> token.Some?)
            && (token.Some? ==> Bearer(token.value) in hs)
  {
    var hs := UploadHeaders(token, data, itemId);
    if token.Some? {
      assert hs[0] == Bearer(token.value);
    } else {
      assert hs == [Header("Content-Length", Decimal.IntToString(|data| + |Decimal.IntToString(itemId)|))];
    }
  }

  /** What an upload sends when it may go ahead, and how the reply maps: only a photo response succeeds. */
  lemma UploadSends(w: Wire, e: Target, data: seq<bv8>, itemId: int)
    requires !e.authRequired || ReadToken(w.state).0.Some?
    ensures var r := UploadRun(w, e, data, itemId);
            var t := TokenIfRequired(w.state, e);
            && |r.1.sent| == |w.sent| + 1 && r.1.sent[..|w.sent|] == w.sent
            && r.1.sent[|w.sent|] == HttpRequest(e.urlString, Post, UploadHeaders(t.0, data, itemId),
                                                 Multipart(data, Decimal.IntToString(itemId)))
            && (w.replies == [] <==> r.0.Pending?)
            && (w.replies != [] ==> r.0 == Done(UploadResult(w.replies[0])))
  {
  }

  /** An upload succeeds exactly on a decoded photo response; every failure is `.dataCorrupted`. */
  lemma UploadResultCases(reply: Reply)
    ensures UploadResult(reply).Success? <==> reply.Answer? && reply.body.decoded.PhotoValue?
    ensures UploadResult(reply).Success? ==> UploadResult(reply).value == reply.body.decoded.photo
    ensures UploadResult(reply).Failure? ==> UploadResult(reply).error.DataCorrupted?
  {
  }

  // There is no bound on the number of retries.

  /** `n` rounds of a 401 answer followed by a successful login. */
  function RetryScript(n: nat, d: seq<bv8>, a: AuthResponse): (r: seq<Reply>)
    ensures |r| == 2 * n
  {
    if n == 0 then [] else [Fail(AFError(Some(401), None)), Answer(Body(d, AuthValue(a)))] + RetryScript(n - 1, d, a)
  }

  /**
   * Whatever `n` is, a fetch answered by `n` rounds of 401-then-login and
   * then by a payload succeeds with that payload after `2 * n + 1`
   * requests: the client retries as often as the server asks.
   */
  lemma {:induction false} RetriesAreUnbounded(n: nat, w: Wire, e: Target, p: Params, d: seq<bv8>, a: AuthResponse, b: Body)
    requires !e.authRequired || ReadToken(w.state).0.Some?
    requires a.tokenLifetime.GetOr(DefaultLifetime) > 0
    requires b.decoded.OtherValue?
    requires w.replies == RetryScript(n, d, a) + [Answer(b)]
    ensures var r := FetchRun(w, e, p);
            r.0 == Done(Success(b)) && |r.1.sent| == |w.sent| + 2 * n + 1 && r.1.replies == []
  {
    if n == 0 {
      FinalAnswer(w, e, p, b);
    } else {
      var rest := RetryScript(n - 1, d, a) + [Answer(b)];
      assert w.replies == [Fail(AFError(Some(401), None)), Answer(Body(d, AuthValue(a)))] + rest;
      var after := OneRetryRound(w, e, p, d, a, rest);
      RetriesAreUnbounded(n - 1, after, e, p, d, a, b);
    }
  }

  /** A fetch answered by a payload delivers it after one request. */
  lemma FinalAnswer(w: Wire, e: Target, p: Params, b: Body)
    requires !e.authRequired || ReadToken(w.state).0.Some?
    requires b.decoded.OtherValue?
    requires w.replies == [Answer(b)]
    ensures var r := FetchRun(w, e, p);
            r.0 == Done(Success(b)) && |r.1.sent| == |w.sent| + 1 && r.1.replies == []
  {
    var token := if e.authRequired then ReadToken(w.state).0 else None;
    var x := Exchange(w, EndpointRequest(e, p, token));
    assert x.0 == Some(Answer(b)) && x.1.replies == [];
  }

  /** One round of 401-then-login: the fetch starts again two requests later, with a live token. */
  lemma OneRetryRound(w: Wire, e: Target, p: Params, d: seq<bv8>, a: AuthResponse, rest: seq<Reply>)
      returns (after: Wire)
    requires !e.authRequired || ReadToken(w.state).0.Some?
    requires a.tokenLifetime.GetOr(DefaultLifetime) > 0
    requires w.replies == [Fail(AFError(Some(401), None)), Answer(Body(d, AuthValue(a)))] + rest
    ensures FetchRun(w, e, p) == FetchRun(after, e, p)
    ensures after.replies == rest && |after.sent| == |w.sent| + 2 && ReadToken(after.state).0.Some?
  {
    var token := if e.authRequired then ReadToken(w.state).0 else None;
    var x := Exchange(w, EndpointRequest(e, p, token));
    assert x.0 == Some(Fail(AFError(Some(401), None)));
    assert x.1.replies == [Answer(Body(d, AuthValue(a)))] + rest;
    assert FetchRun(w, e, p) == RefreshRun(x.1, e, p);
    var v := Invalidated(x.1);
    after := Wire(Commit(v.state, a), rest, x.1.sent + [LoginRequest(x.1.state.credentials)]);
    LoginSuccessRetries(x.1, e, p, d, a);
    CommitEffect(v.state, a);
  }

  // The credential state keeps agreeing with the store through every path.

  lemma TryAuthPersisted(w: Wire)
    requires Persisted(w.state)
    ensures Persisted(TryAuthRun(w).1.state)
  {
    var s := AfterSetToken(w.state, "", Some(-1));
    SetTokenPersisted(w.state, "", Some(-1));
    SetCredentialsPersisted(s, None);
    if w.replies != [] && w.replies[0].Answer? && w.replies[0].body.decoded.AuthValue? {
      CommitPersisted(s, w.replies[0].body.decoded.auth);
    }
  }

  lemma {:induction false} FetchPersisted(w: Wire, e: Target, p: Params)
    requires Persisted(w.state)
    ensures Persisted(FetchRun(w, e, p).1.state)
    decreases |w.replies|, 2
  {
    ReadTokenPersisted(w.state, 0);
    if e.authRequired && ReadToken(w.state).0.None? {
      RefreshPersisted(w.(state := ReadToken(w.state).1), e, p);
    } else {
      var token := if e.authRequired then ReadToken(w.state).0 else None;
      var x := Exchange(w, EndpointRequest(e, p, token));
      if x.0.Some? {
        HandlePersisted(x.1, x.0.value, e, p);
      }
    }
  }

  lemma {:induction false} HandlePersisted(w: Wire, reply: Reply, e: Target, p: Params)
    requires Persisted(w.state)
    ensures Persisted(HandleRun(w, reply, e, p).1.state)
    decreases |w.replies|, 1
  {
    match reply
    case Answer(b) =>
      if b.decoded.AuthValue? {
        CommitPersisted(w.state, b.decoded.auth);
      }
    case NoData =>
    case Fail(err) =>
      if err.responseCode == Some(401) {
        RefreshPersisted(w, e, p);
      }
  }

  lemma {:induction false} RefreshPersisted(w: Wire, e: Target, p: Params)
    requires Persisted(w.state)
    ensures Persisted(RefreshRun(w, e, p).1.state)
    decreases |w.replies|, 0
  {
    var a := TryAuthRun(w);
    TryAuthPersisted(w);
    if a.0.Done? && a.0.result.Success? {
      FetchPersisted(a.1, e, p);
    }
  }

  /** The client: the credential state it shares, the transport's remaining replies and what it has sent. */
  class MIAPIClient {
    const credentialsProvider: UserDefaultAppState
    var replies: seq<Reply>
    var sent: seq<HttpRequest>

    function WireOf(): Wire
      reads this, credentialsProvider
    {
      Wire(credentialsProvider.Snap(), replies, sent)
    }

    constructor (provider: UserDefaultAppState, script: seq<Reply>)
      ensures credentialsProvider == provider && replies == script && sent == []
    {
      credentialsProvider := provider;
      replies := script;
      sent := [];
    }

    /** The transport: `req` goes out and the next scripted reply, if any, comes back. */
    method Send(req: HttpRequest) returns (reply: Option<Reply>)
      modifies this
      ensures (reply, WireOf()) == Exchange(old(WireOf()), req)
    {
      sent := sent + [req];
      if replies == [] {
        reply := None;
      } else {
        reply := Some(replies[0]);
        replies := replies[1..];
      }
    }

    /** `fetch(with:parameters:responseType:completion:)` */
    method Fetch(e: Target, p: Params) returns (o: Outcome<Body>)
      modifies this, credentialsProvider
      ensures (o, WireOf()) == FetchRun(old(WireOf()), e, p)
      decreases |replies|, 2
    {
      var token: Option<string> := None;
      if e.authRequired {
        token := credentialsProvider.Token();
      }
      if e.authRequired && token.None? {
        o := RefreshAuthAndRetry(e, p);
        return;
      }
      var headers := e.headers;
      if e.authRequired {
        ReadTokenIdempotent(old(credentialsProvider.Snap()));
        token := credentialsProvider.Token();
        headers := Add(headers, Bearer(token.value));
      }
      var body := if e.httpMethod != Get then JsonBody(p) else NoBody;
      var reply := Send(HttpRequest(e.urlString, e.httpMethod, headers, body));
      if reply.None? {
        o := Pending;
      } else {
        o := HandleResponse(reply.value, e, p);
      }
    }

    /** `handleResponse` */
    method HandleResponse(reply: Reply, e: Target, p: Params) returns (o: Outcome<Body>)
      modifies this, credentialsProvider
      ensures (o, WireOf()) == HandleRun(old(WireOf()), reply, e, p)
      decreases |replies|, 1
    {
      match reply
      case Answer(b) =>
        if b.decoded.Undecodable? {
          o := Done(Failure(Network(SerializationFailure)));
        } else {
          if b.decoded.AuthValue? {
            var a := b.decoded.auth;
            credentialsProvider.SetToken(a.accessToken, Some(a.tokenLifetime.GetOr(DefaultLifetime)));
            credentialsProvider.SetUserId(a.userId);
          }
          o := Done(Success(b));
        }
      case NoData =>
        o := Done(Failure(Network(SerializationFailure)));
      case Fail(err) =>
        if err.responseCode == Some(401) {
          o := RefreshAuthAndRetry(e, p);
        } else {
          o := Done(Failure(Network(err)));
        }
    }

    /** `refreshAuthAndRetry` */
    method RefreshAuthAndRetry(e: Target, p: Params) returns (o: Outcome<Body>)
      modifies this, credentialsProvider
      ensures (o, WireOf()) == RefreshRun(old(WireOf()), e, p)
      decreases |replies|, 0
    {
      var a := WithTryAuth();
      match a
      case Pending =>
        o := Pending;
      case Done(Success(_)) =>
        o := Fetch(e, p);
      case Done(Failure(err)) =>
        o := Done(Failure(err));
    }

    /** `withTryAuth` */
    method WithTryAuth() returns (a: Outcome<AuthResponse>)
      modifies this, credentialsProvider
      ensures (a, WireOf()) == TryAuthRun(old(WireOf()))
    {
      credentialsProvider.SetToken("", Some(-1));
      var reply := Send(LoginRequest(credentialsProvider.userCredentials));
      if reply.None? {
        a := Pending;
        return;
      }
      match reply.value
      case Answer(Body(_, AuthValue(r))) =>
        credentialsProvider.SetToken(r.accessToken, Some(r.tokenLifetime.GetOr(DefaultLifetime)));
        credentialsProvider.SetUserId(r.userId);
        a := Done(Success(r));
      case Answer(_) =>
        credentialsProvider.SetCredentials(None);
        a := Done(Failure(Network(SerializationFailure)));
      case NoData =>
        credentialsProvider.SetCredentials(None);
        a := Done(Failure(Network(SerializationFailure)));
      case Fail(err) =>
        credentialsProvider.SetCredentials(None);
        a := Done(Failure(Network(err)));
    }

    /** `downloadData(with:completion:)` */
    method DownloadData(e: Target) returns (o: Outcome<seq<bv8>>)
      modifies this, credentialsProvider
      ensures (o, WireOf()) == DownloadRun(old(WireOf()), e)
    {
      if e.httpMethod != Get {
        o := Done(Failure(Download(DownloadMethodMessage)));
        return;
      }
      var headers := e.headers;
      if e.authRequired {
        var token := credentialsProvider.Token();
        if token.Some? {
          headers := Add(headers, Bearer(token.value));
        }
      }
      var reply := Send(HttpRequest(e.urlString, Get, headers, NoBody));
      if reply.None? {
        o := Pending;
        return;
      }
      match reply.value
      case Answer(b) =>
        o := Done(Success(b.data));
      case NoData =>
        o := Done(Failure(Download(NoDataMessage)));
      case Fail(err) =>
        o := Done(Failure(Network(err)));
    }

    /** `uploadPhoto(with:data:itemId:completion:)` */
    method UploadPhoto(e: Target, data: seq<bv8>, itemId: int) returns (o: Outcome<PhotoUploadResponse>)
      modifies this, credentialsProvider
      ensures (o, WireOf()) == UploadRun(old(WireOf()), e, data, itemId)
    {
      ghost var w0 := WireOf();
      ghost var t := TokenIfRequired(w0.state, e);
      var token: Option<string> := None;
      if e.authRequired {
        token := credentialsProvider.Token();
      }
      assert token == t.0 && WireOf() == w0.(state := t.1);
      if e.authRequired && token.None? {
        o := Done(Failure(Auth(ReauthMessage)));
      } else {
        var headers: seq<Header> := [];
        if token.Some? {
          headers := Add(headers, Bearer(token.value));
        }
        var itemIdData := Decimal.IntToString(itemId);
        var totalLength := |data| + |itemIdData|;
        headers := Add(headers, Header("Content-Length", Decimal.IntToString(totalLength)));
        assert headers == UploadHeaders(t.0, data, itemId);
        var reply := Send(HttpRequest(e.urlString, Post, headers, Multipart(data, itemIdData)));
        if reply.None? {
          o := Pending;
        } else {
          match reply.value
          case Answer(Body(_, PhotoValue(photo))) =>
            o := Done(Success(photo));
          case Answer(_) =>
            o := Done(Failure(DataCorrupted(SerializationFailure.errorDescription.GetOr(""))));
          case NoData =>
            o := Done(Failure(DataCorrupted(SerializationFailure.errorDescription.GetOr(""))));
          case Fail(err) =>
            o := Done(Failure(DataCorrupted(err.errorDescription.GetOr(""))));
          assert o == Done(UploadResult(reply.value));
        }
      }
    }
  }
}
