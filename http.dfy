/**
 * Classification of failed requests into a user-facing message, and the
 * request-building decisions of `httpJson` / `httpTokenJson`: URL joining and
 * the header set, including the bearer token.
 */
module Http {
  import opened Wrappers
  import opened Text
  import Storage

  /** The `response.data` of a failed request, as the code reads it. */
  datatype ResponseData =
    | NoData
      /** a body that was not JSON */
    | TextData(text: string)
      /**
       * a JSON object; `redirect` is `data.data.redirect` and `errors` the
       * per-field message arrays of a validation failure
       */
    | ObjectData(message: Option<string>, error: Option<string>, detail: Option<string>,
                 code: Option<string>, redirect: Option<string>, errors: map<string, seq<string>>)

  datatype HttpResponse = HttpResponse(status: int, data: ResponseData)

  /** The `HttpErrorLike` shape: a response for HTTP failures, none for network failures. */
  datatype HttpError = HttpError(response: Option<HttpResponse>, code: Option<string>)

  /** `ApiErrorInfo`. */
  datatype ErrorInfo = ErrorInfo(message: string, status: Option<int>, code: Option<string>)

  const TimeoutMessage := "پاسخ‌گویی سرور بیش از حد طول کشید"
  const OfflineMessage := "اتصال شما به اینترنت برقرار نیست"
  const CodeLimitedMessage := "دسترسی به ارسال کد محدود است"
  const LoginRequiredMessage := "نیاز به ورود دارید"
  const ForbiddenMessage := "دسترسی غیرمجاز"
  const NotFoundMessage := "منبع مورد نظر پیدا نشد"
  const TooManyRequestsMessage := "درخواست‌های زیاد؛ لطفاً بعداً تلاش کنید"
  const ServerErrorMessage := "خطای داخلی سرور"
  const BadRequestMessage := "درخواست نامعتبر است"

  /** JavaScript truthiness of an optional string: present and non-empty. */
  predicate Truthy(s: Option<string>) {
    s.Some? && s.value != ""
  }

  /** JavaScript `a || b` on optional strings. */
  function JsOr(a: Option<string>, b: Option<string>): Option<string> {
    if Truthy(a) then a else b
  }

  /** JavaScript truthiness of the response body: `null` and `""` are falsy. */
  predicate DataTruthy(d: ResponseData) {
    match d
    case NoData => false
    case TextData(t) => t != ""
    case ObjectData(_, _, _, _, _, _) => true
  }

  /** `data?.code`: only an object body has one. */
  function DataCode(d: ResponseData): Option<string> {
    if d.ObjectData? then d.code else None
  }

  /** The server's own message: a string body, else `message`, else `error`, else `detail`. */
  function ServerMessage(d: ResponseData): (r: Option<string>)
    ensures r.Some? ==> Truthy(r)
    ensures d.NoData? ==> r.None?
    ensures d.TextData? ==> (r.Some? <==> d.text != "") && (r.Some? ==> r.value == d.text)
    ensures d.ObjectData? && Truthy(d.message) ==> r == d.message
    ensures d.ObjectData? && !Truthy(d.message) && Truthy(d.error) ==> r == d.error
    ensures d.ObjectData? && !Truthy(d.message) && !Truthy(d.error) ==>
      (r.Some? <==> Truthy(d.detail)) && (r.Some? ==> r == d.detail)
  {
    var chain :=
      match d
      case NoData => None
      case TextData(t) => Some(t)
      case ObjectData(m, e, det, _, _, _) => JsOr(JsOr(m, e), det);
    if Truthy(chain) then chain else None
  }

  /** The fallback message for each status class. */
  function DefaultMessage(status: int): (m: string)
    ensures m != ""
    ensures status == 402 ==> m == CodeLimitedMessage
    ensures status == 401 ==> m == LoginRequiredMessage
    ensures status == 403 ==> m == ForbiddenMessage
    ensures status == 404 ==> m == NotFoundMessage
    ensures status == 429 ==> m == TooManyRequestsMessage
    ensures status >= 500 ==> m == ServerErrorMessage
    ensures m == BadRequestMessage <==> status < 500 && status !in {401, 402, 403, 404, 429}
  {
    if status == 402 then CodeLimitedMessage
    else if status == 401 then LoginRequiredMessage
    else if status == 403 then ForbiddenMessage
    else if status == 404 then NotFoundMessage
    else if status == 429 then TooManyRequestsMessage
    else if status >= 500 then ServerErrorMessage
    else BadRequestMessage
  }

  /** `getErrorInfo`. */
  function GetErrorInfo(e: HttpError): (r: ErrorInfo)
    ensures r.message != ""
    ensures e.response.None? ==> r.status.None?
    ensures e.response.None? ==>
      if e.code == Some("ECONNABORTED") then r.message == TimeoutMessage && r.code == Some("TIMEOUT")
      else r.message == OfflineMessage && r.code == e.code
    ensures e.response.Some? ==> r.status == Some(e.response.value.status)
    ensures e.response.Some? ==>
      r.message == ServerMessage(e.response.value.data).GetOr(DefaultMessage(e.response.value.status))
    ensures e.response.Some? && e.response.value.status == 402 ==>
      Truthy(r.code) && r.code == JsOr(DataCode(e.response.value.data), Some("402"))
    ensures e.response.Some? && e.response.value.status != 402 ==> r.code == DataCode(e.response.value.data)
  {
    match e.response
    case None =>
      if e.code == Some("ECONNABORTED") then ErrorInfo(TimeoutMessage, None, Some("TIMEOUT"))
      else ErrorInfo(OfflineMessage, None, e.code)
    case Some(resp) =>
      var status, data := resp.status, resp.data;
      var message := JsOr(ServerMessage(data), Some(DefaultMessage(status))).value;
      if status == 402 then ErrorInfo(message, Some(status), JsOr(DataCode(data), Some("402")))
      else ErrorInfo(message, Some(status), DataCode(data))
  }

  /** `getErrorMessage`: the message part of `getErrorInfo`. */
  function GetErrorMessage(e: HttpError): (m: string)
    ensures m == GetErrorInfo(e).message
  {
    GetErrorInfo(e).message
  }

  /** A server message, when there is one, wins over the default of every status. */
  lemma ServerMessageWins(status: int, data: ResponseData, code: Option<string>)
    requires ServerMessage(data).Some?
    ensures GetErrorMessage(HttpError(Some(HttpResponse(status, data)), code)) == ServerMessage(data).value
  {
  }

  /** The path as appended to the base URL: exactly one `/` in front. */
  function WithLeadingSlash(path: string): (r: string)
    ensures StartsWith(r, "/")
    ensures StartsWith(path, "/") ==> r == path
    ensures !StartsWith(path, "/") ==> r == "/" + path
  {
    if StartsWith(path, "/") then path else "/" + path
  }

  /** `${baseUrl}${path.startsWith("/") ? path : `/${path}`}`. */
  function JoinUrl(base: string, path: string): (url: string)
    ensures StartsWith(url, base)
    ensures url[|base|..] == WithLeadingSlash(path)
  {
    base + WithLeadingSlash(path)
  }

  /** Joining the path part of a joined URL again gives the same URL: the slash is never doubled. */
  lemma JoinUrlStable(base: string, path: string)
    ensures JoinUrl(base, JoinUrl(base, path)[|base|..]) == JoinUrl(base, path)
  {
    var p := JoinUrl(base, path)[|base|..];
    assert StartsWith(p, "/");
  }

  /** `httpJson`'s base: `init.baseUrlOverride || getBaseUrl()`. */
  function HttpJsonBaseUrl(baseUrlOverride: Option<string>, envBaseUrl: string): (b: string)
    ensures Truthy(baseUrlOverride) ==> b == baseUrlOverride.value
    ensures !Truthy(baseUrlOverride) ==> b == envBaseUrl
  {
    JsOr(baseUrlOverride, Some(envBaseUrl)).value
  }

  /** `httpTokenJson` ignores any override and always uses this base. */
  const TokenBaseUrl := "http://192.168.43.100:8000/api"

  type Headers = map<string, string>

  const DefaultHeaders: Headers := map["Content-Type" := "application/json", "Accept" := "application/json"]

  /**
   * The headers `httpJson` sends. `{ headers: {...defaults, ...init.headers}, ...init }`: when the
   * caller passes `init.headers`, the later spread of `init` replaces the merged set by it.
   */
  function HttpJsonHeaders(initHeaders: Option<Headers>): (h: Headers)
    ensures initHeaders.None? ==> h == DefaultHeaders
    ensures initHeaders.Some? ==> h == initHeaders.value
  {
    var merged := DefaultHeaders + initHeaders.GetOr(map[]);
    if initHeaders.Some? then initHeaders.value else merged
  }

  /** `localStorage.getItem("auth_token") || sessionStorage.getItem("auth_token")`. */
  function StoredToken(local: map<string, string>, session: map<string, string>): (t: Option<string>)
    ensures Truthy(t) <==> Truthy(Storage.Lookup(local, Storage.TokenKey)) || Truthy(Storage.Lookup(session, Storage.TokenKey))
    ensures t.Some? ==> t == Storage.Lookup(local, Storage.TokenKey) || t == Storage.Lookup(session, Storage.TokenKey)
  {
    JsOr(Storage.Lookup(local, Storage.TokenKey), Storage.Lookup(session, Storage.TokenKey))
  }

  /** The headers `httpTokenJson` sends: the merged set plus `Authorization`, then the spread of `init`. */
  function TokenHeaders(initHeaders: Option<Headers>, local: map<string, string>, session: map<string, string>): (h: Headers)
    ensures initHeaders.Some? ==> h == initHeaders.value
    ensures initHeaders.None? ==> "Content-Type" in h && "Accept" in h
  {
    var merged := DefaultHeaders + initHeaders.GetOr(map[]);
    var token := StoredToken(local, session);
    var withAuth := if Truthy(token) then merged["Authorization" := "Bearer " + token.value] else merged;
    if initHeaders.Some? then initHeaders.value else withAuth
  }

  /** The token comes from `localStorage` when it holds a non-empty one, otherwise from `sessionStorage`. */
  lemma StoredTokenSources(local: map<string, string>, session: map<string, string>)
    ensures Storage.TokenKey in local && local[Storage.TokenKey] != "" ==>
      StoredToken(local, session) == Some(local[Storage.TokenKey])
    ensures !(Storage.TokenKey in local && local[Storage.TokenKey] != "") ==>
      StoredToken(local, session) == Storage.Lookup(session, Storage.TokenKey)
  {
  }

  /**
   * Without caller headers the bearer header is sent exactly when a non-empty token is stored,
   * next to the two JSON headers; with caller headers, exactly those are sent and the
   * token is not added.
   */
  lemma TokenHeadersBearer(initHeaders: Option<Headers>, local: map<string, string>, session: map<string, string>)
    ensures var h := TokenHeaders(initHeaders, local, session);
      && (initHeaders.Some? ==> h == initHeaders.value)
      && (initHeaders.None? ==>
            && ("Authorization" in h <==> Truthy(StoredToken(local, session)))
            && ("Authorization" in h ==> h["Authorization"] == "Bearer " + StoredToken(local, session).value)
            && h["Content-Type"] == "application/json" && h["Accept"] == "application/json")
  {
  }
}
