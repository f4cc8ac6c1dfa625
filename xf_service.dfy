/**
 * The REST client for the forum (services/xfService.ts): how a request's URL and headers are
 * built from the connection settings, and how the answer to a connection test or to a
 * resource post is turned into a result. The call itself is an input: what `fetch` produced
 * (a thrown error, or a status and a body that did or did not parse as JSON), and whether the
 * page runs over https.
 */
module XfService {
  import opened Wrappers
  import opened Text
  import opened Types

  /** `s.replace(/\/+$/, '')`: every trailing slash removed. */
  function StripTrailingSlashes(s: string): (r: string)
    ensures |r| <= |s| && r == s[..|r|]
  {
    if s != [] && s[|s| - 1] == '/' then StripTrailingSlashes(s[..|s| - 1]) else s
  }

  /** What is removed is only slashes, and what is left does not end with one. */
  lemma {:induction false} StripTrailingSlashesShape(s: string)
    ensures var r := StripTrailingSlashes(s);
            (r == [] || r[|r| - 1] != '/') && forall k :: |r| <= k < |s| ==> s[k] == '/'
  {
    if s != [] && s[|s| - 1] == '/' {
      StripTrailingSlashesShape(s[..|s| - 1]);
    }
  }

  /** Stripping twice strips nothing more. */
  lemma StripTrailingSlashesIdempotent(s: string)
    ensures StripTrailingSlashes(StripTrailingSlashes(s)) == StripTrailingSlashes(s)
  {
    StripTrailingSlashesShape(s);
  }

  const DefaultProxy := "https://corsproxy.io/?"

  /** The proxy prefix: the custom one, or the public default when none is set. */
  function ProxyBase(config: XFConfig): string {
    if config.proxyUrl != "" then config.proxyUrl else DefaultProxy
  }

  /** The URL a request goes to: the base URL without trailing slashes followed by the path;
      through the proxy, the proxy prefix followed by that URL as encoded by `encode`
      (`encodeURIComponent`, which the model leaves uninterpreted). */
  function Endpoint(baseUrl: string, path: string, config: XFConfig, encode: string -> string): (url: string)
  {
    var direct := StripTrailingSlashes(baseUrl) + path;
    if config.allowCorsProxy then ProxyBase(config) + encode(direct) else direct
  }

  /** Direct, the endpoint is the base URL up to its trailing slashes, then the path; through
      the proxy it begins with the custom prefix, or the default one when none is set, and ends
      with the encoded direct URL. */
  lemma EndpointShape(baseUrl: string, path: string, config: XFConfig, encode: string -> string)
    ensures var url := Endpoint(baseUrl, path, config, encode);
            var base := StripTrailingSlashes(baseUrl);
            && (!config.allowCorsProxy ==>
                  && |base| <= |baseUrl| && base == baseUrl[..|base|]
                  && (forall k :: |base| <= k < |baseUrl| ==> baseUrl[k] == '/')
                  && (base == [] || base[|base| - 1] != '/')
                  && url == base + path)
            && (config.allowCorsProxy && config.proxyUrl != "" ==>
                  url == config.proxyUrl + encode(base + path))
            && (config.allowCorsProxy && config.proxyUrl == "" ==>
                  url == "https://corsproxy.io/?" + encode(base + path))
  {
    StripTrailingSlashesShape(baseUrl);
  }

  /** The headers of every request to the API. */
  method GetHeaders(config: XFConfig) returns (headers: map<string, string>)
    ensures headers.Keys == {"XF-Api-Key", "Accept"}
                            + (if config.allowCorsProxy then {} else {"X-Requested-With"})
                            + (if config.userId > 0 then {"XF-Api-User"} else {})
    ensures headers["XF-Api-Key"] == config.apiKey && headers["Accept"] == "application/json"
    ensures "X-Requested-With" in headers ==> headers["X-Requested-With"] == "XMLHttpRequest"
    ensures "XF-Api-User" in headers ==> headers["XF-Api-User"] == IntToString(config.userId)
  {
    headers := map["XF-Api-Key" := config.apiKey, "Accept" := "application/json"];
    // through a proxy the header would look like a bot faking a browser
    if !config.allowCorsProxy {
      headers := headers["X-Requested-With" := "XMLHttpRequest"];
    }
    // the user the API acts as
    if config.userId > 0 {
      headers := headers["XF-Api-User" := IntToString(config.userId)];
    }
  }

  /** The headers of a resource post: those of every request, plus the form encoding. */
  method PostHeaders(config: XFConfig) returns (headers: map<string, string>)
    ensures headers.Keys == {"XF-Api-Key", "Accept", "Content-Type"}
                            + (if config.allowCorsProxy then {} else {"X-Requested-With"})
                            + (if config.userId > 0 then {"XF-Api-User"} else {})
    ensures headers["Content-Type"] == "application/x-www-form-urlencoded"
    ensures headers["XF-Api-Key"] == config.apiKey && headers["Accept"] == "application/json"
    ensures "X-Requested-With" in headers ==> headers["X-Requested-With"] == "XMLHttpRequest"
    ensures "XF-Api-User" in headers ==> headers["XF-Api-User"] == IntToString(config.userId)
  {
    headers := GetHeaders(config);
    headers := headers["Content-Type" := "application/x-www-form-urlencoded"];
  }

  /** An error as the API reports it. */
  datatype XFError = XFError(code: string, message: string)

  datatype Category = Category(title: string)

  datatype Resource = Resource(resourceId: int, title: string)

  /** The fields of a JSON answer the client looks at; `None` is an absent field. */
  datatype Json = Json(errors: Option<seq<XFError>>, category: Option<Category>, resource: Option<Resource>)

  /** The body of an answer: text that `JSON.parse` rejects, or the object it parsed. */
  datatype Body = NotJson | Parsed(json: Json)

  /** What the request produced: an error thrown by `fetch` or by reading the body (its
      `message`, empty when it has none), or a status and a body. */
  datatype FetchOutcome = Threw(message: string) | Responded(status: int, body: Body)

  /** `response.ok`. */
  predicate IsOk(status: int) {
    200 <= status <= 299
  }

  /** An https page may not call an http forum directly: the browser would block it. */
  predicate MixedContentBlocked(config: XFConfig, pageIsHttps: bool) {
    !config.allowCorsProxy && pageIsHttps && StartsWith(config.baseUrl, "http:")
  }

  /** The result of a connection test. */
  datatype TestResult = TestResult(success: bool, message: string, categoryName: Option<string>)

  const MixedContentMessage := "Lỗi bảo mật: Không thể gọi API HTTP từ trang HTTPS. Vui lòng bật \"Enable CORS Proxy\"."
  const NotJsonMessage := "Server trả về dữ liệu rác (HTML thay vì JSON). Có thể do Proxy trả về trang lỗi."
  const PermissionMessage := "Lỗi quyền (401/403). Kiểm tra API Key và User ID."
  const UnknownErrorMessage := "Lỗi không xác định"
  const ConnectedMessage := "Kết nối thành công!"
  const NoCategoryMessage := "Phản hồi lạ: Không tìm thấy dữ liệu category."

  function CategoryNotFoundMessage(categoryId: int): string {
    "Kết nối được nhưng không tìm thấy Category ID: " + IntToString(categoryId) + "."
  }

  /** `json.errors?.[0]?.message || 'Lỗi không xác định'`. */
  function FirstErrorMessage(json: Json): (m: string)
    ensures m != ""
    ensures m != UnknownErrorMessage ==> json.errors.Some? && json.errors.value != [] && m == json.errors.value[0].message
  {
    if json.errors.Some? && json.errors.value != [] && json.errors.value[0].message != ""
    then json.errors.value[0].message
    else UnknownErrorMessage
  }

  /** A request that never got an answer: through the proxy, the proxy is taken to block it;
      direct, the browser's CORS check is. Any other error's message is kept. */
  function ThrownTestMessage(config: XFConfig, message: string): string {
    if message == "Failed to fetch" then
      (if config.allowCorsProxy then "PROXY_BLOCKED" else "CORS_ERROR")
    else message
  }

  /** `testConnection`: the result of reading the category the config names. */
  function TestConnection(config: XFConfig, pageIsHttps: bool, outcome: FetchOutcome): TestResult {
    if MixedContentBlocked(config, pageIsHttps) then TestResult(false, MixedContentMessage, None)
    else match outcome
      case Threw(message) => TestResult(false, ThrownTestMessage(config, message), None)
      case Responded(status, body) =>
        if config.allowCorsProxy && (status == 403 || status == 503 || status == 429) then
          TestResult(false, "PROXY_BLOCKED", None)
        else match body
          case NotJson => TestResult(false, NotJsonMessage, None)
          case Parsed(json) =>
            if !IsOk(status) then
              if status == 404 then TestResult(false, CategoryNotFoundMessage(config.categoryId), None)
              else if status == 401 || status == 403 then TestResult(false, PermissionMessage, None)
              else TestResult(false, "Lỗi API (" + IntToString(status) + "): " + FirstErrorMessage(json), None)
            else if json.category.Some? then
              TestResult(true, ConnectedMessage, Some(json.category.value.title))
            else TestResult(false, NoCategoryMessage, None)
  }

  /** A test succeeds exactly when the call is allowed, the forum answers with an ok status
      and a JSON body holding the category, and then it carries the category's title; every
      other result is a failure without a category name. */
  lemma TestConnectionSuccess(config: XFConfig, pageIsHttps: bool, outcome: FetchOutcome)
    ensures var r := TestConnection(config, pageIsHttps, outcome);
            r.success <==> !MixedContentBlocked(config, pageIsHttps) && outcome.Responded?
                           && IsOk(outcome.status) && outcome.body.Parsed?
                           && outcome.body.json.category.Some?
    ensures var r := TestConnection(config, pageIsHttps, outcome);
            r.categoryName.Some? <==> r.success
    ensures var r := TestConnection(config, pageIsHttps, outcome);
            r.success ==> r.categoryName == Some(outcome.body.json.category.value.title)
  {
  }

  /** Through the proxy, a 403, 503 or 429 answer is reported as `PROXY_BLOCKED` whatever its
      body, and so is a request that never got an answer; direct, such a request is reported
      as `CORS_ERROR`. */
  lemma TestConnectionBlocked(config: XFConfig, pageIsHttps: bool, outcome: FetchOutcome)
    ensures config.allowCorsProxy && outcome.Responded?
            && (outcome.status == 403 || outcome.status == 503 || outcome.status == 429) ==>
              TestConnection(config, pageIsHttps, outcome) == TestResult(false, "PROXY_BLOCKED", None)
    ensures outcome == Threw("Failed to fetch") && !MixedContentBlocked(config, pageIsHttps) ==>
              TestConnection(config, pageIsHttps, outcome).message
                == if config.allowCorsProxy then "PROXY_BLOCKED" else "CORS_ERROR"
    ensures MixedContentBlocked(config, pageIsHttps) ==>
              TestConnection(config, pageIsHttps, outcome) == TestResult(false, MixedContentMessage, None)
  {
  }

  /** Past the proxy check, a body that is not JSON fails whatever the status; among JSON
      answers a 404 is a missing category, a 401 or 403 a permission error, any other failing
      status an API error naming the status and the first error's message, and an ok answer
      without a category an unexpected reply. */
  lemma TestConnectionFailures(config: XFConfig, pageIsHttps: bool, status: int, body: Body)
    requires !MixedContentBlocked(config, pageIsHttps)
    requires !(config.allowCorsProxy && (status == 403 || status == 503 || status == 429))
    ensures body.NotJson? ==>
              TestConnection(config, pageIsHttps, Responded(status, body)) == TestResult(false, NotJsonMessage, None)
    ensures body.Parsed? && status == 404 ==>
              TestConnection(config, pageIsHttps, Responded(status, body))
                == TestResult(false, CategoryNotFoundMessage(config.categoryId), None)
    ensures body.Parsed? && (status == 401 || status == 403) ==>
              TestConnection(config, pageIsHttps, Responded(status, body)) == TestResult(false, PermissionMessage, None)
    ensures body.Parsed? && !IsOk(status) && status != 404 && status != 401 && status != 403 ==>
              TestConnection(config, pageIsHttps, Responded(status, body))
                == TestResult(false, "Lỗi API (" + IntToString(status) + "): " + FirstErrorMessage(body.json), None)
    ensures body.Parsed? && IsOk(status) && body.json.category.None? ==>
              TestConnection(config, pageIsHttps, Responded(status, body)) == TestResult(false, NoCategoryMessage, None)
  {
  }

  /** The result of a resource post (`XFResponse`). */
  datatype PostResult = PostResult(success: bool, resource: Option<Resource>, errors: Option<seq<XFError>>)

  const MixedContentPostMessage := "Lỗi bảo mật: Không thể gọi API HTTP từ trang HTTPS."

  /** `error.message || 'Lỗi mạng không xác định.'`, with a request that got no answer put in
      the user's terms. */
  function NetworkErrorMessage(config: XFConfig, message: string): string {
    var msg := if message != "" then message else "Lỗi mạng không xác định.";
    if msg == "Failed to fetch" then
      (if config.allowCorsProxy then "Lỗi Proxy/Firewall chặn kết nối." else "Lỗi CORS. Hãy bật Proxy.")
    else msg
  }

  /** `postResource`: the result of posting a resource. A refused answer carries the server's
      errors when it gave any; otherwise, and for every other failure, a single error of the
      client's own. The error messages of an empty server list, joined, are empty. */
  function PostResource(config: XFConfig, pageIsHttps: bool, outcome: FetchOutcome): PostResult {
    if MixedContentBlocked(config, pageIsHttps) then
      PostResult(false, None, Some([XFError("mixed_content", MixedContentPostMessage)]))
    else match outcome
      case Threw(message) =>
        PostResult(false, None, Some([XFError("network_error", NetworkErrorMessage(config, message))]))
      case Responded(status, NotJson) =>
        PostResult(false, None, Some([XFError("invalid_response",
          "Server không trả về JSON (Status: " + IntToString(status) + ").")]))
      case Responded(status, Parsed(json)) =>
        if !IsOk(status) then
          var errorList := json.errors.GetOr([]);
          PostResult(false, None, Some(if |errorList| > 0 then errorList
                                       else [XFError("http_error", "Lỗi HTTP " + IntToString(status) + ": ")]))
        else PostResult(true, json.resource, None)
  }

  /** A post succeeds exactly when the call is allowed and the forum answers with an ok status
      and a JSON body, and then carries the body's resource and no errors; every failure
      carries a non-empty error list. */
  lemma PostResourceResult(config: XFConfig, pageIsHttps: bool, outcome: FetchOutcome)
    ensures var r := PostResource(config, pageIsHttps, outcome);
            r.success <==> !MixedContentBlocked(config, pageIsHttps) && outcome.Responded?
                           && IsOk(outcome.status) && outcome.body.Parsed?
    ensures var r := PostResource(config, pageIsHttps, outcome);
            r.success ==> r.resource == outcome.body.json.resource && r.errors.None?
    ensures var r := PostResource(config, pageIsHttps, outcome);
            !r.success ==> r.errors.Some? && |r.errors.value| > 0 && r.resource.None?
  {
  }

  /** Which error a failed post carries: the server's own list unchanged when a refusal has a
      non-empty one, else one `http_error`; `invalid_response` for a body that is not JSON,
      `network_error` for a request that got no answer, `mixed_content` when it was never
      sent. */
  lemma PostResourceErrors(config: XFConfig, pageIsHttps: bool, outcome: FetchOutcome)
    ensures var r := PostResource(config, pageIsHttps, outcome);
            MixedContentBlocked(config, pageIsHttps) ==> r.errors.value[0].code == "mixed_content"
    ensures var r := PostResource(config, pageIsHttps, outcome);
            !MixedContentBlocked(config, pageIsHttps) && outcome.Threw? ==>
              r.errors.value == [XFError("network_error", NetworkErrorMessage(config, outcome.message))]
    ensures var r := PostResource(config, pageIsHttps, outcome);
            !MixedContentBlocked(config, pageIsHttps) && outcome.Responded? && outcome.body.NotJson? ==>
              |r.errors.value| == 1 && r.errors.value[0].code == "invalid_response"
    ensures var r := PostResource(config, pageIsHttps, outcome);
            !MixedContentBlocked(config, pageIsHttps) && outcome.Responded? && outcome.body.Parsed?
            && !IsOk(outcome.status) ==>
              if outcome.body.json.errors.Some? && |outcome.body.json.errors.value| > 0
              then r.errors == outcome.body.json.errors
              else |r.errors.value| == 1 && r.errors.value[0].code == "http_error"
  {
  }
}
