/**
 * The per-page content request: which request is issued for a page, over
 * which transport, and how the parsed reply settles the returned promise.
 */
module ContentCollector {
  import opened Wrappers
  import opened AppConfig
  import opened JsValues

  datatype Transport = Http | Https

  /** The options object handed to the HTTP client. */
  datatype RequestOptions = RequestOptions(hostname: string, port: int, verb: string, path: string)

  datatype Request = Request(transport: Transport, options: RequestOptions)

  /**
   * What the issued request delivers: a body already parsed from the first
   * data chunk, a response that ends without any data, or a transport error.
   */
  datatype Reply = Body(json: JsValue) | EndWithoutData | TransportError(message: string)

  /**
   * The state the promise ends in. `Threw` is a TypeError escaping the data
   * callback (the promise is left unsettled); `Pending` means it never settles.
   */
  datatype Settlement = Resolved(value: JsValue) | Rejected(reason: string) | Threw | Pending

  const ContentRoute := "/wp-json/wp/v2/apppages/"
  const NotFoundPrefix := "No content found for page id "

  /** The REST path of one page of one site. */
  function RequestPath(siteName: string, pageId: string): (path: string)
    ensures |path| == 1 + |siteName| + |ContentRoute| + |pageId|
    ensures path[0] == '/' && path[1..1 + |siteName|] == siteName
    ensures path[1 + |siteName|..|path| - |pageId|] == ContentRoute
    ensures path[|path| - |pageId|..] == pageId
  {
    "/" + siteName + ContentRoute + pageId
  }

  /** Recovers the page id from a content path of the given site, if it is one. */
  function PageIdOfPath(siteName: string, path: string): Option<string> {
    var prefix := "/" + siteName + ContentRoute;
    if |prefix| <= |path| && path[..|prefix|] == prefix then Some(path[|prefix|..]) else None
  }

  /** The request for a page goes to the configured server with GET, on a path naming the page. */
  function OptionsFor(cfg: ServerConfig, siteName: string, pageId: string): (o: RequestOptions)
    ensures o.hostname == cfg.hostname && o.port == cfg.port && o.verb == "GET"
    ensures PageIdOfPath(siteName, o.path) == Some(pageId)
  {
    var path := RequestPath(siteName, pageId);
    assert path == ("/" + siteName + ContentRoute) + pageId;
    RequestOptions(cfg.hostname, cfg.port, "GET", path)
  }

  /** Port 80 means plain HTTP, port 443 means HTTPS, any other port means no transport. */
  function SelectTransport(port: int): (t: Option<Transport>)
    ensures t == Some(Http) <==> port == 80
    ensures t == Some(Https) <==> port == 443
    ensures t.None? <==> port != 80 && port != 443
  {
    if port == 80 then Some(Http)
    else if port == 443 then Some(Https)
    else None
  }

  /** The requests one call issues: at most one, and over exactly the selected transport. */
  function IssuedRequests(cfg: ServerConfig, siteName: string, pageId: string): (rs: seq<Request>)
    ensures |rs| <= 1
    ensures |rs| == 1 <==> cfg.port == 80 || cfg.port == 443
    ensures forall r :: r in rs ==> r.options == OptionsFor(cfg, siteName, pageId)
    ensures forall r :: r in rs ==> (r.transport == Http <==> cfg.port == 80)
    ensures forall r :: r in rs ==> (r.transport == Https <==> cfg.port == 443)
  {
    match SelectTransport(cfg.port)
    case None => []
    case Some(t) => [Request(t, OptionsFor(cfg, siteName, pageId))]
  }

  /** `json.content && json.content.rendered`, for a body whose property can be read. */
  predicate HasRenderedContent(json: JsValue)
    requires !IsNullish(json)
  {
    Truthy(Get(json, "content")) && Truthy(Get(Get(json, "content"), "rendered"))
  }

  /** The reason a page without content is rejected with. */
  function NotFoundMessage(pageId: string): (m: string)
    ensures |m| == |NotFoundPrefix| + |pageId|
    ensures m[..|NotFoundPrefix|] == NotFoundPrefix && m[|NotFoundPrefix|..] == pageId
  {
    NotFoundPrefix + pageId
  }

  /**
   * How the reply to an issued request settles the promise: resolved with a
   * truthy `content.rendered`, rejected with the not-found message when the
   * body lacks it, rejected with the error's message on a transport error.
   */
  function Classify(pageId: string, reply: Reply): (s: Settlement)
    ensures reply.TransportError? ==> s == Rejected(reply.message)
    ensures reply.EndWithoutData? ==> s.Pending?
    ensures s.Threw? <==> reply.Body? && IsNullish(reply.json)
    ensures s.Resolved? <==> reply.Body? && !IsNullish(reply.json) && HasRenderedContent(reply.json)
    ensures s.Resolved? ==> Truthy(s.value) && s.value == Get(Get(reply.json, "content"), "rendered")
    ensures (reply.Body? && !IsNullish(reply.json) && !HasRenderedContent(reply.json))
              ==> s == Rejected(NotFoundMessage(pageId))
  {
    match reply
    case TransportError(message) => Rejected(message)
    case EndWithoutData => Pending
    case Body(json) =>
      if IsNullish(json) then Threw
      else if HasRenderedContent(json) then Resolved(Get(Get(json, "content"), "rendered"))
      else Rejected(NotFoundMessage(pageId))
  }

  /**
   * `get_page_content`: with no transport for the configured port nothing is
   * sent and the promise never settles; otherwise the reply settles it.
   */
  function GetPageContent(cfg: ServerConfig, siteName: string, pageId: string, reply: Reply): (s: Settlement)
    ensures cfg.port != 80 && cfg.port != 443 ==> s.Pending?
    ensures cfg.port == 80 || cfg.port == 443 ==> s == Classify(pageId, reply)
    ensures s.Pending? <==> IssuedRequests(cfg, siteName, pageId) == [] || reply.EndWithoutData?
  {
    match SelectTransport(cfg.port)
    case None => Pending
    case Some(_) => Classify(pageId, reply)
  }

  /** The body the WordPress REST API serves for a page whose rendered markup is `html`. */
  function ServedPage(html: string): JsValue {
    Obj(map["content" := Obj(map["rendered" := Str(html)])])
  }

  /**
   * Over a working transport, a served page resolves with its markup exactly
   * when that markup is non-empty; an empty page is rejected as not found.
   */
  lemma ServedPageOutcome(cfg: ServerConfig, siteName: string, pageId: string, html: string)
    requires cfg.port == 80 || cfg.port == 443
    ensures html != "" ==> GetPageContent(cfg, siteName, pageId, Body(ServedPage(html))) == Resolved(Str(html))
    ensures html == "" ==> GetPageContent(cfg, siteName, pageId, Body(ServedPage(html))) == Rejected(NotFoundMessage(pageId))
  {
  }

  /** A transport error is never turned into a resolution, whatever the port. */
  lemma TransportErrorNeverResolves(cfg: ServerConfig, siteName: string, pageId: string, message: string)
    ensures !GetPageContent(cfg, siteName, pageId, TransportError(message)).Resolved?
    ensures cfg.port == 80 || cfg.port == 443 ==>
              GetPageContent(cfg, siteName, pageId, TransportError(message)) == Rejected(message)
  {
  }
}
