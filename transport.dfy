/**
 * The network library's transport: requests built from a method, URL,
 * headers and body; one exchange per request, its response classified by status code
 * into data or a `NetworkServicesError`. Besides the live client, the mock
 * that answers from local files and the client that always fails.
 */
module Transport {
  import opened Text
  import opened Utf8
  import opened Endpoints
  import opened TrustEvaluation

  /** The library's error: a network failure, no data, or an error with an optional payload. */
  datatype NetworkServicesError = Network | NoData | Error(reason: Option<Data>)

  const FetchFailedText: string := "An error occurred while fetching data"
  const NoDataText: string := "No data received from the request"
  const FetchFailedWithDataPrefix: string := "An error occurred while fetching with data: "

  /** `description`: a fixed text per case; for an error, its payload read as UTF-8 after a prefix, or the generic text when there is none. */
  function Description(e: NetworkServicesError): string {
    match e
    case Network => FetchFailedText
    case NoData => NoDataText
    case Error(reason) =>
      if reason.None? || Decode(reason.value).None? then FetchFailedText
      else FetchFailedWithDataPrefix + Decode(reason.value).value
  }

  /** An error that carries the UTF-8 encoding of some text describes itself with that text. */
  lemma ReasonIsDescribed(text: string)
    ensures Description(Error(Some(Encode(text)))) == FetchFailedWithDataPrefix + text
  {
    DecodeEncode(text);
  }

  lemma PrefixedIsNotGeneric(text: string)
    ensures FetchFailedWithDataPrefix + text != FetchFailedText
  {
    assert (FetchFailedWithDataPrefix + text)[33] == 'w' != FetchFailedText[33];
  }

  /** The generic text is given for a network error and for an error whose payload is missing or not UTF-8, and for nothing else. */
  lemma GenericDescription(e: NetworkServicesError)
    ensures Description(e) == FetchFailedText <==>
      e.Network? || (e.Error? && (e.reason.None? || Decode(e.reason.value).None?))
  {
    if e.Error? && e.reason.Some? && Decode(e.reason.value).Some? {
      PrefixedIsNotGeneric(Decode(e.reason.value).value);
    }
  }

  /** An HTTP request as the session receives it. */
  datatype Request = Request(httpMethod: string, url: Url, headers: map<string, string>, body: Option<Data>)

  /** The Content-Type header a POST or PUT request starts with. */
  function MethodHeaders(httpMethod: string): (h: map<string, string>)
    ensures "Content-Type" in h <==> httpMethod == "POST" || httpMethod == "PUT"
    ensures "Content-Type" in h ==> h["Content-Type"] == "application/json"
    ensures |h.Keys| <= 1
  {
    if httpMethod == "POST" || httpMethod == "PUT" then map["Content-Type" := "application/json"] else map[]
  }

  /** The request `createRequest` builds: the method's headers, then the caller's, which win on a clash. */
  function RequestSpec(httpMethod: string, url: Url, headers: Option<map<string, string>>, body: Option<Data>): Request {
    Request(httpMethod, url, MethodHeaders(httpMethod) + headers.GetOr(map[]), body)
  }

  /** The caller's headers restricted to the keys in `done`. */
  function Restrict(given: map<string, string>, done: set<string>): (m: map<string, string>)
    requires done <= given.Keys
    ensures m.Keys == done && forall k :: k in m ==> m[k] == given[k]
  {
    map k | k in done :: given[k]
  }

  lemma RestrictStep(base: map<string, string>, given: map<string, string>, done: set<string>, key: string)
    requires done <= given.Keys && key in given && key !in done
    ensures (base + Restrict(given, done))[key := given[key]] == base + Restrict(given, done + {key})
  {
  }

  /** `headers?.forEach { request.setValue(value, forHTTPHeaderField: key) }`: set the caller's headers one key at a time. */
  method SetHeaders(base: map<string, string>, given: map<string, string>) returns (headers: map<string, string>)
    ensures headers == base + given
  {
    headers := base;
    var remaining := given.Keys;
    ghost var done: set<string> := {};
    while remaining != {}
      invariant done <= given.Keys && remaining == given.Keys - done
      invariant headers == base + Restrict(given, done)
      decreases remaining
    {
      var key :| key in remaining;
      RestrictStep(base, given, done, key);
      headers := headers[key := given[key]];
      remaining := remaining - {key};
      done := done + {key};
    }
    assert Restrict(given, done) == given;
  }

  /** `createRequest`: set the Content-Type for POST and PUT, then each caller header in turn, then the body. */
  method CreateRequest(httpMethod: string, url: Url, headers: Option<map<string, string>>, body: Option<Data>)
    returns (request: Request)
    ensures request == RequestSpec(httpMethod, url, headers, body)
  {
    request := Request(httpMethod, url, map[], None);
    if httpMethod == "POST" || httpMethod == "PUT" {
      request := request.(headers := request.headers["Content-Type" := "application/json"]);
    }
    if headers.Some? {
      var merged := SetHeaders(request.headers, headers.value);
      request := request.(headers := merged);
    } else {
      assert request.headers + map[] == request.headers;
    }
    if body.Some? {
      request := request.(body := body);
    }
  }

  /** Every caller header is sent with the caller's value, and only POST and PUT get a Content-Type of their own. */
  lemma RequestHeaders(httpMethod: string, url: Url, headers: map<string, string>, body: Option<Data>)
    ensures var r := RequestSpec(httpMethod, url, Some(headers), body);
      && (forall k :: k in headers ==> k in r.headers && r.headers[k] == headers[k])
      && (forall k :: k in r.headers ==> k in headers || k == "Content-Type")
      && ("Content-Type" in r.headers <==> "Content-Type" in headers || httpMethod == "POST" || httpMethod == "PUT")
      && ("Content-Type" !in headers && (httpMethod == "POST" || httpMethod == "PUT") ==>
            r.headers["Content-Type"] == "application/json")
      && r.httpMethod == httpMethod && r.url == url && r.body == body
  {
  }

  /** What a response is: an HTTP response with a status code, or some other kind; both come with data. */
  datatype Response = Http(statusCode: int, data: Data) | NonHttp(data: Data)

  /** The outcome of one exchange: a response, or a failure of the session with its localized description. */
  datatype Exchange = Completed(response: Response) | Failed(localizedDescription: string)

  predicate IsSuccessStatus(code: int) { 200 <= code <= 299 }
  predicate IsErrorStatus(code: int) { 400 <= code <= 499 }

  /** `execute`'s classification of the exchange. */
  function Classify(exchange: Exchange): Result<Data, NetworkServicesError> {
    match exchange
    case Failed(description) => Failure(Error(Some(Encode(description))))
    case Completed(NonHttp(_)) => Failure(Network)
    case Completed(Http(code, data)) =>
      if IsSuccessStatus(code) then Success(data)
      else if IsErrorStatus(code) then Failure(Error(Some(data)))
      else Failure(Network)
  }

  /** Data is returned exactly for a 2xx response; a 4xx response fails with its body; any other response fails with `network`; a session failure carries its description; `noData` never occurs. */
  lemma ClassifyOutcomes(exchange: Exchange)
    ensures var r := Classify(exchange);
      && (r.Success? <==> exchange.Completed? && exchange.response.Http? && IsSuccessStatus(exchange.response.statusCode))
      && (r.Success? ==> r.value == exchange.response.data)
      && ((exchange.Completed? && exchange.response.Http? && IsErrorStatus(exchange.response.statusCode))
            ==> r == Failure(Error(Some(exchange.response.data))))
      && (r == Failure(Network) <==>
            exchange.Completed? && (exchange.response.NonHttp?
              || (!IsSuccessStatus(exchange.response.statusCode) && !IsErrorStatus(exchange.response.statusCode))))
      && (exchange.Failed? ==> r == Failure(Error(Some(Encode(exchange.localizedDescription)))))
      && (r.Failure? ==> !r.error.NoData?)
  {
  }

  /** A failed session's error describes itself with the session's own description. */
  lemma FailureIsDescribed(description: string)
    ensures var r := Classify(Failed(description));
      r.Failure? && Description(r.error) == FetchFailedWithDataPrefix + description
  {
    ReasonIsDescribed(description);
  }

  /** The session's answer to a request; its delegate answers trust challenges with the client's pinned certificates. */
  type Session = (Option<seq<Certificate>>, Request) -> Exchange

  /** The three clients of the protocol: the live one, the mock that reads local files, and the one that always fails. */
  datatype Client =
    | Live(customHost: CustomHost, certificates: Option<seq<Certificate>>, session: Session)
    | Mock(mapper: map<string, string>, bundle: map<string, Data>)
    | AlwaysFailing

  /** The mock's `loadFile`: the URL path names a file through the mapper, read as `<file>.json` from the bundle. */
  function LoadFile(mapper: map<string, string>, bundle: map<string, Data>, url: Url): (r: Result<Data, NetworkServicesError>)
    ensures r.Success? <==> url.path in mapper && mapper[url.path] + ".json" in bundle
    ensures r.Success? ==> r.value == bundle[mapper[url.path] + ".json"]
    ensures r.Failure? ==> r.error == Network
  {
    if url.path in mapper && mapper[url.path] + ".json" in bundle then Success(bundle[mapper[url.path] + ".json"])
    else Failure(Network)
  }

  /** `execute`: one exchange on a session whose delegate holds the client's certificates, then the classification. */
  function Execute(certificates: Option<seq<Certificate>>, session: Session, request: Request): Result<Data, NetworkServicesError> {
    Classify(session(certificates, request))
  }

  /** `get(url:headers:)`. */
  function Get(client: Client, url: Url, headers: Option<map<string, string>>): Result<Data, NetworkServicesError> {
    match client
    case Live(_, certificates, session) => Execute(certificates, session, RequestSpec("GET", url, headers, None))
    case Mock(mapper, bundle) => LoadFile(mapper, bundle, url)
    case AlwaysFailing => Failure(Network)
  }

  /** `put(url:headers:body:)`. */
  function Put(client: Client, url: Url, headers: Option<map<string, string>>, body: Data): Result<Data, NetworkServicesError> {
    match client
    case Live(_, certificates, session) => Execute(certificates, session, RequestSpec("PUT", url, headers, Some(body)))
    case Mock(mapper, bundle) => LoadFile(mapper, bundle, url)
    case AlwaysFailing => Failure(Network)
  }

  /** `NetworkServicesFailed.load(file:)`: loading any file fails with `network`. */
  function FailingLoad(file: string): Result<Data, NetworkServicesError> {
    Failure(Network)
  }

  /** The live client sends a GET without a body and without its own Content-Type, and a PUT with the body and a JSON Content-Type unless the caller sets one; both on a session holding the client's certificates. */
  lemma LiveRequests(customHost: CustomHost, certificates: Option<seq<Certificate>>, session: Session,
                     url: Url, headers: Option<map<string, string>>, body: Data)
    ensures var get := RequestSpec("GET", url, headers, None);
      && Get(Live(customHost, certificates, session), url, headers) == Classify(session(certificates, get))
      && get.body == None
      && ("Content-Type" in get.headers <==> headers.Some? && "Content-Type" in headers.value)
    ensures var put := RequestSpec("PUT", url, headers, Some(body));
      && Put(Live(customHost, certificates, session), url, headers, body) == Classify(session(certificates, put))
      && put.body == Some(body)
      && "Content-Type" in put.headers
      && (headers.None? || "Content-Type" !in headers.value ==> put.headers["Content-Type"] == "application/json")
  {
  }

  /** The mock ignores method, headers and body: GET and PUT on one URL give the same answer. */
  lemma MockIgnoresMethod(mapper: map<string, string>, bundle: map<string, Data>, url: Url,
                          headers: Option<map<string, string>>, putHeaders: Option<map<string, string>>, body: Data)
    ensures Get(Mock(mapper, bundle), url, headers) == Put(Mock(mapper, bundle), url, putHeaders, body)
  {
  }

  /** The always-failing client and a mock with no mapping answer every request with `network`. */
  lemma FailingClients(url: Url, headers: Option<map<string, string>>, body: Data, bundle: map<string, Data>)
    ensures Get(AlwaysFailing, url, headers) == Put(AlwaysFailing, url, headers, body) == Failure(Network)
    ensures Get(Mock(map[], bundle), url, headers) == Failure(Network)
    ensures forall file :: FailingLoad(file) == Failure(Network)
  {
  }
}
