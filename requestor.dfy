/**
 * requestor.go: how one API call becomes one HTTP request, and how the
 * response is routed. The network and the JSON decoder are the parameters
 * of a Net record; newAPIRequestor and newRequest are methods that build
 * their results step by step as the Go code does.
 */
module Requestor {
  import opened Wrappers
  import opened Json
  import opened Errors
  import Encoding

  /** An *http.Client. Only its identity matters here: which client handles a call. */
  class HttpClient {
    const timeoutSeconds: int

    constructor (timeoutSeconds: int)
      ensures this.timeoutSeconds == timeoutSeconds
    {
      this.timeoutSeconds := timeoutSeconds;
    }
  }

  /** url.Values set with Set: one value per key. */
  type Values = map<string, string>

  /** The Client fields newAPIRequestor reads. */
  datatype Config = Config(
    apiKey: string,
    protocol: string,
    host: string,
    basepath: string,
    version: string,
    httpClient: HttpClient)

  /** The apiRequestor record. */
  datatype APIRequestor = APIRequestor(
    apiKey: string,
    userAgent: string,
    body: Option<Json>,
    httpClient: HttpClient,
    httpMethod: string,
    query: Option<Values>,
    url: string)

  const UserAgentPrefix := "Chargehound/v1 GoBindings/"

  /** The User-Agent the bindings send for a client version. */
  function UserAgent(version: string): (ua: string)
    ensures |ua| == |UserAgentPrefix| + |version|
    ensures ua[..|UserAgentPrefix|] == UserAgentPrefix && ua[|UserAgentPrefix|..] == version
  {
    UserAgentPrefix + version
  }

  /** Protocol, host, base path and resource path. */
  function ResourceURL(cfg: Config, path: string): string
  {
    cfg.protocol + cfg.host + cfg.basepath + path
  }

  /** The resource URL, then '?' and the encoded query exactly when a query is given. */
  function RequestURL(cfg: Config, path: string, query: Option<Values>): (url: string)
    ensures query.None? ==> url == ResourceURL(cfg, path)
    ensures query.Some? ==> url == ResourceURL(cfg, path) + "?" + Encoding.ValuesEncode(query.value)
  {
    var base := ResourceURL(cfg, path);
    if query.Some? then base + "?" + Encoding.ValuesEncode(query.value) else base
  }

  /** What newAPIRequestor returns for its inputs. */
  function Describe(cfg: Config, optHTTP: HttpClient?, httpMethod: string, path: string,
                    body: Option<Json>, query: Option<Values>): (ar: APIRequestor)
    ensures optHTTP != null ==> ar.httpClient == optHTTP
    ensures optHTTP == null ==> ar.httpClient == cfg.httpClient
    ensures ar.url == RequestURL(cfg, path, query)
    ensures ar.userAgent == UserAgent(cfg.version)
    ensures ar.apiKey == cfg.apiKey
    ensures ar.httpMethod == httpMethod && ar.body == body && ar.query == query
  {
    APIRequestor(
      cfg.apiKey, UserAgent(cfg.version), body,
      if optHTTP != null then optHTTP else cfg.httpClient,
      httpMethod, query, RequestURL(cfg, path, query))
  }

  /**
   * newAPIRequestor: picks the per-call client over the default and extends
   * the URL with the encoded query. It never fails.
   */
  method NewAPIRequestor(cfg: Config, optHTTP: HttpClient?, httpMethod: string, path: string,
                         body: Option<Json>, query: Option<Values>) returns (ar: APIRequestor)
    ensures ar == Describe(cfg, optHTTP, httpMethod, path, body, query)
  {
    var httpClient: HttpClient;
    if optHTTP != null {
      httpClient := optHTTP;
    } else {
      httpClient := cfg.httpClient;
    }
    var url := cfg.protocol + cfg.host + cfg.basepath + path;
    if query.Some? {
      url := url + "?" + Encoding.ValuesEncode(query.value);
    }
    ar := APIRequestor(cfg.apiKey, UserAgent(cfg.version), body, httpClient, httpMethod, query, url);
  }

  // ---------------------------------------------------------------------
  // Headers
  // ---------------------------------------------------------------------

  /** An http.Header: canonical name to the list of values. */
  type Header = map<string, seq<string>>

  /** Header.Set: the name holds exactly this value afterwards. */
  function SetHeader(h: Header, name: string, value: string): (r: Header)
    ensures r.Keys == h.Keys + {name} && r[name] == [value]
    ensures forall n :: n in h && n != name ==> r[n] == h[n]
  {
    h[name := [value]]
  }

  /** Header.Add: the value is appended to those already held. */
  function AddHeader(h: Header, name: string, value: string): (r: Header)
    ensures r.Keys == h.Keys + {name}
    ensures r[name] == (if name in h then h[name] else []) + [value]
    ensures forall n :: n in h && n != name ==> r[n] == h[n]
  {
    h[name := (if name in h then h[name] else []) + [value]]
  }

  /**
   * The credentials SetBasicAuth writes: "Basic ", then text that decodes
   * to exactly the UTF-8 bytes of "user:password".
   */
  function BasicAuth(username: string, password: string): (auth: string)
    ensures |auth| >= 6 && auth[..6] == "Basic "
    ensures Encoding.Base64Decode(auth[6..]) == Some(Encoding.Utf8(username + ":" + password))
  {
    var credentials := Encoding.Utf8(username + ":" + password);
    Encoding.Base64RoundTrip(credentials);
    "Basic " + Encoding.Base64Encode(credentials)
  }

  /** The header set of every request: credentials, User-Agent and Content-Type, nothing else. */
  function Headers(apiKey: string, userAgent: string): (h: Header)
    ensures h.Keys == {"Authorization", "User-Agent", "Content-Type"}
    ensures h["Authorization"] == [BasicAuth(apiKey, "")]
    ensures h["User-Agent"] == [userAgent]
    ensures h["Content-Type"] == ["application/json"]
  {
    map["Authorization" := [BasicAuth(apiKey, "")],
        "User-Agent" := [userAgent],
        "Content-Type" := ["application/json"]]
  }

  /**
   * The Authorization header carries the API key as user name and an empty
   * password: after "Basic ", the text decodes to exactly the bytes of key + ":".
   */
  lemma CredentialsCarryKey(apiKey: string)
    ensures var auth := Headers(apiKey, "")["Authorization"][0];
      auth[..6] == "Basic " && Encoding.Base64Decode(auth[6..]) == Some(Encoding.Utf8(apiKey + ":"))
  {
    assert apiKey + ":" + "" == apiKey + ":";
  }

  /** The bytes of "api_key:" are its ASCII codes. */
  lemma ApiKeyBytes()
    ensures Encoding.Utf8("api_key" + ":" + "") == [97, 112, 105, 95, 107, 101, 121, 58]
  {
    assert "api_key" + ":" + "" == "api_key:";
    Encoding.Utf8Ascii("api_key:");
  }

  /** The bytes of "api_key:" encode to "YXBpX2tleTo=". */
  lemma ApiKeyEncoded()
    ensures Encoding.Base64Encode(Encoding.Utf8("api_key" + ":" + "")) == "YXBpX2tleTo="
  {
    var bytes := [97, 112, 105, 95, 107, 101, 121, 58];
    ApiKeyBytes();
    assert Encoding.EncodeBlock(97, 112, 105) == "YXBp";
    assert Encoding.EncodeBlock(95, 107, 101) == "X2tl";
    assert Encoding.Base64Encode(bytes[6..]) == "eTo=";
    assert Encoding.Base64Encode(bytes[3..]) == "X2tl" + "eTo=";
    assert Encoding.Base64Encode(bytes) == "YXBp" + "X2tleTo=";
  }

  /** The key "api_key" gives the header "Basic YXBpX2tleTo=". */
  lemma ApiKeyCredentials()
    ensures BasicAuth("api_key", "") == "Basic YXBpX2tleTo="
  {
    ApiKeyEncoded();
    assert "Basic " + "YXBpX2tleTo=" == "Basic YXBpX2tleTo=";
  }

  // ---------------------------------------------------------------------
  // The round trip
  // ---------------------------------------------------------------------

  /** The request handed to the HTTP client. */
  datatype OutboundRequest = OutboundRequest(httpMethod: string, url: string, body: Option<Json>, header: Header)

  /** What the HTTP client's Do produced. */
  datatype Exchange = TransportFailure(cause: string) | Delivered(status: int, body: string)

  /** The parts of the standard library a call goes through, as functions. */
  datatype Net<V> = Net(
    newRequest: (string, string) -> Option<string>,      // http.NewRequest's error for a method and URL
    roundTrip: (HttpClient, OutboundRequest) -> Exchange, // client.Do
    decodeError: string -> Decoding<ErrorEnvelope>,      // decoding an error body
    decode: string -> Decoding<V>)                       // decoding a success body

  /** The *http.Response newRequest returns; callers read its status. */
  datatype HttpResponse = HttpResponse(statusCode: int)

  /** newRequest's results: the response, the decoded value, the error. */
  datatype Outcome<V> = Outcome(response: Option<HttpResponse>, value: Option<V>, err: Option<ClientError>)

  /** The request newRequest builds from an apiRequestor. */
  function Outbound(ar: APIRequestor): (req: OutboundRequest)
    ensures req.httpMethod == ar.httpMethod && req.url == ar.url && req.body == ar.body
    ensures req.header == Headers(ar.apiKey, ar.userAgent)
  {
    OutboundRequest(ar.httpMethod, ar.url, ar.body, Headers(ar.apiKey, ar.userAgent))
  }

  /**
   * The outcome of newRequest. A call without error always has a response
   * and a value; a response is only returned below status 400.
   */
  function Perform<V>(ar: APIRequestor, net: Net<V>): (r: Outcome<V>)
    ensures r.err.None? ==> r.response.Some? && r.value.Some?
    ensures r.response.Some? ==> r.response.value.statusCode < 400
    ensures r.err.Some? && r.err.value.ApiError? ==> r.response.None? && r.value.None?
  {
    match net.newRequest(ar.httpMethod, ar.url)
    case Some(cause) => Outcome(None, None, Some(BuildError(cause)))
    case None =>
      match net.roundTrip(ar.httpClient, Outbound(ar))
      case TransportFailure(cause) => Outcome(None, None, Some(TransportError(cause)))
      case Delivered(status, body) =>
        if status >= 400 then Outcome(None, None, Some(ResponseToError(net.decodeError(body))))
        else
          match net.decode(body)
          case Decoded(v) => Outcome(Some(HttpResponse(status)), Some(v), None)
          case DecodeFailed(cause) => Outcome(Some(HttpResponse(status)), None, Some(DecodeError(cause)))
  }

  /**
   * newRequest: builds the request, sets the credentials and the two fixed
   * headers one after another, sends it once through the chosen client and
   * routes the response on its status.
   */
  method NewRequest<V>(ar: APIRequestor, net: Net<V>)
    returns (response: Option<HttpResponse>, value: Option<V>, err: Option<ClientError>)
    ensures Outcome(response, value, err) == Perform(ar, net)
    // A request that cannot be built gives the build error, whatever roundTrip does.
    ensures net.newRequest(ar.httpMethod, ar.url).Some? ==>
      response.None? && err == Some(BuildError(net.newRequest(ar.httpMethod, ar.url).value))
    // Otherwise the outcome is that of roundTrip on the chosen client and the request with the fixed headers.
    ensures net.newRequest(ar.httpMethod, ar.url).None? ==>
      var ex := net.roundTrip(ar.httpClient, OutboundRequest(ar.httpMethod, ar.url, ar.body, Headers(ar.apiKey, ar.userAgent)));
      && (ex.TransportFailure? ==> response.None? && err == Some(TransportError(ex.cause)))
      && (ex.Delivered? && ex.status >= 400 ==>
            response.None? && value.None? && err == Some(ResponseToError(net.decodeError(ex.body))))
      && (ex.Delivered? && ex.status < 400 ==>
            && response == Some(HttpResponse(ex.status))
            && (net.decode(ex.body).Decoded? ==> value == Some(net.decode(ex.body).value) && err.None?)
            && (net.decode(ex.body).DecodeFailed? ==> err == Some(DecodeError(net.decode(ex.body).cause))))
  {
    var buildError := net.newRequest(ar.httpMethod, ar.url);
    if buildError.Some? {
      return None, None, Some(BuildError(buildError.value));
    }
    var header: Header := map[];
    header := SetHeader(header, "Authorization", BasicAuth(ar.apiKey, ""));
    assert "User-Agent" !in header;
    header := AddHeader(header, "User-Agent", ar.userAgent);
    assert "Content-Type" !in header;
    header := AddHeader(header, "Content-Type", "application/json");
    assert header["User-Agent"] == [ar.userAgent] && header["Content-Type"] == ["application/json"];
    assert header == Headers(ar.apiKey, ar.userAgent);
    var req := OutboundRequest(ar.httpMethod, ar.url, ar.body, header);

    var ex := net.roundTrip(ar.httpClient, req);
    if ex.TransportFailure? {
      return None, None, Some(TransportError(ex.cause));
    }
    if ex.status >= 400 {
      return None, None, Some(ResponseToError(net.decodeError(ex.body)));
    }
    var decoded := net.decode(ex.body);
    response := Some(HttpResponse(ex.status));
    if decoded.Decoded? {
      value, err := Some(decoded.value), None;
    } else {
      value, err := None, Some(DecodeError(decoded.cause));
    }
  }

  /** With an empty query the URL still ends in '?': the mark depends only on a query being given. */
  lemma EmptyQueryKeepsMark(cfg: Config, path: string)
    ensures RequestURL(cfg, path, Some(map[])) == RequestURL(cfg, path, None) + "?"
  {
  }
}
