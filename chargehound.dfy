/**
 * chargehound.go and the seven operations of disputes.go: the Client that
 * New builds with its defaults, and the Disputes resource whose methods turn
 * one call into one request through newAPIRequestor and newRequest.
 */
module Chargehound {
  import opened Wrappers
  import opened Json
  import opened Errors
  import opened Requestor
  import opened DisputeRequests
  import Encoding

  /** The exported APIVersion constant; like its source, nothing reads it. */
  const APIVersion := ""
  const DefaultBasepath := "/v1/"
  const DefaultHost := "api.chargehound.com"
  const DefaultProtocol := "https://"
  const ClientVersion := "6.0.0"
  /** defaultHTTPTimeout, in seconds. */
  const DefaultTimeoutSeconds := 60

  /** ClientParams: the API key (required) and the API version (optional). */
  datatype ClientParams = ClientParams(apiKey: string, apiVersion: string)

  /** The Client: settings every request is built from, and the disputes resource. */
  class Client {
    var apiKey: string
    var host: string
    var protocol: string
    var basepath: string
    var version: string
    var apiVersion: string
    var httpClient: HttpClient
    var disputes: Disputes?

    /** The fields newAPIRequestor reads. The API version is not among them. */
    function Settings(): (cfg: Config)
      reads this
      ensures cfg.apiKey == apiKey && cfg.protocol == protocol && cfg.host == host
      ensures cfg.basepath == basepath && cfg.version == version && cfg.httpClient == httpClient
    {
      Config(apiKey, protocol, host, basepath, version, httpClient)
    }

    /**
     * New: copies the key and API version, fills in the defaults, gives the
     * client its own HTTP client with the default timeout and wires the
     * disputes resource back to this client.
     */
    constructor New(params: ClientParams)
      ensures apiKey == params.apiKey && apiVersion == params.apiVersion
      ensures basepath == DefaultBasepath && host == DefaultHost
      ensures protocol == DefaultProtocol && version == ClientVersion
      ensures fresh(httpClient) && httpClient.timeoutSeconds == DefaultTimeoutSeconds
      ensures disputes != null && fresh(disputes) && disputes.client == this
    {
      apiKey := params.apiKey;
      basepath := DefaultBasepath;
      host := DefaultHost;
      httpClient := new HttpClient(DefaultTimeoutSeconds);
      protocol := DefaultProtocol;
      version := ClientVersion;
      apiVersion := params.apiVersion;
      new;
      disputes := new Disputes(this);
    }
  }

  /**
   * What an operation returns through its pointer: the decoded payload, when
   * the body decoded, and the Response.Status the operation recorded.
   */
  datatype Resource<V> = Resource(payload: Option<V>, status: int)

  /** An operation's two results: the resource and the error. */
  datatype Returned<V> = Returned(resource: Resource<V>, err: Option<ClientError>)

  /** The apiRequestor an operation builds from the client's settings. */
  function Requested(cfg: Config, c: Call): (ar: APIRequestor)
    ensures ar.httpMethod == RouteOf(c).httpMethod && ar.body == RouteOf(c).body && ar.query == RouteOf(c).query
    ensures ar.url == RequestURL(cfg, RouteOf(c).path, RouteOf(c).query)
    ensures ar.httpClient == (if OptClient(c) != null then OptClient(c) else cfg.httpClient)
    ensures ar.apiKey == cfg.apiKey && ar.userAgent == UserAgent(cfg.version)
  {
    var r := RouteOf(c);
    Describe(cfg, OptClient(c), r.httpMethod, r.path, r.body, r.query)
  }

  /**
   * The results of one operation. Without an error the payload is there and
   * the status is below 400; with an error the status stays 0, and an API
   * error carries no payload.
   */
  function Dispatch<V>(cfg: Config, c: Call, net: Net<V>): (r: Returned<V>)
    ensures r.err.None? ==> r.resource.payload.Some? && r.resource.status < 400
    ensures r.err.Some? ==> r.resource.status == 0
    ensures r.err.Some? && r.err.value.ApiError? ==> r.resource.payload.None?
  {
    var o := Perform(Requested(cfg, c), net);
    if o.err.None? then Returned(Resource(o.value, o.response.value.statusCode), None)
    else Returned(Resource(o.value, 0), o.err)
  }

  /** The Disputes resource: every operation goes through the client it was made for. */
  class Disputes {
    const client: Client

    constructor (client: Client)
      ensures this.client == client
    {
      this.client := client;
    }

    /** Shared tail of every operation: one request, and the status recorded only without error. */
    method Send<V>(ar: APIRequestor, net: Net<V>) returns (res: Resource<V>, err: Option<ClientError>)
      ensures var o := Perform(ar, net);
        && res.payload == o.value && err == o.err
        && res.status == (if o.err.None? then o.response.value.statusCode else 0)
    {
      var response, v;
      response, v, err := NewRequest(ar, net);
      var status := 0;
      if err.None? {
        status := response.value.statusCode;
      }
      res := Resource(v, status);
    }

    /** Create: POST disputes with the encoded parameters. */
    method Create<V>(p: CreateParams, net: Net<V>) returns (res: Resource<V>, err: Option<ClientError>)
      ensures Returned(res, err) == Dispatch(client.Settings(), CreateCall(p), net)
    {
      var body := JObject(CreateBody(p));
      var ar := NewAPIRequestor(client.Settings(), p.optHTTP, "POST", "disputes", Some(body), None);
      res, err := Send(ar, net);
    }

    /** Retrieve: GET disputes/{id}. */
    method Retrieve<V>(p: RetrieveParams, net: Net<V>) returns (res: Resource<V>, err: Option<ClientError>)
      ensures Returned(res, err) == Dispatch(client.Settings(), RetrieveCall(p), net)
    {
      var ar := NewAPIRequestor(client.Settings(), p.optHTTP, "GET", "disputes/" + p.id, None, None);
      res, err := Send(ar, net);
    }

    /** Response: GET disputes/{id}/response. */
    method Response<V>(p: RetrieveParams, net: Net<V>) returns (res: Resource<V>, err: Option<ClientError>)
      ensures Returned(res, err) == Dispatch(client.Settings(), ResponseCall(p), net)
    {
      var ar := NewAPIRequestor(client.Settings(), p.optHTTP, "GET", "disputes/" + p.id + "/response", None, None);
      res, err := Send(ar, net);
    }

    /** List: sets the query keys one by one, then GET disputes with the query. */
    method List<V>(p: ListParams, net: Net<V>) returns (res: Resource<V>, err: Option<ClientError>)
      ensures Returned(res, err) == Dispatch(client.Settings(), ListCall(p), net)
    {
      var q := BuildListQuery(p);
      var ar := NewAPIRequestor(client.Settings(), p.optHTTP, "GET", "disputes", None, Some(q));
      res, err := Send(ar, net);
    }

    /** The first half of List: the url.Values filled with successive Set calls. */
    static method BuildListQuery(p: ListParams) returns (q: Values)
      ensures q == ListQuery(p)
    {
      q := map[];
      if p.limit > 0 {
        q := q["limit" := RuneString(p.limit)];
      }
      if p.startingAfter != "" {
        q := q["starting_after" := p.startingAfter];
      } else if p.endingBefore != "" {
        q := q["ending_before" := p.endingBefore];
      }
      if p.state != "" {
        q := q["state" := p.state];
      }
      ListQueryBuilt(p, q);
    }

    /** Update: PUT disputes/{id} with the sparse update body. */
    method Update<V>(p: UpdateParams, net: Net<V>) returns (res: Resource<V>, err: Option<ClientError>)
      ensures Returned(res, err) == Dispatch(client.Settings(), UpdateCall(p), net)
    {
      var body := JObject(UpdateBody(p));
      var ar := NewAPIRequestor(client.Settings(), p.optHTTP, "PUT", "disputes/" + p.id, Some(body), None);
      res, err := Send(ar, net);
    }

    /** Submit: POST disputes/{id}/submit with the same body as Update. */
    method Submit<V>(p: UpdateParams, net: Net<V>) returns (res: Resource<V>, err: Option<ClientError>)
      ensures Returned(res, err) == Dispatch(client.Settings(), SubmitCall(p), net)
    {
      var body := JObject(UpdateBody(p));
      var ar := NewAPIRequestor(client.Settings(), p.optHTTP, "POST", "disputes/" + p.id + "/submit", Some(body), None);
      res, err := Send(ar, net);
    }

    /** Accept: POST disputes/{id}/accept without a body. */
    method Accept<V>(p: AcceptParams, net: Net<V>) returns (res: Resource<V>, err: Option<ClientError>)
      ensures Returned(res, err) == Dispatch(client.Settings(), AcceptCall(p), net)
    {
      var ar := NewAPIRequestor(client.Settings(), p.optHTTP, "POST", "disputes/" + p.id + "/accept", None, None);
      res, err := Send(ar, net);
    }
  }

  /** The query List builds with successive Set calls is the one ListQuery describes. */
  lemma ListQueryBuilt(p: ListParams, q: Values)
    requires "limit" in q <==> p.limit > 0
    requires "limit" in q ==> q["limit"] == RuneString(p.limit)
    requires "starting_after" in q <==> p.startingAfter != ""
    requires "starting_after" in q ==> q["starting_after"] == p.startingAfter
    requires "ending_before" in q <==> p.startingAfter == "" && p.endingBefore != ""
    requires "ending_before" in q ==> q["ending_before"] == p.endingBefore
    requires "state" in q <==> p.state != ""
    requires "state" in q ==> q["state"] == p.state
    requires q.Keys <= ListKeys
    ensures q == ListQuery(p)
  {
    var l := ListQuery(p);
    assert q.Keys == l.Keys;
  }

  // ---------------------------------------------------------------------
  // Properties of the operations
  // ---------------------------------------------------------------------

  /**
   * An operation reports no error exactly when the request was built, the
   * exchange delivered a status below 400 and the body decoded; the status
   * it records is then the delivered one, and otherwise it stays 0.
   */
  lemma StatusRecordedOnlyOnSuccess<V>(cfg: Config, c: Call, net: Net<V>)
    ensures var ar := Requested(cfg, c);
      var r := Dispatch(cfg, c, net);
      var ex := net.roundTrip(ar.httpClient, Outbound(ar));
      && (r.err.None? <==>
            net.newRequest(ar.httpMethod, ar.url).None? && ex.Delivered? && ex.status < 400
            && net.decode(ex.body).Decoded?)
      && (r.err.None? ==> r.resource.status == ex.status && r.resource.payload == Some(net.decode(ex.body).value))
      && (r.err.Some? ==> r.resource.status == 0)
  {
  }

  /**
   * A per-call client takes over the whole call: the client's default
   * HTTP client then makes no difference to anything the operation returns.
   */
  lemma OverrideDecides<V>(cfg: Config, other: HttpClient, c: Call, net: Net<V>)
    requires OptClient(c) != null
    ensures Dispatch(cfg, c, net) == Dispatch(cfg.(httpClient := other), c, net)
  {
    assert Requested(cfg, c) == Requested(cfg.(httpClient := other), c);
  }

  /** Without a per-call client, the request goes through the client's default one. */
  lemma DefaultClientHandles(cfg: Config, c: Call)
    requires OptClient(c) == null
    ensures Requested(cfg, c).httpClient == cfg.httpClient
  {
  }

  /** A configuration with New's defaults. */
  predicate HasDefaults(cfg: Config)
  {
    cfg.protocol == DefaultProtocol && cfg.host == DefaultHost && cfg.basepath == DefaultBasepath
  }

  /** With the defaults every resource URL starts with https://api.chargehound.com/v1/. */
  lemma DefaultResourceURL(cfg: Config, path: string)
    requires HasDefaults(cfg)
    ensures ResourceURL(cfg, path) == "https://api.chargehound.com/v1/" + path
  {
    DefaultBase();
  }

  /** With the defaults, Retrieve of dp_xxx targets https://api.chargehound.com/v1/disputes/dp_xxx. */
  lemma DefaultRetrieveURL(cfg: Config, optHTTP: HttpClient?)
    requires HasDefaults(cfg)
    ensures Requested(cfg, RetrieveCall(RetrieveParams("dp_xxx", optHTTP))).url
      == "https://api.chargehound.com/v1/disputes/dp_xxx"
  {
    DefaultResourceURL(cfg, "disputes/" + "dp_xxx");
    RetrieveLiteral();
  }

  /** List with both cursors set: starting_after alone is sent. */
  lemma ListCursorQuery(optHTTP: HttpClient?)
    ensures ListQuery(ListParams(0, "dp_yyy", "dp_zzz", "", optHTTP)) == map["starting_after" := "dp_yyy"]
  {
    var q := ListQuery(ListParams(0, "dp_yyy", "dp_zzz", "", optHTTP));
    assert q.Keys == {"starting_after"};
  }

  /**
   * A List with both cursors sends only starting_after: the URL is the
   * collection URL, '?', and "starting_after=dp_yyy".
   */
  lemma ListCursorURL(cfg: Config, optHTTP: HttpClient?)
    requires HasDefaults(cfg)
    ensures Requested(cfg, ListCall(ListParams(0, "dp_yyy", "dp_zzz", "", optHTTP))).url
      == "https://api.chargehound.com/v1/disputes?starting_after=dp_yyy"
  {
    var c := ListCall(ListParams(0, "dp_yyy", "dp_zzz", "", optHTTP));
    var q := map["starting_after" := "dp_yyy"];
    ListCursorQuery(optHTTP);
    assert RouteOf(c) == Route("GET", "disputes", None, Some(q));
    var encoded := Encoding.ValuesEncode(q);
    CursorQueryEncoded();
    var base := ResourceURL(cfg, "disputes");
    DefaultResourceURL(cfg, "disputes");
    assert Requested(cfg, c).url == base + "?" + encoded;
    ListLiteral();
  }

  /** Update and Submit send the same body to different routes. */
  lemma UpdateSubmitSameBody(cfg: Config, p: UpdateParams)
    ensures Requested(cfg, UpdateCall(p)).body == Requested(cfg, SubmitCall(p)).body
    ensures Requested(cfg, UpdateCall(p)).httpMethod == "PUT" && Requested(cfg, SubmitCall(p)).httpMethod == "POST"
  {
  }

  /**
   * A Retrieve from a client made by New: the request carries the client's
   * key and the User-Agent of this version of the bindings, is a GET, and
   * goes to the default host.
   */
  method NewClientRequest(params: ClientParams, id: string) returns (ar: APIRequestor)
    ensures ar.apiKey == params.apiKey
    ensures ar.userAgent == "Chargehound/v1 GoBindings/6.0.0"
    ensures ar.httpMethod == "GET" && ar.body.None? && ar.query.None?
    ensures ar.url == "https://api.chargehound.com/v1/disputes/" + id
  {
    var ch := new Client.New(params);
    var c := RetrieveCall(RetrieveParams(id, null));
    var route := RouteOf(c);
    ar := NewAPIRequestor(ch.Settings(), OptClient(c), route.httpMethod, route.path, route.body, route.query);
    assert ar == Requested(ch.Settings(), c);
    UserAgentLiteral();
    DefaultResourceURL(ch.Settings(), "disputes/" + id);
    assert "https://api.chargehound.com/v1/" + ("disputes/" + id) == "https://api.chargehound.com/v1/disputes/" + id;
  }

  // ---------------------------------------------------------------------
  // Proof helpers: each spells out one literal or applies one general
  // lemma to one vector, so that the statements above stay within the
  // solver's budget.
  // ---------------------------------------------------------------------

  /** The defaults spell out https://api.chargehound.com/v1/. */
  lemma DefaultBase()
    ensures DefaultProtocol + DefaultHost + DefaultBasepath == "https://api.chargehound.com/v1/"
  {
  }

  /** The URL of dispute dp_xxx, spelled out. */
  lemma RetrieveLiteral()
    ensures "https://api.chargehound.com/v1/" + ("disputes/" + "dp_xxx") == "https://api.chargehound.com/v1/disputes/dp_xxx"
  {
  }

  /** "starting_after" is made of unreserved characters only. */
  lemma CursorKeyUnreserved()
    ensures Encoding.QueryEscape("starting_after") == "starting_after"
  {
    Encoding.QueryEscapeUnreserved("starting_after");
  }

  /** "dp_yyy" is made of unreserved characters only. */
  lemma CursorValueUnreserved()
    ensures Encoding.QueryEscape("dp_yyy") == "dp_yyy"
  {
    Encoding.QueryEscapeUnreserved("dp_yyy");
  }

  /** The query starting_after=dp_yyy needs no escaping. */
  lemma CursorQueryEncoded()
    ensures Encoding.ValuesEncode(map["starting_after" := "dp_yyy"]) == "starting_after" + "=" + "dp_yyy"
  {
    Encoding.ValuesEncodeSingle("starting_after", "dp_yyy");
    CursorKeyUnreserved();
    CursorValueUnreserved();
  }

  /** The List URL with the cursor query, spelled out. */
  lemma ListLiteral()
    ensures "https://api.chargehound.com/v1/" + "disputes" + "?" + ("starting_after" + "=" + "dp_yyy")
      == "https://api.chargehound.com/v1/disputes?starting_after=dp_yyy"
  {
  }

  /** The User-Agent of this version of the bindings, spelled out. */
  lemma UserAgentLiteral()
    ensures UserAgent(ClientVersion) == "Chargehound/v1 GoBindings/6.0.0"
  {
  }
}
