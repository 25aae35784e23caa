/** The API client: endpoint composition at construction, and the pod
    listing pipeline with its fixed order of checks. */
module KubeClient {
  import opened Outcomes
  import opened Http
  import opened Auth
  import opened KubeConfig

  /** The base path of the API resources. */
  const APIEndpoint := "/api/v1"
  /** The collection path of the pods of the default namespace. */
  const DefaultPod := "/namespaces/default/pods"
  const StatusOK := 200

  /** api.Pod: which fields a decoded pod has is not part of this model. */
  datatype Pod = Pod(raw: seq<byte>)

  /** api.PodList: only the items are read. */
  datatype PodList = PodList(items: seq<Pod>)

  /** A client: the composed endpoint and the credential transport its HTTP
      client sends through. */
  datatype Client = Client(endpointURL: string, transport: AuthTransport)

  datatype ClientError = InvalidBaseURL(baseURL: string, cause: string)

  predicate HasSuffix(s: string, suffix: string)
  {
    |suffix| <= |s| && s[|s| - |suffix|..] == suffix
  }

  /** strings.TrimSuffix: removes one occurrence of suffix at the end, if present. */
  function TrimSuffix(s: string, suffix: string): (r: string)
    ensures |r| <= |s| && r == s[..|r|]
    ensures HasSuffix(s, suffix) ==> r + suffix == s
    ensures !HasSuffix(s, suffix) ==> r == s
  {
    if HasSuffix(s, suffix) then s[..|s| - |suffix|] else s
  }

  /** NewClient. parse is url.Parse followed by URL.String(): the string the
      parsed URL prints as, or the cause of the parse failure. */
  function NewClient(cfg: Config, parse: string -> Result<string, string>): (r: Result<Client, ClientError>)
    ensures r.Failure? <==> parse(cfg.baseURL).Failure?
    ensures r.Failure? ==> r.error == InvalidBaseURL(cfg.baseURL, parse(cfg.baseURL).error)
    ensures r.Success? ==> r.value.transport == NewAuthTransport(cfg)
    ensures r.Success? ==>
      var u := parse(cfg.baseURL).value;
      r.value.endpointURL == (if u != [] && u[|u| - 1] == '/' then u[..|u| - 1] else u) + APIEndpoint
  {
    match parse(cfg.baseURL)
    case Failure(cause) => Failure(InvalidBaseURL(cfg.baseURL, cause))
    case Success(u) => Success(Client(TrimSuffix(u, "/") + APIEndpoint, NewAuthTransport(cfg)))
  }

  /** The endpoint is the parsed URL less at most one trailing slash, then
      the API path: stripping the API path and putting back the one slash,
      if there was one, gives the parsed URL again. */
  lemma EndpointRecoversBase(u: string)
    ensures HasSuffix(TrimSuffix(u, "/") + APIEndpoint, APIEndpoint)
    ensures TrimSuffix(TrimSuffix(u, "/") + APIEndpoint, APIEndpoint) + (if HasSuffix(u, "/") then "/" else "") == u
  {
  }

  /** Only one slash is trimmed: a URL ending in two slashes keeps one. */
  lemma OnlyOneSlashTrimmed(u: string)
    requires HasSuffix(u, "//")
    ensures TrimSuffix(u, "/") == u[..|u| - 1] && HasSuffix(TrimSuffix(u, "/"), "/")
  {
  }

  /** A base URL with one trailing slash: the slash goes, the API path follows. */
  lemma TrailingSlashExample(parse: string -> Result<string, string>, username: string, password: string)
    requires parse("http://host:1234/") == Success("http://host:1234/")
    ensures NewClient(Config("http://host:1234/", username, password), parse) ==
            Success(Client("http://host:1234/api/v1", AuthTransport(username, password)))
  {
    assert HasSuffix("http://host:1234/", "/");
    assert "http://host:1234/"[..16] == "http://host:1234";
    assert "http://host:1234" + APIEndpoint == "http://host:1234/api/v1";
  }

  /** A base URL with two trailing slashes keeps one of them. */
  lemma DoubleSlashExample(parse: string -> Result<string, string>, username: string, password: string)
    requires parse("http://host//") == Success("http://host//")
    ensures NewClient(Config("http://host//", username, password), parse).value.endpointURL == "http://host//api/v1"
  {
  }

  /** A base URL that does not parse gives a construction error and no client. */
  lemma UnparsableURLExample(parse: string -> Result<string, string>, cause: string, username: string, password: string)
    requires parse("http://[::1") == Failure(cause)
    ensures NewClient(Config("http://[::1", username, password), parse) == Failure(InvalidBaseURL("http://[::1", cause))
  {
  }

  /** The URL the pod listing requests. */
  function PodsURL(c: Client): (url: string)
    ensures |url| == |c.endpointURL| + |DefaultPod|
    ensures url[..|c.endpointURL|] == c.endpointURL && url[|c.endpointURL|..] == "/namespaces/default/pods"
  {
    c.endpointURL + DefaultPod
  }

  /** The target of the listing, from the configuration. */
  lemma PodsURLFromConfig(cfg: Config, parse: string -> Result<string, string>)
    requires NewClient(cfg, parse).Success?
    ensures PodsURL(NewClient(cfg, parse).value) ==
            TrimSuffix(parse(cfg.baseURL).value, "/") + "/api/v1/namespaces/default/pods"
  {
  }

  /** What the libraries the listing relies on do, given as functions:
      newRequest is the error http.NewRequest reports for a method and URL,
      if any; base64 is the encoding SetBasicAuth applies; exchange is what the
      default transport, through ctxhttp.Do and the call's context, makes of
      the request it is given; unmarshal is json.Unmarshal into a PodList. */
  datatype Env = Env(newRequest: (string, string) -> Option<string>,
                     base64: string -> string,
                     exchange: RequestValue -> Result<Response, string>,
                     unmarshal: seq<byte> -> Result<PodList, string>)

  datatype PodsError =
    | RequestNotCreated(url: string, cause: string)
    | RequestFailed(url: string, cause: string)
    | BodyReadFailed(url: string, cause: string)
    | HttpStatus(status: int, url: string, body: seq<byte>)
    | DecodeFailed(cause: string)

  /** The steps of the listing, in the order the code runs them. */
  datatype Step = BuildRequest | Execute | ReadBody | CloseBody | CheckStatus | Decode

  const Pipeline: seq<Step> := [BuildRequest, Execute, ReadBody, CloseBody, CheckStatus, Decode]

  /** What a listing yields, and the steps it took. */
  datatype Run = Run(result: Result<seq<Pod>, PodsError>, steps: seq<Step>)

  /** The request that reaches the default transport: an empty GET for the
      pods URL, as the credential transport forwards it. */
  function SentRequest(c: Client, env: Env): (r: RequestValue)
    ensures r.verb == "GET" && r.url == c.endpointURL + "/namespaces/default/pods" && r.body == []
    ensures r.header == map[Authorization := [BasicCredential(c.transport.username, c.transport.password, env.base64)]]
  {
    Authorized(RequestValue("GET", PodsURL(c), [], map[]), c.transport, env.base64)
  }

  /** The response the listing obtains, when it gets as far as one. */
  predicate ResponseObtained(c: Client, env: Env)
  {
    env.newRequest("GET", PodsURL(c)).None? && env.exchange(SentRequest(c, env)).Success?
  }

  /** The listing as a function of what the libraries do: the first failing
      check decides the error. */
  function ListPods(c: Client, env: Env): (run: Run)
    // the steps are taken in the fixed order, stopping at the first failure
    ensures run.steps <= Pipeline && |run.steps| > 0
    // a body that is read is closed before anything else happens
    ensures ReadBody in run.steps ==> CloseBody in run.steps
    // the body is closed if and only if there is a response
    ensures CloseBody in run.steps <==> ResponseObtained(c, env)
    // decoding is attempted only on status 200
    ensures Decode in run.steps ==>
      ResponseObtained(c, env) && env.exchange(SentRequest(c, env)).value.statusCode == StatusOK
    ensures run.result.Success? ==> run.steps == Pipeline
  {
    var url := PodsURL(c);
    match env.newRequest("GET", url)
    case Some(cause) => Run(Failure(RequestNotCreated(url, cause)), [BuildRequest])
    case None =>
      match env.exchange(SentRequest(c, env))
      case Failure(cause) => Run(Failure(RequestFailed(url, cause)), [BuildRequest, Execute])
      case Success(resp) =>
        match resp.body
        case Failure(cause) => Run(Failure(BodyReadFailed(url, cause)), [BuildRequest, Execute, ReadBody, CloseBody])
        case Success(body) =>
          if resp.statusCode != StatusOK then
            Run(Failure(HttpStatus(resp.statusCode, url, body)), [BuildRequest, Execute, ReadBody, CloseBody, CheckStatus])
          else
            match env.unmarshal(body)
            case Failure(cause) => Run(Failure(DecodeFailed(cause)), Pipeline)
            case Success(list) => Run(Success(list.items), Pipeline)
  }

  /** Once there is a response its body is closed exactly once; without one
      it is never closed. */
  lemma BodyClosedExactlyOnce(c: Client, env: Env)
    ensures multiset(ListPods(c, env).steps)[CloseBody] == if ResponseObtained(c, env) then 1 else 0
  {
  }

  /** A request http.NewRequest refuses ends the listing at once, with the
      URL and the cause, before anything is sent. */
  lemma BuildFailureReported(c: Client, env: Env)
    requires env.newRequest("GET", PodsURL(c)).Some?
    ensures ListPods(c, env) ==
      Run(Failure(RequestNotCreated(PodsURL(c), env.newRequest("GET", PodsURL(c)).value)), [BuildRequest])
  {
  }

  /** An exchange that fails, a cancelled context included, ends the listing
      with the URL and the cause; there is no body to read or close. */
  lemma ExecuteFailureReported(c: Client, env: Env)
    requires env.newRequest("GET", PodsURL(c)).None?
    requires env.exchange(SentRequest(c, env)).Failure?
    ensures ListPods(c, env) ==
      Run(Failure(RequestFailed(PodsURL(c), env.exchange(SentRequest(c, env)).error)), [BuildRequest, Execute])
  {
  }

  /** A status-200 body that does not decode ends the listing with the
      decoder's cause, after every step. */
  lemma DecodeFailureReported(c: Client, env: Env)
    requires ResponseObtained(c, env)
    requires env.exchange(SentRequest(c, env)).value.body.Success?
    requires env.exchange(SentRequest(c, env)).value.statusCode == StatusOK
    requires env.unmarshal(env.exchange(SentRequest(c, env)).value.body.value).Failure?
    ensures ListPods(c, env) ==
      Run(Failure(DecodeFailed(env.unmarshal(env.exchange(SentRequest(c, env)).value.body.value).error)), Pipeline)
  {
  }

  /** The body is read before the status is looked at: a read failure is
      reported whatever the status. */
  lemma ReadFailureOutranksStatus(c: Client, env: Env)
    requires ResponseObtained(c, env) && env.exchange(SentRequest(c, env)).value.body.Failure?
    ensures ListPods(c, env) ==
      Run(Failure(BodyReadFailed(PodsURL(c), env.exchange(SentRequest(c, env)).value.body.error)),
          [BuildRequest, Execute, ReadBody, CloseBody])
  {
  }

  /** Any status other than 200 is an error carrying the status, the URL and
      the body, whatever the body holds; no decoding is attempted. */
  lemma NonOkStatusFails(c: Client, env: Env)
    requires ResponseObtained(c, env)
    requires env.exchange(SentRequest(c, env)).value.body.Success?
    requires env.exchange(SentRequest(c, env)).value.statusCode != StatusOK
    ensures var resp := env.exchange(SentRequest(c, env)).value;
      ListPods(c, env).result == Failure(HttpStatus(resp.statusCode, PodsURL(c), resp.body.value))
    ensures ListPods(c, env).steps == [BuildRequest, Execute, ReadBody, CloseBody, CheckStatus]
    ensures Decode !in ListPods(c, env).steps
  {
  }

  /** Success exactly when every step succeeds, with the decoded items in
      their order. */
  lemma SuccessIsDecodedItems(c: Client, env: Env)
    ensures ListPods(c, env).result.Success? <==>
      && ResponseObtained(c, env)
      && var resp := env.exchange(SentRequest(c, env)).value;
      && resp.body.Success? && resp.statusCode == StatusOK
      && env.unmarshal(resp.body.value).Success?
    ensures ListPods(c, env).result.Success? ==>
      ListPods(c, env).result.value == env.unmarshal(env.exchange(SentRequest(c, env)).value.body.value).value.items
  {
  }

  /** GetPods: the listing as the code runs it, one step after another with
      an early return at each failure. An error comes with no pods. */
  method GetPods(c: Client, env: Env) returns (pods: seq<Pod>, err: Option<PodsError>, ghost steps: seq<Step>)
    ensures err.None? <==> ListPods(c, env).result.Success?
    ensures err.Some? ==> pods == [] && err.value == ListPods(c, env).result.error
    ensures err.None? ==> pods == ListPods(c, env).result.value
    ensures steps == ListPods(c, env).steps
  {
    var getURL := c.endpointURL + DefaultPod;

    // Make request to the API
    steps := [BuildRequest];
    var invalid := env.newRequest("GET", getURL);
    if invalid.Some? {
      return [], Some(RequestNotCreated(getURL, invalid.value)), steps;
    }
    var req := new Request("GET", getURL);
    steps := steps + [Execute];
    var resp, sent := RoundTrip(c.transport, req, env.base64, env.exchange);
    if resp.Failure? {
      return [], Some(RequestFailed(getURL, resp.error)), steps;
    }

    steps := steps + [ReadBody];
    var body := resp.value.body;
    steps := steps + [CloseBody];
    if body.Failure? {
      return [], Some(BodyReadFailed(getURL, body.error)), steps;
    }
    steps := steps + [CheckStatus];
    if resp.value.statusCode != StatusOK {
      return [], Some(HttpStatus(resp.value.statusCode, getURL, body.value)), steps;
    }

    steps := steps + [Decode];
    var podList := env.unmarshal(body.value);
    if podList.Failure? {
      return [], Some(DecodeFailed(podList.error)), steps;
    }
    return podList.value.items, None, steps;
  }
}
