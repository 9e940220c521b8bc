/** The stateful part of the metrics-query client: the per-cloud settings
    loaded by `init`, the bearer tokens a caller may have stored, and the
    requests `request_data`, `q` and `get_metrics` send. The HTTP client is
    a pair of oracles, `get` and `post`, from a request to the response the
    server gives; a response whose body is not JSON has no content. */
module Prometheus {
  import opened Values
  import opened Text
  import opened PromUrls
  import opened PromSeries

  /** One entry of `auth_data`: the settings of one cloud. A missing key is
      `None`; `verify_cert` is passed to the HTTP client as it is (a flag or
      the path of a CA bundle). */
  datatype CloudConfig = CloudConfig(url: Option<string>, verifyCert: Option<Value>, keystoneAuth: Option<Value>)

  /** A GET request: `verify` is `None` when the call leaves the HTTP
      client's default certificate check in place. */
  datatype GetRequest = GetRequest(url: string, headers: map<string, string>, verify: Option<Value>)

  datatype FormField = FormField(name: string, value: Value)

  /** A POST request with a form-encoded body. */
  datatype PostRequest = PostRequest(url: string, form: seq<FormField>)

  /** The final URL after redirects, and the body parsed as JSON. */
  datatype Response = Response(url: string, content: Option<Value>)

  datatype Call = GetCall(get: GetRequest) | PostCall(post: PostRequest)

  /** What `q` returns: the decoded response, or its series for a frame. */
  datatype QueryOutput = Json(data: Value) | Frame(columns: seq<Series>)

  const KeycloakPrefix := "https://keycloak"

  // ---------------------------------------------------------------------
  // request_data, as a function of the settings and the server

  /** `json.loads(r.content)` */
  function JsonOf(resp: Response): (r: Result<Value>)
    ensures r.Ok? <==> resp.content.Some?
    ensures r.Err? ==> r.error == JsonDecodeError
  {
    match resp.content
    case Some(v) => Ok(v)
    case None => Err(JsonDecodeError)
  }

  function Bearer(token: string): map<string, string>
  {
    map["Authorization" := "Bearer " + token]
  }

  /** The headers of the first GET: a bearer token when one is stored for
      the cloud. */
  function FirstHeaders(authTokens: map<string, string>, cloud: string): map<string, string>
  {
    if cloud in authTokens then Bearer(authTokens[cloud]) else map[]
  }

  /** `r.url[:r.url.find('auth?')] + 'token'`: the Keycloak token endpoint
      next to the login page the server redirected to. */
  function TokenEndpoint(redirect: string): string
  {
    SliceTo(redirect, Find(redirect, "auth?")) + "token"
  }

  /** The password grant sent to Keycloak: the client id(s) of the redirect
      and the cloud's `keystone_auth` credentials, looked up in the order
      the dict literal evaluates them. */
  function GrantRequest(cfg: CloudConfig, redirect: string): Result<PostRequest>
  {
    var endpoint := TokenEndpoint(redirect);
    var ids :- ClientIds(redirect);
    var auth :- if cfg.keystoneAuth.Some? then Ok(cfg.keystoneAuth.value) else Err(KeyError("keystone_auth"));
    var username :- Index(auth, "username");
    var password :- Index(auth, "password");
    Ok(PostRequest(endpoint, [FormField("username", username), FormField("password", password),
                              FormField("client_id", List(StrList(ids))), FormField("grant_type", Str("password"))]))
  }

  function StrList(ss: seq<string>): (vs: seq<Value>)
    ensures |vs| == |ss|
    ensures forall i :: 0 <= i < |ss| ==> vs[i] == Str(ss[i])
  {
    if ss == [] then [] else [Str(ss[0])] + StrList(ss[1..])
  }

  /** `json.loads(keycloak_resp.content)['access_token']` */
  function AccessToken(resp: Response): Result<Value>
  {
    var body :- JsonOf(resp);
    Index(body, "access_token")
  }

  /** The retried GET: the new token as a bearer header, and no `verify`
      argument. */
  function RetryRequest(url: string, token: Value): GetRequest
  {
    GetRequest(url, Bearer(PyStr(token)), None)
  }

  /** `request_data(cloud, url)`: its result and the calls it makes, in
      order. */
  function Fetch(authData: map<string, CloudConfig>, authTokens: map<string, string>, cloud: string, url: string,
                 get: GetRequest -> Response, post: PostRequest -> Response): (Result<Value>, seq<Call>)
  {
    if cloud !in authData then (Err(KeyError(cloud)), [])
    else if authData[cloud].verifyCert.None? then (Err(KeyError("verify_cert")), [])
    else
      var first := GetRequest(url, FirstHeaders(authTokens, cloud), authData[cloud].verifyCert);
      var resp := get(first);
      if !StartsWith(resp.url, KeycloakPrefix) then (JsonOf(resp), [GetCall(first)])
      else
        var rest := AfterRedirect(authData[cloud], url, resp.url, get, post);
        (rest.0, [GetCall(first)] + rest.1)
  }

  /** The rest of `request_data` once the server has redirected to the
      Keycloak login page `redirect`: fetch a token, then repeat the GET. */
  function AfterRedirect(cfg: CloudConfig, url: string, redirect: string,
                         get: GetRequest -> Response, post: PostRequest -> Response): (Result<Value>, seq<Call>)
  {
    match GrantRequest(cfg, redirect)
    case Err(e) => (Err(e), [])
    case Ok(grant) =>
      match AccessToken(post(grant))
      case Err(e) => (Err(e), [PostCall(grant)])
      case Ok(token) =>
        var retry := RetryRequest(url, token);
        (JsonOf(get(retry)), [PostCall(grant), GetCall(retry)])
  }

  // ---------------------------------------------------------------------
  // init

  /** `if 'verify_cert' not in auth_data[c]: auth_data[c]['verify_cert'] = True` */
  function WithDefault(cfg: CloudConfig): CloudConfig
  {
    if cfg.verifyCert.None? then cfg.(verifyCert := Some(Bool(true))) else cfg
  }

  /** The settings after `init`'s loop. */
  function Defaults(loaded: map<string, CloudConfig>): map<string, CloudConfig>
  {
    map c | c in loaded :: WithDefault(loaded[c])
  }

  // ---------------------------------------------------------------------
  // q and get_metrics

  /** `auth_data[cloud]['url']` */
  function BaseUrl(authData: map<string, CloudConfig>, cloud: string): (r: Result<string>)
    ensures r.Ok? <==> cloud in authData && authData[cloud].url.Some?
    ensures r.Ok? ==> r.value == authData[cloud].url.value
    ensures cloud !in authData ==> r == Err(KeyError(cloud))
    ensures cloud in authData && authData[cloud].url.None? ==> r == Err(KeyError("url"))
  {
    if cloud !in authData then Err(KeyError(cloud))
    else if authData[cloud].url.None? then Err(KeyError("url"))
    else Ok(authData[cloud].url.value)
  }

  /** The URL `q` requests: the range template when a period is given, the
      instant template otherwise. */
  function QueryUrl(base: string, query: string, period: Option<PeriodArg>, step: int, start: Option<int>, now: int): string
  {
    if period.Some? then RangeUrl(base, query, RangeWindow(period.value, start, step, now))
    else InstantUrl(base, query)
  }

  /** The `output_format` switch, applied to what `request_data` returned;
      raising a string is itself a TypeError in Python 3. */
  function Render(data: Result<Value>, format: string, metric: Option<string>): Result<QueryOutput>
  {
    var v :- data;
    if format == "json" then Ok(Json(v))
    else if format == "df" then
      var columns :- SeriesOf(v, metric);
      Ok(Frame(columns))
    else Err(TypeError("exceptions must derive from BaseException"))
  }

  /** `q(query, cloud, period, step, start, output_format, metric)` with the
      current time `now`. */
  function QueryOf(authData: map<string, CloudConfig>, authTokens: map<string, string>, query: string, cloud: string,
                   period: Option<PeriodArg>, step: int, start: Option<int>, now: int, format: string,
                   metric: Option<string>, get: GetRequest -> Response, post: PostRequest -> Response)
    : (Result<QueryOutput>, seq<Call>)
  {
    match BaseUrl(authData, cloud)
    case Err(e) => (Err(e), [])
    case Ok(base) =>
      var fetched := Fetch(authData, authTokens, cloud, QueryUrl(base, query, period, step, start, now), get, post);
      (Render(fetched.0, format, metric), fetched.1)
  }

  /** `get_metrics(cloud)` */
  function MetricsOf(authData: map<string, CloudConfig>, authTokens: map<string, string>, cloud: string,
                     get: GetRequest -> Response, post: PostRequest -> Response): (Result<Value>, seq<Call>)
  {
    match BaseUrl(authData, cloud)
    case Err(e) => (Err(e), [])
    case Ok(base) => Fetch(authData, authTokens, cloud, MetricsUrl(base), get, post)
  }

  // ---------------------------------------------------------------------
  // The module state

  /** The module's globals `auth_data` and `auth_tokens`. Nothing in the
      module stores a token: a caller fills `auth_tokens` beforehand. */
  class Client {
    var authData: map<string, CloudConfig>
    var authTokens: map<string, string>

    constructor(tokens: map<string, string>)
      ensures authData == map[] && authTokens == tokens
    {
      authData := map[];
      authTokens := tokens;
    }

    /** `init(auth_file)` on the settings the file holds: every cloud
        without `verify_cert` gets `True`; nothing else changes. */
    method Init(loaded: map<string, CloudConfig>)
      modifies this
      ensures authData == Defaults(loaded)
      ensures authTokens == old(authTokens)
    {
      authData := loaded;
      var todo := loaded.Keys;
      while todo != {}
        invariant todo <= loaded.Keys && authData.Keys == loaded.Keys
        invariant authTokens == old(authTokens)
        invariant forall c :: c in authData ==> authData[c] == if c in todo then loaded[c] else WithDefault(loaded[c])
        decreases todo
      {
        var c :| c in todo;
        if authData[c].verifyCert.None? {
          authData := authData[c := authData[c].(verifyCert := Some(Bool(true)))];
        }
        todo := todo - {c};
      }
      DefaultsAgree(loaded, authData);
    }

    /** `request_data(cloud, url)` */
    method RequestData(cloud: string, url: string, get: GetRequest -> Response, post: PostRequest -> Response)
      returns (r: Result<Value>, calls: seq<Call>)
      ensures (r, calls) == Fetch(authData, authTokens, cloud, url, get, post)
    {
      var headers: map<string, string> := map[];
      if cloud in authTokens {
        headers := Bearer(authTokens[cloud]);
      }
      if cloud !in authData {
        return Err(KeyError(cloud)), [];
      }
      var verify := authData[cloud].verifyCert;
      if verify.None? {
        return Err(KeyError("verify_cert")), [];
      }
      var first := GetRequest(url, headers, verify);
      var resp := get(first);
      calls := [GetCall(first)];
      if StartsWith(resp.url, KeycloakPrefix) {
        var more;
        r, more := Reauthenticate(authData[cloud], url, resp.url, get, post);
        calls := calls + more;
        return;
      }
      r := JsonOf(resp);
    }

    /** The `if r.url.startswith('https://keycloak')` branch of
        `request_data` and its final decoding. */
    static method Reauthenticate(cfg: CloudConfig, url: string, redirect: string,
                                 get: GetRequest -> Response, post: PostRequest -> Response)
      returns (r: Result<Value>, calls: seq<Call>)
      ensures (r, calls) == AfterRedirect(cfg, url, redirect, get, post)
    {
      var grant := GrantRequest(cfg, redirect);
      if grant.Err? {
        return Err(grant.error), [];
      }
      calls := [PostCall(grant.value)];
      var token := AccessToken(post(grant.value));
      if token.Err? {
        return Err(token.error), calls;
      }
      var retry := RetryRequest(url, token.value);
      calls := [PostCall(grant.value), GetCall(retry)];
      r := JsonOf(get(retry));
    }

    /** `q(...)` */
    method Query(query: string, cloud: string, period: Option<PeriodArg>, step: int, start: Option<int>, now: int,
                 format: string, metric: Option<string>, get: GetRequest -> Response, post: PostRequest -> Response)
      returns (r: Result<QueryOutput>, calls: seq<Call>)
      ensures (r, calls) == QueryOf(authData, authTokens, query, cloud, period, step, start, now, format, metric, get, post)
    {
      var base := BaseUrl(authData, cloud);
      if base.Err? {
        return Err(base.error), [];
      }
      var url := QueryUrl(base.value, query, period, step, start, now);
      var data;
      data, calls := RequestData(cloud, url, get, post);
      if data.Err? {
        return Err(data.error), calls;
      }
      if format == "json" {
        return Ok(Json(data.value)), calls;
      }
      if format == "df" {
        var columns := DataToSeries(data.value, metric);
        if columns.Err? {
          return Err(columns.error), calls;
        }
        return Ok(Frame(columns.value)), calls;
      }
      r := Err(TypeError("exceptions must derive from BaseException"));
    }

    /** `get_metrics(cloud)` */
    method GetMetrics(cloud: string, get: GetRequest -> Response, post: PostRequest -> Response)
      returns (r: Result<Value>, calls: seq<Call>)
      ensures (r, calls) == MetricsOf(authData, authTokens, cloud, get, post)
    {
      var base := BaseUrl(authData, cloud);
      if base.Err? {
        return Err(base.error), [];
      }
      r, calls := RequestData(cloud, MetricsUrl(base.value), get, post);
    }
  }

  lemma DefaultsAgree(loaded: map<string, CloudConfig>, m: map<string, CloudConfig>)
    requires m.Keys == loaded.Keys
    requires forall c :: c in m ==> m[c] == WithDefault(loaded[c])
    ensures m == Defaults(loaded)
  {
  }

  // ---------------------------------------------------------------------
  // Properties of request_data

  /** No request leaves before the settings are found: an unknown cloud
      raises KeyError for the cloud, a cloud without `verify_cert` raises
      KeyError for that key, and otherwise at least one request is sent. */
  lemma FetchNeedsSettings(authData: map<string, CloudConfig>, authTokens: map<string, string>, cloud: string,
                           url: string, get: GetRequest -> Response, post: PostRequest -> Response)
    ensures cloud !in authData ==> Fetch(authData, authTokens, cloud, url, get, post) == (Err(KeyError(cloud)), [])
    ensures cloud in authData && authData[cloud].verifyCert.None? ==>
      Fetch(authData, authTokens, cloud, url, get, post) == (Err(KeyError("verify_cert")), [])
    ensures Fetch(authData, authTokens, cloud, url, get, post).1 == [] <==>
      cloud !in authData || authData[cloud].verifyCert.None?
  {
  }

  /** The first request is a GET of `url` with the cloud's `verify_cert`,
      and it carries a bearer header exactly when a token is stored for the
      cloud, with that token. */
  lemma FirstRequest(authData: map<string, CloudConfig>, authTokens: map<string, string>, cloud: string,
                     url: string, get: GetRequest -> Response, post: PostRequest -> Response)
    requires Fetch(authData, authTokens, cloud, url, get, post).1 != []
    ensures var first := Fetch(authData, authTokens, cloud, url, get, post).1[0];
      first.GetCall? && first.get.url == url && first.get.verify == authData[cloud].verifyCert &&
      ("Authorization" in first.get.headers <==> cloud in authTokens) &&
      (cloud in authTokens ==> first.get.headers == map["Authorization" := "Bearer " + authTokens[cloud]])
  {
  }

  /** At most three requests: the first GET, then only after a redirect to
      Keycloak that yields a complete grant, one POST of that grant to the
      token endpoint, and then only when the token response holds an
      `access_token`, one more GET. */
  lemma CallSequence(authData: map<string, CloudConfig>, authTokens: map<string, string>, cloud: string,
                     url: string, get: GetRequest -> Response, post: PostRequest -> Response)
    requires cloud in authData && authData[cloud].verifyCert.Some?
    ensures var calls := Fetch(authData, authTokens, cloud, url, get, post).1;
      var redirect := get(calls[0].get).url;
      1 <= |calls| <= 3 &&
      (|calls| >= 2 <==> StartsWith(redirect, KeycloakPrefix) && GrantRequest(authData[cloud], redirect).Ok?) &&
      (|calls| >= 2 ==> calls[1] == PostCall(GrantRequest(authData[cloud], redirect).value)) &&
      (|calls| == 3 <==> |calls| >= 2 && AccessToken(post(calls[1].post)).Ok?)
  {
    FetchNeedsSettings(authData, authTokens, cloud, url, get, post);
  }

  /** The retried GET asks for the same URL with the new token as a bearer
      header and no `verify` argument, and the result is its decoded body. */
  lemma RetryCarriesToken(authData: map<string, CloudConfig>, authTokens: map<string, string>, cloud: string,
                          url: string, get: GetRequest -> Response, post: PostRequest -> Response)
    requires |Fetch(authData, authTokens, cloud, url, get, post).1| == 3
    ensures var (r, calls) := Fetch(authData, authTokens, cloud, url, get, post);
      calls[1].PostCall? && calls[2].GetCall? &&
      calls[2].get == GetRequest(url, map["Authorization" := "Bearer " + PyStr(AccessToken(post(calls[1].post)).value)], None) &&
      r == JsonOf(get(calls[2].get))
  {
  }

  /** A successful result is always the decoded body of the last request,
      which is a GET. */
  lemma ResultIsLastBody(authData: map<string, CloudConfig>, authTokens: map<string, string>, cloud: string,
                         url: string, get: GetRequest -> Response, post: PostRequest -> Response)
    requires Fetch(authData, authTokens, cloud, url, get, post).0.Ok?
    ensures var (r, calls) := Fetch(authData, authTokens, cloud, url, get, post);
      calls != [] && calls[|calls| - 1].GetCall? && r == JsonOf(get(calls[|calls| - 1].get))
  {
    var cfg := authData[cloud];
    var first := GetRequest(url, FirstHeaders(authTokens, cloud), cfg.verifyCert);
    if StartsWith(get(first).url, KeycloakPrefix) {
      var grant := GrantRequest(cfg, get(first).url).value;
      var token := AccessToken(post(grant)).value;
      assert Fetch(authData, authTokens, cloud, url, get, post).1 ==
        [GetCall(first), PostCall(grant), GetCall(RetryRequest(url, token))];
    }
  }

  /** `r.url[:r.url.find('auth?')] + 'token'`: the text before the first
      `auth?` followed by `token`; when `auth?` does not occur, `find`
      gives -1 and the slice drops the last character of the URL. */
  lemma TokenEndpointRules(redirect: string)
    ensures forall k :: 0 <= k <= |redirect| && OccursAt(redirect, "auth?", k) &&
                        (forall j :: 0 <= j < k ==> !OccursAt(redirect, "auth?", j)) ==>
                        TokenEndpoint(redirect) == redirect[..k] + "token"
    ensures redirect != [] && (forall k :: 0 <= k <= |redirect| ==> !OccursAt(redirect, "auth?", k)) ==>
      TokenEndpoint(redirect) == redirect[..|redirect| - 1] + "token"
  {
  }

  /** The grant is a password grant for the configured user: its fields are
      the `keystone_auth` username and password, the client id(s) of the
      redirect and `grant_type=password`, sent to the token endpoint. It
      fails with KeyError when the redirect has no `client_id` or the
      settings lack `keystone_auth`. */
  lemma GrantRules(cfg: CloudConfig, redirect: string)
    ensures ClientIds(redirect).Err? ==> GrantRequest(cfg, redirect) == Err(KeyError("client_id"))
    ensures ClientIds(redirect).Ok? && cfg.keystoneAuth.None? ==> GrantRequest(cfg, redirect) == Err(KeyError("keystone_auth"))
    ensures GrantRequest(cfg, redirect).Ok? ==>
      var auth := cfg.keystoneAuth.value;
      var g := GrantRequest(cfg, redirect).value;
      g.url == TokenEndpoint(redirect) && |g.form| == 4 &&
      g.form[0] == FormField("username", Index(auth, "username").value) &&
      g.form[1] == FormField("password", Index(auth, "password").value) &&
      g.form[2].name == "client_id" && g.form[2].value.List? &&
      |g.form[2].value.items| == |ClientIds(redirect).value| &&
      (forall i :: 0 <= i < |ClientIds(redirect).value| ==> g.form[2].value.items[i] == Str(ClientIds(redirect).value[i])) &&
      g.form[3] == FormField("grant_type", Str("password"))
  {
  }

  // ---------------------------------------------------------------------
  // Properties of init

  /** `init` keeps the clouds and every setting they have; only a missing
      `verify_cert` is filled in, with `True`. */
  lemma DefaultsRules(loaded: map<string, CloudConfig>)
    ensures Defaults(loaded).Keys == loaded.Keys
    ensures forall c :: c in loaded ==>
      Defaults(loaded)[c].url == loaded[c].url &&
      Defaults(loaded)[c].keystoneAuth == loaded[c].keystoneAuth &&
      Defaults(loaded)[c].verifyCert == (if loaded[c].verifyCert.Some? then loaded[c].verifyCert else Some(Bool(true)))
  {
  }

  /** Running the loop again changes nothing. */
  lemma DefaultsIdempotent(loaded: map<string, CloudConfig>)
    ensures Defaults(Defaults(loaded)) == Defaults(loaded)
  {
    DefaultsRules(loaded);
    DefaultsRules(Defaults(loaded));
  }

  /** After `init`, a request to any loaded cloud is actually sent. */
  lemma InitEnablesRequests(loaded: map<string, CloudConfig>, authTokens: map<string, string>, cloud: string,
                            url: string, get: GetRequest -> Response, post: PostRequest -> Response)
    requires cloud in loaded
    ensures Fetch(Defaults(loaded), authTokens, cloud, url, get, post).1 != []
  {
    DefaultsRules(loaded);
    FetchNeedsSettings(Defaults(loaded), authTokens, cloud, url, get, post);
  }

  // ---------------------------------------------------------------------
  // Properties of q and get_metrics

  /** `q` requests the instant template without a period and the range
      template with one, under the cloud's `url`. */
  lemma QueryRequestsTemplate(authData: map<string, CloudConfig>, authTokens: map<string, string>, query: string,
                              cloud: string, period: Option<PeriodArg>, step: int, start: Option<int>, now: int,
                              format: string, metric: Option<string>,
                              get: GetRequest -> Response, post: PostRequest -> Response)
    requires QueryOf(authData, authTokens, query, cloud, period, step, start, now, format, metric, get, post).1 != []
    ensures var calls := QueryOf(authData, authTokens, query, cloud, period, step, start, now, format, metric, get, post).1;
      var base := authData[cloud].url.value;
      calls[0].GetCall? &&
      (period.None? ==> calls[0].get.url == InstantUrl(base, query)) &&
      (period.Some? ==> calls[0].get.url == RangeUrl(base, query, RangeWindow(period.value, start, step, now)))
  {
    var base := BaseUrl(authData, cloud).value;
    FirstRequest(authData, authTokens, cloud, QueryUrl(base, query, period, step, start, now), get, post);
  }

  /** An unknown `output_format` fails, but only after the request has been
      made: the calls are those of `request_data`. */
  lemma UnknownFormatFails(authData: map<string, CloudConfig>, authTokens: map<string, string>, query: string,
                           cloud: string, period: Option<PeriodArg>, step: int, start: Option<int>, now: int,
                           format: string, metric: Option<string>,
                           get: GetRequest -> Response, post: PostRequest -> Response)
    requires format != "json" && format != "df"
    requires BaseUrl(authData, cloud).Ok?
    ensures var base := BaseUrl(authData, cloud).value;
      var (r, calls) := QueryOf(authData, authTokens, query, cloud, period, step, start, now, format, metric, get, post);
      r.Err? && calls == Fetch(authData, authTokens, cloud, QueryUrl(base, query, period, step, start, now), get, post).1
  {
  }

  /** `'json'` returns what `request_data` returned, and `'df'` its series. */
  lemma FormatsOfResult(authData: map<string, CloudConfig>, authTokens: map<string, string>, query: string,
                        cloud: string, period: Option<PeriodArg>, step: int, start: Option<int>, now: int,
                        format: string, metric: Option<string>,
                        get: GetRequest -> Response, post: PostRequest -> Response)
    requires BaseUrl(authData, cloud).Ok?
    ensures var base := BaseUrl(authData, cloud).value;
      var data := Fetch(authData, authTokens, cloud, QueryUrl(base, query, period, step, start, now), get, post).0;
      var r := QueryOf(authData, authTokens, query, cloud, period, step, start, now, format, metric, get, post).0;
      (data.Err? ==> r == Err(data.error)) &&
      (data.Ok? && format == "json" ==> r == Ok(Json(data.value))) &&
      (data.Ok? && format == "df" ==>
        (r.Ok? <==> SeriesOf(data.value, metric).Ok?) &&
        (r.Ok? ==> r.value == Frame(SeriesOf(data.value, metric).value)))
  {
  }

  /** `get_metrics` requests the metric-names URL of the cloud, which
      carries no query string. */
  lemma MetricsRequestsNames(authData: map<string, CloudConfig>, authTokens: map<string, string>, cloud: string,
                             get: GetRequest -> Response, post: PostRequest -> Response)
    requires MetricsOf(authData, authTokens, cloud, get, post).1 != []
    ensures var calls := MetricsOf(authData, authTokens, cloud, get, post).1;
      calls[0].GetCall? && calls[0].get.url == MetricsUrl(authData[cloud].url.value)
  {
    var base := BaseUrl(authData, cloud).value;
    FirstRequest(authData, authTokens, cloud, MetricsUrl(base), get, post);
  }
}
