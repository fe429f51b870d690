/**
 * The Agiloft REST client (src/agiloft_client.py) as a sequential state
 * machine: a client holds its settings, its token state and the log of the
 * requests it has sent. The server is an oracle that answers the n-th
 * request of the session; time is a whole number of minutes passed in.
 * Sessions, timeouts and the authentication lock are runtime concerns and
 * are not modelled.
 */
module AgiloftClient {
  import opened Wrappers
  import opened Errors
  import opened Json
  import Strings
  import Cfg = Configuration

  /** The connection settings read from the configuration. */
  datatype Settings = Settings(baseUrl: Value, username: Value, password: Value, kb: Value, language: Value)

  /** `AgiloftClient.__init__`: the settings are read from the configuration
      once; a missing setting is None, except the language, which defaults
      to "en". */
  function SettingsFrom(data: Object): (r: Settings)
    ensures r.language == Cfg.Get(data, Cfg.Field("agiloft", "language"), Str("en"))
    ensures !Truthy(r.password) ==> !Cfg.Validate(data)
  {
    Settings(
      Cfg.Get(data, Cfg.Field("agiloft", "base_url"), Null),
      Cfg.Get(data, Cfg.Field("agiloft", "username"), Null),
      Cfg.Get(data, Cfg.Field("agiloft", "password"), Null),
      Cfg.Get(data, Cfg.Field("agiloft", "kb"), Null),
      Cfg.Get(data, Cfg.Field("agiloft", "language"), Str("en")))
  }

  /** A password given in AGILOFT_PASSWORD is the one the client logs in
      with, when the file layer left a string (or nothing) there. */
  lemma EnvPasswordReachesClient(path: string, file: Cfg.ConfigFile, env: Cfg.Environment, p: string)
    requires env("AGILOFT_PASSWORD") == Some(p) && Cfg.Load(path, file, env).Ok?
    requires Cfg.FileLayer(path, file).Ok?
    requires var before := Cfg.Get(Cfg.FileLayer(path, file).value, Cfg.Field("agiloft", "password"), Null);
      before.Str? || before.Null?
    ensures SettingsFrom(Cfg.Load(path, file, env).value).password == Str(p)
  {
    assert Cfg.EnvMappings[2].variable == "AGILOFT_PASSWORD";
    assert Cfg.PathOf(Cfg.EnvMappings[2]) == Cfg.Field("agiloft", "password");
    Cfg.EnvBeatsFile(path, file, env, 2, Null);
  }

  /** Printing the configuration before the client is built leaves the
      client with the mask for a password. */
  lemma DescribedConfigMasksClientPassword(data: Object)
    requires "agiloft" in data && data["agiloft"].Obj? && "password" in data["agiloft"].fields
    ensures SettingsFrom(Cfg.Describe(data).1).password == Str(Cfg.Masked)
  {
    Cfg.DescribeClobbersPassword(data);
  }

  /** The token state; `Null` stands for None. Expiry is in minutes. */
  datatype Tokens = Tokens(access: Value, refresh: Value, expiresAt: Option<int>)

  /** One HTTP request as it goes on the wire; `params` is the query string. */
  datatype Request = Request(verb: string, url: string, params: Object, headers: map<string, string>, body: Option<Value>)

  /** What the server did with a request: it answered (status, raw text,
      decoded JSON body), or the HTTP library raised a client error. */
  datatype Exchange = Answered(status: int, text: string, json: Value) | ClientError(message: string)

  /** A logged request, tagged with the code that sent it. */
  datatype Send = LoginSend(req: Request) | ApiSend(req: Request)

  /** The server: its answer to the n-th request of the session. */
  type Net = (nat, Request) -> Exchange

  datatype Client = Client(settings: Settings, tokens: Tokens, log: seq<Send>)

  /** A freshly constructed client: no tokens, nothing sent. */
  function NewClient(s: Settings): Client {
    Client(s, Tokens(Null, Null, None), [])
  }

  /** Sending one request: it is logged, and the server answers it. */
  function Transmit(c: Client, net: Net, s: Send): (r: (Client, Exchange))
    ensures r.0.settings == c.settings && r.0.tokens == c.tokens
    ensures Extends(c, r.0) && SentSince(c, r.0) == [s]
    ensures ApiSends(SentSince(c, r.0)) == (if s.ApiSend? then 1 else 0)
    ensures LoginSends(SentSince(c, r.0)) == (if s.LoginSend? then 1 else 0)
  {
    OneSend(c, s);
    (c.(log := c.log + [s]), net(|c.log|, s.req))
  }

  /** `c2` extends `c1`: same settings, and `c1`'s log is a prefix of `c2`'s. */
  predicate Extends(c1: Client, c2: Client) {
    c2.settings == c1.settings && |c1.log| <= |c2.log| && c2.log[..|c1.log|] == c1.log
  }

  function ApiSends(s: seq<Send>): nat {
    if |s| == 0 then 0 else ApiSends(s[..|s| - 1]) + (if s[|s| - 1].ApiSend? then 1 else 0)
  }

  function LoginSends(s: seq<Send>): nat {
    if |s| == 0 then 0 else LoginSends(s[..|s| - 1]) + (if s[|s| - 1].LoginSend? then 1 else 0)
  }

  /** The requests `c2` sent since `c1`. */
  function SentSince(c1: Client, c2: Client): seq<Send>
    requires Extends(c1, c2)
  {
    c2.log[|c1.log|..]
  }

  lemma {:induction false} CountsAppend(a: seq<Send>, b: seq<Send>)
    ensures ApiSends(a + b) == ApiSends(a) + ApiSends(b)
    ensures LoginSends(a + b) == LoginSends(a) + LoginSends(b)
  {
    if |b| == 0 {
      assert a + b == a;
    } else {
      var b0 := b[..|b| - 1];
      assert (a + b)[..|a + b| - 1] == a + b0;
      CountsAppend(a, b0);
    }
  }

  /** Extension is transitive, and the sends of a run add up over its parts. */
  lemma Chain(c1: Client, c2: Client, c3: Client)
    requires Extends(c1, c2) && Extends(c2, c3)
    ensures Extends(c1, c3)
    ensures ApiSends(SentSince(c1, c3)) == ApiSends(SentSince(c1, c2)) + ApiSends(SentSince(c2, c3))
    ensures LoginSends(SentSince(c1, c3)) == LoginSends(SentSince(c1, c2)) + LoginSends(SentSince(c2, c3))
  {
    assert c3.log[..|c1.log|] == c3.log[..|c2.log|][..|c1.log|];
    assert SentSince(c1, c3) == SentSince(c1, c2) + SentSince(c2, c3);
    CountsAppend(SentSince(c1, c2), SentSince(c2, c3));
  }

  lemma OneSend(c: Client, s: Send)
    ensures var c1 := c.(log := c.log + [s]);
      && Extends(c, c1) && SentSince(c, c1) == [s]
      && ApiSends(SentSince(c, c1)) == (if s.ApiSend? then 1 else 0)
      && LoginSends(SentSince(c, c1)) == (if s.LoginSend? then 1 else 0)
  {
    var c1 := c.(log := c.log + [s]);
    assert SentSince(c, c1) == [s];
    assert [s][..0] == [];
  }

  // ---------------------------------------------------------------------
  // Authentication
  // ---------------------------------------------------------------------

  /** `ensure_authenticated` logs in again when there is no token, no
      expiry, or less than a minute is left. */
  predicate NeedsAuth(t: Tokens, now: int) {
    t.access == Null || t.expiresAt.None? || now >= t.expiresAt.value - 1
  }

  /** Once a token needs renewing it keeps needing it as time passes. */
  lemma NeedsAuthStays(t: Tokens, now: int, later: int)
    requires NeedsAuth(t, now) && now <= later
    ensures NeedsAuth(t, later)
  {
  }

  /** The login POST: the credentials as a JSON body. */
  function LoginRequest(s: Settings): (r: Request)
    ensures r.verb == "POST" && r.params == map[] && r.headers == map[]
    ensures r.body.Some? && r.body.value.Obj? && r.body.value.fields.Keys == {"password", "KB", "login", "lang"}
  {
    Request("POST", PyStr(s.baseUrl) + "/login", map[], map[],
      Some(Obj(map["password" := s.password, "KB" := s.kb, "login" := s.username, "lang" := s.language])))
  }

  /** The `result` object of a login answer the server accepted: status 200,
      a dict body whose `success` is truthy and whose `result` (default
      `{}`) is a dict. */
  function Granted(a: Exchange): Option<Object> {
    if a.Answered? && a.status == 200 && a.json.Obj? && Truthy(Lookup(a.json.fields, "success", Bool(false)))
       && Lookup(a.json.fields, "result", Obj(map[])).Obj?
    then Some(Lookup(a.json.fields, "result", Obj(map[])).fields)
    else None
  }

  /** The token lifetime a grant states, in minutes (default 15); None when
      it is not a number `timedelta` accepts. */
  function Lifetime(result: Object): Option<int> {
    AsInt(Lookup(result, "expires_in", Int(15)))
  }

  /** Why a login answer was refused, when it was. */
  function LoginRefusal(a: Exchange): Option<Error> {
    match a
    case ClientError(m) => Some(Transport(m))
    case Answered(st, text, json) =>
      if st != 200 then Some(Auth("Authentication failed: " + Strings.IntToString(st) + " - " + text))
      else if !json.Obj? then Some(Builtin(AttributeError))
      else if !Truthy(Lookup(json.fields, "success", Bool(false))) then
        Some(Auth("Authentication failed: " + PyStr(Lookup(json.fields, "message", Str("Unknown error")))))
      else if !Lookup(json.fields, "result", Obj(map[])).Obj? then Some(Builtin(AttributeError))
      else None
  }

  lemma RefusedIffNotGranted(a: Exchange)
    ensures LoginRefusal(a).None? <==> Granted(a).Some?
  {
  }

  /** `_authenticate`: one login request. A refused login raises and leaves
      the tokens as they were; an accepted one stores both tokens and sets
      the expiry `expires_in` minutes from now. A lifetime `timedelta`
      rejects raises after the tokens were stored, with the expiry unchanged. */
  function Authenticate(c: Client, net: Net, now: int): (r: (Client, Result<(), Error>))
    ensures r.0.settings == c.settings
    ensures r.0.log == c.log + [LoginSend(LoginRequest(c.settings))]
    ensures var a := net(|c.log|, LoginRequest(c.settings));
      && (LoginRefusal(a).Some? ==> r.1 == Err(LoginRefusal(a).value) && r.0.tokens == c.tokens)
      && (r.1.Ok? <==> Granted(a).Some? && Lifetime(Granted(a).value).Some?)
      && (Granted(a).Some? ==>
            && r.0.tokens.access == Lookup(Granted(a).value, "access_token", Null)
            && r.0.tokens.refresh == Lookup(Granted(a).value, "refresh_token", Null))
      && (r.1.Ok? ==> r.0.tokens.expiresAt == Some(now + Lifetime(Granted(a).value).value))
      && (Granted(a).Some? && r.1.Err? ==> r.1 == Err(Builtin(TypeError)) && r.0.tokens.expiresAt == c.tokens.expiresAt)
  {
    var (c1, a) := Transmit(c, net, LoginSend(LoginRequest(c.settings)));
    match LoginRefusal(a)
    case Some(e) => (c1, Err(e))
    case None =>
      RefusedIffNotGranted(a);
      var result := Granted(a).value;
      var t := c1.tokens.(access := Lookup(result, "access_token", Null), refresh := Lookup(result, "refresh_token", Null));
      match Lifetime(result)
      case None => (c1.(tokens := t), Err(Builtin(TypeError)))
      case Some(n) => (c1.(tokens := t.(expiresAt := Some(now + n))), Ok(()))
  }

  /** Right after a successful login the token needs renewing again exactly
      when the server sent no access token or granted a minute or less: such
      a grant is renewed by the very next request. */
  lemma FreshAfterLogin(c: Client, net: Net, now: int)
    requires Authenticate(c, net, now).1.Ok?
    ensures var a := net(|c.log|, LoginRequest(c.settings));
      NeedsAuth(Authenticate(c, net, now).0.tokens, now) <==>
        Lookup(Granted(a).value, "access_token", Null) == Null || Lifetime(Granted(a).value).value <= 1
  {
  }

  /** `ensure_authenticated`: logs in only when the token needs renewing. */
  function EnsureAuthenticated(c: Client, net: Net, now: int): (r: (Client, Result<(), Error>))
    ensures r.0.settings == c.settings
    ensures !NeedsAuth(c.tokens, now) ==> r == (c, Ok(()))
    ensures NeedsAuth(c.tokens, now) ==> r.0.log == c.log + [LoginSend(LoginRequest(c.settings))]
    ensures Extends(c, r.0) && ApiSends(SentSince(c, r.0)) == 0 && LoginSends(SentSince(c, r.0)) <= 1
    ensures r.1.Ok? && NeedsAuth(r.0.tokens, now) ==>
      r.0.tokens.access == Null || (r.0.tokens.expiresAt.Some? && r.0.tokens.expiresAt.value <= now + 1)
  {
    if NeedsAuth(c.tokens, now) then
      var r := Authenticate(c, net, now);
      OneSend(c, LoginSend(LoginRequest(c.settings)));
      if r.1.Ok? then FreshAfterLogin(c, net, now); r else r
    else
      assert SentSince(c, c) == [];
      (c, Ok(()))
  }

  /** `_get_auth_headers`: an auth error without a usable token; otherwise a
      bearer credential (section 2.1 of RFC 6750) and JSON content headers. */
  function AuthHeaders(t: Tokens): (r: Result<map<string, string>, Error>)
    ensures r.Err? <==> !Truthy(t.access)
    ensures r.Err? ==> r.error == Auth("No access token available")
    ensures r.Ok? ==>
      && r.value.Keys == {"Authorization", "Content-Type", "Accept"}
      && r.value["Authorization"] == "Bearer " + PyStr(t.access)
      && r.value["Content-Type"] == "application/json" == r.value["Accept"]
  {
    if !Truthy(t.access) then Err(Auth("No access token available"))
    else Ok(map["Authorization" := "Bearer " + PyStr(t.access),
                "Content-Type" := "application/json",
                "Accept" := "application/json"])
  }

  // ---------------------------------------------------------------------
  // Requests
  // ---------------------------------------------------------------------

  /** The URL is the base, one `/`, and the endpoint after its first `k`
      characters, which are all slashes, with no slash following them. */
  predicate RequestUrlAt(base: Value, endpoint: string, k: int, url: string) {
    && 0 <= k <= |endpoint|
    && url == PyStr(base) + "/" + endpoint[k..]
    && (forall i :: 0 <= i < k ==> endpoint[i] == '/')
    && (k < |endpoint| ==> endpoint[k] != '/')
  }

  /** `f"{base_url}/{endpoint.lstrip('/')}"`: exactly one `/` between the
      base and the endpoint's own path. */
  function RequestUrl(base: Value, endpoint: string): (r: string)
    ensures exists k :: RequestUrlAt(base, endpoint, k, r)
  {
    var e := Strings.LStripChar(endpoint, '/');
    assert RequestUrlAt(base, endpoint, |endpoint| - |e|, PyStr(base) + "/" + e);
    PyStr(base) + "/" + e
  }

  /** Leading slashes on an endpoint make no difference to the URL. */
  lemma UrlIgnoresLeadingSlash(base: Value, endpoint: string)
    ensures RequestUrl(base, "/" + endpoint) == RequestUrl(base, endpoint)
  {
    assert ("/" + endpoint)[1..] == endpoint;
  }

  /** The query parameters: `lang` is added only when the caller gave none. */
  function WithLanguage(params: Object, lang: Value): (r: Object)
    ensures "lang" in r && r.Keys == params.Keys + {"lang"}
    ensures "lang" in params ==> r == params
    ensures "lang" !in params ==> r["lang"] == lang
    ensures forall k :: k in params ==> r[k] == params[k]
  {
    if "lang" in params then params else params["lang" := lang]
  }

  lemma WithLanguageIdempotent(params: Object, lang: Value, other: Value)
    ensures WithLanguage(WithLanguage(params, lang), other) == WithLanguage(params, lang)
  {
  }

  /** `headers.update(kwargs['headers'])`: the caller's headers win. */
  function MergeHeaders(defaults: map<string, string>, caller: map<string, string>): (r: map<string, string>)
    ensures r.Keys == defaults.Keys + caller.Keys
    ensures forall k :: k in caller ==> r[k] == caller[k]
    ensures forall k :: k in defaults && k !in caller ==> r[k] == defaults[k]
  {
    defaults + caller
  }

  function ClientErrorText(verb: string, url: string, m: string): string {
    "HTTP client error for " + verb + " " + url + ": " + m
  }

  /** The error for a non-200 status; `after` marks the retry after re-auth. */
  function StatusError(st: int, text: string, after: bool): Error {
    Api((if after then "API request failed after re-auth: " else "API request failed: ")
        + Strings.IntToString(st) + " - " + text, Some(st), Some(text))
  }

  /** An exception from logging in again inside `_make_request`: a client
      error is caught and re-raised as an API error, the rest escape as they are. */
  function ReauthError(e: Error, req: Request): Error {
    if e.Transport? then Api(ClientErrorText(req.verb, req.url, e.message), None, None) else e
  }

  /** Resending a request after re-authentication with headers `h`. */
  function Resend(c: Client, net: Net, req: Request, h: map<string, string>): (r: (Client, Result<Value, Error>))
    ensures var again := req.(headers := h);
      && r.0 == c.(log := c.log + [ApiSend(again)])
      && (net(|c.log|, again).ClientError? ==>
            r.1 == Err(Api(ClientErrorText(req.verb, req.url, net(|c.log|, again).message), None, None)))
      && (net(|c.log|, again).Answered? ==>
            r.1 == if net(|c.log|, again).status == 200 then Ok(net(|c.log|, again).json)
                   else Err(StatusError(net(|c.log|, again).status, net(|c.log|, again).text, true)))
  {
    var again := req.(headers := h);
    var (c1, b) := Transmit(c, net, ApiSend(again));
    match b
    case ClientError(m) => (c1, Err(Api(ClientErrorText(req.verb, req.url, m), None, None)))
    case Answered(st, text, json) =>
      if st != 200 then (c1, Err(StatusError(st, text, true))) else (c1, Ok(json))
  }

  /** The second attempt after a 401: log in again, then resend with fresh
      auth headers only (the caller's own headers are not sent again). */
  function Retry(c: Client, net: Net, now: int, req: Request): (r: (Client, Result<Value, Error>))
    ensures Extends(c, r.0)
    ensures |c.log| < |r.0.log| <= |c.log| + 2 && r.0.log[|c.log|] == LoginSend(LoginRequest(c.settings))
    ensures ApiSends(SentSince(c, r.0)) <= 1 && LoginSends(SentSince(c, r.0)) == 1
    ensures Authenticate(c, net, now).1.Err? ==>
      r == (Authenticate(c, net, now).0, Err(ReauthError(Authenticate(c, net, now).1.error, req)))
    ensures Authenticate(c, net, now).1.Ok? && AuthHeaders(Authenticate(c, net, now).0.tokens).Ok? ==>
      r == Resend(Authenticate(c, net, now).0, net, req, AuthHeaders(Authenticate(c, net, now).0.tokens).value)
  {
    var (c1, auth) := Authenticate(c, net, now);
    OneSend(c, LoginSend(LoginRequest(c.settings)));
    if auth.Err? then (c1, Err(ReauthError(auth.error, req)))
    else match AuthHeaders(c1.tokens)
      case Err(e) => (c1, Err(e))
      case Ok(h) =>
        var r := Resend(c1, net, req, h);
        OneSend(c1, ApiSend(req.(headers := h)));
        Chain(c, c1, r.0);
        r
  }

  /** What the first answer to an API request leads to. */
  function Answer(c: Client, net: Net, now: int, req: Request, a: Exchange): (r: (Client, Result<Value, Error>))
    ensures Extends(c, r.0)
    ensures a.ClientError? ==> r == (c, Err(Api(ClientErrorText(req.verb, req.url, a.message), None, None)))
    ensures a.Answered? && a.status == 200 ==> r == (c, Ok(a.json))
    ensures a.Answered? && a.status != 200 && a.status != 401 ==> r == (c, Err(StatusError(a.status, a.text, false)))
    ensures a.Answered? && a.status == 401 ==> r == Retry(c, net, now, req)
    ensures |r.0.log| - |c.log| <= 2
    ensures ApiSends(SentSince(c, r.0)) <= 1 && LoginSends(SentSince(c, r.0)) <= 1
  {
    assert SentSince(c, c) == [];
    match a
    case ClientError(m) => (c, Err(Api(ClientErrorText(req.verb, req.url, m), None, None)))
    case Answered(st, text, json) =>
      if st == 401 then Retry(c, net, now, req)
      else if st != 200 then (c, Err(StatusError(st, text, false)))
      else (c, Ok(json))
  }

  /** The request `_make_request` sends first, given the auth headers. */
  function FirstRequest(s: Settings, auth: map<string, string>, verb: string, endpoint: string,
                        params: Option<Object>, headers: Option<map<string, string>>, body: Option<Value>): Request
  {
    Request(verb, RequestUrl(s.baseUrl, endpoint), WithLanguage(params.GetOr(map[]), s.language),
            MergeHeaders(auth, headers.GetOr(map[])), body)
  }

  /** `_make_request`: make sure of a token, send, and map the status: 200
      gives the body, 401 one re-authentication and one retry, anything else
      an API error carrying status and body. It sends the request at most
      twice and logs in at most twice. */
  function MakeRequest(c: Client, net: Net, now: int, verb: string, endpoint: string,
                       params: Option<Object>, headers: Option<map<string, string>>, body: Option<Value>): (r: (Client, Result<Value, Error>))
    ensures Extends(c, r.0)
    ensures |r.0.log| - |c.log| <= 4
    ensures ApiSends(SentSince(c, r.0)) <= 2 && LoginSends(SentSince(c, r.0)) <= 2
    ensures NeedsAuth(c.tokens, now) ==>
      |r.0.log| > |c.log| && r.0.log[|c.log|] == LoginSend(LoginRequest(c.settings))
    ensures !NeedsAuth(c.tokens, now) && !Truthy(c.tokens.access) ==>
      r == (c, Err(Auth("No access token available")))
  {
    var (c1, ok) := EnsureAuthenticated(c, net, now);
    if ok.Err? then
      assert ApiSends(SentSince(c, c1)) == 0;
      (c1, Err(ok.error))
    else match AuthHeaders(c1.tokens)
      case Err(e) => (c1, Err(e))
      case Ok(h) =>
        var req := FirstRequest(c.settings, h, verb, endpoint, params, headers, body);
        var (c2, a) := Transmit(c1, net, ApiSend(req));
        var r := Answer(c2, net, now, req, a);
        Chain(c, c1, c2);
        Chain(c, c2, r.0);
        r
  }

  /** With a live token nothing precedes the caller's request: it goes out
      first, built from the auth headers, the caller's parameters plus
      `lang`, and the URL; and its answer alone decides what follows. */
  lemma LiveTokenSendsFirst(c: Client, net: Net, now: int, verb: string, endpoint: string,
                            params: Option<Object>, headers: Option<map<string, string>>, body: Option<Value>)
    requires !NeedsAuth(c.tokens, now) && Truthy(c.tokens.access)
    ensures var req := FirstRequest(c.settings, AuthHeaders(c.tokens).value, verb, endpoint, params, headers, body);
      var c1 := c.(log := c.log + [ApiSend(req)]);
      MakeRequest(c, net, now, verb, endpoint, params, headers, body) == Answer(c1, net, now, req, net(|c.log|, req))
  {
  }

  /** The request a live token sends carries the bearer header unless the
      caller overrides it, the caller's parameters with `lang` added if
      missing, and exactly one slash between base URL and endpoint. */
  lemma FirstRequestShape(s: Settings, t: Tokens, verb: string, endpoint: string,
                          params: Option<Object>, headers: Option<map<string, string>>, body: Option<Value>)
    requires Truthy(t.access)
    ensures var req := FirstRequest(s, AuthHeaders(t).value, verb, endpoint, params, headers, body);
      && req.verb == verb && req.body == body
      && (exists k :: RequestUrlAt(s.baseUrl, endpoint, k, req.url))
      && "lang" in req.params
      && (params.Some? && "lang" in params.value ==> req.params == params.value)
      && (headers.None? || "Authorization" !in headers.value ==>
            req.headers["Authorization"] == "Bearer " + PyStr(t.access))
      && (headers.Some? ==> forall k :: k in headers.value ==> req.headers[k] == headers.value[k])
  {
  }

  // ---------------------------------------------------------------------
  // Contract endpoints
  // ---------------------------------------------------------------------

  /** The `field` list `search_contracts` asks for when given none. */
  const DefaultContractFields: seq<string> := [
    "id", "record_type", "contract_title1", "company_name", "date_created",
    "date_submitted", "date_signed", "contract_amount", "contract_end_date",
    "contract_term_in_months", "internal_contract_owner"]

  /** A `fields` argument is truthy: given, and not the empty list. */
  predicate Requested(fields: Option<seq<string>>) {
    fields.Some? && |fields.value| > 0
  }

  /** The body of a contract search: `fields or [defaults]`. */
  function SearchBody(query: string, fields: Option<seq<string>>): (r: Value)
    ensures r.Obj? && r.fields.Keys == {"search", "field", "query"}
    ensures r.fields["query"] == Str(query) && r.fields["search"] == Str("")
    ensures r.fields["field"] == StrList(if Requested(fields) then fields.value else DefaultContractFields)
  {
    var asked := if Requested(fields) then fields.value else DefaultContractFields;
    Obj(map["search" := Str(""), "field" := StrList(asked), "query" := Str(query)])
  }

  /** The result of a search answer: a missing `success` counts as failure,
      and a missing `result` as the empty list. */
  function SearchResult(resp: Value): (r: Result<Value, Error>)
    ensures !resp.Obj? ==> r == Err(Builtin(AttributeError))
    ensures resp.Obj? ==>
      (r.Ok? <==> "success" in resp.fields && Truthy(resp.fields["success"]))
    ensures r.Ok? ==> r.value == (if "result" in resp.fields then resp.fields["result"] else Arr([]))
    ensures resp.Obj? && r.Err? ==>
      r.error == Api("Search failed: " + PyStr(Lookup(resp.fields, "message", Str("Unknown error"))), None, None)
  {
    if !resp.Obj? then Err(Builtin(AttributeError))
    else if !Truthy(Lookup(resp.fields, "success", Bool(false))) then
      Err(Api("Search failed: " + PyStr(Lookup(resp.fields, "message", Str("Unknown error"))), None, None))
    else Ok(Lookup(resp.fields, "result", Arr([])))
  }

  /** `search_contracts`: one POST to `/contract/search`. */
  function SearchContracts(c: Client, net: Net, now: int, query: string, fields: Option<seq<string>>): (r: (Client, Result<Value, Error>))
    ensures var sent := MakeRequest(c, net, now, "POST", "/contract/search", None, None, Some(SearchBody(query, fields)));
      && r.0 == sent.0
      && (sent.1.Err? ==> r.1 == Err(sent.1.error))
      && (sent.1.Ok? ==> r.1 == SearchResult(sent.1.value))
  {
    var (c1, resp) := MakeRequest(c, net, now, "POST", "/contract/search", None, None, Some(SearchBody(query, fields)));
    match resp
    case Err(e) => (c1, Err(e))
    case Ok(v) => (c1, SearchResult(v))
  }

  /** The error when no contract can be found in a dict answer. Its key
      list is printed as `str` prints a list (its repr is not part of this
      model). */
  function NotFound(resp: Object): Error {
    Api("Contract not found in response. Response keys: " + PyStr(Arr([])), None, None)
  }

  /** The record in a dict `get_contract` answer, trying in order the
      `result` key, the `contract` key and the answer itself when it has an
      `id`. (A list answer never gets here: the debug line before the search
      calls `response.keys()` whatever the log level, so any non-dict answer
      has already raised.) */
  function Locate(resp: Object): (r: Result<Value, Error>)
    ensures r.Ok? <==> "result" in resp || "contract" in resp || "id" in resp
    ensures r.Err? ==> r.error == NotFound(resp)
    ensures r.Ok? ==> r.value in resp.Values || (r.value == Obj(resp) && "id" in resp)
    ensures "result" in resp ==> r == Ok(resp["result"])
    ensures "result" !in resp && "contract" in resp ==> r == Ok(resp["contract"])
  {
    if "result" in resp then Ok(resp["result"])
    else if "contract" in resp then Ok(resp["contract"])
    else if "id" in resp then Ok(Obj(resp))
    else Err(NotFound(resp))
  }

  /** A record wrapped under `result` or `contract`, or sent bare with its
      `id`, is found as sent. */
  lemma LocateFindsWrappedRecord(record: Object)
    ensures Locate(map["result" := Obj(record)]) == Ok(Obj(record))
    ensures Locate(map["contract" := Obj(record)]) == Ok(Obj(record))
    ensures "id" in record && "result" !in record && "contract" !in record ==> Locate(record) == Ok(Obj(record))
  {
  }

  /** The field filter of `get_contract`: the requested keys the record has,
      with their values. Only a dict can be filtered; on anything else a key
      test or an index raises. */
  function FilterFields(record: Value, fields: seq<string>): (r: Result<Object, Error>)
    ensures record.Obj? ==> r.Ok?
    ensures r.Ok? && record.Obj? ==>
      && (forall k :: k in r.value <==> k in fields && k in record.fields)
      && (forall k :: k in r.value ==> r.value[k] == record.fields[k])
    ensures r.Ok? && !record.Obj? ==> r.value == map[]
    ensures |fields| > 0 && (record.Null? || record.Bool? || record.Int?) ==> r == Err(Builtin(TypeError))
  {
    if |fields| == 0 then Ok(map[])
    else
      match PyIn(fields[0], record)
      case None => Err(Builtin(TypeError))
      case Some(false) => FilterFields(record, fields[1..])
      case Some(true) =>
        if !record.Obj? then Err(Builtin(TypeError))
        else
          var rest := FilterFields(record, fields[1..]);
          assert rest.Ok?;
          Ok(rest.value[fields[0] := record.fields[fields[0]]])
  }

  function ContractPath(id: int): string {
    "/contract/" + Strings.IntToString(id)
  }

  /** The query parameters of `get_contract`: `fields` comma-joined, if any. */
  function ContractParams(fields: Option<seq<string>>): (r: Object)
    ensures Requested(fields) <==> "fields" in r
    ensures Requested(fields) ==> r == map["fields" := Str(Strings.Join(fields.value, ","))]
    ensures !Requested(fields) ==> r == map[]
  {
    if Requested(fields) then map["fields" := Str(Strings.Join(fields.value, ","))] else map[]
  }

  /** What `get_contract` makes of the answer `v`: the debug line
      `list(response.keys())` runs first, so an answer that is not a dict
      raises AttributeError; then the record is located and, when fields are
      requested, cut down to them. */
  function Retrieved(v: Value, fields: Option<seq<string>>): (r: Result<Value, Error>)
    ensures !v.Obj? ==> r == Err(Builtin(AttributeError))
    ensures v.Obj? && (Locate(v.fields).Err? || !Requested(fields)) ==> r == Locate(v.fields)
    ensures v.Obj? && Locate(v.fields).Ok? && Requested(fields) ==>
      var filtered := FilterFields(Locate(v.fields).value, fields.value);
      r == if filtered.Ok? then Ok(Obj(filtered.value)) else Err(filtered.error)
    ensures r.Ok? && Requested(fields) ==>
      r.value.Obj? && forall k :: k in r.value.fields ==> k in fields.value
  {
    if !v.Obj? then Err(Builtin(AttributeError))
    else match Locate(v.fields)
      case Err(e) => Err(e)
      case Ok(record) =>
        if !Requested(fields) then Ok(record)
        else match FilterFields(record, fields.value)
          case Err(e) => Err(e)
          case Ok(m) => Ok(Obj(m))
  }

  /** When the located record is a dict and fields are requested, the
      answer holds exactly the requested fields the record has, with their
      values. */
  lemma RetrievedKeepsRequestedFields(v: Value, fields: Option<seq<string>>)
    requires Requested(fields)
    requires v.Obj? && Locate(v.fields).Ok? && Locate(v.fields).value.Obj?
    ensures var record := Locate(v.fields).value.fields;
      var r := Retrieved(v, fields);
      && r.Ok? && r.value.Obj?
      && (forall k :: k in r.value.fields <==> k in fields.value && k in record)
      && (forall k :: k in r.value.fields ==> r.value.fields[k] == record[k])
  {
  }

  /** `get_contract`: one GET for the record; a failed request fails the
      call, and an answer is handled by `Retrieved`. */
  function GetContract(c: Client, net: Net, now: int, id: int, fields: Option<seq<string>>): (r: (Client, Result<Value, Error>))
    ensures var sent := MakeRequest(c, net, now, "GET", ContractPath(id), Some(ContractParams(fields)), None, None);
      && r.0 == sent.0
      && (sent.1.Err? ==> r.1 == Err(sent.1.error))
      && (sent.1.Ok? ==> r.1 == Retrieved(sent.1.value, fields))
  {
    var (c1, resp) := MakeRequest(c, net, now, "GET", ContractPath(id), Some(ContractParams(fields)), None, None);
    match resp
    case Err(e) => (c1, Err(e))
    case Ok(v) => (c1, Retrieved(v, fields))
  }

  // ---------------------------------------------------------------------
  // Success flags and error aggregation
  // ---------------------------------------------------------------------

  /** `error.get('message', str(error))` for a dict entry of `errors`. */
  function MessageOf(e: Value): Value
    requires e.Obj?
  {
    Lookup(e.fields, "message", Str(PyStr(e)))
  }

  predicate AllDicts(items: seq<Value>) {
    forall i :: 0 <= i < |items| ==> items[i].Obj?
  }

  predicate AllTextMessages(items: seq<Value>)
    requires AllDicts(items)
  {
    forall i :: 0 <= i < |items| ==> MessageOf(items[i]).Str?
  }

  function MessageTexts(items: seq<Value>): (r: seq<string>)
    requires AllDicts(items) && AllTextMessages(items)
    ensures |r| == |items|
    ensures forall i :: 0 <= i < |items| ==> r[i] == MessageOf(items[i]).s
  {
    if |items| == 0 then []
    else [MessageOf(items[0]).s] + MessageTexts(items[1..])
  }

  /** `"; ".join(error.get('message', str(error)) for error in errors)` on a
      truthy `errors`: every entry must be a dict (otherwise `.get` is an
      AttributeError) and every message a string (otherwise `join` is a
      TypeError). Iterating a dict or a string yields strings; an int or a
      bool cannot be iterated. */
  function ErrorDetails(errors: Value): (r: Result<string, Error>)
    ensures r.Ok? <==> errors.Arr? && AllDicts(errors.items) && AllTextMessages(errors.items)
    ensures r.Ok? ==> r.value == Strings.Join(MessageTexts(errors.items), "; ")
  {
    match errors
    case Arr(items) =>
      if !AllDicts(items) then Err(Builtin(AttributeError))
      else if !AllTextMessages(items) then Err(Builtin(TypeError))
      else Ok(Strings.Join(MessageTexts(items), "; "))
    case Obj(_) => Err(Builtin(AttributeError))
    case Str(_) => Err(Builtin(AttributeError))
    case _ => Err(Builtin(TypeError))
  }

  /** `msg += text` in Python: a string is concatenated, a list is extended
      by the characters of the text, one one-letter string each; anything
      else has no `+=` with a string and raises TypeError. */
  function AddText(msg: Value, text: string): (r: Result<Value, Error>)
    ensures msg.Str? ==> r == Ok(Str(msg.s + text))
    ensures msg.Arr? ==>
      && r.Ok? && r.value.Arr?
      && |r.value.items| == |msg.items| + |text|
      && r.value.items[..|msg.items|] == msg.items
      && forall i :: 0 <= i < |text| ==> r.value.items[|msg.items| + i] == Str([text[i]])
    ensures r.Err? <==> !(msg.Str? || msg.Arr?)
    ensures r.Err? ==> r.error == Builtin(TypeError)
  {
    match msg
    case Str(s) => Ok(Str(s + text))
    case Arr(items) => Ok(Arr(items + seq(|text|, i requires 0 <= i < |text| => Str([text[i]]))))
    case _ => Err(Builtin(TypeError))
  }

  /** The text after `"<Op> failed: "`: the message, with `" - "` and the
      joined error messages added to it when `errors` is truthy. */
  function FailureText(resp: Object): (r: Result<string, Error>)
    ensures !Truthy(Lookup(resp, "errors", Arr([]))) ==>
      r == Ok(PyStr(Lookup(resp, "message", Str("Unknown error"))))
    ensures Truthy(Lookup(resp, "errors", Arr([]))) ==>
      var msg := Lookup(resp, "message", Str("Unknown error"));
      var details := ErrorDetails(Lookup(resp, "errors", Arr([])));
      && (details.Err? ==> r == Err(details.error))
      && (details.Ok? && msg.Str? ==> r == Ok(msg.s + " - " + details.value))
      && (details.Ok? ==> (r.Ok? <==> msg.Str? || msg.Arr?))
      && (details.Ok? && r.Err? ==> r.error == Builtin(TypeError))
  {
    var msg := Lookup(resp, "message", Str("Unknown error"));
    var errors := Lookup(resp, "errors", Arr([]));
    if !Truthy(errors) then Ok(PyStr(msg))
    else match ErrorDetails(errors)
      case Err(e) => Err(e)
      case Ok(details) =>
        match AddText(msg, " - " + details)
        case Err(e) => Err(e)
        case Ok(extended) =>
          assert msg.Str? ==> msg.s + (" - " + details) == msg.s + " - " + details;
          Ok(PyStr(extended))
  }

  /** A list message with rendered errors still raises the operation's API
      error: the list is extended in place and printed. */
  lemma ListMessageStillReported(resp: Object, op: string, missing: bool)
    requires "message" in resp && resp["message"].Arr?
    requires "errors" in resp && Truthy(resp["errors"]) && ErrorDetails(resp["errors"]).Ok?
    requires "success" in resp && !Truthy(resp["success"])
    ensures WriteOutcome(Obj(resp), op, missing).Err?
    ensures WriteOutcome(Obj(resp), op, missing).error.Api?
  {
  }

  /** The success check of a write: `missing` is what an absent `success`
      counts as (true for create and update, false for delete). A failed
      write raises an API error naming the operation. */
  function WriteOutcome(resp: Value, op: string, missing: bool): (r: Result<Value, Error>)
    ensures !resp.Obj? ==> r == Err(Builtin(AttributeError))
    ensures resp.Obj? ==>
      (r.Ok? <==> if "success" in resp.fields then Truthy(resp.fields["success"]) else missing)
    ensures r.Ok? ==> r.value == resp
    ensures resp.Obj? && r.Err? && FailureText(resp.fields).Ok? ==>
      r.error == Api(op + " failed: " + FailureText(resp.fields).value, None, None)
  {
    if !resp.Obj? then Err(Builtin(AttributeError))
    else if Truthy(Lookup(resp.fields, "success", Bool(missing))) then Ok(resp)
    else match FailureText(resp.fields)
      case Err(e) => Err(e)
      case Ok(m) => Err(Api(op + " failed: " + m, None, None))
  }

  /** A failed write whose message and error entries are all strings
      reports the message and every entry's message. */
  lemma {:induction false} FailureReportsEveryError(resp: Object, op: string, missing: bool, i: int)
    requires !Truthy(Lookup(resp, "success", Bool(missing)))
    requires "message" in resp && resp["message"].Str?
    requires "errors" in resp && resp["errors"].Arr? && AllDicts(resp["errors"].items) && AllTextMessages(resp["errors"].items)
    requires 0 <= i < |resp["errors"].items|
    ensures var r := WriteOutcome(Obj(resp), op, missing);
      && r.Err? && r.error.Api?
      && Strings.IsPrefix(op + " failed: " + resp["message"].s + " - ", r.error.message)
      && Strings.IsSubstring(MessageOf(resp["errors"].items[i]).s, r.error.message)
  {
    var items := resp["errors"].items;
    var joined := Strings.Join(MessageTexts(items), "; ");
    var head := op + " failed: " + resp["message"].s + " - ";
    assert Truthy(resp["errors"]);
    assert ErrorDetails(resp["errors"]) == Ok(joined);
    assert FailureText(resp) == Ok(resp["message"].s + " - " + joined);
    assert op + " failed: " + (resp["message"].s + " - " + joined) == head + joined;
    assert WriteOutcome(Obj(resp), op, missing) == Err(Api(head + joined, None, None));
    Strings.JoinContainsPart(MessageTexts(items), "; ", i);
    Strings.SubstringOfRight(MessageTexts(items)[i], head, joined);
    assert (head + joined)[..|head|] == head;
  }

  /** `create_contract`: one POST of the data to `/contract`. */
  function CreateContract(c: Client, net: Net, now: int, data: Object): (r: (Client, Result<Value, Error>))
    ensures var sent := MakeRequest(c, net, now, "POST", "/contract", None, None, Some(Obj(data)));
      && r.0 == sent.0
      && r.1 == if sent.1.Err? then Err(sent.1.error) else WriteOutcome(sent.1.value, "Create", true)
  {
    var (c1, resp) := MakeRequest(c, net, now, "POST", "/contract", None, None, Some(Obj(data)));
    match resp
    case Err(e) => (c1, Err(e))
    case Ok(v) => (c1, WriteOutcome(v, "Create", true))
  }

  /** `update_contract`: one PUT of the data to `/contract/<id>`. */
  function UpdateContract(c: Client, net: Net, now: int, id: int, data: Object): (r: (Client, Result<Value, Error>))
    ensures var sent := MakeRequest(c, net, now, "PUT", ContractPath(id), None, None, Some(Obj(data)));
      && r.0 == sent.0
      && r.1 == if sent.1.Err? then Err(sent.1.error) else WriteOutcome(sent.1.value, "Update", true)
  {
    var (c1, resp) := MakeRequest(c, net, now, "PUT", ContractPath(id), None, None, Some(Obj(data)));
    match resp
    case Err(e) => (c1, Err(e))
    case Ok(v) => (c1, WriteOutcome(v, "Update", true))
  }

  /** The default `delete_rule` of `delete_contract`. */
  const DefaultDeleteRule: string := "UNLINK_WHERE_POSSIBLE_OTHERWISE_DELETE"

  /** `delete_contract`: one DELETE of `/contract/<id>` with the rule as a
      query parameter. */
  function DeleteContract(c: Client, net: Net, now: int, id: int, rule: string): (r: (Client, Result<Value, Error>))
    ensures var sent := MakeRequest(c, net, now, "DELETE", ContractPath(id), Some(map["deleteRule" := Str(rule)]), None, None);
      && r.0 == sent.0
      && r.1 == if sent.1.Err? then Err(sent.1.error) else WriteOutcome(sent.1.value, "Delete", false)
  {
    var (c1, resp) := MakeRequest(c, net, now, "DELETE", ContractPath(id), Some(map["deleteRule" := Str(rule)]), None, None);
    match resp
    case Err(e) => (c1, Err(e))
    case Ok(v) => (c1, WriteOutcome(v, "Delete", false))
  }

  /** An answer without `success` passes create and update but fails delete. */
  lemma MissingSuccessFlag(resp: Object)
    requires "success" !in resp
    ensures WriteOutcome(Obj(resp), "Create", true) == Ok(Obj(resp))
    ensures WriteOutcome(Obj(resp), "Update", true) == Ok(Obj(resp))
    ensures WriteOutcome(Obj(resp), "Delete", false).Err?
    ensures SearchResult(Obj(resp)).Err?
  {
  }

  // ---------------------------------------------------------------------
  // Logout
  // ---------------------------------------------------------------------

  /** `logout`: with a token, POST `/logout` and then clear both tokens and
      the expiry whatever the request did; without one, nothing. Failures
      are swallowed. */
  function Logout(c: Client, net: Net, now: int): (r: Client)
    ensures !Truthy(c.tokens.access) ==> r == c
    ensures Truthy(c.tokens.access) ==>
      && Extends(c, r) && |r.log| > |c.log|
      && r.tokens == Tokens(Null, Null, None)
  {
    if !Truthy(c.tokens.access) then c
    else
      var (c1, _) := MakeRequest(c, net, now, "POST", "/logout", None, None, None);
      c1.(tokens := Tokens(Null, Null, None))
  }

  /** A client that has logged out holds exactly the tokens of a newly
      constructed client. */
  lemma LoggedOutIsFresh(c: Client, net: Net, now: int)
    requires Truthy(c.tokens.access)
    ensures Logout(c, net, now).tokens == NewClient(c.settings).tokens
    ensures Logout(c, net, now).settings == c.settings
  {
  }

  /** After a logout the next request logs in first, whatever the time. */
  lemma LoggedOutReauthenticates(c: Client, net: Net, now: int, later: int)
    requires Truthy(c.tokens.access)
    ensures NeedsAuth(Logout(c, net, now).tokens, later)
  {
  }
}
