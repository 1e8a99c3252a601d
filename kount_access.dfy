/**
 * The Kount Access client: an immutable configuration, six public operations
 * that validate their arguments and shape one HTTPS request each, the
 * dispatch routine that adds the server URL and basic-auth credentials, and
 * the normalisation of the transport's answer into the (err, data) pair the
 * caller's callback receives.
 *
 * Each operation is modelled as a function from the configuration and its
 * arguments to a `Plan`: either a local rejection with the exact error text,
 * or the request handed to the transport. What the transport answers is a
 * parameter (`Transport`), and `Deliver` turns a plan and that answer into
 * the callback's arguments.
 */
module KountAccess {
  import opened Wrappers
  import opened JsValues
  import Query

  /** The protocol version used when the constructor is given none. */
  const CurrentVersion: string := "0210"

  /** The fields the constructor sets once and nothing reassigns. */
  datatype Config = Config(merchantId: JsValue, apiKey: JsValue, serverName: JsValue, defaultVersion: JsValue)

  /** `new KountAccessApi(merchantId, apiKey, serverName, version)`; an
      omitted version is `Undefined`. */
  function NewClient(merchantId: JsValue, apiKey: JsValue, serverName: JsValue, version: JsValue): (c: Config)
    ensures c.merchantId == merchantId && c.apiKey == apiKey && c.serverName == serverName
    ensures version != Undefined ==> c.defaultVersion == version
    ensures version == Undefined ==> c.defaultVersion == Str(CurrentVersion)
  {
    Config(merchantId, apiKey, serverName, if version != Undefined then version else Str(CurrentVersion))
  }

  // ---------------------------------------------------------------------------
  // Requests

  datatype Method = Get | Post

  /** A POST body: parameter names to the values placed in the object literal. */
  type Params = map<string, JsValue>

  /** What `makeRequest` hands to the transport. `params` is `None` where the
      source passes `null` (every GET: its parameters are in the URL). */
  datatype RequestSpec = RequestSpec(
    url: string,
    httpMethod: Method,
    params: Option<Params>,
    username: JsValue,
    password: JsValue,
    accept: string)

  /** A public operation's decision: reject locally, or send one request. */
  datatype Plan = Reject(message: string) | Send(request: RequestSpec)

  /** The URL and options `makeRequest` builds around an endpoint: the
      server's HTTPS URL followed by the endpoint, authenticated as the
      merchant with the API key. */
  function MakeRequest(c: Config, endpoint: string, httpMethod: Method, params: Option<Params>): (r: RequestSpec)
    ensures r.url == "https://" + Render(c.serverName) + endpoint
    ensures r.httpMethod == httpMethod && r.params == params
    ensures r.username == c.merchantId && r.password == c.apiKey && r.accept == "text/json"
  {
    RequestSpec("https://" + Render(c.serverName) + endpoint, httpMethod, params, c.merchantId, c.apiKey, "text/json")
  }

  /** When the server name holds no '?', the path a request names is the
      server's URL followed by the endpoint's own path: no server name can
      move the query. */
  lemma RequestPath(c: Config, endpoint: string, httpMethod: Method, params: Option<Params>)
    requires '?' !in Render(c.serverName)
    ensures Query.PathOf(MakeRequest(c, endpoint, httpMethod, params).url)
         == "https://" + Render(c.serverName) + Query.PathOf(endpoint)
  {
    var host := "https://" + Render(c.serverName);
    assert MakeRequest(c, endpoint, httpMethod, params).url == host + endpoint;
    Query.BeforeAppend(host, endpoint, '?');
  }

  // ---------------------------------------------------------------------------
  // Validation

  const MissingUser: string := "Missing user"
  const MissingPassword: string := "Missing password"

  /** The message for a bad sessionId: the value as JavaScript renders it,
      in brackets after a fixed 19-character lead. */
  function InvalidSession(sessionId: JsValue): string {
    "Invalid sessionId [" + Render(sessionId) + "]"
  }

  /** The rendering can be cut back out of the message. */
  lemma InvalidSessionShape(sessionId: JsValue)
    ensures var m := InvalidSession(sessionId);
      && |m| == |Render(sessionId)| + 20
      && m[..19] == "Invalid sessionId [" && m[|m| - 1] == ']'
      && m[19..|m| - 1] == Render(sessionId)
  {
  }

  /** The sessionId check shared by every operation that takes one: the
      single-step validation of the sessionId. */
  function CheckSession(sessionId: JsValue): (r: Option<string>)
    ensures r == FirstFailure([Check(IsNonEmptyString(sessionId), InvalidSession(sessionId))])
  {
    if !IsNonEmptyString(sessionId) then Some(InvalidSession(sessionId)) else None
  }

  /** The if / else-if chain of `getVelocity` and `getDecision`: exactly
      the first failure among the checks of sessionId, then user, then
      password. */
  function CheckAccount(sessionId: JsValue, user: JsValue, password: JsValue): (r: Option<string>)
    ensures r == FirstFailure(AccountChecks(sessionId, user, password))
  {
    var cs := AccountChecks(sessionId, user, password);
    assert FirstFailure(cs[1..][1..][1..]) == None;
    assert FirstFailure(cs[1..][1..]) == if cs[2].passes then None else Some(MissingPassword);
    assert FirstFailure(cs[1..]) == if cs[1].passes then FirstFailure(cs[1..][1..]) else Some(MissingUser);
    if !IsNonEmptyString(sessionId) then Some(InvalidSession(sessionId))
    else if !IsNonEmptyString(user) then Some(MissingUser)
    else if !IsNonEmptyString(password) then Some(MissingPassword)
    else None
  }

  /** One validation step: whether it passes, and the error it reports if not. */
  datatype Check = Check(passes: bool, message: string)

  /** Reference meaning of an ordered validation: the message of the first
      check that fails, or `None` when all pass. */
  function FirstFailure(checks: seq<Check>): (r: Option<string>)
    ensures r.None? <==> forall i :: 0 <= i < |checks| ==> checks[i].passes
    ensures r.Some? ==> exists i :: 0 <= i < |checks| && !checks[i].passes && r.value == checks[i].message
                                    && forall j :: 0 <= j < i ==> checks[j].passes
  {
    if checks == [] then None
    else if !checks[0].passes then Some(checks[0].message)
    else FirstFailure(checks[1..])
  }

  /** The three checks of `getVelocity` and `getDecision`, in source order. */
  function AccountChecks(sessionId: JsValue, user: JsValue, password: JsValue): seq<Check> {
    [Check(IsNonEmptyString(sessionId), InvalidSession(sessionId)),
     Check(IsNonEmptyString(user), MissingUser),
     Check(IsNonEmptyString(password), MissingPassword)]
  }

  // ---------------------------------------------------------------------------
  // The six public operations

  const DevicePath: string := "/api/device"
  const VelocityPath: string := "/api/velocity"
  const DecisionPath: string := "/api/decision"

  /** The body of a velocity or decision POST. Every credential is hashed,
      whatever the caller passed. */
  function AccountParams(c: Config, hash: string -> string, sessionId: string, user: string, password: string): (m: Params)
    ensures m.Keys == {"s", "v", "uh", "ph", "ah"}
    ensures m["s"] == Str(sessionId) && m["v"] == c.defaultVersion
    ensures m["uh"] == Str(hash(user)) && m["ph"] == Str(hash(password)) && m["ah"] == Str(hash(user + ":" + password))
  {
    map["s" := Str(sessionId),
        "v" := c.defaultVersion,
        "uh" := Str(hash(user)),
        "ph" := Str(hash(password)),
        "ah" := Str(hash(user + ":" + password))]
  }

  /** The body of a velocity or decision help POST. */
  function HelpParams(version: JsValue): Params {
    map["help" := Str("true"), "v" := version]
  }

  /** `getDevice(sessionId, callback)`. */
  function GetDevice(c: Config, sessionId: JsValue): (p: Plan)
    ensures p.Reject? <==> !IsNonEmptyString(sessionId)
    ensures p.Reject? ==> p.message == InvalidSession(sessionId)
    ensures p.Send? ==> p.request.httpMethod == Get && p.request.params == None
    ensures p.Send? ==> p.request.url == "https://" + Render(c.serverName) + DevicePath
                                          + "?s=" + sessionId.s + "&v=" + Render(c.defaultVersion)
  {
    match CheckSession(sessionId)
    case Some(m) => Reject(m)
    case None =>
      Send(MakeRequest(c, "/api/device?s=" + sessionId.s + "&v=" + Render(c.defaultVersion), Get, None))
  }

  /** `getVelocity(sessionId, user, password, callback)`. */
  function GetVelocity(c: Config, hash: string -> string, sessionId: JsValue, user: JsValue, password: JsValue): (p: Plan)
    ensures p.Reject? <==> FirstFailure(AccountChecks(sessionId, user, password)).Some?
    ensures p.Reject? ==> FirstFailure(AccountChecks(sessionId, user, password)) == Some(p.message)
    ensures p.Send? ==> && IsNonEmptyString(sessionId) && IsNonEmptyString(user) && IsNonEmptyString(password)
                        && p.request.httpMethod == Post
                        && p.request.url == "https://" + Render(c.serverName) + VelocityPath
                        && p.request.params == Some(AccountParams(c, hash, sessionId.s, user.s, password.s))
  {
    match CheckAccount(sessionId, user, password)
    case Some(m) => Reject(m)
    case None => Send(MakeRequest(c, "/api/velocity", Post, Some(AccountParams(c, hash, sessionId.s, user.s, password.s))))
  }

  /** `getDecision(sessionId, user, password, callback)`. */
  function GetDecision(c: Config, hash: string -> string, sessionId: JsValue, user: JsValue, password: JsValue): (p: Plan)
    ensures p.Reject? <==> FirstFailure(AccountChecks(sessionId, user, password)).Some?
    ensures p.Reject? ==> FirstFailure(AccountChecks(sessionId, user, password)) == Some(p.message)
    ensures p.Send? ==> && IsNonEmptyString(sessionId) && IsNonEmptyString(user) && IsNonEmptyString(password)
                        && p.request.httpMethod == Post
                        && p.request.url == "https://" + Render(c.serverName) + DecisionPath
                        && p.request.params == Some(AccountParams(c, hash, sessionId.s, user.s, password.s))
  {
    match CheckAccount(sessionId, user, password)
    case Some(m) => Reject(m)
    case None => Send(MakeRequest(c, "/api/decision", Post, Some(AccountParams(c, hash, sessionId.s, user.s, password.s))))
  }

  /** `getDeviceHelp(version, callback)`. */
  function GetDeviceHelp(c: Config, version: JsValue): (p: Plan)
    ensures p.Send?
    ensures p.request.httpMethod == Get && p.request.params == None
    ensures p.request.url == "https://" + Render(c.serverName) + DevicePath + "?help=true&v=" + Render(version)
  {
    var host := "https://" + Render(c.serverName);
    var r := MakeRequest(c, "/api/device?help=true&v=" + Render(version), Get, None);
    assert host + ("/api/device?help=true&v=" + Render(version)) == host + DevicePath + "?help=true&v=" + Render(version);
    Send(r)
  }

  /** `getVelocityHelp(version, callback)`. */
  function GetVelocityHelp(c: Config, version: JsValue): (p: Plan)
    ensures p.Send?
    ensures p.request.httpMethod == Post && p.request.params == Some(HelpParams(version))
    ensures p.request.url == "https://" + Render(c.serverName) + VelocityPath
  {
    Send(MakeRequest(c, "/api/velocity", Post, Some(HelpParams(version))))
  }

  /** `getDecisionHelp(version, callback)`. */
  function GetDecisionHelp(c: Config, version: JsValue): (p: Plan)
    ensures p.Send?
    ensures p.request.httpMethod == Post && p.request.params == Some(HelpParams(version))
    ensures p.request.url == "https://" + Render(c.serverName) + DecisionPath
  {
    Send(MakeRequest(c, "/api/decision", Post, Some(HelpParams(version))))
  }

  // ---------------------------------------------------------------------------
  // Result normalisation

  /** What the transport reports for one request: a transport-level error
      (network, DNS, TLS), or a response with its status code and body. */
  datatype Transport<B> = TransportError(error: string) | Response(status: nat, body: B)

  /** The (err, data) pair a callback receives; `None` stands for `null`. */
  datatype Reply<B> = Reply(err: Option<string>, data: Option<B>)

  const StatusPrefix: string := "HTTP ERROR STATUS:"

  function HttpStatusError(status: nat): string {
    StatusPrefix + Decimal(status)
  }

  /** Reads the status code back out of an error message, if it is one. */
  function StatusOfError(message: string): Option<nat> {
    if |StatusPrefix| < |message| && message[..|StatusPrefix|] == StatusPrefix && AllDigits(message[|StatusPrefix|..])
    then Some(DigitsValue(message[|StatusPrefix|..]))
    else None
  }

  /** The HTTP status error carries its code: it can be read back exactly. */
  lemma StatusErrorRoundTrip(status: nat)
    ensures StatusOfError(HttpStatusError(status)) == Some(status)
  {
    var m := HttpStatusError(status);
    assert m[..|StatusPrefix|] == StatusPrefix;
    assert m[|StatusPrefix|..] == Decimal(status);
    DecimalRoundTrip(status);
  }

  /** The needle callback inside `makeRequest`. */
  function Complete<B>(t: Transport<B>): (r: Reply<B>)
    ensures r.err.Some? <==> r.data.None?
    ensures t.TransportError? ==> r == Reply(Some(t.error), None)
    ensures t.Response? && t.status == 200 ==> r == Reply(None, Some(t.body))
    ensures t.Response? && t.status != 200 ==> r.data == None && StatusOfError(r.err.value) == Some(t.status)
  {
    if !t.TransportError? && t.status == 200 then Reply(None, Some(t.body))
    else if t.TransportError? then Reply(Some(t.error), None)
    else
      StatusErrorRoundTrip(t.status);
      Reply(Some(HttpStatusError(t.status)), None)
  }

  /** The callback each public operation hands to `makeRequest`: an error
      is passed on with null data; otherwise the data is passed on with a
      null error. */
  function Relay<B>(r: Reply<B>): (o: Reply<B>)
    ensures o.err == r.err
    ensures r.err.Some? ==> o.data == None
    ensures r.err.None? ==> o.data == r.data
  {
    if r.err.Some? then Reply(r.err, None) else Reply(None, r.data)
  }

  /** On any (err, data) pair with exactly one side set, the public
      operations' wrapper changes nothing. */
  lemma RelayUnchanged<B>(r: Reply<B>)
    requires r.err.Some? <==> r.data.None?
    ensures Relay(r) == r
  {
  }

  /** The callback's arguments for a plan and the transport's report. A
      rejected plan never consults the transport. */
  function Deliver<B>(p: Plan, t: Transport<B>): (r: Reply<B>)
    ensures r.err.Some? <==> r.data.None?
    ensures p.Reject? ==> r == Reply(Some(p.message), None)
    ensures p.Send? ==> r == Complete(t)
  {
    match p
    case Reject(m) => Reply(Some(m), None)
    case Send(_) => Relay(Complete(t))
  }

  // ---------------------------------------------------------------------------
  // All six operations at once

  /** A call of one of the six public operations, with its arguments. */
  datatype Call =
    | Device(sessionId: JsValue)
    | Velocity(sessionId: JsValue, user: JsValue, password: JsValue)
    | Decision(sessionId: JsValue, user: JsValue, password: JsValue)
    | DeviceHelp(version: JsValue)
    | VelocityHelp(version: JsValue)
    | DecisionHelp(version: JsValue)

  predicate IsHelp(call: Call) {
    call.DeviceHelp? || call.VelocityHelp? || call.DecisionHelp?
  }

  function Prepare(c: Config, hash: string -> string, call: Call): Plan {
    match call
    case Device(s) => GetDevice(c, s)
    case Velocity(s, u, p) => GetVelocity(c, hash, s, u, p)
    case Decision(s, u, p) => GetDecision(c, hash, s, u, p)
    case DeviceHelp(v) => GetDeviceHelp(c, v)
    case VelocityHelp(v) => GetVelocityHelp(c, v)
    case DecisionHelp(v) => GetDecisionHelp(c, v)
  }

  /** What the caller's callback receives for `call`, when the transport
      would report `t`. */
  function Invoke<B>(c: Config, hash: string -> string, call: Call, t: Transport<B>): Reply<B> {
    Deliver(Prepare(c, hash, call), t)
  }
}
