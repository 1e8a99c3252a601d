/**
 * What the Kount Access client promises, stated over all six operations:
 * the endpoint table of the remote API, the credentials on every request,
 * the validation order and its exact messages, the hashed POST bodies, the
 * version carried by each request, and the (err, data) pair the caller
 * receives.
 */
module KountAccessProperties {
  import opened Wrappers
  import opened JsValues
  import opened KountAccess
  import Query

  // ---------------------------------------------------------------------------
  // The remote API's endpoint table, as an independent reference

  function TableMethod(call: Call): Method {
    match call
    case Device(_) => Get
    case DeviceHelp(_) => Get
    case _ => Post
  }

  function TablePath(call: Call): string {
    match call
    case Device(_) => "/api/device"
    case DeviceHelp(_) => "/api/device"
    case Velocity(_, _, _) => "/api/velocity"
    case VelocityHelp(_) => "/api/velocity"
    case Decision(_, _, _) => "/api/decision"
    case DecisionHelp(_) => "/api/decision"
  }

  function TableNames(call: Call): set<string> {
    match call
    case Device(_) => {"s", "v"}
    case Velocity(_, _, _) => {"s", "v", "uh", "ph", "ah"}
    case Decision(_, _, _) => {"s", "v", "ah", "uh", "ph"}
    case _ => {"help", "v"}
  }

  /** The parameter names a request carries: the POST body's keys, or the
      names `Query` reads back from a GET's query string. For a GET these
      are the names the server receives only when the values pasted into
      the URL are `Query.Verbatim`. */
  function WireNames(r: RequestSpec): set<string> {
    match r.params
    case Some(m) => m.Keys
    case None =>
      var q := Query.QueryOf(r.url);
      set i | 0 <= i < |q| :: q[i].0
  }

  /** The host holds no '?' or '#', and the values a GET pastes unencoded
      into its URL are `Query.Verbatim`. */
  predicate QuerySafe(c: Config, call: Call) {
    && '?' !in Render(c.serverName) && '#' !in Render(c.serverName)
    && match call
       case Device(s) => Query.Verbatim(Render(s)) && Query.Verbatim(Render(c.defaultVersion))
       case DeviceHelp(v) => Query.Verbatim(Render(v))
       case _ => true
  }

  /** The query string each GET of the endpoint table carries, written out
      from the table rather than from the operations. */
  function TableQuery(c: Config, call: Call): string {
    match call
    case Device(s) => "?s=" + Render(s) + "&v=" + Render(c.defaultVersion)
    case DeviceHelp(v) => "?help=true&v=" + Render(v)
    case _ => ""
  }

  function HostUrl(c: Config): string {
    "https://" + Render(c.serverName)
  }

  lemma PathOfPlain(url: string)
    requires '?' !in url
    ensures Query.PathOf(url) == url
  {
  }

  lemma NamesOfPair(q: seq<(string, string)>, a: string, b: string)
    requires |q| == 2 && q[0].0 == a && q[1].0 == b
    ensures (set i | 0 <= i < |q| :: q[i].0) == {a, b}
  {
    var names := set i | 0 <= i < |q| :: q[i].0;
    assert q[0].0 in names && q[1].0 in names;
  }

  /** A GET whose query is `s=<sid>&v=<ver>` read back exactly. */
  lemma DeviceQuery(c: Config, sid: string)
    requires |sid| >= 1
    requires '?' !in Render(c.serverName) && '#' !in Render(c.serverName) && Query.Verbatim(sid) && Query.Verbatim(Render(c.defaultVersion))
    ensures GetDevice(c, Str(sid)).Send?
    ensures Query.PathOf(GetDevice(c, Str(sid)).request.url) == HostUrl(c) + DevicePath
    ensures Query.QueryOf(GetDevice(c, Str(sid)).request.url) == [("s", sid), ("v", Render(c.defaultVersion))]
  {
    var path := HostUrl(c) + DevicePath;
    var ver := Render(c.defaultVersion);
    assert GetDevice(c, Str(sid)).request.url == path + "?" + "s" + "=" + sid + "&" + "v" + "=" + ver;
    Query.TwoPairs(path, "s", sid, "v", ver);
  }

  /** The device help GET: its query is `help=true&v=<version>`. */
  lemma DeviceHelpQuery(c: Config, version: JsValue)
    requires '?' !in Render(c.serverName) && '#' !in Render(c.serverName) && Query.Verbatim(Render(version))
    ensures Query.PathOf(GetDeviceHelp(c, version).request.url) == HostUrl(c) + DevicePath
    ensures Query.QueryOf(GetDeviceHelp(c, version).request.url) == [("help", "true"), ("v", Render(version))]
  {
    var path := HostUrl(c) + DevicePath;
    var ver := Render(version);
    DeviceHelpSent(c, version);
    Concat3(path, "?help=true&v=", ver);
    assert path + "?help=true&v=" == path + "?" + "help" + "=" + "true" + "&" + "v" + "=";
    Query.TwoPairs(path, "help", "true", "v", ver);
  }

  /** A POST to `https://<server><path>`: its path and body keys. */
  lemma PostShape(c: Config, r: RequestSpec, path: string, names: set<string>)
    requires '?' !in Render(c.serverName) && '?' !in path
    requires r.url == HostUrl(c) + path && r.params.Some? && r.params.value.Keys == names
    ensures Query.PathOf(r.url) == HostUrl(c) + path && WireNames(r) == names
  {
    PathOfPlain(r.url);
  }

  lemma DeviceRow(c: Config, s: JsValue)
    requires QuerySafe(c, Device(s)) && GetDevice(c, s).Send?
    ensures Query.PathOf(GetDevice(c, s).request.url) == HostUrl(c) + DevicePath
    ensures WireNames(GetDevice(c, s).request) == {"s", "v"}
  {
    var r := GetDevice(c, s).request;
    assert Render(s) == s.s;
    DeviceQuery(c, s.s);
    NamesOfPair(Query.QueryOf(r.url), "s", "v");
  }

  lemma DeviceHelpRow(c: Config, v: JsValue)
    requires QuerySafe(c, DeviceHelp(v))
    ensures Query.PathOf(GetDeviceHelp(c, v).request.url) == HostUrl(c) + DevicePath
    ensures WireNames(GetDeviceHelp(c, v).request) == {"help", "v"}
  {
    var r := GetDeviceHelp(c, v).request;
    DeviceHelpQuery(c, v);
    NamesOfPair(Query.QueryOf(r.url), "help", "v");
  }

  /** Every request an operation sends matches the endpoint table: its HTTP
      method, its path and the names of the parameters it carries. */
  lemma InterfaceTable(c: Config, hash: string -> string, call: Call)
    requires QuerySafe(c, call)
    requires Prepare(c, hash, call).Send?
    ensures Prepare(c, hash, call).request.httpMethod == TableMethod(call)
    ensures Query.PathOf(Prepare(c, hash, call).request.url) == HostUrl(c) + TablePath(call)
    ensures WireNames(Prepare(c, hash, call).request) == TableNames(call)
  {
    match call
    case Device(s) => DeviceRow(c, s);
    case DeviceHelp(v) => DeviceHelpRow(c, v);
    case Velocity(s, u, p) =>
      PostShape(c, GetVelocity(c, hash, s, u, p).request, VelocityPath, TableNames(call));
    case Decision(s, u, p) =>
      PostShape(c, GetDecision(c, hash, s, u, p).request, DecisionPath, TableNames(call));
    case VelocityHelp(v) =>
      PostShape(c, GetVelocityHelp(c, v).request, VelocityPath, TableNames(call));
    case DecisionHelp(v) =>
      PostShape(c, GetDecisionHelp(c, v).request, DecisionPath, TableNames(call));
  }

  // ---------------------------------------------------------------------------
  // Credentials and URL

  /** What every sent request has in common: the caller's credentials and
      the JSON accept header. */
  predicate Authenticated(c: Config, r: RequestSpec) {
    r.username == c.merchantId && r.password == c.apiKey && r.accept == "text/json"
  }

  lemma Concat3(a: string, b: string, d: string)
    ensures a + (b + d) == a + b + d
  {
  }

  lemma DeviceSent(c: Config, s: JsValue)
    requires GetDevice(c, s).Send?
    ensures GetDevice(c, s).request.url == HostUrl(c) + DevicePath + TableQuery(c, Device(s))
    ensures Authenticated(c, GetDevice(c, s).request)
  {
    var q := "?s=" + s.s + "&v=" + Render(c.defaultVersion);
    assert TableQuery(c, Device(s)) == q;
    Concat3(HostUrl(c) + DevicePath, "?s=" + s.s + "&v=", Render(c.defaultVersion));
    Concat3(HostUrl(c) + DevicePath, "?s=" + s.s, "&v=");
    Concat3(HostUrl(c) + DevicePath, "?s=", s.s);
  }

  lemma DeviceHelpSent(c: Config, v: JsValue)
    ensures GetDeviceHelp(c, v).request.url == HostUrl(c) + DevicePath + TableQuery(c, DeviceHelp(v))
    ensures Authenticated(c, GetDeviceHelp(c, v).request)
  {
    var q := "?help=true&v=" + Render(v);
    assert TableQuery(c, DeviceHelp(v)) == q;
    Concat3(HostUrl(c) + DevicePath, "?help=true&v=", Render(v));
  }

  /** A POST's URL is the table's path with no query string. */
  lemma PostSent(c: Config, call: Call, r: RequestSpec)
    requires !call.Device? && !call.DeviceHelp?
    requires r.url == HostUrl(c) + TablePath(call)
    ensures r.url == HostUrl(c) + TablePath(call) + TableQuery(c, call)
  {
    assert HostUrl(c) + TablePath(call) + "" == HostUrl(c) + TablePath(call);
  }

  /** Every request goes to `https://<serverName>` followed by the path and
      the query string of the endpoint table, authenticates as merchantId /
      apiKey, asks for "text/json", and carries a body exactly when it is a
      POST. */
  lemma SendCarriesCredentials(c: Config, hash: string -> string, call: Call)
    requires Prepare(c, hash, call).Send?
    ensures Prepare(c, hash, call).request.url == HostUrl(c) + TablePath(call) + TableQuery(c, call)
    ensures Prepare(c, hash, call).request.username == c.merchantId
    ensures Prepare(c, hash, call).request.password == c.apiKey
    ensures Prepare(c, hash, call).request.accept == "text/json"
    ensures Prepare(c, hash, call).request.httpMethod == Post <==> Prepare(c, hash, call).request.params.Some?
  {
    var r := Prepare(c, hash, call).request;
    match call
    case Device(s) => DeviceSent(c, s);
    case DeviceHelp(v) => DeviceHelpSent(c, v);
    case Velocity(s, u, p) =>
      PostSent(c, call, r);
      assert Authenticated(c, r);
    case Decision(s, u, p) =>
      PostSent(c, call, r);
      assert Authenticated(c, r);
    case VelocityHelp(v) =>
      PostSent(c, call, r);
      assert Authenticated(c, r);
    case DecisionHelp(v) =>
      PostSent(c, call, r);
      assert Authenticated(c, r);
  }

  // ---------------------------------------------------------------------------
  // Validation

  predicate TakesSession(call: Call) {
    call.Device? || call.Velocity? || call.Decision?
  }

  /** Which calls are rejected locally: those whose sessionId (and, for
      velocity and decision, user or password) is not a non-empty string.
      Help operations are never rejected. */
  lemma RejectedExactlyWhenInvalid(c: Config, hash: string -> string, call: Call)
    ensures Prepare(c, hash, call).Reject? <==>
      match call
      case Device(s) => !IsNonEmptyString(s)
      case Velocity(s, u, p) => !IsNonEmptyString(s) || !IsNonEmptyString(u) || !IsNonEmptyString(p)
      case Decision(s, u, p) => !IsNonEmptyString(s) || !IsNonEmptyString(u) || !IsNonEmptyString(p)
      case _ => false
  {
  }

  /** A bad sessionId decides the error, whatever else is wrong, and the
      message embeds the value as JavaScript renders it. */
  lemma InvalidSessionRejected<B>(c: Config, hash: string -> string, call: Call, t: Transport<B>)
    requires TakesSession(call) && !IsNonEmptyString(call.sessionId)
    ensures Prepare(c, hash, call) == Reject("Invalid sessionId [" + Render(call.sessionId) + "]")
    ensures Invoke(c, hash, call, t) == Reply(Some("Invalid sessionId [" + Render(call.sessionId) + "]"), None)
  {
  }

  /** With a valid sessionId, an invalid user is reported before any
      problem with the password. */
  lemma UserCheckedBeforePassword(c: Config, hash: string -> string, call: Call)
    requires call.Velocity? || call.Decision?
    requires IsNonEmptyString(call.sessionId)
    ensures !IsNonEmptyString(call.user) ==> Prepare(c, hash, call) == Reject(MissingUser)
    ensures IsNonEmptyString(call.user) && !IsNonEmptyString(call.password) ==> Prepare(c, hash, call) == Reject(MissingPassword)
  {
  }

  /** The messages the client's own tests expect, and the one the same
      concatenation gives for an undefined sessionId (which no test
      exercises). */
  lemma ValidationMessages(c: Config, hash: string -> string)
    ensures GetDevice(c, Str("")) == Reject("Invalid sessionId []")
    ensures GetVelocity(c, hash, Null, Str("admin"), Str("password")) == Reject("Invalid sessionId [null]")
    ensures GetDecision(c, hash, Undefined, Str(""), Null) == Reject("Invalid sessionId [undefined]")
    ensures GetVelocity(c, hash, Str("VALID_SESSION_ID"), Str(""), Str("password")) == Reject("Missing user")
    ensures GetDecision(c, hash, Str("VALID_SESSION_ID"), Str("admin"), Null) == Reject("Missing password")
  {
  }

  // ---------------------------------------------------------------------------
  // Request bodies and versions

  /** On valid input, velocity sends a POST whose body has exactly the keys
      s, v, uh, ph and ah, with the credentials hashed (always, whatever the
      caller passed); decision sends the same request to its own path. */
  lemma AccountRequestBody(c: Config, hash: string -> string, sessionId: JsValue, user: JsValue, password: JsValue)
    requires IsNonEmptyString(sessionId) && IsNonEmptyString(user) && IsNonEmptyString(password)
    ensures GetVelocity(c, hash, sessionId, user, password).Send?
    ensures var r := GetVelocity(c, hash, sessionId, user, password).request;
      && r.url == HostUrl(c) + VelocityPath
      && r.httpMethod == Post
      && r.params.Some?
      && r.params.value.Keys == {"s", "v", "uh", "ph", "ah"}
      && r.params.value["s"] == sessionId
      && r.params.value["v"] == c.defaultVersion
      && r.params.value["uh"] == Str(hash(user.s))
      && r.params.value["ph"] == Str(hash(password.s))
      && r.params.value["ah"] == Str(hash(user.s + ":" + password.s))
    ensures GetDecision(c, hash, sessionId, user, password)
         == Send(GetVelocity(c, hash, sessionId, user, password).request.(url := HostUrl(c) + DecisionPath))
  {
  }

  /** The version a client is built with: the one given, or "0210" when
      none is; every non-help request carries it as its `v`. */
  lemma ClientVersionCarried(merchantId: JsValue, apiKey: JsValue, serverName: JsValue, version: JsValue,
                             hash: string -> string, call: Call)
    requires !IsHelp(call)
    requires Prepare(NewClient(merchantId, apiKey, serverName, version), hash, call).Send?
    ensures var v := if version == Undefined then Str("0210") else version;
      var r := Prepare(NewClient(merchantId, apiKey, serverName, version), hash, call).request;
      && (call.Device? ==> r.url == "https://" + Render(serverName) + DevicePath + "?s=" + Render(call.sessionId) + "&v=" + Render(v))
      && (!call.Device? ==> r.params.Some? && "v" in r.params.value && r.params.value["v"] == v)
  {
  }

  /** Help operations forward their own version argument and ignore the
      client's default version. */
  lemma HelpForwardsVersion(c: Config, hash: string -> string, call: Call, other: JsValue)
    requires IsHelp(call)
    ensures Prepare(c, hash, call).Send?
    ensures Prepare(c.(defaultVersion := other), hash, call) == Prepare(c, hash, call)
    ensures call.DeviceHelp? ==>
      Prepare(c, hash, call).request.url == HostUrl(c) + DevicePath + "?help=true&v=" + Render(call.version)
    ensures !call.DeviceHelp? ==>
      Prepare(c, hash, call).request.params == Some(map["help" := Str("true"), "v" := call.version])
  {
  }

  /** The help operations forward their version argument as given, so a
      help call without a version asks for `v=undefined` rather than for the
      client's default version. */
  lemma HelpWithoutVersion(c: Config)
    ensures GetDeviceHelp(c, Undefined).request.url == HostUrl(c) + "/api/device?help=true&v=undefined"
    ensures GetVelocityHelp(c, Undefined).request.params == Some(map["help" := Str("true"), "v" := Undefined])
    ensures GetDecisionHelp(c, Undefined).request.params == Some(map["help" := Str("true"), "v" := Undefined])
  {
  }

  /** The sessionId is put into the device URL without encoding: one that
      holds "&v=9" adds a second `v` parameter ahead of the client's own. */
  lemma DeviceSessionIdNotEncoded(c: Config)
    requires '?' !in Render(c.serverName) && c.defaultVersion == Str("0210")
    ensures Query.QueryOf(GetDevice(c, Str("x&v=9")).request.url) == [("s", "x"), ("v", "9"), ("v", "0210")]
  {
    var path := HostUrl(c) + DevicePath;
    assert GetDevice(c, Str("x&v=9")).request.url
        == path + "?" + "s" + "=" + "x" + "&" + "v" + "=" + "9" + "&" + "v" + "=" + "0210";
    Query.ThreePairs(path, "s", "x", "v", "9", "v", "0210");
  }

  // ---------------------------------------------------------------------------
  // What the callback receives

  /** Exactly one of err and data is set; a sent request's outcome reaches
      the caller as `makeRequest` normalised it; a rejected call gives the
      same answer whatever the transport would have done, since none is
      made. */
  lemma ReplyNormalised<B>(c: Config, hash: string -> string, call: Call, t: Transport<B>, t': Transport<B>)
    ensures Invoke(c, hash, call, t).err.Some? <==> Invoke(c, hash, call, t).data.None?
    ensures Prepare(c, hash, call).Send? ==> Invoke(c, hash, call, t) == Complete(t)
    ensures Prepare(c, hash, call).Reject? ==> Invoke(c, hash, call, t') == Invoke(c, hash, call, t)
    ensures t.TransportError? && Prepare(c, hash, call).Send? ==> Invoke(c, hash, call, t) == Reply(Some(t.error), None)
    ensures t.Response? && t.status == 200 && Prepare(c, hash, call).Send? ==>
      Invoke(c, hash, call, t) == Reply(None, Some(t.body))
    ensures t.Response? && t.status != 200 && Prepare(c, hash, call).Send? ==>
      Invoke(c, hash, call, t) == Reply(Some(HttpStatusError(t.status)), None)
  {
  }

  lemma StatusErrorExamples()
    ensures HttpStatusError(403) == "HTTP ERROR STATUS:403"
    ensures HttpStatusError(400) == "HTTP ERROR STATUS:400"
  {
    assert Decimal(4) == "4" && Decimal(40) == "40";
    assert Decimal(403) == "403" && Decimal(400) == "400";
  }

  /** The test client: merchant 123456 on server.com with the default version. */
  function TestClient(): Config {
    NewClient(Num(123456), Str("SOME_VALID_KEY"), Str("server.com"), Undefined)
  }

  /** The outcomes the client's own tests expect from a mocked server
      answering 200: the body is passed through. */
  lemma PassThroughExamples(hash: string -> string)
    ensures Invoke(TestClient(), hash, Device(Str("SESSION")), Response(200, "{\"some\":\"data\"}"))
         == Reply(None, Some("{\"some\":\"data\"}"))
    ensures Invoke(TestClient(), hash, DecisionHelp(Str("0200")), Response(200, "<html></html>"))
         == Reply(None, Some("<html></html>"))
  {
    assert GetDevice(TestClient(), Str("SESSION")).Send?;
  }

  /** The outcomes the client's own tests expect from a mocked server
      answering 403 or 400: the status error. */
  lemma StatusExamples(hash: string -> string)
    ensures Invoke(TestClient(), hash, Velocity(Str("SESSION"), Str("admin"), Str("password")), Response(403, ""))
         == Reply(Some("HTTP ERROR STATUS:403"), None)
    ensures Invoke(TestClient(), hash, DeviceHelp(Str("0100")), Response(400, ""))
         == Reply(Some("HTTP ERROR STATUS:400"), None)
  {
    assert GetVelocity(TestClient(), hash, Str("SESSION"), Str("admin"), Str("password")).Send?;
    StatusErrorExamples();
  }

  /** The three kinds of error text cannot be confused with each other. */
  lemma ErrorKindsDistinct(sessionId: JsValue, status: nat)
    ensures HttpStatusError(status) != MissingUser && HttpStatusError(status) != MissingPassword
    ensures HttpStatusError(status) != InvalidSession(sessionId)
    ensures InvalidSession(sessionId) != MissingUser && InvalidSession(sessionId) != MissingPassword
  {
    assert HttpStatusError(status)[0] == 'H';
    assert InvalidSession(sessionId)[0] == 'I';
  }
}
