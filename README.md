# Kount Access client — a Dafny model

This project models the Node.js client for the Kount Access fraud-risk API
(`nodejs/kount-access-api/lib/kount-access-api.js`). The client holds a fixed
configuration: merchant id, API key, server name and protocol version. It
offers six operations: device, velocity and decision lookups, plus the help
page for each of the three endpoints. Each operation first validates its
arguments in a fixed order. It then hashes the account credentials and
shapes one HTTPS request. The routine `makeRequest` adds the URL and the
basic-auth options, and turns the transport's answer into the `(err, data)`
pair the callback receives.

The model is pure, as the source is:

- `Config` is the configuration the constructor sets once (`NewClient`).
- Each operation is a function from the configuration and its arguments to a
  `Plan`. A plan is either `Reject(message)`, which sends no request, or
  `Send(RequestSpec)`.
- A `RequestSpec` holds the URL, the HTTP method, the POST body, the
  basic-auth username and password, and the accept header.
- `Complete` models the transport callback inside `makeRequest`. `Relay`
  models the wrapper callback each public operation passes. `Deliver`
  composes them into the `Reply` the caller gets.
- JavaScript argument values are `JsValue` (`Str`, `Num`, `Null`,
  `Undefined`). `Num` holds only safe integers, at most 2^53 - 1 in
  magnitude, which JavaScript always prints as plain decimal digits.
  `Render` is how string concatenation prints these values, so for every
  value modelled the text of `"Invalid sessionId [" + sessionId + "]"` is
  exact.
- The SHA-512/256 digest is the parameter `hash: string -> string`, about
  which nothing is assumed.
- The transport's answer is the parameter `Transport`: either a transport
  error or a response with its status and body.
- Module `Query` reads a hand-built GET endpoint back into its path and its
  `key=value` pairs, taking the text as written. This is how the device
  URLs are checked against the endpoint table.

Files:

- `wrappers.dfy`: `Option`.
- `js_values.dfy`: JavaScript values, decimal numerals and their reading back.
- `query.dfy`: splitting and joining query strings.
- `kount_access.dfy`: the client.
- `kount_access_properties.dfy`: the properties over all six operations.

Where the code and other descriptions differ, the model follows the code:

- The constructor tests `typeof version !== 'undefined'`. So a `null`
  version is kept as `null`. It then renders as `v=null` in the device URL
  and is sent as the value `v: null` in the POST bodies. It does not fall
  back to `"0210"`.
- The client's own test sets up its device mocks with `v=0200`
  (`test/kount-access-test.js:23`, `:41`) for a client built without a
  version. The code sends `v=0210` for that client.
- The version is forwarded as whatever value was given, not necessarily a
  string. POST bodies are therefore modelled as maps from names to
  `JsValue`, not from names to strings.
- The doc comments of the three help operations (`lib/kount-access-api.js:147`,
  `:163`, `:185`) say the default version is used when none is given. The
  code forwards its `version` argument as it is. A help call without a
  version therefore asks for `v=undefined` in the device help URL, and sends
  `v: undefined` in the velocity and decision help bodies
  (`HelpWithoutVersion`).
- The same doc comments (`lib/kount-access-api.js:149`, `:165`, `:187`) call
  the callback optional. Each wrapper calls it unconditionally
  (`:155-157`, `:175-177`, `:197-199`), so a help call without a callback
  fails with a TypeError once the answer arrives. The model's `Reply`
  assumes a callback is given.

What verifying the model shows about the hand-built GET URLs: the sessionId
and the version are pasted into the device URL without percent-encoding.
When the server name holds no `?` or `#`, and neither value holds `&`, `#`,
`%` or `+` (the predicate `Query.Verbatim`), the reader gives back exactly
`s` and `v` with the values as given (`DeviceQuery`, `DeviceHelpQuery`,
`InterfaceTable`). A `&` adds pairs: a sessionId such as `x&v=9` gives a
second `v` parameter (`DeviceSessionIdNotEncoded`). What `#`, `%` and `+`
do to a server's reading is excluded by that condition, not modelled.

## Model

| member | source | states |
|---|---|---|
| `KountAccess.NewClient` | nodejs/kount-access-api/lib/kount-access-api.js:39-43 | keeps merchantId, apiKey and serverName as given; defaultVersion is the version argument unless it is `undefined`, in which case it is "0210" |
| `KountAccessProperties.ClientVersionCarried` | nodejs/kount-access-api/lib/kount-access-api.js:43-91 | for a client built with or without a version, every non-help request carries that version or "0210": the device URL is exactly `https://<server>/api/device?s=<sessionId>&v=<version>`, and velocity and decision bodies have `v` equal to it |
| `KountAccess.FirstFailure` | nodejs/kount-access-api/lib/kount-access-api.js:79-85 | reference meaning of an ordered validation: none when every check passes, otherwise the message of the first failing check, with all earlier checks passing |
| `KountAccess.CheckAccount` | nodejs/kount-access-api/lib/kount-access-api.js:79-85 | the velocity and decision validation chain is exactly the first failure among the checks of sessionId, then user, then password |
| `KountAccess.CheckSession` | nodejs/kount-access-api/lib/kount-access-api.js:53-55 | the device check is the one-step validation of the sessionId: none when it is a non-empty string, otherwise the invalid-sessionId message |
| `KountAccess.InvalidSessionShape` | nodejs/kount-access-api/lib/kount-access-api.js:54 | the invalid-sessionId message is the fixed lead "Invalid sessionId [", the value's rendering and "]", so the rendering can be cut back out of it |
| `JsValues.RenderMeaning` | nodejs/kount-access-api/lib/kount-access-api.js:54-56 | string concatenation prints a string as itself, null and undefined as their names, and a number as decimal digits (after "-" when negative) that read back to the number |
| `KountAccessProperties.UserCheckedBeforePassword` | nodejs/kount-access-api/lib/kount-access-api.js:119-125 | with a valid sessionId, a missing user gives "Missing user" whatever the password is; "Missing password" only when the user is valid |
| `KountAccessProperties.InvalidSessionRejected` | nodejs/kount-access-api/lib/kount-access-api.js:53-55 | device, velocity and decision with a sessionId that is not a non-empty string reject with "Invalid sessionId [" + its rendering + "]" whatever else is passed, and the callback gets that error and null data |
| `KountAccessProperties.RejectedExactlyWhenInvalid` | nodejs/kount-access-api/lib/kount-access-api.js:77-85 | a call is rejected locally if and only if one of its validated arguments is not a non-empty string; help calls are never rejected |
| `KountAccessProperties.ValidationMessages` | nodejs/kount-access-api/test/kount-access-test.js:32-187 | the exact texts the tests expect for an empty device sessionId, a null velocity sessionId, an empty user and a null decision password; the message for an undefined sessionId follows the same concatenation |
| `KountAccess.GetDevice` | nodejs/kount-access-api/lib/kount-access-api.js:51-63 | rejects if and only if the sessionId is invalid, with the invalid-sessionId text; otherwise a GET with no body to `https://<server>/api/device?s=<sessionId>&v=<defaultVersion>` |
| `KountAccessProperties.DeviceQuery` | nodejs/kount-access-api/lib/kount-access-api.js:56-57 | when the sessionId and the version are verbatim (no '&', '#', '%' or '+'), the device URL reads back as path `https://<server>/api/device` with query exactly `[(s, sessionId), (v, defaultVersion)]`, when the server name holds no '?' or '#' |
| `KountAccessProperties.DeviceSessionIdNotEncoded` | nodejs/kount-access-api/lib/kount-access-api.js:56 | the sessionId `x&v=9` makes the device query read back as three pairs, with two `v` parameters |
| `KountAccess.GetVelocity` | nodejs/kount-access-api/lib/kount-access-api.js:77-102 | rejects if and only if some check fails, with the first failure's message; otherwise all three arguments are non-empty strings and the plan is a POST to `https://<server>/api/velocity` with the hashed account body |
| `KountAccess.GetDecision` | nodejs/kount-access-api/lib/kount-access-api.js:117-143 | the same as velocity, but the POST goes to `/api/decision` |
| `KountAccessProperties.AccountRequestBody` | nodejs/kount-access-api/lib/kount-access-api.js:88-96 | on valid input the body has exactly the keys s, v, uh, ph, ah: s is the sessionId, v is defaultVersion, uh/ph/ah are hash(user), hash(password) and hash(user + ":" + password); the hash is applied to whatever was passed; decision sends a request with the same parameter map to its own path |
| `KountAccess.AccountParams` | nodejs/kount-access-api/lib/kount-access-api.js:89-95 | the velocity and decision body has exactly the keys s, v, uh, ph and ah: the sessionId, the client's version, and the hashes of the user, the password and user + ":" + password |
| `KountAccess.GetDeviceHelp` | nodejs/kount-access-api/lib/kount-access-api.js:151-159 | never rejects; a GET with no body to exactly `https://<server>/api/device?help=true&v=<version>` |
| `KountAccessProperties.DeviceHelpQuery` | nodejs/kount-access-api/lib/kount-access-api.js:152-153 | the device help URL reads back as path `https://<server>/api/device` with query exactly `[(help, true), (v, version)]` when the server name holds no '?' or '#' and the version is verbatim (no '&', '#', '%' or '+') |
| `KountAccess.GetVelocityHelp` | nodejs/kount-access-api/lib/kount-access-api.js:167-179 | never rejects; a POST to exactly `https://<server>/api/velocity` whose body is `{help: "true", v: version}` |
| `KountAccess.GetDecisionHelp` | nodejs/kount-access-api/lib/kount-access-api.js:189-201 | never rejects; a POST to exactly `https://<server>/api/decision` whose body is `{help: "true", v: version}` |
| `KountAccessProperties.HelpForwardsVersion` | nodejs/kount-access-api/lib/kount-access-api.js:151-195 | help requests are always sent, carry their own version argument unchanged, and do not depend on the client's defaultVersion |
| `KountAccessProperties.HelpWithoutVersion` | nodejs/kount-access-api/lib/kount-access-api.js:152-193 | a help call without a version asks for `v=undefined` in the device help URL, and the velocity and decision help bodies carry `v: undefined` |
| `KountAccessProperties.InterfaceTable` | nodejs/kount-access-api/lib/kount-access-api.js:51-201 | every sent request matches the endpoint table (device GET s,v; device help GET help,v; velocity and decision POST s,v,uh,ph,ah; their help POST help,v) in method, path and parameter names, when the server name has no '?' or '#' and the GET values are verbatim |
| `KountAccessProperties.SendCarriesCredentials` | nodejs/kount-access-api/lib/kount-access-api.js:51-201 | every sent request's URL is exactly `https://<serverName>`, the table's path and the table's query string (`?s=..&v=..` for device, `?help=true&v=..` for device help, none for POST); username is the merchantId, password the apiKey, accept "text/json"; a body is present exactly for POST |
| `KountAccess.MakeRequest` | nodejs/kount-access-api/lib/kount-access-api.js:222-229 | the request goes to `https://`, the server name and the endpoint, with the given method and body, username merchantId, password apiKey and accept "text/json" |
| `KountAccess.RequestPath` | nodejs/kount-access-api/lib/kount-access-api.js:224 | when the server name holds no '?', the path the request URL names is `https://<server>` followed by the endpoint's own path |
| `KountAccess.Complete` | nodejs/kount-access-api/lib/kount-access-api.js:231-255 | a transport error gives (err, null); status 200 gives (null, body) with the body unchanged; any other status gives null data and an error from which that status reads back; exactly one side is set |
| `KountAccess.StatusErrorRoundTrip` | nodejs/kount-access-api/lib/kount-access-api.js:239 | "HTTP ERROR STATUS:" + code carries the code: reading the digits back gives it exactly |
| `JsValues.DecimalRoundTrip` | nodejs/kount-access-api/lib/kount-access-api.js:239 | the decimal rendering of a status code reads back to the same number |
| `KountAccess.Relay` | nodejs/kount-access-api/lib/kount-access-api.js:57-62 | the wrapper callback passes an error on with null data, and otherwise passes the data on with a null error |
| `KountAccess.RelayUnchanged` | nodejs/kount-access-api/lib/kount-access-api.js:96-101 | the public operations' wrapper callback leaves any (err, data) pair with exactly one side set unchanged |
| `KountAccess.Deliver` | nodejs/kount-access-api/lib/kount-access-api.js:96-101 | a rejected plan yields (message, null); a sent one yields exactly what `makeRequest` normalised; exactly one of err and data is set |
| `KountAccessProperties.ReplyNormalised` | nodejs/kount-access-api/lib/kount-access-api.js:137-142 | for every call: err and data are exclusive; transport error, 200 and non-200 outcomes reach the caller as (err, null), (null, body) and ("HTTP ERROR STATUS:" + code, null); a rejected call's answer does not depend on the transport |
| `KountAccessProperties.PassThroughExamples` | nodejs/kount-access-api/test/kount-access-test.js:18-208 | for the test client, mocked 200 answers to a device lookup and a decision help page reach the callback as (null, body) with the body unchanged |
| `KountAccessProperties.StatusExamples` | nodejs/kount-access-api/test/kount-access-test.js:60-128 | for the test client, a mocked 403 on velocity and a 400 on device help reach the callback as ("HTTP ERROR STATUS:403", null) and ("HTTP ERROR STATUS:400", null) |
| `KountAccessProperties.ErrorKindsDistinct` | nodejs/kount-access-api/lib/kount-access-api.js:79-85 | the validation messages and the HTTP status error never coincide |
| `Query.QueryRoundTrip` | nodejs/kount-access-api/lib/kount-access-api.js:152 | a path and a list of pairs with no '&' in them (and no '=' in keys), written as `path?k=v&k=v`, read back as the same path and the same list |

## Left out

- HTTP transport: `needle.get` / `needle.post`, form-encoding of the POST body, TLS, DNS and the basic-auth wire encoding (including how merchantId is stringified). The model stops at the `RequestSpec` handed over and the transport's answer.
- The SHA-512/256 digest (`js-sha512`) is a foreign library. `hash` is an arbitrary function parameter, and no collision or algorithm property is claimed.
- Asynchrony and callbacks: the callback's argument pair is a returned `Reply`. Concurrent calls are not modelled; the client has no shared mutable state.
- `makeRequest` with a method string other than "GET" or "POST" never calls its callback. Every caller passes one of the two literals, so the method is a two-case datatype.
- The transport error is an opaque description string. That it is truthy, which `if (err)` relies on, is taken as given, since needle reports errors as objects. JavaScript truthiness of other values is not modelled.
- JavaScript values other than strings, safe integers, `null` and `undefined` are not modelled, and neither is their rendering. This leaves out fractional numbers, integers beyond 2^53 - 1 in magnitude, the exponent form JavaScript prints from 1e21, `NaN`, `Infinity`, booleans and objects.
- URL decoding by the server (`%xx` escapes, `+` as a space) and fragments after `#` are not part of `Query`. The properties that read a GET URL back require its values to be `Query.Verbatim`, where the text and its decoding agree.
- Status codes are natural numbers; a response without a numeric status code is not modelled.
- The example runner `examples/referenceImplementation.js` (console and prompt scaffolding) and the mocked test suite are not part of this model; the suite is used only for its expected strings.
