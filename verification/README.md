# adobe-api-client-base: a Dafny model of `baseAPIClient`

This project models the request-shaping core of `baseAPIClient` (`src/base.js`),
the base class of Adobe's API clients. It covers:

- the constructor, which picks the fetch function, name, root path, gateway,
  endpoint and default headers, with the `_default()` hook that a subclass
  overrides;
- `ensurePrefix` and the URL that `api` resolves a path to;
- `addParamsToPath`, including Node's `querystring.parse`/`stringify` and the
  percent-escaping they use;
- the header merge of `api`, including `normalizeHeaders` of `@adobe/fetch`
  (names lower-cased, the last of equal names winning);
- the payload rule: the body is `JSON.stringify(payload)`, and
  `content-type: application/json` is added unless a truthy `content-type` is
  already there;
- how the fetch function's answer becomes the call's outcome;
- the verb wrappers `get`, `post`, `patch`, `put` and `delete`.

JavaScript objects are ordered association lists (`Assoc.Dict`). Assigning to
an existing key keeps the key's position, and a new key goes at the end. This
is how JavaScript orders string-named properties; integer-like names, which
JavaScript lists first, are not treated specially (see "Left out").

The fetch function and `JSON.stringify` are function parameters. `api` and the verbs return an
`Api.Exchange`, which holds:

- the URL and request options handed to the fetch function;
- the outcome;
- the client as it is after the call. A call can change the client (see
  below).

Two behaviours of the code are modelled as written and stated as lemmas:

- `path.split('?')` keeps only the text between the first and the second `?`
  as the query. Anything after a second `?` is silently lost
  (`Paths.AddParamsDropsSecondQuery`).
- Without per-call headers, `api` sends the client's own headers object and
  writes `content-type` into it. A POST with a payload therefore makes every
  later call on that client carry `content-type: application/json`
  (`Verbs.ContentTypeLeaks`). With per-call headers a copy is used and nothing
  leaks (`Verbs.PerCallHeadersDoNotLeak`).

Behaviours worth knowing, all modelled as the code has them:

- A subclass's `_default()` replaces the base one whole. A subclass that lists
  only its own headers does not get the base `cache-control: no-cache`
  (`Examples.SubclassDefaults`).
- `get` has no payload of its own, but it passes the caller's `options.body`
  through (`Verbs.Get`).
- The client's default-headers object is shared with calls that give no
  headers, and is mutated by them, as described above.
- "No content-type set" is tested by truthiness: an empty `content-type` is
  replaced by `application/json`.

`src/constants.js` is not part of this model. `Config.DefaultGateway` is the
value the test suite expects of `Constants.DEFAULT_GATEWAY`.

Modules: `Wrappers` (Option, Result), `Strings`, `Assoc`, `Utf8`, `Percent`,
`QueryString`, `Paths`, `Headers`, `Config`, `Api`, `Verbs`, and `Examples`.
`Examples` restates the scenarios of `test/base.test.js` on the model.

## Model

| member | source | states |
|---|---|---|
| Paths.EnsurePrefix | src/base.js:61-63 | the result starts with `/`; it is the path itself exactly when the path already starts with `/`, and otherwise `/` followed by the path |
| Paths.EnsurePrefixIdempotent | src/base.js:61-63 | prefixing twice gives the same as prefixing once |
| Paths.ResolveUrl | src/base.js:79-81 | the URL always starts with the endpoint; a path that starts with the endpoint is fetched verbatim; any other path, even an absolute URL elsewhere, is appended to the endpoint, directly when it starts with `/` and after a `/` otherwise |
| Paths.ResolveUrlIdempotent | src/base.js:79-81 | resolving an already resolved URL changes nothing |
| Paths.ResolveUrlSlashOptional | src/base.js:79-81 | when the endpoint is non-empty and does not start with `/`, a path outside the endpoint that lacks a leading `/` resolves to the same URL as that path with `/` in front |
| Paths.SplitPath | src/base.js:67 | destructuring `split('?')`: neither part holds a `?`, and there is a query exactly when the path holds a `?` |
| Paths.SplitPathTwice | src/base.js:67 | `base?q1?q2` splits exactly like `base?q1` |
| Paths.ExistingParams | src/base.js:67-70 | the parameters already in the path's query form an object with no repeated key |
| Paths.AddParamsToPath | src/base.js:65-76 | without parameters the path is returned unchanged; with parameters the result has a query |
| Paths.AddParamsShape | src/base.js:65-76 | with parameters the result is the base path, `?`, and the query string of the existing parameters with the new ones assigned over them |
| Paths.AddParamsMerge | src/base.js:67-72 | reading the result back: the base path is kept; existing parameters keep their order and new names follow in order; a name given in the parameters takes their value, and every other name keeps its existing value |
| Paths.ExistingAfterAdd | src/base.js:67-72 | the query of the result parses back to exactly the merged parameters, and the base path is unchanged |
| Paths.AddParamsTwice | src/base.js:65-76 | adding `a` then `b` equals adding `a` with `b` assigned over it |
| Paths.AddParamsIdempotent | src/base.js:65-76 | adding the same parameters twice equals adding them once |
| Paths.AddParamsDropsSecondQuery | src/base.js:67 | text after a second `?` has no effect on the result: the result for `base?q1?q2` equals the one for `base?q1` |
| QueryString.Parse | src/base.js:69 | `querystring.parse` yields an object: no key twice |
| QueryString.ParseField | src/base.js:69-72 | one stringified `key=value` field is non-empty and parses back to the same key and value |
| QueryString.ParseStringify | src/base.js:69-72 | for any object, parsing its query string gives back the same keys, values and order |
| QueryString.StringifyShape | src/base.js:72 | the query string is empty exactly for the empty object and never holds `?` |
| Percent.UnescapeEscape | src/base.js:69-72 | `unescape(escape(s)) == s` for every string, via UTF-8 bytes |
| Percent.EscapeIsEscaped | src/base.js:72 | escaped text holds only unreserved characters and `%`, and so no `&`, `=` or `?` |
| Percent.EscapeUnreserved | src/base.js:72 | text made only of unreserved characters is left as it is |
| Percent.EscapeConcat | src/base.js:72 | escaping works character by character: `escape(s + t) == escape(s) + escape(t)` |
| Utf8.DecodeEncode | src/base.js:69 | decoding the UTF-8 bytes of a string gives back the string |
| Assoc.PutGet | src/base.js:101 | after `m[k] = v`, reading `k` gives `v` |
| Assoc.PutOther | src/base.js:101 | after `m[k] = v`, every other key reads as before |
| Assoc.PutKeys | src/base.js:101 | `m[k] = v` keeps the key order and appends `k` only when it is new |
| Assoc.AssignGet | src/base.js:70 | after `Object.assign(m, n)`, a key reads as its last value in `n`, or else as in `m` |
| Assoc.AssignKeys | src/base.js:70 | `Object.assign(m, n)` keeps the keys of `m` in place and appends the keys new to `m` in the order `n` lists them |
| Assoc.AssignNoDup | src/base.js:70 | assigning onto an object yields an object with no key twice |
| Assoc.AssignAssociative | src/base.js:70 | assigning `a` then `b` onto `x` equals assigning `Object.assign(a, b)` onto `x` |
| Assoc.AssignSelf | src/base.js:43-47 | assigning an object onto itself changes nothing |
| Headers.Lower | src/base.js:46 | lower-casing keeps the length, maps each character through `toLowerCase`, leaves no upper-case letter, and is the identity on lower-case names |
| Headers.LowerConcat | src/base.js:46 | lower-casing works character by character over concatenation |
| Headers.Normalize | src/base.js:41 | normalized headers have lower-case names, none twice |
| Headers.NormalizeGet | src/base.js:41 | after normalizing, a name holds the value of the last header whose lower-cased name it is |
| Headers.NormalizeWellFormed | src/base.js:41 | headers that are already normalized are left as they are |
| Headers.NormalizeIdempotent | src/base.js:41 | normalizing twice equals normalizing once |
| Headers.Merge | src/base.js:43-47 | merging normalized headers onto normalized defaults gives normalized headers |
| Headers.MergeGet | src/base.js:43-47 | a name the per-call headers give, in any case, takes their last value; every other name keeps its default value |
| Headers.MergeKeys | src/base.js:43-47 | default header names keep their positions, and new names follow in order |
| Headers.MergeTwice | src/base.js:43-47 | merging the same headers twice equals merging them once |
| Config.Or | src/base.js:31-32 | `value ? value : fallback`: the value when truthy, the fallback otherwise |
| Config.StripTrailingSlash | src/base.js:39 | drops exactly one `/`, and only when the gateway ends with one |
| Config.ChosenGateway | src/base.js:37-38 | the chosen gateway is never empty |
| Config.New | src/base.js:18-49 | construction fails exactly for a configuration object without `auth`, and then with `No configuration provided.`; every client has endpoint = gateway + root path and normalized headers; the transport is the given fetch function, or one built from the object's `auth` |
| Config.NewGateway | src/base.js:37-40 | the gateway is the options', else the hook's, else the default, less its trailing `/`, if any |
| Config.NewNameAndRoot | src/base.js:27-32 | name and root path are those of the options in effect (the configuration object, else the second argument, else the hook's values) when truthy, else the hook's; the endpoint is the gateway followed by the root path |
| Config.NewHeaders | src/base.js:41-48 | a header configured in the options wins, whatever the case of its name; every other header is the hook's |
| Config.NewFromHookOnly | src/base.js:27-48 | a fetch function without options takes name, root path and headers from the hook; its headers, applied twice, equal the hook's headers normalized |
| Api.CallHeaders | src/base.js:86-95 | the headers a call starts from are normalized |
| Api.CallHeadersGet | src/base.js:86-95 | a header the call gives, in any case, takes the call's value; every other header is the client's |
| Api.PayloadHeaders | src/base.js:98-103 | adding `content-type` for a payload keeps the headers normalized |
| Api.Prepare | src/base.js:78-103 | the request carries normalized headers, the call's method, and every other option the caller set; the URL is the resolved path; the client changes only through its headers, and only when the call gave none |
| Api.PreparePayload | src/base.js:98-103 | with a truthy payload: the body is its serialization, and `content-type` is the existing truthy one or else `application/json`; without one: the body is the caller's and the headers are untouched; no other header changes either way |
| Api.PrepareChangesClient | src/base.js:86-103 | the client changes exactly when the call gives no headers, has a truthy payload and the client has no truthy `content-type`; it then holds `content-type: application/json` |
| Api.Classify | src/base.js:105-133 | a thrown value rejects with its `toString()` text and status 0; a thrown Symbol or object with no primitive conversion crashes in the debug message, and a thrown `null` or `undefined` crashes at `err.toString()`; a falsy response rejects with `Empty response` and status 0; an ok response resolves to its JSON body when JSON is asked for and to the response itself otherwise; a not-ok response rejects with its truthy `statusText` or `Unknown error`, and its status or 0 |
| Api.ClassifyRejected | src/base.js:105-133 | a call is rejected exactly for a thrown value, a falsy response or a not-ok response, and the status is non-zero exactly when a not-ok response carries a non-zero status |
| Api.Call | src/base.js:78-134 | the URL, the request handed to the fetch function and the client afterwards are exactly those `Prepare` gives; the outcome is the classification of what the fetch function did with that request; the client stays valid |
| Api.CallUsesPrepared | src/base.js:78-134 | two fetch functions that answer the prepared request alike give the same exchange: nothing else of the fetch function matters |
| Verbs.Get | src/base.js:136-138 | method `GET`, the caller's body, the client unchanged; the URL and request are `Prepare`'s with no payload, so the headers sent are the call's starting headers with no `content-type` added; the outcome is the classification of the fetch function's answer to that request |
| Verbs.Post | src/base.js:140-142 | method `POST`; the body is the payload's serialization when there is a truthy payload; URL, request and client afterwards are `Prepare`'s and the outcome is the classification of the fetch function's answer; a truthy payload is sent with a truthy `content-type`; the client changes exactly when no per-call headers are given, there is a truthy payload and the client has no truthy `content-type` |
| Verbs.Patch | src/base.js:144-146 | method `PATCH`, with the body, URL, request, outcome, `content-type` and client-change rules of `post` |
| Verbs.Put | src/base.js:148-150 | method `PUT`, with the body, URL, request, outcome, `content-type` and client-change rules of `post` |
| Verbs.Delete | src/base.js:152-154 | method `DELETE`, with the body, URL, request, outcome, `content-type` and client-change rules of `post` |
| Verbs.ContentTypeLeaks | src/base.js:86-103 | a POST with a payload and no per-call headers makes a later GET on the same client send `content-type: application/json` without a body |
| Verbs.PerCallHeadersDoNotLeak | src/base.js:88-95 | with per-call headers the POST leaves the client unchanged, and a later GET sends the client's own `content-type` |
| Examples.Relative | test/base.test.js:138-146 | a path outside the endpoint is appended to it, with a `/` put in front when it lacks one |
| Examples.NoConfigurationThrows | test/base.test.js:123-126 | constructing with no argument fails with `No configuration provided.` |
| Examples.DefaultEndpoint | test/base.test.js:86-92 | a fetch function alone gives the name `base` and the default gateway as endpoint |
| Examples.MyApiEndpoint | test/base.test.js:104-121 | the root path `/my/api`, given beside a fetch function or in a configuration object, follows the default gateway |
| Examples.RootPathAndSlash | test/base.test.js:138-146 | `some/url` resolves like `/some/url`, to the endpoint followed by `/some/url` |
| Examples.GatewayOverride | src/base.js:37-39 | a configured gateway with a trailing `/` gives the endpoint without it |
| Examples.GatewayKept | test/base.test.js:94-102 | a configured gateway without a trailing `/`, such as `https://test.adobe.io`, is the endpoint as it is |
| Examples.FullUrls | test/base.test.js:324-344 | a full URL inside the endpoint is fetched as it is; one outside it is appended to the endpoint |
| Examples.SubclassDefaults | test/base.test.js:346-370 | a subclass's hook sets the gateway, root path and headers, and the base `cache-control` is absent |
| Examples.ConfiguredHeader | test/base.test.js:288-295 | a configured `Some-Header` is stored as `some-header`, beside `cache-control: no-cache` |
| Examples.CallOverridesHeader | test/base.test.js:297-308 | a call's `SOME-HEADER` overrides the client's `some-header`, and other headers are the client's |
| Examples.HeaderConfiguredAndOverridden | test/base.test.js:279-308 | the header tests together: configured, overridden, and `cache-control` kept |
| Examples.ClassifiedOutcomes | test/base.test.js:176-224 | the outcomes `it failed`/404, `Fake error`/0, `Unknown error`/0 and `Empty response`/0, and a raw response when JSON is not asked for |
| Examples.StringifyTwo | test/base.test.js:375-387 | two plain parameters stringify to `k1=v1&k2=v2` |
| Examples.EscapeAt | test/base.test.js:389-395 | `value2@test` is escaped as `value2%40test` |
| Examples.ParamAdded | test/base.test.js:375-380 | one parameter added to a path without a query gives `path?k=v` |
| Examples.ParamsAdded | test/base.test.js:381-387 | two parameters added to a path without a query give `path?k1=v1&k2=v2` |
| Examples.ParamsEncoded | test/base.test.js:389-395 | the added value `value2@test` appears as `value2%40test` |
| Examples.AddToQueriedPath | src/base.js:67-72 | on a path whose query is the query string of `m`, the base path is kept and the parameters are assigned over `m` |
| Examples.ParamOverridden | test/base.test.js:411-417 | a parameter already in the query takes the new value |

## Left out

- The asynchronous control flow, the real fetch function, and
  `response.json()`. The fetch function is a parameter, and a successful JSON
  outcome carries the response's JSON value. A rejecting `json()` is not
  modelled.
- `JSON.stringify` is a parameter. Its throwing on cyclic or BigInt payloads,
  which `api` would turn into a rejection with status 0, is not modelled.
- The `debug` logger (`Debug`, `this.debug`) writes nothing the model keeps.
  Its one effect on results is that the `catch` formats the thrown value
  into its message before `err.toString()` runs. That formatting throws for
  a Symbol or an object with no usable primitive conversion. It does not
  throw for `null` and `undefined`, but `err.toString()` does, one line
  later. `Api.Thrown` names every value that makes either step throw
  `Unprintable`, and `Api.Classify` gives them the `Crashed` outcome.
- `Config.Client.transport` records where the client's fetch function comes
  from, but `Api.Call` and the verbs take the fetch function as a separate
  argument. The two are related only by the caller, who is expected to pass
  the fetch function the transport names.
- Api.Call: the fetch function is a pure function of the URL and the
  request. In the source, a call without per-call headers hands the client's
  own headers object to the fetch function. So anything the fetch function
  writes into `options.headers`, even after its own awaits, lands in the
  client. A concurrent call on the same client can also change that object
  before the fetch function reads it. Neither is modelled, so the client
  afterwards is `Prepare`'s only for a fetch function that leaves its
  argument alone.
- Config.New: a `_default()` hook is a `Config.Defaults` with string `name`
  and `rootPath`. A subclass hook that omits either leaves `this.name` or
  `this.rootPath` undefined, and the endpoint then ends in `undefined`. That
  case is not modelled.
- `this.opts` is stored but never read by the core, so it is not modelled.
- `@adobe/fetch`'s `config` is represented by the `auth` value it receives
  (`Config.Transport`). `normalizeHeaders` is not part of this model's
  sources. It is modelled on plain objects as lower-casing names and assigning
  them in order. The `Headers`-object form it also accepts is left out.
- `toLowerCase` is modelled on ASCII letters only, and Unicode case mapping is
  left out.
- The payload and response values are JSON values with integer numbers. The
  falsiness of `NaN` and `-0` is not modelled.
- Header and query values are strings. The following `querystring` behaviours
  are left out:
  - arrays for repeated keys;
  - the stringification of numbers and booleans;
  - the limit of 1000 keys in `parse`;
- Integer-like property names (`"0"`, `"42"`): JavaScript enumerates them
  first, in ascending numeric order, in every object. This affects header
  objects, `Object.assign` and query parameters alike. The model keeps every
  name in insertion order.
- Queries with malformed escapes. When `decodeURIComponent` fails on a query
  piece, Node's `querystring.unescape` falls back to a byte buffer that keeps
  only the low byte of each literal character. So `é%FF` becomes two U+FFFD
  characters in Node, and `é` followed by one U+FFFD in the model. The model
  decodes the UTF-8 bytes of the whole piece, replacing each bad byte by
  U+FFFD on its own. For the query strings `stringify` produces, the two agree
  (`Percent.UnescapeEscape`).
- Lone surrogates: a JavaScript string can hold one, and `querystring.escape`
  throws a `URIError` on it. A Dafny `char` is a Unicode scalar value and
  cannot hold one, so that error path is not modelled.
- Non-string paths, non-string methods, a `null` first constructor argument
  (whose `opts.auth` access throws a `TypeError`), and a `null` options
  object are left out.
- The caller's `options` object is changed in place by `api` (its `headers`,
  `method` and `body` are overwritten). The model returns the request
  options as a new value instead. Only the client's headers object is
  tracked as shared state.
- A `_default()` hook that returns no headers is left out:
  `normalizeHeaders(undefined)` belongs to the fetch library, which is not
  part of this model.
