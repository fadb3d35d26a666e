/** One request of the client (`api` in `src/base.js`): the URL, the
    headers, method and body handed to the fetch function, and how its
    answer becomes the call's outcome.

    The fetch function is a parameter: a function from the URL and the
    request options to what the fetch did. So is `JSON.stringify`. */
module Api {
  import opened Wrappers
  import opened Assoc
  import opened Headers
  import opened Paths
  import opened Config

  /** A JSON value: a payload, or the body of a response. */
  datatype Json =
    | Null
    | Bool(b: bool)
    | Number(n: int)
    | Str(s: string)
    | Arr(items: seq<Json>)
    | Obj(fields: seq<(string, Json)>)

  /** JavaScript truthiness of a JSON value: `null`, `false`, `0` and `""` are
      falsy; arrays and objects, even empty ones, are truthy. */
  predicate JsonTruthy(j: Json) {
    match j
    case Null => false
    case Bool(b) => b
    case Number(n) => n != 0
    case Str(s) => s != ""
    case _ => true
  }

  /** A payload argument: `None` when it is undefined. */
  predicate HasPayload(payload: Option<Json>) {
    payload.Some? && JsonTruthy(payload.value)
  }

  /** The request options: the properties `api` reads or writes, and every
      other property the caller set, which is passed through untouched. */
  datatype RequestOptions = RequestOptions(
    headers: Option<Dict>,
    httpMethod: Option<string>,
    body: Option<string>,
    extra: seq<(string, Json)>)

  /** The default `options`, `{}`. */
  const NoOptions: RequestOptions := RequestOptions(None, None, None, [])

  const ContentType: string := "content-type"
  const ApplicationJson: string := "application/json"

  /** What the fetch function resolved to: `None` for a falsy value. `ok` and
      `status` are falsy when absent (a `status` of `0` is falsy too). */
  datatype Response = Response(ok: bool, status: Option<nat>, statusText: Option<string>, json: Json)

  /** A value the fetch function threw or rejected with. The `catch` first
      formats it into the debug message, which throws for a Symbol or an
      object with no usable primitive conversion, and then calls
      `err.toString()`, which throws for `null` and `undefined`. A value that
      makes either step throw is `Unprintable`; any other value comes with
      what its `toString()` returns. */
  datatype Thrown = Unprintable | Value(text: string)

  datatype TransportResult = Threw(err: Thrown) | Returned(response: Option<Response>)

  /** How the call ends: it resolves to the JSON body or to the response,
      rejects with `{ error, status }`, or, when the fetch function threw
      a value that cannot be converted to a string, rejects with the error
      that conversion raises inside the `catch`. */
  datatype Outcome =
    | JsonBody(value: Json)
    | Raw(response: Response)
    | Rejected(error: string, status: nat)
    | Crashed

  /** The request `api` hands to the fetch function, and the client after
      the call: the client's headers object changes when it was sent as it is
      and `content-type` was added to it. */
  datatype Prepared = Prepared(url: string, sent: RequestOptions, client: Client)

  /** The complete exchange of one call. */
  datatype Exchange = Exchange(url: string, sent: RequestOptions, outcome: Outcome, client: Client)

  /** The headers before the payload is considered: the client's own headers
      object when the call gives none, else a copy of it with the call's
      headers normalized and assigned over it. */
  function CallHeaders(c: Client, options: RequestOptions): (h: Dict)
    requires Valid(c)
    ensures WellFormed(h)
  {
    if options.headers.None? then c.headers
    else
      AssignOntoEmpty(c.headers);
      Merge(Assign([], c.headers), options.headers.value)
  }

  /** The payload's effect on the headers: `content-type: application/json`
      is added when there is a truthy payload and no truthy `content-type`. */
  function PayloadHeaders(h: Dict, payload: Option<Json>): (r: Dict)
    requires WellFormed(h)
    ensures WellFormed(r)
  {
    if HasPayload(payload) && !Truthy(Get(h, ContentType)) then
      PutNoDup(h, ContentType, ApplicationJson);
      PutKeys(h, ContentType, ApplicationJson);
      assert IsLower(ContentType);
      AllLowerConcat(Keys(h), [ContentType]);
      Put(h, ContentType, ApplicationJson)
    else h
  }

  /** The body of a call: the serialized payload when there is a truthy one,
      else whatever the caller's options held. */
  function BodyFor(payload: Option<Json>, serialize: Json -> string, options: RequestOptions): Option<string> {
    if HasPayload(payload) then Some(serialize(payload.value)) else options.body
  }

  /** Everything `api` does before it calls the fetch function. */
  function Prepare(c: Client, path: string, verb: string, options: RequestOptions,
                   payload: Option<Json>, serialize: Json -> string): (r: Prepared)
    requires Valid(c)
    ensures Valid(r.client)
    ensures r.sent.headers.Some? && WellFormed(r.sent.headers.value)
    ensures r.sent.httpMethod == Some(verb) && r.sent.extra == options.extra
    ensures r.url == ResolveUrl(c.endpoint, path)
    ensures options.headers.Some? ==> r.client == c
    ensures options.headers.None? ==> r.client == c.(headers := r.sent.headers.value)
  {
    var h := PayloadHeaders(CallHeaders(c, options), payload);
    var sent := options.(headers := Some(h), httpMethod := Some(verb),
                         body := BodyFor(payload, serialize, options));
    Prepared(ResolveUrl(c.endpoint, path), sent,
             if options.headers.None? then c.(headers := h) else c)
  }

  /** The outcome for what the fetch function did. */
  function Classify(t: TransportResult, returnsJson: bool): (o: Outcome)
    ensures o.Rejected? && !t.Threw? ==> o.error != ""
    ensures o.Rejected? && o.status != 0 ==>
              t.Returned? && t.response.Some? && !t.response.value.ok &&
              t.response.value.status == Some(o.status)
    ensures (o.JsonBody? || o.Raw?) <==> t.Returned? && t.response.Some? && t.response.value.ok
    ensures o.Crashed? <==> t == Threw(Unprintable)
    ensures t.Threw? && t.err.Value? ==> o == Rejected(t.err.text, 0)
    ensures t == Returned(None) ==> o == Rejected("Empty response", 0)
    ensures t.Returned? && t.response.Some? && t.response.value.ok ==>
              o == (if returnsJson then JsonBody(t.response.value.json) else Raw(t.response.value))
    ensures t.Returned? && t.response.Some? && !t.response.value.ok ==>
              var resp := t.response.value;
              o == Rejected(if Truthy(resp.statusText) then resp.statusText.value else "Unknown error",
                            if resp.status.Some? then resp.status.value else 0)
  {
    match t
    case Threw(Unprintable) => Crashed
    case Threw(Value(text)) => Rejected(text, 0)
    case Returned(None) => Rejected("Empty response", 0)
    case Returned(Some(resp)) =>
      if resp.ok then
        if returnsJson then JsonBody(resp.json) else Raw(resp)
      else
        Rejected(Or(resp.statusText, "Unknown error"),
                 if resp.status.Some? && resp.status.value != 0 then resp.status.value else 0)
  }

  /** `api(path, method, returnsJson, options, payload)`, with `verb` the method. */
  function Call(c: Client, path: string, verb: string, returnsJson: bool,
                options: RequestOptions, payload: Option<Json>, serialize: Json -> string,
                fetch: (string, RequestOptions) -> TransportResult): (e: Exchange)
    requires Valid(c)
    ensures Valid(e.client)
    ensures e.url == ResolveUrl(c.endpoint, path)
    ensures e.outcome == Classify(fetch(e.url, e.sent), returnsJson)
    ensures var p := Prepare(c, path, verb, options, payload, serialize);
            e.url == p.url && e.sent == p.sent && e.client == p.client
  {
    var p := Prepare(c, path, verb, options, payload, serialize);
    Exchange(p.url, p.sent, Classify(fetch(p.url, p.sent), returnsJson), p.client)
  }

  /** A call is rejected exactly when the fetch function threw a value,
      resolved to nothing, or resolved to a response that is not ok; the
      status is non-zero exactly when that response carries a non-zero
      status. */
  lemma ClassifyRejected(t: TransportResult, returnsJson: bool)
    ensures var o := Classify(t, returnsJson);
            o.Rejected? <==>
              (t.Threw? && t.err.Value?) || t == Returned(None) ||
              (t.Returned? && t.response.Some? && !t.response.value.ok)
    ensures var o := Classify(t, returnsJson);
            o.Rejected? && o.status != 0 <==>
              t.Returned? && t.response.Some? && !t.response.value.ok &&
              t.response.value.status.Some? && t.response.value.status.value != 0
  {
  }

  /** The fetch function is consulted once, on the prepared request: two
      fetch functions that answer that request alike give the same exchange. */
  lemma CallUsesPrepared(c: Client, path: string, verb: string, returnsJson: bool,
                         options: RequestOptions, payload: Option<Json>, serialize: Json -> string,
                         f1: (string, RequestOptions) -> TransportResult,
                         f2: (string, RequestOptions) -> TransportResult)
    requires Valid(c)
    requires var p := Prepare(c, path, verb, options, payload, serialize);
             f1(p.url, p.sent) == f2(p.url, p.sent)
    ensures Call(c, path, verb, returnsJson, options, payload, serialize, f1)
            == Call(c, path, verb, returnsJson, options, payload, serialize, f2)
  {
  }

  /** The headers a call starts from: a header the call gives, in any case,
      takes the call's value; every other header is the client's. */
  lemma CallHeadersGet(c: Client, options: RequestOptions, k: string)
    requires Valid(c)
    ensures Get(CallHeaders(c, options), k) ==
            if options.headers.Some? && k in Keys(Normalize(options.headers.value))
            then GetLast(LowerNames(options.headers.value), k)
            else Get(c.headers, k)
  {
    if options.headers.Some? {
      AssignOntoEmpty(c.headers);
      MergeGet(c.headers, options.headers.value, k);
    }
  }

  /** The payload rule. With a truthy payload the body is its serialization
      and the request carries a truthy `content-type`: the one it already had,
      or else `application/json`. Without one, the body is whatever the
      caller's options held and the headers are left as they were. No other
      header is touched either way. */
  lemma PreparePayload(c: Client, path: string, verb: string, options: RequestOptions,
                       payload: Option<Json>, serialize: Json -> string, k: string)
    requires Valid(c)
    ensures var r := Prepare(c, path, verb, options, payload, serialize);
            var h0 := CallHeaders(c, options);
            var h := r.sent.headers.value;
            (HasPayload(payload) ==>
               r.sent.body == Some(serialize(payload.value)) &&
               Get(h, ContentType) ==
                 (if Truthy(Get(h0, ContentType)) then Get(h0, ContentType) else Some(ApplicationJson))) &&
            (!HasPayload(payload) ==> r.sent.body == options.body && h == h0) &&
            (k != ContentType ==> Get(h, k) == Get(h0, k))
  {
    var h0 := CallHeaders(c, options);
    PutGet(h0, ContentType, ApplicationJson);
    if k != ContentType {
      PutOther(h0, ContentType, ApplicationJson, k);
    }
  }

  /** A call changes the client exactly when it sends the client's own
      headers object (no per-call headers), has a truthy payload, and that
      object has no truthy `content-type` yet: then `application/json` is
      written into the client's defaults. */
  lemma PrepareChangesClient(c: Client, path: string, verb: string, options: RequestOptions,
                             payload: Option<Json>, serialize: Json -> string)
    requires Valid(c)
    ensures var r := Prepare(c, path, verb, options, payload, serialize);
            r.client != c <==>
              options.headers.None? && HasPayload(payload) && !Truthy(Get(c.headers, ContentType))
    ensures var r := Prepare(c, path, verb, options, payload, serialize);
            r.client != c ==> Get(r.client.headers, ContentType) == Some(ApplicationJson)
  {
    var r := Prepare(c, path, verb, options, payload, serialize);
    PutGet(c.headers, ContentType, ApplicationJson);
    if options.headers.None? && HasPayload(payload) && !Truthy(Get(c.headers, ContentType)) {
      assert Get(r.client.headers, ContentType) != Get(c.headers, ContentType);
    }
  }
}
