/** The verb wrappers of the client: `get` sends no payload, the others pass
    theirs on; each fixes the method. All default `returnJson` to true and
    `options` to `{}`, which callers pass explicitly here. */
module Verbs {
  import opened Wrappers
  import Assoc
  import opened Config
  import opened Api

  /** The serializer `get` stands for: it has no payload, so it never
      serializes anything. */
  const NoSerializer: Json -> string := _ => ""

  /** `get(path, returnJson, options)`: no payload, so no body of its own
      and no change to the client. */
  function Get(c: Client, path: string, returnJson: bool, options: RequestOptions,
               fetch: (string, RequestOptions) -> TransportResult): (e: Exchange)
    requires Valid(c)
    ensures e.sent.httpMethod == Some("GET")
    ensures e.sent.body == options.body
    ensures e.client == c
    ensures var p := Prepare(c, path, "GET", options, None, NoSerializer);
            e.url == p.url && e.sent == p.sent && e.outcome == Classify(fetch(p.url, p.sent), returnJson)
    ensures e.sent.headers == Some(CallHeaders(c, options))
  {
    var e := Call(c, path, "GET", returnJson, options, None, NoSerializer, fetch);
    PreparePayload(c, path, "GET", options, None, NoSerializer, ContentType);
    PrepareChangesClient(c, path, "GET", options, None, NoSerializer);
    e
  }

  /** `post(path, payload, returnJson, options)`. */
  function Post(c: Client, path: string, payload: Option<Json>, returnJson: bool,
                options: RequestOptions, serialize: Json -> string,
                fetch: (string, RequestOptions) -> TransportResult): (e: Exchange)
    requires Valid(c)
    ensures e.sent.httpMethod == Some("POST")
    ensures e.sent.body == BodyFor(payload, serialize, options)
    ensures var p := Prepare(c, path, "POST", options, payload, serialize);
            e.url == p.url && e.sent == p.sent && e.client == p.client &&
            e.outcome == Classify(fetch(p.url, p.sent), returnJson)
    ensures HasPayload(payload) ==> Truthy(Assoc.Get(e.sent.headers.value, ContentType))
    ensures e.client != c <==>
              options.headers.None? && HasPayload(payload) && !Truthy(Assoc.Get(c.headers, ContentType))
  {
    PreparePayload(c, path, "POST", options, payload, serialize, ContentType);
    PrepareChangesClient(c, path, "POST", options, payload, serialize);
    Call(c, path, "POST", returnJson, options, payload, serialize, fetch)
  }

  /** `patch(path, payload, returnJson, options)`. */
  function Patch(c: Client, path: string, payload: Option<Json>, returnJson: bool,
                 options: RequestOptions, serialize: Json -> string,
                 fetch: (string, RequestOptions) -> TransportResult): (e: Exchange)
    requires Valid(c)
    ensures e.sent.httpMethod == Some("PATCH")
    ensures e.sent.body == BodyFor(payload, serialize, options)
    ensures var p := Prepare(c, path, "PATCH", options, payload, serialize);
            e.url == p.url && e.sent == p.sent && e.client == p.client &&
            e.outcome == Classify(fetch(p.url, p.sent), returnJson)
    ensures HasPayload(payload) ==> Truthy(Assoc.Get(e.sent.headers.value, ContentType))
    ensures e.client != c <==>
              options.headers.None? && HasPayload(payload) && !Truthy(Assoc.Get(c.headers, ContentType))
  {
    PreparePayload(c, path, "PATCH", options, payload, serialize, ContentType);
    PrepareChangesClient(c, path, "PATCH", options, payload, serialize);
    Call(c, path, "PATCH", returnJson, options, payload, serialize, fetch)
  }

  /** `put(path, payload, returnJson, options)`. */
  function Put(c: Client, path: string, payload: Option<Json>, returnJson: bool,
               options: RequestOptions, serialize: Json -> string,
               fetch: (string, RequestOptions) -> TransportResult): (e: Exchange)
    requires Valid(c)
    ensures e.sent.httpMethod == Some("PUT")
    ensures e.sent.body == BodyFor(payload, serialize, options)
    ensures var p := Prepare(c, path, "PUT", options, payload, serialize);
            e.url == p.url && e.sent == p.sent && e.client == p.client &&
            e.outcome == Classify(fetch(p.url, p.sent), returnJson)
    ensures HasPayload(payload) ==> Truthy(Assoc.Get(e.sent.headers.value, ContentType))
    ensures e.client != c <==>
              options.headers.None? && HasPayload(payload) && !Truthy(Assoc.Get(c.headers, ContentType))
  {
    PreparePayload(c, path, "PUT", options, payload, serialize, ContentType);
    PrepareChangesClient(c, path, "PUT", options, payload, serialize);
    Call(c, path, "PUT", returnJson, options, payload, serialize, fetch)
  }

  /** `delete(path, payload, returnJson, options)`. */
  function Delete(c: Client, path: string, payload: Option<Json>, returnJson: bool,
                  options: RequestOptions, serialize: Json -> string,
                  fetch: (string, RequestOptions) -> TransportResult): (e: Exchange)
    requires Valid(c)
    ensures e.sent.httpMethod == Some("DELETE")
    ensures e.sent.body == BodyFor(payload, serialize, options)
    ensures var p := Prepare(c, path, "DELETE", options, payload, serialize);
            e.url == p.url && e.sent == p.sent && e.client == p.client &&
            e.outcome == Classify(fetch(p.url, p.sent), returnJson)
    ensures HasPayload(payload) ==> Truthy(Assoc.Get(e.sent.headers.value, ContentType))
    ensures e.client != c <==>
              options.headers.None? && HasPayload(payload) && !Truthy(Assoc.Get(c.headers, ContentType))
  {
    PreparePayload(c, path, "DELETE", options, payload, serialize, ContentType);
    PrepareChangesClient(c, path, "DELETE", options, payload, serialize);
    Call(c, path, "DELETE", returnJson, options, payload, serialize, fetch)
  }

  /** The shared-headers leak, as written: a POST with a payload and no
      per-call headers writes `content-type: application/json` into the
      client's own headers, so a later GET on the same client, which has no
      payload, sends that header too. */
  lemma ContentTypeLeaks(c: Client, path1: string, payload: Option<Json>, serialize: Json -> string,
                         path2: string, fetch1: (string, RequestOptions) -> TransportResult,
                         fetch2: (string, RequestOptions) -> TransportResult)
    requires Valid(c)
    requires HasPayload(payload) && !Truthy(Assoc.Get(c.headers, ContentType))
    ensures var e1 := Post(c, path1, payload, true, NoOptions, serialize, fetch1);
            var e2 := Get(e1.client, path2, true, NoOptions, fetch2);
            e2.sent.body == None &&
            Assoc.Get(e2.sent.headers.value, ContentType) == Some(ApplicationJson)
  {
    var e1 := Post(c, path1, payload, true, NoOptions, serialize, fetch1);
    PrepareChangesClient(c, path1, "POST", NoOptions, payload, serialize);
    PreparePayload(e1.client, path2, "GET", NoOptions, None, NoSerializer, ContentType);
  }

  /** With per-call headers the client is a copy source only: the same POST
      leaves the client as it was, and a later GET sends the client's own
      `content-type`, if any. */
  lemma PerCallHeadersDoNotLeak(c: Client, path1: string, payload: Option<Json>,
                                serialize: Json -> string, headers: Assoc.Dict, path2: string,
                                fetch1: (string, RequestOptions) -> TransportResult,
                                fetch2: (string, RequestOptions) -> TransportResult)
    requires Valid(c)
    ensures var options := NoOptions.(headers := Some(headers));
            var e1 := Post(c, path1, payload, true, options, serialize, fetch1);
            var e2 := Get(e1.client, path2, true, NoOptions, fetch2);
            e1.client == c &&
            Assoc.Get(e2.sent.headers.value, ContentType) == Assoc.Get(c.headers, ContentType)
  {
    var options := NoOptions.(headers := Some(headers));
    PrepareChangesClient(c, path1, "POST", options, payload, serialize);
    PreparePayload(c, path2, "GET", NoOptions, None, NoSerializer, ContentType);
  }
}
