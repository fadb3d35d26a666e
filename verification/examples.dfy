/** The scenarios of the client's test suite (`test/base.test.js`), stated
    on the model.

    The literal strings of a scenario are often lemma parameters pinned by a
    `requires x == "..."`: the verifier then reasons about them one step at a
    time, instead of unfolding every function on a literal argument at once. */
module Examples {
  import opened Wrappers
  import opened Assoc
  import opened Strings
  import opened Percent
  import opened QueryString
  import opened Paths
  import opened Headers
  import opened Config
  import opened Api

  /** The configuration `{ rootPath: '/my/api', auth: ... }` of the tests. */
  const MyApi: Options := EmptyOptions.(auth := Some(Auth("this")), rootPath := Some("/my/api"))

  /** The subclass of the inheritance test, with its own `_default()`. */
  const SubDefaults: Defaults :=
    Defaults("sub", "/sub/api", Some("https://test.adobe.io"), [("some-header", "some-value")])

  /** A path outside the endpoint is appended to it, with a `/` put in front
      of it when it lacks one. */
  lemma Relative(endpoint: string, path: string)
    requires endpoint != "" && endpoint[0] != '/' && path != [] && |path| < |endpoint|
    ensures ResolveUrl(endpoint, path) == endpoint + (if path[0] == '/' then path else "/" + path)
  {
  }

  lemma NoConfigurationThrows()
    ensures New(Omitted, None, BaseDefaults) == Failure("No configuration provided.")
  {
  }

  /** A fetch function and no options: the base name and the default gateway. */
  lemma DefaultEndpoint()
    ensures var c := New(FetchFunction("fetch"), None, BaseDefaults).value;
            c.name == "base" && c.endpoint == DefaultGateway &&
            ResolveUrl(c.endpoint, "/some/url") == DefaultGateway + "/some/url"
  {
    var c := New(FetchFunction("fetch"), None, BaseDefaults).value;
    NewGateway(FetchFunction("fetch"), None, BaseDefaults);
    NewNameAndRoot(FetchFunction("fetch"), None, BaseDefaults);
    assert c.endpoint == DefaultGateway;
    Relative(c.endpoint, "/some/url");
  }

  /** A root path, given in a credentialed configuration object or next to a
      fetch function, is appended to the default gateway. */
  lemma MyApiEndpoint(arg: FetchArg, opts: Option<Options>, root: string)
    requires root == "/my/api"
    requires (arg == ConfigObject(MyApi) && opts == None) ||
             (arg.FetchFunction? && opts == Some(EmptyOptions.(rootPath := Some(root))))
    ensures New(arg, opts, BaseDefaults).value.endpoint == DefaultGateway + root
  {
    NewGateway(arg, opts, BaseDefaults);
    NewNameAndRoot(arg, opts, BaseDefaults);
  }

  /** With that root path, `some/url` resolves like `/some/url`. */
  lemma RootPathAndSlash(arg: FetchArg, opts: Option<Options>, root: string, path: string)
    requires root == "/my/api" && path == "some/url"
    requires (arg == ConfigObject(MyApi) && opts == None) ||
             (arg.FetchFunction? && opts == Some(EmptyOptions.(rootPath := Some(root))))
    ensures var c := New(arg, opts, BaseDefaults).value;
            ResolveUrl(c.endpoint, path) == ResolveUrl(c.endpoint, "/" + path) &&
            ResolveUrl(c.endpoint, path) == DefaultGateway + root + "/" + path
  {
    var c := New(arg, opts, BaseDefaults).value;
    MyApiEndpoint(arg, opts, root);
    Relative(c.endpoint, path);
    Relative(c.endpoint, "/" + path);
  }

  /** A trailing `/` on a configured gateway, as in
      `https://test.adobe.io/`, is dropped. */
  lemma GatewayOverride(arg: FetchArg, b: string, g: string)
    requires arg.FetchFunction? && g == b + "/"
    ensures New(arg, Some(EmptyOptions.(gateway := Some(g))), BaseDefaults).value.endpoint == b
  {
    var o := Some(EmptyOptions.(gateway := Some(g)));
    var c := New(arg, o, BaseDefaults).value;
    assert c.gateway == StripTrailingSlash(g);
    assert g[|g| - 1] == '/' && g[..|g| - 1] == b;
  }

  /** A configured gateway without a trailing `/`, such as the tests'
      `https://test.adobe.io`, is the endpoint as it is. */
  lemma GatewayKept(arg: FetchArg, g: string)
    requires arg.FetchFunction? && g != "" && g[|g| - 1] != '/'
    ensures New(arg, Some(EmptyOptions.(gateway := Some(g))), BaseDefaults).value.endpoint == g
  {
    var o := Some(EmptyOptions.(gateway := Some(g)));
    var c := New(arg, o, BaseDefaults).value;
    assert c.gateway == StripTrailingSlash(g);
  }

  /** A URL inside the endpoint is fetched as it is; one outside it is
      appended to the endpoint. */
  lemma FullUrls(endpoint: string, rest: string, foreign: string)
    requires endpoint == DefaultGateway + "/my/api"
    requires rest == "/some/url"
    requires foreign == DefaultGateway + "/my2/api/some/url"
    ensures ResolveUrl(endpoint, endpoint + rest) == endpoint + rest
    ensures ResolveUrl(endpoint, foreign) == endpoint + "/" + foreign
  {
    assert (endpoint + rest)[..|endpoint|] == endpoint;
    assert foreign[|DefaultGateway| + 3] == '2' != endpoint[|DefaultGateway| + 3];
    assert foreign[0] == 'h';
  }

  /** A subclass's hook replaces the base one: its gateway, root path and
      headers are used, and the base `cache-control` header is not there. */
  lemma SubclassDefaults(hook: Defaults, arg: FetchArg)
    requires hook == SubDefaults && arg == ConfigObject(EmptyOptions.(auth := Some(Auth("t"))))
    ensures var c := New(arg, None, hook).value;
            c.endpoint == "https://test.adobe.io" + "/sub/api" &&
            Assoc.Get(c.headers, "some-header") == Some("some-value") &&
            Assoc.Get(c.headers, "cache-control") == None
  {
    NewGateway(arg, None, hook);
    NewNameAndRoot(arg, None, hook);
    NewHeaders(arg, None, hook, "some-header");
    NewHeaders(arg, None, hook, "cache-control");
    LowerKept("some-header");
    assert LowerNames(hook.headers) == hook.headers;
    assert StripTrailingSlash(hook.gateway.value) == hook.gateway.value;
  }

  /** A single header, normalized: its name lower-cased, its value kept. */
  lemma NormalizeOne(name: string, value: string, k: string)
    ensures Get(Normalize([(name, value)]), k) == if k == Lower(name) then Some(value) else None
  {
    var h := [(name, value)];
    assert LowerNames(h) == [(Lower(name), value)];
    NormalizeGet(h, k);
  }

  /** A header configured with a credentialed configuration object is
      stored lower-cased next to the base `cache-control` header. */
  lemma ConfiguredHeader(o: Options, name: string, value: string, key: string, cc: string)
    requires o.auth.Some? && o.headers == Some([(name, value)])
    requires cc == "cache-control" && Lower(name) == key && key != cc
    ensures var c := New(ConfigObject(o), None, BaseDefaults).value;
            Assoc.Get(c.headers, key) == Some(value) &&
            Assoc.Get(c.headers, cc) == Some("no-cache")
  {
    var arg := ConfigObject(o);
    NormalizeOne(name, value, key);
    NormalizeOne(name, value, cc);
    GetHas(Normalize([(name, value)]), key);
    GetHas(Normalize([(name, value)]), cc);
    NewHeaders(arg, None, BaseDefaults, key);
    NewHeaders(arg, None, BaseDefaults, cc);
    LowerKept(cc);
    assert LowerNames(BaseDefaults.headers) == BaseDefaults.headers;
  }

  /** A header of one call overrides the client's header of the same name,
      whatever its case, and leaves the others alone. */
  lemma CallOverridesHeader(c: Client, options: RequestOptions, name: string, value: string,
                            key: string, other: string)
    requires Valid(c) && options.headers == Some([(name, value)])
    requires Lower(name) == key && key != other
    ensures Assoc.Get(CallHeaders(c, options), key) == Some(value)
    ensures Assoc.Get(CallHeaders(c, options), other) == Assoc.Get(c.headers, other)
  {
    var h := [(name, value)];
    NormalizeOne(name, value, key);
    NormalizeOne(name, value, other);
    GetHas(Normalize(h), key);
    GetHas(Normalize(h), other);
    NormalizeGet(h, key);
    CallHeadersGet(c, options, key);
    CallHeadersGet(c, options, other);
  }

  /** The header test: `Some-Header` configured, `SOME-HEADER` given by the
      call. */
  lemma HeaderConfiguredAndOverridden(o: Options, options: RequestOptions, cc: string)
    requires o == MyApi.(headers := Some([("Some-Header", "Some Value")]))
    requires options == NoOptions.(headers := Some([("SOME-HEADER", "Some Value2")]))
    requires cc == "cache-control"
    ensures var c := New(ConfigObject(o), None, BaseDefaults).value;
            var h := CallHeaders(c, options);
            Assoc.Get(c.headers, "some-header") == Some("Some Value") &&
            Assoc.Get(h, "some-header") == Some("Some Value2") &&
            Assoc.Get(h, cc) == Some("no-cache")
  {
    var c := New(ConfigObject(o), None, BaseDefaults).value;
    LowerMixed("Some-Header", "some-header");
    LowerUpper("SOME-HEADER", "some-header");
    assert "some-header"[0] != cc[0];
    ConfiguredHeader(o, "Some-Header", "Some Value", "some-header", cc);
    CallOverridesHeader(c, options, "SOME-HEADER", "Some Value2", "some-header", cc);
  }

  /** Lower-casing, character by character. */
  lemma LowerBy(s: string, t: string)
    requires |s| == |t| && forall i :: 0 <= i < |s| ==> LowerChar(s[i]) == t[i]
    ensures Lower(s) == t
  {
  }

  /** The header names of the tests, lower-cased. */
  lemma LowerMixed(s: string, t: string)
    requires s == "Some-Header" && t == "some-header"
    ensures Lower(s) == t
  {
    LowerBy(s, t);
  }

  lemma LowerUpper(s: string, t: string)
    requires s == "SOME-HEADER" && t == "some-header"
    ensures Lower(s) == t
  {
    LowerBy(s, t);
  }

  lemma LowerKept(s: string)
    requires s == "some-header" || s == "cache-control"
    ensures Lower(s) == s
  {
    assert IsLower(s);
  }

  lemma ClassifiedOutcomes()
    ensures Classify(Returned(Some(Response(false, Some(404), Some("it failed"), Null))), true)
            == Rejected("it failed", 404)
    ensures Classify(Threw(Value("Fake error")), true) == Rejected("Fake error", 0)
    ensures Classify(Returned(Some(Response(false, None, None, Null))), true)
            == Rejected("Unknown error", 0)
    ensures Classify(Returned(None), true) == Rejected("Empty response", 0)
    ensures Classify(Returned(Some(Response(true, Some(200), None, Str("x")))), false)
            == Raw(Response(true, Some(200), None, Str("x")))
  {
  }

  /** Text made only of characters that `escape` keeps. */
  predicate Plain(s: string) {
    forall i :: 0 <= i < |s| ==> Unreserved(s[i])
  }

  /** A parameter whose name and value `escape` keeps is written as it is. */
  lemma FieldPlain(k: string, v: string)
    requires Plain(k) && Plain(v)
    ensures Field(k, v) == k + "=" + v
  {
    EscapeUnreserved(k);
    EscapeUnreserved(v);
  }

  /** The query string of one such parameter. */
  lemma StringifyOne(k: string, v: string)
    requires Plain(k) && Plain(v)
    ensures Stringify([(k, v)]) == k + "=" + v
  {
    FieldPlain(k, v);
    assert Fields([(k, v)]) == [Field(k, v)];
  }

  /** The query string of two parameters: their fields joined by `&`. */
  lemma StringifyPair(k1: string, v1: string, k2: string, v2: string)
    ensures Stringify([(k1, v1), (k2, v2)]) == Field(k1, v1) + "&" + Field(k2, v2)
  {
    var two := [(k1, v1), (k2, v2)];
    var f1, f2 := Field(k1, v1), Field(k2, v2);
    assert two[1..] == [(k2, v2)];
    assert Fields(two) == [f1, f2];
    assert Join([f1, f2], '&') == f1 + ['&'] + f2;
  }

  /** The query string of two plain parameters. */
  lemma StringifyTwo(k1: string, v1: string, k2: string, v2: string)
    requires Plain(k1) && Plain(v1) && Plain(k2) && Plain(v2)
    ensures Stringify([(k1, v1), (k2, v2)]) == k1 + "=" + v1 + "&" + k2 + "=" + v2
  {
    StringifyPair(k1, v1, k2, v2);
    FieldPlain(k1, v1);
    FieldPlain(k2, v2);
  }

  /** `@` is escaped as `%40`. */
  lemma EscapeAtSign(at: string)
    requires at == "@"
    ensures Escape(at) == "%40"
  {
    assert Escape(at) == EscapeChar('@') + Escape([]);
  }

  /** Around an escaped `@`, plain text is kept: `value2@test` becomes
      `value2%40test`. */
  lemma EscapeAt(a: string, at: string, b: string)
    requires Plain(a) && at == "@" && Plain(b)
    ensures Escape(a + at + b) == a + "%40" + b
  {
    EscapeConcat(a, at);
    EscapeConcat(a + at, b);
    EscapeUnreserved(a);
    EscapeUnreserved(b);
    EscapeAtSign(at);
  }

  /** On a path without a query, the parameters become the whole query. */
  lemma AddToPlainPath(path: string, m: Dict)
    requires '?' !in path && NoDupKeys(m)
    ensures AddParamsToPath(path, Some(m)) == path + "?" + Stringify(m)
  {
    SplitPathPlain(path);
    AssignOntoEmpty(m);
    AddParamsShape(path, m);
  }

  /** On a path whose query is the query string of `m`, the base path is
      kept and `m` is what the query holds. */
  lemma AddToQueriedPath(path: string, m: Dict, p: Dict)
    requires '?' !in path && NoDupKeys(m) && m != [] && NoDupKeys(p)
    ensures AddParamsToPath(path + "?" + Stringify(m), Some(p))
            == path + "?" + Stringify(Assign(m, p))
  {
    var q := Stringify(m);
    StringifyShape(m);
    ParseStringify(m);
    SplitPathQuery(path, q);
    AddParamsShape(path + "?" + q, p);
  }

  /** One parameter added to a path without a query. */
  lemma ParamAdded(path: string, k: string, v: string)
    requires '?' !in path && Plain(k) && Plain(v)
    ensures AddParamsToPath(path, Some([(k, v)])) == path + "?" + k + "=" + v
  {
    AddToPlainPath(path, [(k, v)]);
    StringifyOne(k, v);
    assert path + "?" + (k + "=" + v) == path + "?" + k + "=" + v;
  }

  /** Two parameters added to a path without a query, in their order. */
  lemma ParamsAdded(path: string, k1: string, v1: string, k2: string, v2: string)
    requires '?' !in path && Plain(k1) && Plain(v1) && Plain(k2) && Plain(v2) && k1 != k2
    ensures AddParamsToPath(path, Some([(k1, v1), (k2, v2)]))
            == path + "?" + (k1 + "=" + v1 + "&" + k2 + "=" + v2)
  {
    var two := [(k1, v1), (k2, v2)];
    assert NoDupKeys(two);
    AddToPlainPath(path, two);
    StringifyTwo(k1, v1, k2, v2);
  }

  /** A value with `@` is encoded in the query: `param2=value2%40test`. */
  lemma ParamsEncoded(path: string, k1: string, v1: string, k2: string,
                      a: string, at: string, b: string)
    requires '?' !in path && Plain(k1) && Plain(v1) && Plain(k2) && k1 != k2
    requires Plain(a) && at == "@" && Plain(b)
    ensures AddParamsToPath(path, Some([(k1, v1), (k2, a + at + b)]))
            == path + "?" + (k1 + "=" + v1 + "&" + (k2 + "=" + (a + "%40" + b)))
  {
    var two := [(k1, v1), (k2, a + at + b)];
    assert NoDupKeys(two);
    AddToPlainPath(path, two);
    StringifyPair(k1, v1, k2, a + at + b);
    FieldPlain(k1, v1);
    EscapeUnreserved(k2);
    EscapeAt(a, at, b);
    AppendAssociative(k1 + "=" + v1, "&", k2 + "=" + (a + "%40" + b));
  }

  /** The parameters of the tests are plain. */
  lemma PlainSamples(path: string, k1: string, v1: string, k2: string, v2: string, t: string)
    requires path == "/some/path" && k1 == "param1" && v1 == "value1"
    requires k2 == "param2" && v2 == "value2" && t == "test"
    ensures '?' !in path && Plain(k1) && Plain(v1) && Plain(k2) && Plain(v2) && Plain(t)
    ensures k1 != k2
  {
    assert k1[5] != k2[5];
  }

  /** A parameter already in the query takes the new value. */
  lemma ParamOverridden(path: string, k: string, v1: string, v2: string)
    requires '?' !in path && Plain(k) && Plain(v1) && Plain(v2)
    ensures AddParamsToPath(path + "?" + k + "=" + v1, Some([(k, v2)])) == path + "?" + k + "=" + v2
  {
    var before, after := [(k, v1)], [(k, v2)];
    StringifyOne(k, v1);
    assert path + "?" + k + "=" + v1 == path + "?" + Stringify(before);
    AddToQueriedPath(path, before, after);
    assert Assign(before, after) == after;
    ParamAdded(path, k, v2);
    AddToPlainPath(path, after);
  }
}
