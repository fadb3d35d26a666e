/** Construction of a client (`src/base.js`, the constructor and the
    `_default` hook): where its fetch function comes from, its name, root
    path, gateway, endpoint and default headers. */
module Config {
  import opened Wrappers
  import opened Assoc
  import opened Headers

  /** `Constants.DEFAULT_GATEWAY`. */
  const DefaultGateway: string := "https://platform.adobe.io"

  /** The message thrown for a configuration object without credentials. */
  const NoConfiguration: string := "No configuration provided."

  /** What a `_default()` hook returns. A subclass overrides the whole hook,
      so its values replace the base ones rather than merging with them. */
  datatype Defaults = Defaults(name: string, rootPath: string, gateway: Option<string>, headers: Dict)

  /** The base class's `_default()`. */
  const BaseDefaults: Defaults := Defaults("base", "", None, [("cache-control", "no-cache")])

  /** The credentials of a configuration object, handed to the fetch
      library as they are. */
  datatype Auth = Auth(id: string)

  /** A configuration object. A property that is absent, `undefined` or
      otherwise falsy is `None`, except that a string property may also be
      `Some("")`, which is falsy too. */
  datatype Options = Options(
    auth: Option<Auth>,
    name: Option<string>,
    rootPath: Option<string>,
    gateway: Option<string>,
    headers: Option<Dict>)

  const EmptyOptions: Options := Options(None, None, None, None, None)

  /** The first constructor argument: a fetch function, or an object. */
  datatype FetchArg = FetchFunction(id: string) | ConfigObject(opts: Options)

  /** The default of the first argument, `{}`. */
  const Omitted: FetchArg := ConfigObject(EmptyOptions)

  /** Where the client's fetch function comes from: given by the caller, or
      built by the fetch library from the credentials. */
  datatype Transport = Given(id: string) | FromAuth(auth: Auth)

  /** The state of a constructed client. `headers` is the client's own
      headers object, which `api` may change (see `Api.Prepare`). */
  datatype Client = Client(
    name: string,
    rootPath: string,
    gateway: string,
    endpoint: string,
    headers: Dict,
    transport: Transport)

  /** A string property is truthy when present and non-empty. */
  predicate Truthy(s: Option<string>) {
    s.Some? && s.value != ""
  }

  /** `value ? value : fallback` for a string property. */
  function Or(value: Option<string>, fallback: string): (r: string)
    ensures Truthy(value) ==> r == value.value
    ensures !Truthy(value) ==> r == fallback
  {
    if Truthy(value) then value.value else fallback
  }

  /** `g.replace(/\/$/, '')`: drops one `/` at the end, if there is one. */
  function StripTrailingSlash(g: string): (r: string)
    ensures g == r || g == r + "/"
    ensures g == r + "/" <==> (g != "" && g[|g| - 1] == '/')
  {
    if g != "" && g[|g| - 1] == '/' then
      assert g == g[..|g| - 1] + "/";
      g[..|g| - 1]
    else g
  }

  /** The options the hook supplies when a fetch function is given without
      options. */
  function HookOptions(hook: Defaults): Options {
    Options(None, Some(hook.name), Some(hook.rootPath), hook.gateway, Some(hook.headers))
  }

  /** The gateway before its trailing `/` is stripped: the first truthy one of
      the options' gateway, the hook's gateway and the default gateway. */
  function ChosenGateway(opts: Options, hook: Defaults): (g: string)
    ensures g != ""
  {
    Or(opts.gateway, Or(hook.gateway, DefaultGateway))
  }

  /** The options the constructor reads: a configuration object given first,
      else the second argument, else the hook's values. */
  function EffectiveOptions(fetch: FetchArg, opts: Option<Options>, hook: Defaults): Options {
    if fetch.ConfigObject? then fetch.opts
    else if opts.Some? then opts.value
    else HookOptions(hook)
  }

  /** A client's endpoint is its gateway followed by its root path, and its
      headers are normalized. */
  predicate Valid(c: Client) {
    c.endpoint == c.gateway + c.rootPath && WellFormed(c.headers)
  }

  /** The constructor, given the first argument, the second argument (`None`
      when undefined) and the class's `_default()` hook. A configuration object
      as first argument must carry credentials, and then the second argument
      is ignored. */
  function New(fetch: FetchArg, opts: Option<Options>, hook: Defaults): (r: Result<Client, string>)
    ensures r.Failure? <==> fetch.ConfigObject? && fetch.opts.auth.None?
    ensures r.Failure? ==> r.error == NoConfiguration
    ensures r.Success? ==> Valid(r.value)
    ensures r.Success? && fetch.ConfigObject? ==> r.value.transport == FromAuth(fetch.opts.auth.value)
    ensures fetch.FetchFunction? ==> r.Success? && r.value.transport == Given(fetch.id)
  {
    if fetch.ConfigObject? && fetch.opts.auth.None? then
      Failure(NoConfiguration)
    else
      var o := EffectiveOptions(fetch, opts, hook);
      var transport := if fetch.ConfigObject? then FromAuth(fetch.opts.auth.value) else Given(fetch.id);
      var rootPath := Or(o.rootPath, hook.rootPath);
      var gateway := StripTrailingSlash(ChosenGateway(o, hook));
      var base := Normalize(hook.headers);
      var headers := if o.headers.Some? then Merge(base, o.headers.value) else base;
      Success(Client(Or(o.name, hook.name), rootPath, gateway, gateway + rootPath, headers, transport))
  }

  /** The gateway: the first truthy one of the options', the hook's and the
      default, less its trailing `/`, if it has one. */
  lemma NewGateway(fetch: FetchArg, opts: Option<Options>, hook: Defaults)
    requires New(fetch, opts, hook).Success?
    ensures var o := EffectiveOptions(fetch, opts, hook);
            var g := New(fetch, opts, hook).value.gateway;
            (Truthy(o.gateway) ==> g == StripTrailingSlash(o.gateway.value)) &&
            (!Truthy(o.gateway) && Truthy(hook.gateway) ==> g == StripTrailingSlash(hook.gateway.value)) &&
            (!Truthy(o.gateway) && !Truthy(hook.gateway) ==> g == DefaultGateway)
  {
  }

  /** Name and root path: the options' when truthy, else the hook's. */
  lemma NewNameAndRoot(fetch: FetchArg, opts: Option<Options>, hook: Defaults)
    requires New(fetch, opts, hook).Success?
    ensures var o := EffectiveOptions(fetch, opts, hook);
            var c := New(fetch, opts, hook).value;
            c.name == (if Truthy(o.name) then o.name.value else hook.name) &&
            c.rootPath == (if Truthy(o.rootPath) then o.rootPath.value else hook.rootPath) &&
            c.endpoint == c.gateway + c.rootPath
  {
  }

  /** The client's headers: a header configured in the options, in any case,
      wins; every other header is the hook's. Both are lower-cased. */
  lemma NewHeaders(fetch: FetchArg, opts: Option<Options>, hook: Defaults, k: string)
    requires New(fetch, opts, hook).Success?
    ensures var o := EffectiveOptions(fetch, opts, hook);
            var h := New(fetch, opts, hook).value.headers;
            Get(h, k) ==
              if o.headers.Some? && k in Keys(Normalize(o.headers.value))
              then GetLast(LowerNames(o.headers.value), k)
              else GetLast(LowerNames(hook.headers), k)
  {
    var o := EffectiveOptions(fetch, opts, hook);
    NormalizeGet(hook.headers, k);
    if o.headers.Some? {
      MergeGet(Normalize(hook.headers), o.headers.value, k);
    }
  }

  /** A fetch function without options takes everything from the hook, and
      the hook's headers, applied twice, come out as applied once. */
  lemma NewFromHookOnly(id: string, hook: Defaults)
    ensures New(FetchFunction(id), None, hook).Success?
    ensures var c := New(FetchFunction(id), None, hook).value;
            c.name == hook.name && c.rootPath == hook.rootPath &&
            c.headers == Normalize(hook.headers)
  {
    var base := Normalize(hook.headers);
    NormalizeWellFormed(base);
    AssignSelf(base);
  }
}
