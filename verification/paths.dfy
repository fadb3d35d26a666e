/** The path handling of the client: `ensurePrefix`, the resolution of a
    request path against the client's endpoint, and `addParamsToPath`. */
module Paths {
  import opened Wrappers
  import opened Assoc
  import opened Strings
  import opened QueryString

  /** `ensurePrefix(path)`: puts a `/` in front of a path that lacks one. */
  function EnsurePrefix(path: string): (r: string)
    ensures StartsWith(r, "/")
    ensures r == path || r == "/" + path
    ensures r == path <==> StartsWith(path, "/")
  {
    if StartsWith(path, "/") then path else "/" + path
  }

  lemma EnsurePrefixIdempotent(path: string)
    ensures EnsurePrefix(EnsurePrefix(path)) == EnsurePrefix(path)
  {
  }

  /** The URL `api` fetches for `path`: the path itself when it already starts
      with the endpoint, otherwise the endpoint followed by the path with a
      leading `/`. Any other absolute URL is appended to the endpoint, not
      fetched as given. */
  function ResolveUrl(endpoint: string, path: string): (url: string)
    ensures StartsWith(url, endpoint)
    ensures StartsWith(path, endpoint) ==> url == path
    ensures !StartsWith(path, endpoint) ==>
              url == endpoint + path || url == endpoint + "/" + path
    ensures !StartsWith(path, endpoint) ==>
              (url == endpoint + path <==> StartsWith(path, "/"))
  {
    if StartsWith(path, endpoint) then path else endpoint + EnsurePrefix(path)
  }

  /** Resolving a resolved URL again changes nothing. */
  lemma ResolveUrlIdempotent(endpoint: string, path: string)
    ensures ResolveUrl(endpoint, ResolveUrl(endpoint, path)) == ResolveUrl(endpoint, path)
  {
  }

  /** A leading `/` on a path outside the endpoint makes no difference to the
      URL, as long as the endpoint does not itself begin with `/`. */
  lemma ResolveUrlSlashOptional(endpoint: string, path: string)
    requires endpoint != "" && endpoint[0] != '/'
    requires !StartsWith(path, "/") && !StartsWith(path, endpoint)
    ensures ResolveUrl(endpoint, path) == ResolveUrl(endpoint, "/" + path)
  {
    var slashed := "/" + path;
    assert slashed[0] == '/';
    assert slashed[0] != endpoint[0];
  }

  /** `path.split('?')` destructured into two names: the text before the first
      `?`, and the text between the first and the second `?` if there is a
      `?` at all. Anything after a second `?` is lost. */
  function SplitPath(path: string): (r: (string, Option<string>))
    ensures '?' !in r.0
    ensures r.1.Some? ==> '?' !in r.1.value
    ensures r.1.None? <==> '?' !in path
  {
    var parts := Split(path, '?');
    SplitSingle(path, '?');
    (parts[0], if |parts| >= 2 then Some(parts[1]) else None)
  }

  lemma SplitPathPlain(base: string)
    requires '?' !in base
    ensures SplitPath(base) == (base, None)
  {
    SplitWithout(base, '?');
  }

  /** A path `base?query` splits into its base and its query. */
  lemma SplitPathQuery(base: string, query: string)
    requires '?' !in base && '?' !in query
    ensures SplitPath(base + "?" + query) == (base, Some(query))
  {
    SplitAt(base, '?', query);
    SplitWithout(query, '?');
    assert base + "?" + query == base + ['?'] + query;
  }

  /** A path with two `?` splits as if the text from the second on were not
      there. */
  lemma SplitPathTwice(base: string, q1: string, q2: string)
    requires '?' !in base && '?' !in q1
    ensures SplitPath(base + "?" + q1 + "?" + q2) == SplitPath(base + "?" + q1)
  {
    SplitAt(base, '?', q1 + "?" + q2);
    SplitAt(q1, '?', q2);
    assert base + "?" + q1 + "?" + q2 == base + ['?'] + (q1 + "?" + q2);
    assert q1 + "?" + q2 == q1 + ['?'] + q2;
    SplitPathQuery(base, q1);
  }

  /** The parameters already in the query of `path`; an absent or empty
      query has none. */
  function ExistingParams(path: string): (r: Dict)
    ensures NoDupKeys(r)
  {
    var query := SplitPath(path).1;
    if query.Some? && query.value != "" then Parse(query.value) else []
  }

  /** `addParamsToPath(path, params)`: without parameters the path is
      returned untouched; otherwise the parameters are assigned over those
      already in the query, and the base path is followed by `?` and the
      stringified result. */
  function AddParamsToPath(path: string, params: Option<Dict>): (r: string)
    ensures params.None? ==> r == path
    ensures params.Some? ==> '?' in r
  {
    match params
    case None => path
    case Some(p) =>
      var (base, query) := SplitPath(path);
      var merged := if query.Some? && query.value != "" then Assign(Parse(query.value), p) else p;
      assert (base + "?" + Stringify(merged))[|base|] == '?';
      base + "?" + Stringify(merged)
  }

  /** With parameters, the result is the base path, `?`, and the query string
      of the existing parameters with the new ones assigned over them. */
  lemma AddParamsShape(path: string, p: Dict)
    requires NoDupKeys(p)
    ensures AddParamsToPath(path, Some(p))
            == SplitPath(path).0 + "?" + Stringify(Assign(ExistingParams(path), p))
  {
    var query := SplitPath(path).1;
    if !(query.Some? && query.value != "") {
      AssignOntoEmpty(p);
    }
  }

  /** The parameter merge, read back from the result: the base path is kept,
      existing parameters keep their positions, new names are appended in
      order, and a name given in `p` takes the value from `p`. */
  lemma AddParamsMerge(path: string, p: Dict)
    requires NoDupKeys(p)
    ensures var (base, query) := SplitPath(AddParamsToPath(path, Some(p)));
            var existing := ExistingParams(path);
            base == SplitPath(path).0 && query.Some? &&
            Keys(Parse(query.value)) == Keys(existing) + Missing(Keys(p), Keys(existing)) &&
            (forall k :: Get(Parse(query.value), k) ==
                           if k in Keys(p) then Get(p, k) else Get(existing, k))
  {
    var existing := ExistingParams(path);
    var merged := Assign(existing, p);
    AddParamsShape(path, p);
    StringifyShape(merged);
    SplitPathQuery(SplitPath(path).0, Stringify(merged));
    AssignNoDup(existing, p);
    ParseStringify(merged);
    AssignKeys(existing, p);
    forall k
      ensures Get(merged, k) == if k in Keys(p) then Get(p, k) else Get(existing, k)
    {
      AssignGetDistinct(existing, p, k);
    }
  }

  /** The existing parameters of a path that `addParamsToPath` produced are
      exactly the merged parameters. */
  lemma ExistingAfterAdd(path: string, p: Dict)
    requires NoDupKeys(p)
    ensures ExistingParams(AddParamsToPath(path, Some(p))) == Assign(ExistingParams(path), p)
    ensures SplitPath(AddParamsToPath(path, Some(p))).0 == SplitPath(path).0
  {
    var merged := Assign(ExistingParams(path), p);
    AddParamsShape(path, p);
    StringifyShape(merged);
    SplitPathQuery(SplitPath(path).0, Stringify(merged));
    AssignNoDup(ExistingParams(path), p);
    ParseStringify(merged);
  }

  /** Adding `a` and then `b` is adding `a` with `b` assigned over it. */
  lemma AddParamsTwice(path: string, a: Dict, b: Dict)
    requires NoDupKeys(a) && NoDupKeys(b)
    ensures AddParamsToPath(AddParamsToPath(path, Some(a)), Some(b))
            == AddParamsToPath(path, Some(Assign(a, b)))
  {
    var once := AddParamsToPath(path, Some(a));
    var e := ExistingParams(path);
    ExistingAfterAdd(path, a);
    AddParamsShape(once, b);
    AssignNoDup(a, b);
    AddParamsShape(path, Assign(a, b));
    AssignAssociative(e, a, b);
  }

  /** Adding the same parameters twice is the same as adding them once. */
  lemma AddParamsIdempotent(path: string, p: Dict)
    requires NoDupKeys(p)
    ensures AddParamsToPath(AddParamsToPath(path, Some(p)), Some(p))
            == AddParamsToPath(path, Some(p))
  {
    AddParamsTwice(path, p, p);
    AssignSelf(p);
  }

  /** As written, text after a second `?` in the path is dropped: it neither
      survives in the result nor contributes parameters. */
  lemma AddParamsDropsSecondQuery(base: string, q1: string, q2: string, p: Dict)
    requires '?' !in base && '?' !in q1
    ensures AddParamsToPath(base + "?" + q1 + "?" + q2, Some(p))
            == AddParamsToPath(base + "?" + q1, Some(p))
  {
    SplitPathTwice(base, q1, q2);
  }
}
