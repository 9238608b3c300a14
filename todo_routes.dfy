/** The generated route helpers of the Phase7 ToDo front end
    (Phase7/ToDo/resources/js/routes/todos.ts): each route has a definition (its HTTP methods
    and URL template), a `url` builder and a function returning `{ url, method }`. The query
    string that `queryParams(options)` renders is a parameter. */
module TodoRoutes {
  import opened Wrappers
  import Decimal

  datatype HttpMethod = Get | Head | Post | Patch | Delete

  /** A route parameter `id: number | string`; numbers are integers here. */
  datatype Id = NumId(n: int) | StrId(s: string)

  /** JavaScript's `String(params.id)`. */
  function IdString(id: Id): (s: string)
    ensures id.NumId? ==> '$' !in s
    ensures id.StrId? ==> s == id.s
  {
    match id
    case NumId(n) =>
      var s := Decimal.IntToString(n);
      assert forall k :: 0 <= k < |s| ==> s[k] == '-' || Decimal.IsDigit(s[k]);
      s
    case StrId(s) => s
  }

  datatype RouteDefinition = RouteDefinition(methods: seq<HttpMethod>, url: string)

  /** What each route function returns. */
  datatype Route = Route(url: string, httpMethod: HttpMethod)

  // ---------------------------------------------------------------- String.prototype.replace

  predicate OccursAt(s: string, pat: string, k: nat) {
    k + |pat| <= |s| && s[k..k + |pat|] == pat
  }

  /** The first position at or after `from` where `pat` occurs. */
  function IndexFrom(s: string, pat: string, from: nat): (r: Option<nat>)
    requires from <= |s|
    ensures r.Some? ==> from <= r.value && OccursAt(s, pat, r.value)
    ensures forall k: nat :: from <= k && (r.None? || k < r.value) ==> !OccursAt(s, pat, k)
    decreases |s| - from
  {
    if from + |pat| > |s| then None
    else if s[from..from + |pat|] == pat then Some(from)
    else IndexFrom(s, pat, from + 1)
  }

  /** The replacement text with its `$`-patterns expanded, for a string pattern (which has
      no capture groups): `$$` is `$`, `$&` the match, `` $` `` the text before it, `$'` the
      text after it; any other `$` stands for itself. */
  function Expand(rep: string, before: string, matched: string, after: string): (r: string)
    ensures '$' !in rep ==> r == rep
    ensures rep == "$$" ==> r == "$"
    ensures rep == "$&" ==> r == matched
    ensures rep == "$`" ==> r == before
    ensures rep == "$'" ==> r == after
    decreases |rep|
  {
    if |rep| == 0 then ""
    else if rep[0] == '$' && |rep| >= 2 && rep[1] == '$' then "$" + Expand(rep[2..], before, matched, after)
    else if rep[0] == '$' && |rep| >= 2 && rep[1] == '&' then matched + Expand(rep[2..], before, matched, after)
    else if rep[0] == '$' && |rep| >= 2 && rep[1] == '`' then before + Expand(rep[2..], before, matched, after)
    else if rep[0] == '$' && |rep| >= 2 && rep[1] == '\'' then after + Expand(rep[2..], before, matched, after)
    else
      assert '$' !in rep ==> '$' !in rep[1..] && [rep[0]] + rep[1..] == rep;
      [rep[0]] + Expand(rep[1..], before, matched, after)
  }

  /** `s.replace(pat, rep)` with a string pattern: only the first occurrence is replaced. */
  function Replace(s: string, pat: string, rep: string): (r: string)
    ensures IndexFrom(s, pat, 0).None? ==> r == s
  {
    match IndexFrom(s, pat, 0)
    case None => s
    case Some(i) => s[..i] + Expand(rep, s[..i], pat, s[i + |pat|..]) + s[i + |pat|..]
  }

  /** A placeholder is found where it first appears, when its first character does not occur
      before it. */
  lemma FirstPlaceholder(prefix: string, pat: string, suffix: string)
    requires |pat| > 0 && pat[0] !in prefix
    ensures IndexFrom(prefix + pat + suffix, pat, 0) == Some(|prefix|)
  {
    var s := prefix + pat + suffix;
    assert s[|prefix|..|prefix| + |pat|] == pat;
    assert OccursAt(s, pat, |prefix|);
  }

  /** Filling a template whose placeholder is the first occurrence of its first character. */
  lemma FillTemplate(prefix: string, pat: string, suffix: string, rep: string)
    requires |pat| > 0 && pat[0] !in prefix && '$' !in rep
    ensures Replace(prefix + pat + suffix, pat, rep) == prefix + rep + suffix
  {
    var s := prefix + pat + suffix;
    FirstPlaceholder(prefix, pat, suffix);
    assert s[..|prefix|] == prefix;
    assert s[|prefix| + |pat|..] == suffix;
  }

  // ---------------------------------------------------------------- the routes

  const IndexDefinition := RouteDefinition([Get, Head], "/todos")
  const StoreDefinition := RouteDefinition([Post], "/todos")
  const ShowDefinition := RouteDefinition([Get, Head], "/todos/{id}")
  const UpdateDefinition := RouteDefinition([Patch], "/todos/{id}")
  const DestroyDefinition := RouteDefinition([Delete], "/todos/{id}")
  const ToggleDefinition := RouteDefinition([Post], "/todos/{id}/toggle")

  /** The `.url` builders: the definition's URL with `{id}` replaced, then the query string.
      An id free of `$` lands in the URL verbatim. */
  function IndexUrl(query: string): (u: string)
    ensures u == "/todos" + query
  {
    IndexDefinition.url + query
  }

  function StoreUrl(query: string): (u: string)
    ensures u == "/todos" + query
  {
    StoreDefinition.url + query
  }

  function ShowUrl(id: Id, query: string): (u: string)
    ensures '$' !in IdString(id) ==> u == "/todos/" + IdString(id) + query
  {
    MemberPath(id, ShowDefinition.url) + query
  }

  function UpdateUrl(id: Id, query: string): (u: string)
    ensures '$' !in IdString(id) ==> u == "/todos/" + IdString(id) + query
  {
    MemberPath(id, UpdateDefinition.url) + query
  }

  function DestroyUrl(id: Id, query: string): (u: string)
    ensures '$' !in IdString(id) ==> u == "/todos/" + IdString(id) + query
  {
    MemberPath(id, DestroyDefinition.url) + query
  }

  function ToggleUrl(id: Id, query: string): (u: string)
    ensures '$' !in IdString(id) ==> u == "/todos/" + IdString(id) + "/toggle" + query
  {
    TogglePath(id, ToggleDefinition.url) + query
  }

  /** `/todos/{id}/toggle` with the id filled in. */
  function TogglePath(id: Id, template: string): (path: string)
    requires template == "/todos/{id}/toggle"
    ensures path == Replace(template, "{id}", IdString(id))
    ensures '$' !in IdString(id) ==> path == "/todos/" + IdString(id) + "/toggle"
  {
    if '$' !in IdString(id) then
      FillTemplate("/todos/", "{id}", "/toggle", IdString(id));
      TogglePieces();
      Replace(template, "{id}", IdString(id))
    else
      Replace(template, "{id}", IdString(id))
  }

  /** The toggle template is the text before the placeholder, the placeholder and the rest. */
  lemma TogglePieces()
    ensures "/todos/" + "{id}" + "/toggle" == ToggleDefinition.url
  {
  }

  /** `/todos/{id}` with the id filled in. */
  function MemberPath(id: Id, template: string): (path: string)
    requires template == "/todos/{id}"
    ensures path == Replace(template, "{id}", IdString(id))
    ensures '$' !in IdString(id) ==> path == "/todos/" + IdString(id)
  {
    if '$' !in IdString(id) then
      FillTemplate("/todos/", "{id}", "", IdString(id));
      assert "/todos/" + "{id}" + "" == "/todos/{id}";
      assert "/todos/" + IdString(id) + "" == "/todos/" + IdString(id);
      Replace(template, "{id}", IdString(id))
    else
      Replace(template, "{id}", IdString(id))
  }

  function Index(query: string): (r: Route)
    ensures r.url == IndexUrl(query) && r.httpMethod in IndexDefinition.methods
  {
    Route(IndexUrl(query), Get)
  }

  function Store(query: string): (r: Route)
    ensures r.url == StoreUrl(query) && r.httpMethod in StoreDefinition.methods
  {
    Route(StoreUrl(query), Post)
  }

  function Show(id: Id, query: string): (r: Route)
    ensures r.url == ShowUrl(id, query) && r.httpMethod in ShowDefinition.methods
  {
    Route(ShowUrl(id, query), Get)
  }

  function Update(id: Id, query: string): (r: Route)
    ensures r.url == UpdateUrl(id, query) && r.httpMethod in UpdateDefinition.methods
  {
    Route(UpdateUrl(id, query), Patch)
  }

  function Destroy(id: Id, query: string): (r: Route)
    ensures r.url == DestroyUrl(id, query) && r.httpMethod in DestroyDefinition.methods
  {
    Route(DestroyUrl(id, query), Delete)
  }

  function Toggle(id: Id, query: string): (r: Route)
    ensures r.url == ToggleUrl(id, query) && r.httpMethod in ToggleDefinition.methods
  {
    Route(ToggleUrl(id, query), Post)
  }

  /** The collection routes share one URL. */
  lemma CollectionUrls(query: string)
    ensures IndexUrl(query) == StoreUrl(query) == "/todos" + query
  {
  }

  /** `show`, `update` and `destroy` build the same URL; only their methods differ. */
  lemma MemberUrls(id: Id, query: string)
    requires '$' !in IdString(id)
    ensures ShowUrl(id, query) == UpdateUrl(id, query) == DestroyUrl(id, query)
    ensures ShowUrl(id, query) == "/todos/" + IdString(id) + query
    ensures Show(id, query).httpMethod != Update(id, query).httpMethod
    ensures Update(id, query).httpMethod != Destroy(id, query).httpMethod
    ensures Show(id, query).httpMethod != Destroy(id, query).httpMethod
  {
  }

  /** A numeric id always fills the template literally. */
  lemma NumericIdUrls(n: int, query: string)
    ensures ShowUrl(NumId(n), query) == "/todos/" + Decimal.IntToString(n) + query
    ensures ToggleUrl(NumId(n), query) == "/todos/" + Decimal.IntToString(n) + "/toggle" + query
  {
  }

  /** A string id holding a `$`-pattern is expanded, not inserted: `$'` becomes the text
      after the placeholder. */
  lemma DollarIdExpands(query: string)
    ensures ToggleUrl(StrId("$'"), query) == "/todos/" + "/toggle" + "/toggle" + query
  {
    FillAfterPattern("/todos/", "{id}", "/toggle");
    TogglePieces();
  }

  /** `$'` as the replacement repeats the text after the placeholder. */
  lemma FillAfterPattern(prefix: string, pat: string, suffix: string)
    requires |pat| > 0 && pat[0] !in prefix
    ensures Replace(prefix + pat + suffix, pat, "$'") == prefix + suffix + suffix
  {
    var s := prefix + pat + suffix;
    FirstPlaceholder(prefix, pat, suffix);
    assert s[..|prefix|] == prefix && s[|prefix| + |pat|..] == suffix;
  }
}
