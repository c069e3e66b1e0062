/**
 * Endpoint and URL composition of the network library: a host override
 * supersedes the endpoint's api and query items, the path gets a leading
 * '/', and the URL is a function of the endpoint's fields.
 */
module Endpoints {
  import opened Text

  /** A query parameter; its value may be absent. */
  datatype QueryItem = QueryItem(name: string, value: Option<string>)

  /** Environment-specific values that supersede an endpoint's defaults. */
  datatype CustomHost = CustomHost(
    secure: bool := true,
    host: string,
    path: Option<string> := None,
    api: Option<string> := None,
    queryItems: Option<seq<QueryItem>> := None)

  datatype Endpoint = Endpoint(
    host: string,
    path: Option<string>,
    api: string,
    queryItems: Option<seq<QueryItem>>,
    isSecure: bool)

  /** A missing or empty path is dropped; otherwise it gets a leading '/' unless it already has one. */
  function NormalizePath(path: Option<string>): (r: Option<string>)
    ensures r.None? <==> path.None? || path.value == ""
    ensures r.Some? ==> |r.value| > 0 && r.value[0] == '/'
  {
    if path.None? || path.value == "" then None
    else if path.value[0] == '/' then path
    else Some("/" + path.value)
  }

  /** `Endpoint(customHost:api:queryItems:)`. */
  function MakeEndpoint(customHost: CustomHost, api: string, queryItems: Option<seq<QueryItem>> := None): (e: Endpoint)
    ensures e.path.Some? ==> |e.path.value| > 0 && e.path.value[0] == '/'
  {
    Endpoint(
      host := customHost.host,
      path := NormalizePath(customHost.path),
      api := customHost.api.GetOr(api),
      queryItems := if customHost.queryItems.Some? then customHost.queryItems else queryItems,
      isSecure := customHost.secure)
  }

  /** The components a URL is built from. */
  datatype Url = Url(scheme: string, host: string, path: string, query: Option<seq<QueryItem>>)

  /** The URL path: the normalised path, or nothing, followed by the api. */
  function ComposedPath(e: Endpoint): string {
    e.path.GetOr("") + e.api
  }

  /** URL components with a host only form a URL when the path is empty or starts with '/'. */
  predicate Composable(e: Endpoint) {
    var p := ComposedPath(e);
    p == "" || p[0] == '/'
  }

  /** `Endpoint.url`; components that cannot form a URL stop the program, so they are excluded by the precondition. */
  function UrlOf(e: Endpoint): (u: Url)
    requires Composable(e)
  {
    Url(
      if e.isSecure then "https" else "http",
      e.host,
      ComposedPath(e),
      if e.queryItems.Some? && e.queryItems.value != [] then e.queryItems else None)
  }

  function RenderQueryItem(item: QueryItem): string {
    if item.value.Some? then item.name + "=" + item.value.value else item.name
  }

  function RenderQuery(items: seq<QueryItem>): string
    decreases |items|
  {
    if items == [] then ""
    else if |items| == 1 then RenderQueryItem(items[0])
    else RenderQueryItem(items[0]) + "&" + RenderQuery(items[1..])
  }

  /** The URL as text (percent-encoding aside). */
  function UrlText(u: Url): string {
    u.scheme + "://" + u.host + u.path + (if u.query.Some? then "?" + RenderQuery(u.query.value) else "")
  }

  /** A present override api replaces the argument; a present override query list, even an empty one, replaces the argument's. */
  lemma HostOverrides(customHost: CustomHost, api: string, queryItems: Option<seq<QueryItem>>)
    ensures var e := MakeEndpoint(customHost, api, queryItems);
      && (customHost.api.Some? ==> e.api == customHost.api.value)
      && (customHost.api.None? ==> e.api == api)
      && (customHost.queryItems.Some? ==> e.queryItems == customHost.queryItems)
      && (customHost.queryItems.None? ==> e.queryItems == queryItems)
      && e.host == customHost.host && e.isSecure == customHost.secure
  {
  }

  /** A path that already starts with '/' is kept, any other non-empty path gets one prepended. */
  lemma PathPrefixing(path: string)
    requires path != ""
    ensures path[0] == '/' ==> NormalizePath(Some(path)) == Some(path)
    ensures path[0] != '/' ==> NormalizePath(Some(path)) == Some("/" + path)
  {
  }

  /** Normalising twice is normalising once. */
  lemma NormalizeIdempotent(path: Option<string>)
    ensures NormalizePath(NormalizePath(path)) == NormalizePath(path)
  {
  }

  /** The scheme is `https` exactly when the host is secure; the host is the override's; the query is attached, in order, exactly when there are items. */
  lemma UrlComponents(customHost: CustomHost, api: string, queryItems: Option<seq<QueryItem>>)
    requires Composable(MakeEndpoint(customHost, api, queryItems))
    ensures var e := MakeEndpoint(customHost, api, queryItems); var u := UrlOf(e);
      && (u.scheme == "https" <==> customHost.secure)
      && (u.scheme == "http" <==> !customHost.secure)
      && u.host == customHost.host
      && u.path == NormalizePath(customHost.path).GetOr("") + e.api
      && (u.query.Some? <==> e.queryItems.Some? && e.queryItems.value != [])
      && (u.query.Some? ==> u.query == e.queryItems)
  {
  }

  /** A present path makes any endpoint composable, since the path starts with '/'. */
  lemma PathMakesComposable(customHost: CustomHost, api: string, queryItems: Option<seq<QueryItem>>)
    requires customHost.path.Some? && customHost.path.value != ""
    ensures Composable(MakeEndpoint(customHost, api, queryItems))
  {
  }

  /** Host "example.co.uk", path "v1", api "/users", secure: `https://example.co.uk/v1/users`. */
  lemma ExampleUrl()
    ensures var e := MakeEndpoint(CustomHost(host := "example.co.uk", path := Some("v1")), "/users");
      Composable(e) && UrlText(UrlOf(e)) == "https://example.co.uk/v1/users"
  {
    var e := MakeEndpoint(CustomHost(host := "example.co.uk", path := Some("v1")), "/users");
    assert e.path == Some("/v1") by {
      PathPrefixing("v1");
      assert "/" + "v1" == "/v1";
    }
    assert ComposedPath(e) == "/v1/users" by {
      assert "/v1" + "/users" == "/v1/users";
    }
    var u := Url("https", "example.co.uk", "/v1/users", None);
    assert UrlOf(e) == u;
    assert UrlText(u) == "https://example.co.uk/v1/users" by {
      assert "https" + "://" == "https://";
      assert "https://" + "example.co.uk" == "https://example.co.uk";
      assert "https://example.co.uk" + "/v1/users" == "https://example.co.uk/v1/users";
      assert "https://example.co.uk/v1/users" + "" == "https://example.co.uk/v1/users";
    }
  }
}
