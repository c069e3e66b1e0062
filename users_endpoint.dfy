/** The app's users endpoint: api "/users" with five fixed query items, on the configured host. */
module UsersEndpoints {
  import opened Text
  import opened Endpoints

  /** page=1, pagesize=20, order=desc, sort=reputation, site=stackoverflow, in that order. */
  const UsersQueryItems: seq<QueryItem> := [
    QueryItem("page", Some("1")),
    QueryItem("pagesize", Some("20")),
    QueryItem("order", Some("desc")),
    QueryItem("sort", Some("reputation")),
    QueryItem("site", Some("stackoverflow"))
  ]

  /** `UsersEndpoint.users.endpoint(with:)`. */
  function UsersEndpoint(customHost: CustomHost): (e: Endpoint)
    ensures e.host == customHost.host && e.isSecure == customHost.secure
    ensures e.path == NormalizePath(customHost.path)
    ensures e.api == (if customHost.api.Some? then customHost.api.value else "/users")
    ensures e.queryItems == Some(if customHost.queryItems.Some? then customHost.queryItems.value else UsersQueryItems)
  {
    MakeEndpoint(customHost, "/users", Some(UsersQueryItems))
  }

  /** With a host that overrides neither api nor query items, the URL has path "/users" and the five items, in order. */
  lemma DefaultUsersUrl(host: string, secure: bool)
    ensures var e := UsersEndpoint(CustomHost(secure := secure, host := host));
      && Composable(e)
      && UrlOf(e) == Url(if secure then "https" else "http", host, "/users", Some(UsersQueryItems))
  {
    var e := UsersEndpoint(CustomHost(secure := secure, host := host));
    assert ComposedPath(e) == "/users";
  }

  /** Overridden query items, even an empty list, replace the five defaults; an empty list leaves the URL without a query. */
  lemma OverriddenQuery(customHost: CustomHost)
    requires customHost.queryItems.Some?
    requires Composable(UsersEndpoint(customHost))
    ensures UrlOf(UsersEndpoint(customHost)).query ==
      (if customHost.queryItems.value == [] then None else customHost.queryItems)
  {
  }
}
