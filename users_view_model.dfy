/** The users screen's view model: the list of users and the last error, updated by one fetch. */
module UsersViewModels {
  import opened Text
  import opened Endpoints
  import opened UsersEndpoints
  import opened ResponsePipeline

  datatype BadgeCounts = BadgeCounts(bronze: int, silver: int, gold: int)

  /** A Stack Overflow user as the list shows it; URLs are kept as text. */
  datatype User = User(
    badgeCounts: BadgeCounts,
    userId: int,
    displayName: string,
    profileImage: Option<string>,
    link: string,
    location: Option<string>,
    reputation: int)

  /** The URL `getUsers` requests: the users endpoint on the layer's host. */
  function UsersUrl(network: NetworkLayer): (u: Url)
    requires Composable(UsersEndpoint(network.customHost))
    ensures u.host == network.customHost.host
    ensures u.scheme == (if network.customHost.secure then "https" else "http")
    ensures network.customHost.api.None? ==> u.path == NormalizePath(network.customHost.path).GetOr("") + "/users"
    ensures network.customHost.queryItems.None? ==> u.query == Some(UsersQueryItems)
  {
    UrlOf(UsersEndpoint(network.customHost))
  }

  class UsersViewModel {
    const network: NetworkLayer
    const decoders: Decoders<User>
    var users: seq<User>
    var error: Option<ServiceError>

    constructor(network: NetworkLayer, decoders: Decoders<User>)
      ensures this.network == network && this.decoders == decoders
      ensures users == [] && error == None
    {
      this.network := network;
      this.decoders := decoders;
      users := [];
      error := None;
    }

    /** `getUsers`: on success the users are replaced and the error cleared; on failure the error is recorded and rethrown and the users are kept. */
    method GetUsers() returns (outcome: Result<(), ServiceError>)
      requires Composable(UsersEndpoint(network.customHost))
      modifies this
      ensures var fetched := Get(network, UsersUrl(network), decoders);
        && (fetched.Success? ==> users == fetched.value && error == None && outcome == Success(()))
        && (fetched.Failure? ==> users == old(users) && error == Some(fetched.error) && outcome == Failure(fetched.error))
    {
      var fetched := Get(network, UsersUrl(network), decoders);
      match fetched {
        case Success(items) =>
          users := items;
          error := None;
          outcome := Success(());
        case Failure(e) =>
          error := Some(e);
          outcome := Failure(e);
      }
    }
  }
}
