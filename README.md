# NewsUKAssessment users app — a Dafny model of its core

The app lists Stack Overflow users, lets the user follow some of them, and
logs and tracks what happens. This project models its deterministic core in
Dafny and proves what the code promises:

- **Logger library.** `String.split(by:separator:)` cuts a message into
  console-sized pieces and marks each cut with a separator. The logger is
  configured, filters calls by source file name and builds the line it
  returns. The filter and the line name the file differently: the filter
  takes the text after the last '/', while the line uses
  `lastPathComponent`, which ignores trailing '/'s. See `chunking.dfy` and `logger.dfy`.
- **Network library.**
  - Endpoints, and the URLs composed from them (`endpoint.dfy`).
  - Request construction, and how the transport classifies the outcome of
    an exchange, with the mock client and the always-failing client
    (`transport.dfy`).
  - The TLS challenge decision of the session delegate (`trust.dfy`).
  - The UTF-8 codec that the error description and the error wrapping rely
    on, following RFC 3629 (`utf8.dfy`).
- **App services.**
  - The `Network` layer: the bearer header, the Stack Exchange envelope, an
    error embedded in a successful response, and the reinterpretation of
    transport errors as `ServiceError`s (`pipeline.dfy`).
  - The users endpoint (`users_endpoint.dfy`).
  - The users view model (`users_view_model.dfy`).
  - The image loader, with its cache and its registry of fetches in flight
    (`image_loader.dfy`).
  - The follow service and its storage (`follow_service.dfy`).
- **Analytics library.** Event names and parameters, and the line `track`
  logs, with its parameters sorted by key (`analytics.dfy`).

`text.dfy` holds the shared pieces: `Option`, `Result`, bytes,
concatenation, joining, substring tests and decimal rendering.

The code is pure in some places and changes state in others, and the model
follows it:

- The chunking loop and the in-place decoration of `split` are methods with
  loop invariants, proved equal to a specification function.
- The header loop of `createRequest` is a method, proved equal to a
  specification function.
- `Logger`, `UsersViewModel`, `ImageLoader`, `FollowService` and the storage
  test double are classes whose methods update their fields.
- Everything else is functions over datatypes, with lemmas about them.

Some things sit outside the model and enter it as parameters or
uninterpreted values:

- the JSON decoders, as partial functions;
- `UIImage(data:)`, as a partial function;
- the URL session, as a function from the pinned certificates and a request
  to an exchange;
- the Security framework calls;
- the date in a log line, as an opaque timestamp string;
- the rendering of a request-level error list, as a function of the list.

In three places the model follows behaviour of the code that a reader might
not expect:

- An empty pinned-certificate list takes the pinned path, not default
  handling. `TrustEvaluation.EmptyPinnedListIsNotDefault` shows an input where
  the two differ.
- The pinned path calls `SecTrustSetAnchorCertificatesOnly` with `false`, so
  the system roots stay trusted. `TrustEvaluation.PinnedSettings` records
  this. No anchors-only property is claimed.
- `put` reports a payload that does not decode as `network`, not `parsing`.
  See "Findings".

## Model

| member | source | states |
|---|---|---|
| Chunking.ChunkLoop | Modules/LoggerLibrary/Sources/LoggerLibrary/Extensions/StringExtensions.swift:15-24 | The index-advancing loop returns exactly the consecutive `length`-character pieces of the string. |
| Chunking.DecorateInPlace | Modules/LoggerLibrary/Sources/LoggerLibrary/Extensions/StringExtensions.swift:31-38 | Editing the first and last pieces and then each middle piece in place gives the decorated list. |
| Chunking.Split | Modules/LoggerLibrary/Sources/LoggerLibrary/Extensions/StringExtensions.swift:11-41 | The whole method returns what the specification of `split` says, on every input. |
| Chunking.Decorate | Modules/LoggerLibrary/Sources/LoggerLibrary/Extensions/StringExtensions.swift:31-38 | Decoration keeps the number of pieces. |
| Chunking.ChunkLengths | Modules/LoggerLibrary/Sources/LoggerLibrary/Extensions/StringExtensions.swift:18-23 | Every piece but the last has exactly `length` characters; the last has between 1 and `length`. |
| Chunking.ChunksConcat | Modules/LoggerLibrary/Sources/LoggerLibrary/Extensions/StringExtensions.swift:15-24 | Concatenating the undecorated pieces gives back the string. |
| Chunking.ChunkCount | Modules/LoggerLibrary/Sources/LoggerLibrary/Extensions/StringExtensions.swift:18-28 | A string of n > 0 characters gives ceil(n / length) pieces; the empty string gives none before the guard. |
| Chunking.NonPositiveLengthIsIdentity | Modules/LoggerLibrary/Sources/LoggerLibrary/Extensions/StringExtensions.swift:13 | A length of zero or less returns the string unchanged as the only piece. |
| Chunking.EmptyStringSplit | Modules/LoggerLibrary/Sources/LoggerLibrary/Extensions/StringExtensions.swift:27-28 | The empty string gives `[""]` for every length and separator. |
| Chunking.DecoratedShape | Modules/LoggerLibrary/Sources/LoggerLibrary/Extensions/StringExtensions.swift:31-38 | With a separator and more than one piece, the first piece gets it appended, the last prepended, the middle ones both. |
| Chunking.SinglePieceNotDecorated | Modules/LoggerLibrary/Sources/LoggerLibrary/Extensions/StringExtensions.swift:27-28 | With a separator but one piece, no separator is inserted. |
| Chunking.StripSeparators | Modules/LoggerLibrary/Sources/LoggerLibrary/Extensions/StringExtensions.swift:31-38 | Undoing the decoration keeps the number of pieces. |
| Chunking.StripDecorated | Modules/LoggerLibrary/Sources/LoggerLibrary/Extensions/StringExtensions.swift:31-38 | Stripping the separators from decorated pieces gives back the pieces. |
| Chunking.SplitRoundTrip | Modules/LoggerLibrary/Sources/LoggerLibrary/Extensions/StringExtensions.swift:11-41 | For any length and separator, stripping the added separators and concatenating gives back the original string. |
| Chunking.SplitHelloWorld | Modules/LoggerLibrary/Tests/LoggerLibraryTests/StringExtensionsTests.swift:7-21 | "Hello World" in pieces of 5 is "Hello", " Worl", "d"; with a separator, the separators sit at the cuts only. |
| Chunking.SplitHelloByOne | Modules/LoggerLibrary/Tests/LoggerLibraryTests/StringExtensionsTests.swift:39-45 | "Hello" in pieces of 1 with a separator wraps each middle letter on both sides and each end letter on its inner side. |
| Chunking.SplitHelloWhole | Modules/LoggerLibrary/Sources/LoggerLibrary/Extensions/StringExtensions.swift:13-28 | A length beyond the string, or a negative one, leaves it whole. |
| Logging.SourceFileName | Modules/LoggerLibrary/Sources/LoggerLibrary/Logger/Logger.swift:306-312 | The name is a suffix of the path, contains no '/', and is preceded by a '/' when shorter than the path. |
| Logging.SourceFileNameLastComponent | Modules/LoggerLibrary/Sources/LoggerLibrary/Logger/Logger.swift:306-312 | A path without '/' is its own name; `dir/name` gives `name`. |
| Logging.StripTrailingSlashes | Modules/LoggerLibrary/Sources/LoggerLibrary/Logger/Logger.swift:166 | The result is a prefix of the path that does not end in '/', and only '/'s were removed. |
| Logging.LastPathComponent | Modules/LoggerLibrary/Sources/LoggerLibrary/Logger/Logger.swift:166 | The name is empty exactly for the empty path, is "/" exactly for a path of only '/'s, and otherwise contains no '/'. |
| Logging.LastPathComponentAgrees | Modules/LoggerLibrary/Sources/LoggerLibrary/Logger/Logger.swift:134-166 | For a path that does not end in '/', the line and the filter use the same name. |
| Logging.TrailingSlashIgnored | Modules/LoggerLibrary/Sources/LoggerLibrary/Logger/Logger.swift:166 | Appending '/' to a path that is not all '/'s leaves its name in the line unchanged. |
| Logging.DirectoryPathNames | Modules/LoggerLibrary/Sources/LoggerLibrary/Logger/Logger.swift:134-166 | For `dir/name/`, the line shows `name` but the filter sees the empty name. |
| Logging.RootPathNames | Modules/LoggerLibrary/Sources/LoggerLibrary/Logger/Logger.swift:134-166 | For "/", the line shows "/" and the filter sees the empty name. |
| Logging.Logger.constructor | Modules/LoggerLibrary/Sources/LoggerLibrary/Logger/Logger.swift:103-110 | A new logger is enabled, has no include or exclusion list, and keeps its category and configuration. |
| Logging.Logger.WithDefaults | Modules/LoggerLibrary/Sources/LoggerLibrary/Logger/Logger.swift:88-95 | The convenience initialiser uses truncation 1023, separator "[...]" and file "log.txt", and starts enabled. |
| Logging.Logger.Setup | Modules/LoggerLibrary/Sources/LoggerLibrary/Logger/Logger.swift:117-121 | Both lists are replaced, an omitted one by nil, and the enabled flag is unchanged. |
| Logging.Logger.Log | Modules/LoggerLibrary/Sources/LoggerLibrary/Logger/Logger.swift:131-169 | A line is returned exactly when the filters allow the file: never when disabled or excluded. The filter uses the text after the last '/', and the line uses the last path component. |
| Logging.ExclusionWins | Modules/LoggerLibrary/Sources/LoggerLibrary/Logger/Logger.swift:135-143 | A file name containing any exclusion pattern is filtered out, whatever the include list says. |
| Logging.IncludeFilter | Modules/LoggerLibrary/Sources/LoggerLibrary/Logger/Logger.swift:139-143 | A nil include list admits every file. A list admits exactly the names containing one of its patterns, so an empty list admits none. |
| Logging.LogLineParts | Modules/LoggerLibrary/Sources/LoggerLibrary/Logger/Logger.swift:166 | The returned line contains the level's indicator, the file's last path component, the method name, the line number and the message. |
| Logging.MessageIsSuffix | Modules/LoggerLibrary/Sources/LoggerLibrary/Logger/Logger.swift:166 | The line ends with the message. |
| Logging.DecoratedPieceLengths | Modules/LoggerLibrary/Sources/LoggerLibrary/Logger/Logger.swift:175-179 | With a positive length n and a separator, every piece is at most n + twice the separator's length, and the first and last pieces at most n + the separator's length. |
| Logging.ConsolePieces | Modules/LoggerLibrary/Sources/LoggerLibrary/Logger/Logger.swift:175-179 | Stripping the separators from the console pieces gives back the message. When the chunk length (truncation length minus separator length) is positive, the end pieces are at most the truncation length and every piece at most that plus the separator's length. |
| Endpoints.NormalizePath | Modules/NetworkLibrary/Sources/NetworkLibrary/Endpoint.swift:64-70 | A nil or empty path is dropped; a kept path is non-empty and starts with '/'. |
| Endpoints.MakeEndpoint | Modules/NetworkLibrary/Sources/NetworkLibrary/Endpoint.swift:56-71 | A constructed endpoint's path, if any, starts with '/'. |
| Endpoints.HostOverrides | Modules/NetworkLibrary/Sources/NetworkLibrary/Endpoint.swift:59-62 | A present override api replaces the argument. Present override query items, even empty ones, replace the argument's. Host and secure flag come from the custom host. |
| Endpoints.PathPrefixing | Modules/NetworkLibrary/Sources/NetworkLibrary/Endpoint.swift:64-70 | A path starting with '/' is kept; any other non-empty path gets '/' prepended. |
| Endpoints.NormalizeIdempotent | Modules/NetworkLibrary/Sources/NetworkLibrary/Endpoint.swift:64-70 | Normalising twice is normalising once. |
| Endpoints.UrlComponents | Modules/NetworkLibrary/Sources/NetworkLibrary/Endpoint.swift:76-91 | The scheme is https exactly when secure, the host is the custom host, and the path is the normalised path or "" followed by the api. A query is attached, in order, exactly when the items are present and non-empty. |
| Endpoints.PathMakesComposable | Modules/NetworkLibrary/Sources/NetworkLibrary/Endpoint.swift:64-70 | With a non-empty custom path, the components always form a URL, so the precondition failure cannot happen. |
| Endpoints.ExampleUrl | Modules/NetworkLibrary/Sources/NetworkLibrary/Endpoint.swift:76-91 | Host "example.co.uk", path "v1" and api "/users" give `https://example.co.uk/v1/users`; secure is the default. |
| UsersEndpoints.UsersEndpoint | Users/Features/Users/Domain/UsersEndpoint.swift:11-27 | Host, path and secure flag come only from the custom host. The api is "/users" and the query items are the five defaults unless the host overrides them. |
| UsersEndpoints.DefaultUsersUrl | Users/Features/Users/Domain/UsersEndpoint.swift:14-25 | Without overrides, the URL has path "/users" and exactly page=1, pagesize=20, order=desc, sort=reputation and site=stackoverflow, in that order. |
| UsersEndpoints.OverriddenQuery | Users/Features/Users/Domain/UsersEndpoint.swift:21-25 | Query items on the custom host replace the defaults; an empty list leaves the URL without a query. |
| Utf8.EncodeChar | Modules/NetworkLibrary/Sources/NetworkLibrary/NetworkServices.swift:99 | A character takes one to four bytes, and every byte after the first is a continuation byte. |
| Utf8.DecodeEncodedChar | Modules/NetworkLibrary/Sources/NetworkLibrary/NetworkServicesProtocols.swift:19-20 | The bytes of one character start a well-formed sequence of the claimed length that decodes to that character. |
| Utf8.DecodeEncode | Modules/NetworkLibrary/Sources/NetworkLibrary/NetworkServicesProtocols.swift:19-24 | Decoding the UTF-8 encoding of any string gives the string back. |
| Utf8.EncodeDecodedChar | Modules/NetworkLibrary/Sources/NetworkLibrary/NetworkServicesProtocols.swift:19-20 | A well-formed sequence is the encoding of the character it decodes to. |
| Utf8.EncodeDecode | Modules/NetworkLibrary/Sources/NetworkLibrary/NetworkServicesProtocols.swift:19-24 | Bytes that decode are exactly the encoding of what they decode to. No overlong form, surrogate or stray byte is accepted. |
| Transport.ReasonIsDescribed | Modules/NetworkLibrary/Sources/NetworkLibrary/NetworkServicesProtocols.swift:23-24 | An error carrying the UTF-8 bytes of a text is described by the "fetching with data" prefix followed by that text. |
| Transport.PrefixedIsNotGeneric | Modules/NetworkLibrary/Sources/NetworkLibrary/NetworkServicesProtocols.swift:14-24 | The "fetching with data" description never equals the generic one. |
| Transport.GenericDescription | Modules/NetworkLibrary/Sources/NetworkLibrary/NetworkServicesProtocols.swift:12-26 | The generic text describes exactly `network` and an `error` whose payload is missing or not UTF-8. |
| Transport.MethodHeaders | Modules/NetworkLibrary/Sources/NetworkLibrary/NetworkServices.swift:58-60 | Content-Type, set to application/json, is set exactly for POST and PUT, and is the only header set. |
| Transport.SetHeaders | Modules/NetworkLibrary/Sources/NetworkLibrary/NetworkServices.swift:61-63 | Setting the caller's headers one key at a time gives the base headers overridden by the caller's. |
| Transport.CreateRequest | Modules/NetworkLibrary/Sources/NetworkLibrary/NetworkServices.swift:54-70 | The built request has the given method, URL and body, with headers equal to the method's own headers overridden by the caller's. |
| Transport.RequestHeaders | Modules/NetworkLibrary/Sources/NetworkLibrary/NetworkServices.swift:58-67 | Every caller header is sent with the caller's value. The only other header is Content-Type, which is application/json for POST and PUT unless the caller sets it. |
| Transport.ClassifyOutcomes | Modules/NetworkLibrary/Sources/NetworkLibrary/NetworkServices.swift:82-100 | Data is returned, unchanged, exactly for status 200-299. Status 400-499 fails with its body. Other statuses and non-HTTP responses fail with `network`. A session failure carries its description's UTF-8 bytes; `noData` never occurs. |
| Transport.FailureIsDescribed | Modules/NetworkLibrary/Sources/NetworkLibrary/NetworkServices.swift:98-100 | A wrapped session failure describes itself with the session's own description. |
| Transport.LoadFile | Modules/NetworkLibrary/Sources/NetworkLibrary/NetworkServicesMock.swift:50-59 | The mock answers with the fixture's bytes exactly when the URL path is mapped and `<file>.json` exists; otherwise with `network`. |
| Transport.LiveRequests | Modules/NetworkLibrary/Sources/NetworkLibrary/NetworkServices.swift:34-49 | The live `get` sends a GET without a body or a Content-Type of its own. The live `put` sends a PUT carrying exactly the body, with a JSON Content-Type unless the caller sets one. |
| Transport.MockIgnoresMethod | Modules/NetworkLibrary/Sources/NetworkLibrary/NetworkServicesMock.swift:39-46 | The mock's `get` and `put` on one URL give the same answer, whatever the headers and body. |
| Transport.FailingClients | Modules/NetworkLibrary/Sources/NetworkLibrary/NetworkServicesMock.swift:62-84 | The always-failing client's `get`, `put` and `load` fail with `network`, as does a mock with the default empty mapper. |
| TrustEvaluation.DefaultHandler | Modules/NetworkLibrary/Sources/NetworkLibrary/NetworkServicesDelegate.swift:28-35 | Use a credential for the server trust exactly when there is one; otherwise default handling without a credential. |
| TrustEvaluation.PinnedSettings | Modules/NetworkLibrary/Sources/NetworkLibrary/NetworkServicesDelegate.swift:40-47 | The pinned path evaluates with the basic X.509 policy and the pinned certificates as anchors, and does not make them the only anchors. |
| TrustEvaluation.EvaluatedSettings | Modules/NetworkLibrary/Sources/NetworkLibrary/NetworkServicesDelegate.swift:44-50 | Evaluation is reached exactly when there is a server trust and all three setup calls return noErr. |
| TrustEvaluation.UnpinnedIsDefault | Modules/NetworkLibrary/Sources/NetworkLibrary/NetworkServicesDelegate.swift:17-20 | Without a certificate list the answer is the default handler's, whatever the Security framework would say. |
| TrustEvaluation.PinnedAccepts | Modules/NetworkLibrary/Sources/NetworkLibrary/NetworkServicesDelegate.swift:44-56 | With pinning, the credential is used exactly when there is a trust, setup succeeds and evaluation is valid. The credential is for that trust; no other answer carries one. |
| TrustEvaluation.PinnedFallsBack | Modules/NetworkLibrary/Sources/NetworkLibrary/NetworkServicesDelegate.swift:58-63 | With pinning, default handling happens exactly when evaluation fails with expired, host-name mismatch or not-trusted. |
| TrustEvaluation.PinnedCancels | Modules/NetworkLibrary/Sources/NetworkLibrary/NetworkServicesDelegate.swift:44-69 | With pinning, the challenge is cancelled exactly in these cases: no trust, a failed setup call, any other error code, or a failure with no error object. |
| TrustEvaluation.EmptyPinnedListIsNotDefault | Modules/NetworkLibrary/Sources/NetworkLibrary/NetworkServicesDelegate.swift:17-23 | An empty, non-nil list takes the pinned path: for one input it cancels where the unpinned delegate uses the credential. |
| ResponsePipeline.Description | Users/Services/Network/Errors.swift:11-18 | `error(reason)` is described by the reason's description. The other three cases are described by their fixed localized keys. |
| ResponsePipeline.MakeNetwork | Users/Services/Network/Network.swift:11-17 | A token gives exactly one header, `Authorization: Bearer <token>`; no token gives no headers. |
| ResponsePipeline.GetTransportFailure | Users/Services/Network/Network.swift:35-36 | A transport failure of `get` is reported through `process(error:)`. |
| ResponsePipeline.GetSucceeds | Users/Services/Network/Network.swift:24-42 | Items are returned exactly when the transport succeeds, the envelope decodes and it lacks an error id or an error message. They are the envelope's items, unchanged. |
| ResponsePipeline.EmbeddedErrorWins | Users/Services/Network/Network.swift:30-33 | An envelope with both an error id and a message fails with that id as decimal text and that message, although the transport succeeded. |
| ResponsePipeline.UndecodableEnvelope | Users/Services/Network/Network.swift:27-29 | A response that does not decode as an envelope is a parsing error. |
| ResponsePipeline.TransportErrorMapping | Users/Services/Network/Network.swift:76-82 | `network` stays `network`, `noData` becomes `parsing`, and an error payload is reinterpreted, never as `network` or `missingBody`. |
| ResponsePipeline.PayloadReinterpretation | Users/Services/Network/Network.swift:84-97 | The payload is read first as the authorization shape, then as the request shape with an empty error code. It is a parsing error exactly when neither decodes. |
| ResponsePipeline.MissingPayloadIsParsing | Users/Services/Network/Network.swift:89-91 | A missing payload is read as no bytes, so it gives `parsing` when no error shape decodes from no bytes. |
| ResponsePipeline.AuthFailureDescribed | Users/Services/Network/Network.swift:35-36 | A 4xx body in the authorization shape surfaces from `get` as that error, with that description. |
| ResponsePipeline.PutParseFailureIsNetwork | Users/Services/Network/Network.swift:45-57 | As written, `put` reports a payload that does not decode as `network`, not `parsing`. |
| ResponsePipeline.PutOutcomes | Users/Services/Network/Network.swift:45-57 | The corrected `put` returns the transformed payload exactly when the transport succeeds and the payload decodes. An undecodable payload gives `parsing`; transport errors map as in `get`. |
| ResponsePipeline.PutCorrectionIsLocal | Users/Services/Network/Network.swift:45-57 | The corrected `put` differs from the one as written only on an undecodable payload. |
| UsersViewModels.UsersUrl | Users/Features/Users/ViewModel/UsersViewModel.swift:34 | The requested URL is the users endpoint on the layer's host, scheme and path, with the five default items unless overridden. |
| UsersViewModels.UsersViewModel.constructor | Users/Features/Users/ViewModel/UsersViewModel.swift:15-26 | A new view model has no users and no error. |
| UsersViewModels.UsersViewModel.GetUsers | Users/Features/Users/ViewModel/UsersViewModel.swift:33-47 | On success the users are the fetched items and the error is cleared. On failure the error is recorded and returned, and the users are kept. |
| ImageLoading.ImageLoader.constructor | Users/Services/ImageLoader.swift:18-28 | A new loader has an empty cache, no registered fetches and no provider calls. |
| ImageLoading.ImageLoader.Begin | Users/Services/ImageLoader.swift:39-62 | A cached URL is a hit with no provider call. A registered URL joins its fetch with no provider call. Any other URL calls the provider once and registers the new fetch. The registry invariant is kept. |
| ImageLoading.ImageLoader.Settle | Users/Services/ImageLoader.swift:51-66 | A decoded image is cached and returned. Undecodable bytes give nil and cache nothing. A provider error is passed on. In every case the URL's registry entry is removed. |
| ImageLoading.ImageLoader.RemoveImage | Users/Services/ImageLoader.swift:76-78 | Only that URL's cache entry goes. The registry, the pending fetches and the task counter are untouched. |
| ImageLoading.ImageLoader.ClearCache | Users/Services/ImageLoader.swift:71-74 | Cache and registry are both emptied. The pending fetches and the task counter are untouched. |
| ImageLoading.LoadTwice | Users/Services/ImageLoader.swift:39-66 | A load followed by another is a cache hit the second time, with one provider call in all. |
| ImageLoading.ConcurrentLoads | Users/Services/ImageLoader.swift:46-48 | A second load before the first settles joins the first fetch: one provider call. |
| ImageLoading.UndecodableIsRefetched | Users/Services/ImageLoader.swift:53-55 | Undecodable bytes give nil without an error, and the next load fetches again. |
| ImageLoading.ClearThenLoad | Users/Services/ImageLoader.swift:71-74 | After `clearCache`, a previously cached URL is fetched again. |
| Following.Storage.Save | UsersTests/FollowServiceTests.swift:8-33 | The test double stores the ids under the key, or fails and changes nothing. |
| Following.InitialUsers | Users/Features/Users/ViewModel/FollowService.swift:45 | The stored ids, or the empty set when nothing is stored or it does not decode. |
| Following.FollowService.constructor | Users/Features/Users/ViewModel/FollowService.swift:39-50 | A new service starts from the set stored under "followedUsers" and does not write. |
| Following.FollowService.IsFollowing | Users/Features/Users/ViewModel/FollowService.swift:54-56 | True exactly for ids in the set. |
| Following.FollowService.SaveToStorage | Users/Features/Users/ViewModel/FollowService.swift:77-84 | The set is written under "followedUsers"; a failed save is swallowed and changes nothing. |
| Following.FollowService.Follow | Users/Features/Users/ViewModel/FollowService.swift:58-60 | The id is added. The storage then holds the new set under its key, even when the set did not change; other keys are untouched, and a rejected save changes nothing. |
| Following.FollowService.Unfollow | Users/Features/Users/ViewModel/FollowService.swift:62-64 | The id is removed. The storage then holds the new set under its key, even when the set did not change; other keys are untouched, and a rejected save changes nothing. |
| Following.FollowService.ToggleFollow | Users/Features/Users/ViewModel/FollowService.swift:66-72 | The id's state flips and no other id changes. The storage holds the new set under its key with other keys untouched, or is unchanged when saves are rejected. |
| Following.ToggleTwice | Users/Features/Users/ViewModel/FollowService.swift:66-72 | Toggling twice restores the set. The storage then holds that set under its key, or is unchanged when saves are rejected. |
| Following.FollowThenReload | Users/Features/Users/ViewModel/FollowService.swift:26-47 | A follow survives into a new service on the same storage, unless saves are rejected. |
| AnalyticsTracking.NamesDistinct | Modules/AnalyticsLibrary/Sources/AnalyticsLibrary/AnalyticsEvent.swift:42-50 | Two events have the same name exactly when they are the same kind of event. |
| AnalyticsTracking.ParametersOfEvents | Modules/AnalyticsLibrary/Sources/AnalyticsLibrary/AnalyticsEvent.swift:53-74 | Each event lists distinct keys under its documented names, with the event's values unchanged. |
| AnalyticsTracking.LessIrreflexive | Modules/AnalyticsLibrary/Sources/AnalyticsLibrary/Analytics.swift:78 | String `<` is irreflexive. |
| AnalyticsTracking.LessAsymmetric | Modules/AnalyticsLibrary/Sources/AnalyticsLibrary/Analytics.swift:78 | String `<` is asymmetric. |
| AnalyticsTracking.LessTransitive | Modules/AnalyticsLibrary/Sources/AnalyticsLibrary/Analytics.swift:78 | String `<` is transitive. |
| AnalyticsTracking.LessTotal | Modules/AnalyticsLibrary/Sources/AnalyticsLibrary/Analytics.swift:78 | Of two different strings, one is less than the other. |
| AnalyticsTracking.Insert | Modules/AnalyticsLibrary/Sources/AnalyticsLibrary/Analytics.swift:78 | Insertion adds exactly the one entry. |
| AnalyticsTracking.InsertSorted | Modules/AnalyticsLibrary/Sources/AnalyticsLibrary/Analytics.swift:78 | Inserting an entry with a new key into a key-sorted list keeps it sorted. |
| AnalyticsTracking.SortByKey | Modules/AnalyticsLibrary/Sources/AnalyticsLibrary/Analytics.swift:78 | The sorted list is a permutation of the entries. |
| AnalyticsTracking.SortSorts | Modules/AnalyticsLibrary/Sources/AnalyticsLibrary/Analytics.swift:78 | Entries with distinct keys come out in strictly ascending key order. |
| AnalyticsTracking.SortedUnique | Modules/AnalyticsLibrary/Sources/AnalyticsLibrary/Analytics.swift:78 | Two key-sorted lists of the same entries are equal. |
| AnalyticsTracking.SortIgnoresOrder | Modules/AnalyticsLibrary/Sources/AnalyticsLibrary/Analytics.swift:77-78 | The sorted list does not depend on the order in which the dictionary yields its entries. |
| AnalyticsTracking.FormatEmpty | Modules/AnalyticsLibrary/Sources/AnalyticsLibrary/Analytics.swift:77-82 | The text is "no parameters" exactly when there are none. Otherwise it starts with the smallest key and ": ". |
| AnalyticsTracking.FormatOne | Modules/AnalyticsLibrary/Sources/AnalyticsLibrary/Analytics.swift:77-82 | One entry formats as `key: value`. |
| AnalyticsTracking.FormatTwo | Modules/AnalyticsLibrary/Sources/AnalyticsLibrary/Analytics.swift:77-80 | Two entries format as `key: value, key: value` in key order, whichever order they are listed in. |
| AnalyticsTracking.ScreenViewFormat | Modules/AnalyticsLibrary/Sources/AnalyticsLibrary/Analytics.swift:76-83 | A screen view formats as `screen_name: <name>`. |
| AnalyticsTracking.ButtonTapFormat | Modules/AnalyticsLibrary/Sources/AnalyticsLibrary/Analytics.swift:76-83 | A button tap formats as `button_name: <name>, screen: <screen>`. |
| AnalyticsTracking.RoundUpSavedFormat | Modules/AnalyticsLibrary/Sources/AnalyticsLibrary/Analytics.swift:76-83 | A round-up formats as `amount: <decimal amount>, goal_name: <goal>`. |
| AnalyticsTracking.NavigationFormat | Modules/AnalyticsLibrary/Sources/AnalyticsLibrary/Analytics.swift:76-83 | A navigation formats as `from_screen: <from>, to_screen: <to>`. |
| AnalyticsTracking.ErrorFormat | Modules/AnalyticsLibrary/Sources/AnalyticsLibrary/Analytics.swift:76-83 | An error formats as `error_message: <message>, error_type: <type>`, message first. |
| AnalyticsTracking.Analytics.constructor | Modules/AnalyticsLibrary/Sources/AnalyticsLibrary/Analytics.swift:46-50 | Analytics is enabled unless told otherwise. |
| AnalyticsTracking.Analytics.Track | Modules/AnalyticsLibrary/Sources/AnalyticsLibrary/Analytics.swift:60-71 | A line is logged exactly when tracking is enabled and a logger was injected. It is exactly "📊 [<name>] " followed by the formatted parameters: it starts with the one, ends with the other, and its length is the sum of theirs. |

## Left out

- File and console output of the logger is not modelled: the file write, the `os.Logger` emission and the bundle identifier. The pieces are computed, but nothing is sent.
- The date at the head of a log line is an opaque timestamp parameter. Date formatting is not modelled.
- Logging.LogLine: `\(object)` is taken to be the message text. Swift's description of arbitrary values is not modelled.
- JSON decoding is modelled as caller-supplied partial functions. So are `UIImage(data:)` and the text of a request-level error list. The key-decoding strategy and the JSON grammar are not modelled.
- `URLSession`, its configuration constants, cancellation and the network are not modelled. The session is a function from the pinned certificates and the request to an exchange.
- Cryptographic evaluation and the `SecTrust*` calls are inputs of the decision. Their effects on a real trust object are not modelled.
- Endpoints.UrlOf: URL percent-encoding and host validation are not modelled. Components form a URL whenever the path is empty or starts with '/'.
- Header names are compared exactly. `URLRequest` compares them case-insensitively.
- Transport.Classify: only `NetworkServicesError` and other errors with a description are distinguished, as the code does. The error kinds of `URLSession` are not modelled.
- ResponsePipeline.Get: errors other than `NetworkServicesError` and `ServiceError` become `network` in the code. No modelled client raises one, so that catch-all is not modelled.
- UsersViewModels.UsersViewModel.GetUsers: the fetched items are assigned directly. The code binds `get`'s array result to an envelope type, and that typing is not reproduced.
- The image loader's concurrency is not modelled: the actor, `Task`s and interleavings. "One fetch at a time" is shown through the registry state. `NSCache`'s count and cost eviction is not modelled, so the cache never evicts.
- ImageLoading.ImageLoader.Settle: a joined load receives the same result as the load that started the fetch. That sharing is not modelled separately.
- Following: the Combine publisher and the logger side effects are not modelled. Storage is a map, as in the test double.
- Analytics: the injected logger is a flag, and `track` returns the line it would log. The logger's own filtering is not modelled.
- AnalyticsTracking.Less: Swift `String` `<` is modelled as lexicographic order on characters. Unicode canonical ordering of grapheme clusters is not modelled.
- Characters are Dafny `char`s, not grapheme clusters, so `split` counts code points.
- Localized strings are modelled by their keys or English texts. L10n.swift and the `.localized` lookup are not part of this model.
- UIKit views, floating-point formatting, date helpers, dependency wiring and configuration are not part of this model.

## Findings

| source | as written | input that shows it | evidently intended | confidence | as-written member | corrected member |
|---|---|---|---|---|---|---|
| Users/Services/Network/Network.swift:45-57 | `put` throws `parsing` when the payload does not decode. It has no `catch` for `ServiceError`, so the generic `catch` rethrows that as `network`. | A transport success whose bytes the decoder rejects: `put` fails with `network`. | Report `parsing`, as `get` does with its `catch let error as ServiceError`. | not executed | ResponsePipeline.PutParseFailureIsNetwork | ResponsePipeline.PutOutcomes |
