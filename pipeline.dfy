/**
 * The app's network layer on top of the transport: it sends the bearer
 * authorization header, decodes the Stack Exchange envelope, lets an error
 * embedded in a successful response win, and reinterprets transport errors
 * as `ServiceError`s by decoding their payload. JSON decoding is a partial
 * function supplied by the caller.
 */
module ResponsePipeline {
  import opened Text
  import opened Endpoints
  import T = Transport

  /** The authorization-level error shape: both fields are required. */
  datatype NetworkError = NetworkError(error: string, errorDescription: string)

  datatype ErrorMessage = ErrorMessage(message: string)

  /** The request-level error shape: a list of messages and a success flag. */
  datatype ErrorResponse = ErrorResponse(errors: seq<ErrorMessage>, success: bool)

  datatype ServiceError = Network | Parsing | MissingBody | Error(reason: NetworkError)

  /** The localized texts of the three fixed errors, by key. */
  const NetworkText: string := "error.network"
  const ParsingText: string := "error.parsing"
  const MissingBodyText: string := "error.missingBody"

  /** `ServiceError.description`. */
  function Description(e: ServiceError): (r: string)
    ensures e.Error? ==> r == e.reason.errorDescription
    ensures e.Network? ==> r == NetworkText
    ensures e.Parsing? ==> r == ParsingText
    ensures e.MissingBody? ==> r == MissingBodyText
  {
    match e
    case Network => NetworkText
    case Parsing => ParsingText
    case MissingBody => MissingBodyText
    case Error(reason) => reason.errorDescription
  }

  /** The Stack Exchange response envelope. */
  datatype Envelope<Item> = Envelope(
    items: seq<Item>,
    hasMore: bool,
    quotaMax: int,
    quotaRemaining: int,
    errorId: Option<int>,
    errorMessage: Option<string>)

  /** The JSON decoders the layer uses, as partial functions, and the rendering of an error list as text. */
  datatype Decoders<Item> = Decoders(
    envelope: Data -> Option<Envelope<Item>>,
    auth: Data -> Option<NetworkError>,
    request: Data -> Option<ErrorResponse>,
    errorsText: seq<ErrorMessage> -> string)

  /** No JSON value is empty: neither error shape decodes from no bytes. */
  predicate RejectsEmpty<Item>(decoders: Decoders<Item>) {
    decoders.auth([]).None? && decoders.request([]).None?
  }

  /** The app's `Network` struct: a client, the authorization headers and the host the endpoints are built on. */
  datatype NetworkLayer = NetworkLayer(service: T.Client, authorization: Option<map<string, string>>, customHost: CustomHost)

  /** `Network.init`: a bearer token becomes the only header, `Authorization: Bearer <token>`; no token, no headers. */
  function MakeNetwork(service: T.Client, token: Option<string>, customHost: CustomHost): (n: NetworkLayer)
    ensures n.service == service && n.customHost == customHost
    ensures n.authorization.Some? <==> token.Some?
    ensures token.Some? ==> (n.authorization.value.Keys == {"Authorization"}
      && n.authorization.value["Authorization"] == "Bearer " + token.value)
  {
    NetworkLayer(service, if token.Some? then Some(map["Authorization" := "Bearer " + token.value]) else None, customHost)
  }

  /** `process(data:)`: the payload, or no bytes when there is none, read first as the authorization shape, then as the request shape with an empty error code, else a parsing error. */
  function ProcessData<Item>(data: Option<Data>, decoders: Decoders<Item>): ServiceError {
    var bytes := data.GetOr([]);
    match decoders.auth(bytes)
    case Some(auth) => Error(auth)
    case None =>
      match decoders.request(bytes)
      case Some(response) => Error(NetworkError("", decoders.errorsText(response.errors)))
      case None => Parsing
  }

  /** `process(error:)`. */
  function ProcessError<Item>(error: T.NetworkServicesError, decoders: Decoders<Item>): ServiceError {
    match error
    case Network => Network
    case NoData => Parsing
    case Error(reason) => ProcessData(reason, decoders)
  }

  /** `get(url:)`: the envelope's items, unless the transport failed, the envelope does not decode, or it carries both an error id and a message. */
  function Get<Item>(network: NetworkLayer, url: Url, decoders: Decoders<Item>): Result<seq<Item>, ServiceError> {
    match T.Get(network.service, url, network.authorization)
    case Failure(e) => Failure(ProcessError(e, decoders))
    case Success(data) =>
      match decoders.envelope(data)
      case None => Failure(Parsing)
      case Some(envelope) =>
        if envelope.errorId.Some? && envelope.errorMessage.Some? then
          Failure(Error(NetworkError(IntToString(envelope.errorId.value), envelope.errorMessage.value)))
        else Success(envelope.items)
  }

  /** `put(url:body:transform:)` as written: a payload that does not decode is reported as a network error. */
  function PutAsWritten<P, R>(network: NetworkLayer, url: Url, body: Data, decode: Data -> Option<P>, transform: P -> R,
                              decoders: Decoders<P>): Result<R, ServiceError> {
    match T.Put(network.service, url, network.authorization, body)
    case Failure(e) => Failure(ProcessError(e, decoders))
    case Success(data) =>
      match decode(data)
      case None => Failure(Network)
      case Some(parsed) => Success(transform(parsed))
  }

  /** `put(url:body:transform:)` with a payload that does not decode reported as a parsing error, as `get` does. */
  function Put<P, R>(network: NetworkLayer, url: Url, body: Data, decode: Data -> Option<P>, transform: P -> R,
                     decoders: Decoders<P>): Result<R, ServiceError> {
    match T.Put(network.service, url, network.authorization, body)
    case Failure(e) => Failure(ProcessError(e, decoders))
    case Success(data) =>
      match decode(data)
      case None => Failure(Parsing)
      case Some(parsed) => Success(transform(parsed))
  }

  /** A transport failure of `get` is reported through `process(error:)`, whatever the decoders make of the envelope. */
  lemma GetTransportFailure<Item>(network: NetworkLayer, url: Url, decoders: Decoders<Item>)
    ensures T.Get(network.service, url, network.authorization).Failure? ==>
      Get(network, url, decoders) == Failure(ProcessError(T.Get(network.service, url, network.authorization).error, decoders))
  {
  }

  /** Items are returned exactly when the transport succeeds, the envelope decodes and it does not carry both an error id and a message; they are the envelope's items, unchanged. */
  lemma GetSucceeds<Item>(network: NetworkLayer, url: Url, decoders: Decoders<Item>)
    ensures var sent := T.Get(network.service, url, network.authorization);
      var r := Get(network, url, decoders);
      && (r.Success? <==>
            sent.Success? && decoders.envelope(sent.value).Some?
            && (decoders.envelope(sent.value).value.errorId.None? || decoders.envelope(sent.value).value.errorMessage.None?))
      && (r.Success? ==> r.value == decoders.envelope(sent.value).value.items)
  {
  }

  /** An error embedded in a successful response wins: its id, as decimal text, and its message become the error. */
  lemma EmbeddedErrorWins<Item>(network: NetworkLayer, url: Url, decoders: Decoders<Item>, data: Data, envelope: Envelope<Item>)
    requires T.Get(network.service, url, network.authorization) == Success(data)
    requires decoders.envelope(data) == Some(envelope)
    requires envelope.errorId.Some? && envelope.errorMessage.Some?
    ensures var r := Get(network, url, decoders);
      && r == Failure(Error(NetworkError(IntToString(envelope.errorId.value), envelope.errorMessage.value)))
      && Description(r.error) == envelope.errorMessage.value
  {
  }

  /** A response that does not decode as an envelope is a parsing error, whatever the transport delivered. */
  lemma UndecodableEnvelope<Item>(network: NetworkLayer, url: Url, decoders: Decoders<Item>, data: Data)
    requires T.Get(network.service, url, network.authorization) == Success(data)
    requires decoders.envelope(data).None?
    ensures Get(network, url, decoders) == Failure(Parsing)
  {
  }

  /** Transport errors: `network` stays `network`, `noData` becomes `parsing`, an error payload is reinterpreted. */
  lemma TransportErrorMapping<Item>(decoders: Decoders<Item>, reason: Option<Data>)
    ensures ProcessError(T.Network, decoders) == Network
    ensures ProcessError(T.NoData, decoders) == Parsing
    ensures ProcessError(T.Error(reason), decoders) == ProcessData(reason, decoders)
    ensures ProcessError(T.Error(reason), decoders) != Network
    ensures ProcessError(T.Error(reason), decoders) != MissingBody
  {
  }

  /** The payload is read as the authorization shape first; only when that fails as the request shape; only when both fail is it a parsing error. */
  lemma PayloadReinterpretation<Item>(data: Data, decoders: Decoders<Item>)
    ensures decoders.auth(data).Some? ==> ProcessData(Some(data), decoders) == Error(decoders.auth(data).value)
    ensures decoders.auth(data).None? && decoders.request(data).Some? ==>
      ProcessData(Some(data), decoders) == Error(NetworkError("", decoders.errorsText(decoders.request(data).value.errors)))
    ensures ProcessData(Some(data), decoders) == Parsing <==> decoders.auth(data).None? && decoders.request(data).None?
  {
  }

  /** A missing payload reads as no bytes, which neither error shape decodes: a parsing error. */
  lemma MissingPayloadIsParsing<Item>(decoders: Decoders<Item>)
    requires RejectsEmpty(decoders)
    ensures ProcessError(T.Error(None), decoders) == Parsing
    ensures ProcessData(None, decoders) == ProcessData(Some([]), decoders)
  {
  }

  /** A 4xx response whose body decodes as the authorization shape surfaces, end to end, with that shape's description. */
  lemma AuthFailureDescribed<Item>(network: NetworkLayer, url: Url, decoders: Decoders<Item>, body: Data, auth: NetworkError)
    requires T.Get(network.service, url, network.authorization) == Failure(T.Error(Some(body)))
    requires decoders.auth(body) == Some(auth)
    ensures Get(network, url, decoders) == Failure(Error(auth))
    ensures Description(Get(network, url, decoders).error) == auth.errorDescription
  {
  }

  /** As written, `put` turns a payload that does not decode into a network error, not a parsing error. */
  lemma PutParseFailureIsNetwork<P, R>(network: NetworkLayer, url: Url, body: Data, decode: Data -> Option<P>,
                                       transform: P -> R, decoders: Decoders<P>, data: Data)
    requires T.Put(network.service, url, network.authorization, body) == Success(data)
    requires decode(data).None?
    ensures PutAsWritten(network, url, body, decode, transform, decoders) == Failure(Network)
    ensures PutAsWritten(network, url, body, decode, transform, decoders) != Failure(Parsing)
  {
  }

  /** `put` returns the transformed payload exactly when the transport succeeds and the payload decodes; a payload that does not decode is a parsing error; transport errors map as in `get`. */
  lemma PutOutcomes<P, R>(network: NetworkLayer, url: Url, body: Data, decode: Data -> Option<P>,
                          transform: P -> R, decoders: Decoders<P>)
    ensures var sent := T.Put(network.service, url, network.authorization, body);
      var r := Put(network, url, body, decode, transform, decoders);
      && (r.Success? <==> sent.Success? && decode(sent.value).Some?)
      && (r.Success? ==> r.value == transform(decode(sent.value).value))
      && (sent.Success? && decode(sent.value).None? ==> r == Failure(Parsing))
      && (sent.Failure? ==> r == Failure(ProcessError(sent.error, decoders)))
  {
  }

  /** Apart from an undecodable payload, the corrected `put` agrees with the one as written. */
  lemma PutCorrectionIsLocal<P, R>(network: NetworkLayer, url: Url, body: Data, decode: Data -> Option<P>,
                                   transform: P -> R, decoders: Decoders<P>)
    requires var sent := T.Put(network.service, url, network.authorization, body);
      sent.Failure? || decode(sent.value).Some?
    ensures Put(network, url, body, decode, transform, decoders) == PutAsWritten(network, url, body, decode, transform, decoders)
  {
  }
}
