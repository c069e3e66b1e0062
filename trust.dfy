/**
 * The session delegate's answer to a server-trust challenge: default
 * handling when no certificates are pinned; with pinned certificates, a
 * basic X.509 evaluation anchored to them, accepting a valid chain, falling
 * back to default handling on three tolerated failure codes and cancelling
 * otherwise.
 */
module TrustEvaluation {
  import opened Text

  /** A DER-encoded certificate. */
  datatype Certificate = Certificate(der: Data)

  /** The server's trust object, known only by identity. */
  datatype ServerTrust = ServerTrust(id: nat)

  /** The protection space of a challenge; it may carry no server trust. */
  datatype Challenge = Challenge(serverTrust: Option<ServerTrust>)

  datatype Disposition = UseCredential | PerformDefaultHandling | CancelAuthenticationChallenge

  /** What the completion handler is called with: a disposition and, for `UseCredential`, a credential for the trust. */
  datatype Decision = Decision(disposition: Disposition, credential: Option<ServerTrust>)

  /** The evaluation the pinned path asks for: basic X.509 policy, the pinned anchors, and whether they are the only anchors. */
  datatype TrustSettings = TrustSettings(trust: ServerTrust, basicX509: bool, anchors: seq<Certificate>, anchorsOnly: bool)

  /** `SecTrustEvaluateWithError`: valid, or invalid with the error's code when an error is reported. */
  datatype Evaluation = Valid | Invalid(errorCode: Option<int>)

  /** The Security framework calls the delegate makes; their outcomes are inputs of the model. */
  datatype Security = Security(
    setPolicies: ServerTrust -> int,
    setAnchorCertificates: (ServerTrust, seq<Certificate>) -> int,
    setAnchorCertificatesOnly: (ServerTrust, bool) -> int,
    evaluate: TrustSettings -> Evaluation)

  const NoErr: int := 0
  const ErrSecCertificateExpired: int := -67818
  const ErrSecHostNameMismatch: int := -67602
  const ErrSecNotTrusted: int := -67843

  /** The failure codes after which pinning falls back to default handling. */
  predicate Tolerated(code: int) {
    code == ErrSecCertificateExpired || code == ErrSecHostNameMismatch || code == ErrSecNotTrusted
  }

  /** `defaultHandler`: use a credential for the server trust, or default handling when there is none. */
  function DefaultHandler(challenge: Challenge): (d: Decision)
    ensures d.disposition == UseCredential <==> challenge.serverTrust.Some?
    ensures d.disposition == PerformDefaultHandling <==> challenge.serverTrust.None?
    ensures d.credential == challenge.serverTrust
  {
    match challenge.serverTrust
    case None => Decision(PerformDefaultHandling, None)
    case Some(t) => Decision(UseCredential, Some(t))
  }

  /** All three setup calls on the trust object returned `noErr`. */
  predicate SetupSucceeds(certificates: seq<Certificate>, trust: ServerTrust, sec: Security) {
    sec.setPolicies(trust) == NoErr
    && sec.setAnchorCertificates(trust, certificates) == NoErr
    && sec.setAnchorCertificatesOnly(trust, false) == NoErr
  }

  /** The settings the pinned path evaluates: basic X.509, the pinned certificates as anchors, system anchors still trusted. */
  function PinnedSettings(certificates: seq<Certificate>, trust: ServerTrust): (s: TrustSettings)
    ensures s.basicX509 && !s.anchorsOnly && s.anchors == certificates && s.trust == trust
  {
    TrustSettings(trust, true, certificates, false)
  }

  /** The settings the pinned path has evaluated, if it got that far. */
  function EvaluatedSettings(certificates: seq<Certificate>, challenge: Challenge, sec: Security): (r: Option<TrustSettings>)
    ensures r.Some? <==> challenge.serverTrust.Some? && SetupSucceeds(certificates, challenge.serverTrust.value, sec)
    ensures r.Some? ==> r.value == PinnedSettings(certificates, challenge.serverTrust.value)
  {
    if challenge.serverTrust.Some? && SetupSucceeds(certificates, challenge.serverTrust.value, sec)
    then Some(PinnedSettings(certificates, challenge.serverTrust.value))
    else None
  }

  /** `customHandler`. */
  function CustomHandler(certificates: seq<Certificate>, challenge: Challenge, sec: Security): Decision {
    match EvaluatedSettings(certificates, challenge, sec)
    case None => Decision(CancelAuthenticationChallenge, None)
    case Some(settings) =>
      match sec.evaluate(settings)
      case Valid => Decision(UseCredential, Some(settings.trust))
      case Invalid(code) =>
        if code.Some? && Tolerated(code.value) then Decision(PerformDefaultHandling, None)
        else Decision(CancelAuthenticationChallenge, None)
  }

  /** `urlSession(_:didReceive:completionHandler:)`: default handling without pinned certificates, the pinned path with them. */
  function HandleChallenge(certificates: Option<seq<Certificate>>, challenge: Challenge, sec: Security): Decision {
    if certificates.None? then DefaultHandler(challenge) else CustomHandler(certificates.value, challenge, sec)
  }

  /** Without pinned certificates the Security framework is not consulted: the answer is the default handler's. */
  lemma UnpinnedIsDefault(challenge: Challenge, sec: Security, other: Security)
    ensures HandleChallenge(None, challenge, sec) == HandleChallenge(None, challenge, other) == DefaultHandler(challenge)
  {
  }

  /** Pinned: the credential is used exactly when there is a trust, setup succeeds and the evaluation is valid; the credential is for that trust. */
  lemma PinnedAccepts(certificates: seq<Certificate>, challenge: Challenge, sec: Security)
    ensures var d := HandleChallenge(Some(certificates), challenge, sec);
      && (d.disposition == UseCredential <==>
            challenge.serverTrust.Some? && SetupSucceeds(certificates, challenge.serverTrust.value, sec)
            && sec.evaluate(PinnedSettings(certificates, challenge.serverTrust.value)) == Valid)
      && (d.disposition == UseCredential ==> d.credential == challenge.serverTrust)
      && (d.disposition != UseCredential ==> d.credential.None?)
  {
  }

  /** Pinned: default handling happens exactly when the evaluation fails with one of the three tolerated codes. */
  lemma PinnedFallsBack(certificates: seq<Certificate>, challenge: Challenge, sec: Security)
    ensures var d := HandleChallenge(Some(certificates), challenge, sec);
      d.disposition == PerformDefaultHandling <==>
        challenge.serverTrust.Some? && SetupSucceeds(certificates, challenge.serverTrust.value, sec)
        && var e := sec.evaluate(PinnedSettings(certificates, challenge.serverTrust.value));
           e.Invalid? && e.errorCode.Some? && Tolerated(e.errorCode.value)
  {
  }

  /** Pinned: a missing trust, a failed setup call, an untolerated code or an invalid result without an error cancels. */
  lemma PinnedCancels(certificates: seq<Certificate>, challenge: Challenge, sec: Security)
    ensures var d := HandleChallenge(Some(certificates), challenge, sec);
      d.disposition == CancelAuthenticationChallenge <==>
        challenge.serverTrust.None?
        || !SetupSucceeds(certificates, challenge.serverTrust.value, sec)
        || var e := sec.evaluate(PinnedSettings(certificates, challenge.serverTrust.value));
           e.Invalid? && (e.errorCode.None? || !Tolerated(e.errorCode.value))
  {
  }

  /** An empty pinned list still takes the pinned path: a failed setup call cancels where the unpinned delegate would use the credential. */
  lemma EmptyPinnedListIsNotDefault()
    ensures var challenge := Challenge(Some(ServerTrust(0)));
      var sec := Security(t => 1, (t, c) => NoErr, (t, b) => NoErr, s => Valid);
      && HandleChallenge(Some([]), challenge, sec).disposition == CancelAuthenticationChallenge
      && HandleChallenge(None, challenge, sec).disposition == UseCredential
  {
  }
}
