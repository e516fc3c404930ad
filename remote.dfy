/**
 * The order service's calls into the user service. The network is not
 * modelled: what a `requests.get` produced is an input, either an HTTP
 * response (its status code, and its body decoded as JSON when `.json()`
 * would succeed) or a transport-level exception (timeout, refused
 * connection, DNS failure).
 */
module Remote {
  import opened Wrappers
  import opened JsonValues

  datatype RemoteOutcome =
    | Response(status: int, body: Option<Json>)
    | TransportError

  /** The pair `verify_user_exists` returns: `(True, payload)` or `(False, None)`. */
  datatype Verification = Verified(payload: Json) | Unverified

  /**
   * `verify_user_exists`: only a 200 answer whose body decodes counts as a
   * confirmed user; any other status, an undecodable body and every transport
   * failure fall into the same failure bucket.
   */
  function VerifyUser(outcome: RemoteOutcome): (v: Verification)
    ensures v.Verified? <==> outcome.Response? && outcome.status == 200 && outcome.body.Some?
    ensures v.Verified? ==> v.payload == outcome.body.value
    ensures outcome.TransportError? ==> v == Unverified
    ensures outcome.Response? && outcome.status != 200 ==> v == Unverified
  {
    match outcome
    case Response(status, body) =>
      if status == 200 then (match body case Some(payload) => Verified(payload) case None => Unverified)
      else Unverified
    case TransportError => Unverified
  }

  /** The three values the order service reports for its dependency. */
  datatype DependencyStatus = Healthy | Unhealthy | Unreachable {
    function Label(): string {
      match this
      case Healthy => "healthy"
      case Unhealthy => "unhealthy"
      case Unreachable => "unreachable"
    }
  }

  /** The liveness probe of `health_check`: the body of the answer is never read. */
  function ProbeStatus(probe: RemoteOutcome): (d: DependencyStatus)
    ensures d == Healthy <==> probe.Response? && probe.status == 200
    ensures d == Unhealthy <==> probe.Response? && probe.status != 200
    ensures d == Unreachable <==> probe.TransportError?
  {
    match probe
    case Response(status, _) => if status == 200 then Healthy else Unhealthy
    case TransportError => Unreachable
  }

  /**
   * A confirmed user implies that the same answer would have counted as a
   * healthy probe, but not the other way round: a 200 whose body does not
   * decode is healthy for the probe and a failure for verification.
   */
  lemma VerifiedImpliesHealthy(outcome: RemoteOutcome)
    ensures VerifyUser(outcome).Verified? ==> ProbeStatus(outcome) == Healthy
    ensures ProbeStatus(Response(200, None)) == Healthy && VerifyUser(Response(200, None)) == Unverified
  {
  }
}
