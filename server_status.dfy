/**
 * The client's probe of the inference server: one GET of `/health`, aborted after
 * three seconds. The outcome of the request is a parameter; every failure, whether
 * it is a network error, the timeout, a non-2xx status or an unreadable body,
 * counts as "not available".
 */
module ServerStatus {
  import opened Wrappers

  const HealthTimeoutMs := 3000

  /** The JSON body as far as the probe reads it: `status` when it is a string, else None. */
  datatype HealthBody = Unparsable | NullBody | Parsed(status: Option<string>)

  datatype FetchOutcome =
    | NetworkError
    | TimedOut
    | Responded(ok: bool, body: HealthBody)

  /** The statuses the probe accepts. */
  predicate Available(status: Option<string>) {
    status == Some("healthy") || status == Some("degraded")
  }

  /**
   * What the probe sees of an attempt that settles after `elapsedMs`:
   * `AbortSignal.timeout(3000)` wins from 3000 ms on, whatever the server sent.
   */
  function Observed(elapsedMs: nat, arrival: FetchOutcome): (o: FetchOutcome)
    ensures elapsedMs >= HealthTimeoutMs ==> o == TimedOut
    ensures elapsedMs < HealthTimeoutMs ==> o == arrival
  {
    if elapsedMs >= HealthTimeoutMs then TimedOut else arrival
  }

  function CheckServerStatus(outcome: FetchOutcome): (up: bool)
    ensures up ==> outcome.Responded? && outcome.ok
    ensures outcome.Responded? && outcome.ok && outcome.body.Parsed? ==> (up <==> Available(outcome.body.status))
    ensures outcome.Responded? && (outcome.body.Unparsable? || outcome.body.NullBody?) ==> !up
  {
    match outcome
    case NetworkError => false
    case TimedOut => false
    case Responded(ok, body) =>
      if !ok then false
      else
        match body
        case Unparsable => false
        case NullBody => false
        case Parsed(status) => Available(status)
  }

  /** A server that answers after the timeout is reported unavailable, even when healthy. */
  lemma SlowServerIsUnavailable(elapsedMs: nat, arrival: FetchOutcome)
    requires elapsedMs >= HealthTimeoutMs
    ensures !CheckServerStatus(Observed(elapsedMs, arrival))
  {
  }

  /** A healthy or degraded reply in time is reported available. */
  lemma TimelyHealthyReplyIsAvailable(elapsedMs: nat, status: string)
    requires elapsedMs < HealthTimeoutMs
    requires status == "healthy" || status == "degraded"
    ensures CheckServerStatus(Observed(elapsedMs, Responded(true, Parsed(Some(status)))))
  {
  }
}
