/** What the provider may answer, and what the proxy makes of it. */
module Replies {
  import opened Common
  import opened Ledger

  /** `Chat(stream, polls)`: whether the client streams, and whether the profile's
      accepted (202) jobs are polled; media jobs always are. */
  datatype Mode = Chat(stream: bool, polls: bool) | Media

  datatype Body = Good(bytes: nat) | TooLarge | BrokenBody | Invalid(bytes: nat)

  /** Polling goes on while the job is accepted and hands over a success only. */
  type Polled = status: nat | 200 <= status <= 299 && status != 202 witness 200

  /** What one call to the provider brings; `polled` is the status after polling,
      `None` when polling failed; `primed` whether a first data frame came. */
  datatype Provider =
    | NoCredential
    | SendFailed
    | Replied(status: nat, polled: Option<Polled>, eventStream: bool, primed: bool, body: Body)

  /** What the surroundings answer during one attempt: the provider, the routing
      policy, and the eligible keys in slot order. */
  datatype Turn = Turn(provider: Provider, retryable: set<nat>, eligible: seq<KeyId>)

  datatype Response = Ok(status: nat, bytes: nat)
                    | Streaming(key: KeyId)
                    | UpstreamError(cause: string)
                    | Rejection(status: nat)
                    | RateLimited
                    | NoEligible
                    | LedgerUnavailable
                    | RecordUnavailable
                    | Gone

  /** The answers that tell the outcome of the request. */
  predicate Definite(response: Response) {
    response.Ok? || response.UpstreamError? || response.Rejection? || response.RateLimited? || response.NoEligible?
  }

  /** What the loop does with a provider's reply. `health`: the key's health is updated
      first; `guarded`: the stream's guard owns the request meanwhile. */
  datatype Verdict =
    | Retry(end: Terminal, failover: bool, health: bool, guarded: bool)
    | Stop(end: Terminal, bytesOut: Option<nat>, request: Terminal, response: Response, health: bool)
    | Accepted(status: nat, bytes: nat)
    | StreamOn

  /** `retryable_error_class`. */
  function RetryClass(status: nat): ErrorClass {
    if status in {401, 403} then OtherClass("upstream_auth_error")
    else if status == 402 then OtherClass("upstream_quota_error")
    else if status == 408 then OtherClass("upstream_timeout")
    else if status == 429 then UpstreamRateLimited
    else if 500 <= status <= 599 then OtherClass("upstream_server_error")
    else OtherClass("upstream_failure")
  }

  function Failure(status: Option<nat>, cause: string): Terminal {
    Terminal(Failed, status, Some(OtherClass(cause)))
  }

  function BadGateway(status: nat, bytes: Option<nat>, cause: string, health: bool): Verdict {
    Stop(Failure(Some(status), cause), bytes, Failure(Some(502), cause), UpstreamError(cause), health)
  }

  function JudgeBody(status: nat, body: Body): Verdict {
    match body
    case TooLarge => BadGateway(status, None, "upstream_response_too_large", true)
    case BrokenBody => Retry(Failure(Some(status), "upstream_body_error"), false, true, false)
    case Invalid(bytes) => BadGateway(status, Some(bytes), "upstream_protocol_error", true)
    case Good(bytes) => Accepted(status, bytes)
  }

  function Judge(mode: Mode, turn: Turn): Verdict {
    match turn.provider
    case NoCredential => Retry(Failure(None, "credential_unavailable"), false, false, false)
    case SendFailed => Retry(Failure(None, "upstream_transport_error"), false, true, false)
    case Replied(status, polled, eventStream, primed, body) =>
      if status == 202 && mode.Chat? && (mode.stream || !mode.polls) then
        BadGateway(202, None, "upstream_protocol_error", false)
      else if status == 202 then
        if polled.None? then BadGateway(202, None, "upstream_poll_error", true) else JudgeBody(polled.value, body)
      else if 200 <= status <= 299 then
        if mode.Chat? && mode.stream then
          if !eventStream then Retry(Failure(Some(status), "unexpected_stream_content_type"), false, true, false)
          else if !primed then Retry(Failure(Some(status), "stream_prime_error"), false, true, true)
          else StreamOn
        else JudgeBody(status, body)
      else if status in {401, 403} || status in turn.retryable then
        Retry(Terminal(Failed, Some(status), Some(RetryClass(status))), true, true, false)
      else
        Stop(Terminal(Failed, Some(status), Some(RequestRejected)), None,
             Terminal(Rejected, Some(status), Some(RequestRejected)), Rejection(status), false)
  }

  const LIMITED := Terminal(Failed, Some(429), Some(UpstreamRateLimited))
  const ALL_LIMITED := Terminal(Failed, Some(429), Some(UpstreamRateLimited))
  const NONE_ELIGIBLE := Terminal(Failed, Some(503), Some(NoEligibleUpstream))

  predicate Is429(provider: Provider) {
    provider.Replied? && provider.status == 429
  }

  /** Only a retryable 429 passes through the failover branch with the flag kept. */
  lemma LimitedExactlyWhen429(mode: Mode, turn: Turn)
    requires Judge(mode, turn).Retry?
    ensures Judge(mode, turn).failover && Is429(turn.provider) <==> Judge(mode, turn).end == LIMITED
  {}

  // ---- What the replies mean -----------------------------------------------------

  predicate Success(p: Provider) {
    p.Replied? && 200 <= p.status <= 299
  }

  /** An asynchronous job was accepted. */
  predicate Job(p: Provider) {
    p.Replied? && p.status == 202
  }

  predicate WantsStream(mode: Mode) {
    mode.Chat? && mode.stream
  }

  predicate Polls(mode: Mode) {
    mode.Media? || (mode.polls && !mode.stream)
  }

  /** The reply ends in a body that is read whole. */
  predicate HasBody(mode: Mode, p: Provider) {
    Success(p) && if Job(p) then Polls(mode) && p.polled.Some? else !WantsStream(mode)
  }

  /** The reply is to be relayed as a stream. */
  predicate HasStream(mode: Mode, p: Provider) {
    Success(p) && !Job(p) && WantsStream(mode)
  }

  function BodyStatus(p: Provider): nat
    requires p.Replied? && (p.status == 202 ==> p.polled.Some?)
  {
    if p.status == 202 then p.polled.value else p.status
  }

  /** A status that is the key's fault or the provider's, by the routing policy. */
  predicate Retryable(turn: Turn) {
    && turn.provider.Replied? && !Success(turn.provider)
    && (turn.provider.status == 401 || turn.provider.status == 403 || turn.provider.status in turn.retryable)
  }

  predicate TurnedDown(turn: Turn) {
    turn.provider.Replied? && !Success(turn.provider) && !Retryable(turn)
  }

  /** The replies after which another key may be tried: nothing of an answer has come. */
  predicate AllowsAnother(mode: Mode, turn: Turn) {
    var p := turn.provider;
    || p.NoCredential? || p.SendFailed?
    || Retryable(turn)
    || (HasStream(mode, p) && !(p.eventStream && p.primed))
    || (HasBody(mode, p) && p.body.BrokenBody?)
  }

  /** The answer a reply earns where no other key follows and every await goes well. */
  predicate Earns(mode: Mode, turn: Turn, key: KeyId, response: Response) {
    var p := turn.provider;
    && (TurnedDown(turn) ==> response == Rejection(p.status))
    && (HasStream(mode, p) && p.eventStream && p.primed ==> response == Streaming(key))
    && (HasBody(mode, p) && p.body.Good? ==> response == Ok(BodyStatus(p), p.body.bytes))
    && (HasBody(mode, p) && p.body.TooLarge? ==> response == UpstreamError("upstream_response_too_large"))
    && (HasBody(mode, p) && p.body.Invalid? ==> response == UpstreamError("upstream_protocol_error"))
    && (Job(p) && !Polls(mode) ==> response == UpstreamError("upstream_protocol_error"))
    && (Job(p) && Polls(mode) && p.polled.None? ==> response == UpstreamError("upstream_poll_error"))
    && (AllowsAnother(mode, turn) ==> response.RateLimited? || response.NoEligible?)
  }

  /** The class under which the ledger keeps a retryable status. */
  predicate Blames(status: nat, error: ErrorClass) {
    && (status == 401 || status == 403 ==> error == OtherClass("upstream_auth_error"))
    && (status == 402 ==> error == OtherClass("upstream_quota_error"))
    && (status == 408 ==> error == OtherClass("upstream_timeout"))
    && (status == 429 <==> error == UpstreamRateLimited)
    && (500 <= status < 600 ==> error == OtherClass("upstream_server_error"))
    && (status !in {401, 402, 403, 408, 429} && !(500 <= status < 600) ==> error == OtherClass("upstream_failure"))
  }

  /** How the row of the attempt ends after a reply that is not streamed: its terminal, and
      the bytes where a body was read to its end. */
  predicate EndedAs(mode: Mode, turn: Turn, end: Terminal, bytesOut: Option<nat>) {
    var p := turn.provider;
    && bytesOut == (if HasBody(mode, p) && (p.body.Good? || p.body.Invalid?) then Some(p.body.bytes) else None)
    && (p.NoCredential? ==> end == Failure(None, "credential_unavailable"))
    && (p.SendFailed? ==> end == Failure(None, "upstream_transport_error"))
    && (Retryable(turn) ==>
          end.outcome.Failed? && end.status == Some(p.status) && end.error.Some? && Blames(p.status, end.error.value))
    && (TurnedDown(turn) ==> end == Terminal(Failed, Some(p.status), Some(RequestRejected)))
    && (HasStream(mode, p) && !p.eventStream ==> end == Failure(Some(p.status), "unexpected_stream_content_type"))
    && (HasStream(mode, p) && p.eventStream && !p.primed ==> end == Failure(Some(p.status), "stream_prime_error"))
    && (HasBody(mode, p) ==>
          match p.body
          case Good(_) => end == Terminal(Succeeded, Some(BodyStatus(p)), None)
          case TooLarge => end == Failure(Some(BodyStatus(p)), "upstream_response_too_large")
          case BrokenBody => end == Failure(Some(BodyStatus(p)), "upstream_body_error")
          case Invalid(_) => end == Failure(Some(BodyStatus(p)), "upstream_protocol_error"))
    && (Job(p) && !Polls(mode) ==> end == Failure(Some(202), "upstream_protocol_error"))
    && (Job(p) && Polls(mode) && p.polled.None? ==> end == Failure(Some(202), "upstream_poll_error"))
  }

  /** The loop goes on exactly after the replies that allow it. */
  lemma JudgedAsMeant(mode: Mode, turn: Turn)
    ensures Judge(mode, turn).Retry? <==> AllowsAnother(mode, turn)
    ensures Judge(mode, turn).StreamOn? <==>
              HasStream(mode, turn.provider) && turn.provider.eventStream && turn.provider.primed
    ensures match Judge(mode, turn)
            case Retry(end, _, _, _) => EndedAs(mode, turn, end, None)
            case Stop(end, bytesOut, _, response, _) =>
              EndedAs(mode, turn, end, bytesOut) && forall key :: Earns(mode, turn, key, response)
            case Accepted(status, bytes) =>
              && EndedAs(mode, turn, Terminal(Succeeded, Some(status), None), Some(bytes))
              && forall key :: Earns(mode, turn, key, Ok(status, bytes))
            case StreamOn => forall key :: Earns(mode, turn, key, Streaming(key))
  {}

  /** A job the provider accepted goes to another key exactly when it was polled to an end
      and its body then broke off. */
  lemma AcceptedJobAllowsAnother(mode: Mode, turn: Turn)
    requires Job(turn.provider)
    ensures AllowsAnother(mode, turn) <==> Polls(mode) && turn.provider.polled.Some? && turn.provider.body.BrokenBody?
  {}
}
