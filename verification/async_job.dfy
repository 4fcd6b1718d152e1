/**
 * What a call does after its first decode. A call with an async branch, in
 * asynchronous mode, waits for the server-side job named by the response's
 * job ID and folds the job's result back into the response; a call without
 * one (`Sync`) returns the first decode.
 *
 * The job poll (`GetAsyncJobResult`), the result unwrapping (`getRawValue`)
 * and the JSON decode are inputs: the poll as its outcome for the job ID and
 * timeout, the other two as functions that may fail.
 */
module AsyncJob {
  import opened Wrappers

  /** Raw JSON text of a reply or of a job result. */
  type Payload = string

  /** A decoded response: the job ID and the other fields by JSON name. */
  datatype Response = Response(jobId: string, fields: map<string, string>)

  /** The zero value the first decode fills in. */
  const Zero: Response := Response("", map[])

  /** The client-wide settings the calls read. */
  datatype Config = Config(async: bool, timeout: int)

  /** The three outcomes of `GetAsyncJobResult`. */
  datatype Poll =
    | PollFailed(err: string)        // the job failed or a poll could not be made
    | StillRunning(warning: string)  // the timeout elapsed before the job finished
    | Finished(result: Payload)      // the job's result payload

  /** How a call treats its job. */
  datatype Completion =
    | Sync           // no async branch: the first decode is the answer
    | AwaitUnwrap    // poll, unwrap the result with `getRawValue`, then decode it
    | AwaitRaw       // poll, then decode the result as it is

  datatype CallError =
    | RequestFailed(msg: string)
    | DecodeFailed(msg: string)
    | JobFailed(msg: string)
    | UnwrapFailed(msg: string)

  /** Go's `(*Response, error)` pair, as the three combinations the calls produce. */
  datatype CallResult =
    | Done(resp: Response)                     // response, nil error
    | Warned(resp: Response, warning: string)  // response and the timeout warning
    | Failed(err: CallError)                   // nil response, error

  /** Whether the Go call returns a non-nil response pointer. */
  predicate HasResponse(r: CallResult) {
    r.Done? || r.Warned?
  }

  /** Whether the Go call returns a non-nil error. */
  predicate HasError(r: CallResult) {
    r.Warned? || r.Failed?
  }

  /** The decode as an overlay: `json.Unmarshal(b, &r)` onto an existing response. */
  type Overlay = (Response, Payload) -> Result<Response, string>

  /** The branch after the first decode produced `r`. */
  function Complete(cfg: Config, c: Completion, r: Response, poll: Poll,
                    unwrap: Payload -> Result<Payload, string>, overlay: Overlay): (out: CallResult)
    ensures c.Sync? || !cfg.async ==> out == Done(r)
    ensures out.Warned? <==> !c.Sync? && cfg.async && poll.StillRunning?
    ensures out.Warned? ==> out.resp == r && out.warning == poll.warning
    ensures out.Failed? ==> !c.Sync? && cfg.async
    ensures !c.Sync? && cfg.async && poll.PollFailed? ==> out == Failed(JobFailed(poll.err))
    ensures out.Done? && out.resp != r ==> !c.Sync? && cfg.async && poll.Finished?
    ensures c.AwaitRaw? && cfg.async && poll.Finished? ==>
      (out.Done? <==> overlay(r, poll.result).Success?) &&
      (out.Done? ==> out.resp == overlay(r, poll.result).value)
    ensures c.AwaitUnwrap? && cfg.async && poll.Finished? && unwrap(poll.result).Failure? ==>
      out == Failed(UnwrapFailed(unwrap(poll.result).error))
    ensures c.AwaitUnwrap? && cfg.async && poll.Finished? && unwrap(poll.result).Success? ==>
      (out.Done? <==> overlay(r, unwrap(poll.result).value).Success?) &&
      (out.Done? ==> out.resp == overlay(r, unwrap(poll.result).value).value)
  {
    if c.Sync? || !cfg.async then Done(r)
    else match poll
      case PollFailed(e) => Failed(JobFailed(e))
      case StillRunning(w) => Warned(r, w)
      case Finished(b) =>
        var unwrapped := if c.AwaitUnwrap? then unwrap(b) else Success(b);
        match unwrapped
        case Failure(e) => Failed(UnwrapFailed(e))
        case Success(b') =>
          match overlay(r, b')
          case Failure(e) => Failed(DecodeFailed(e))
          case Success(r') => Done(r')
  }

  /**
   * A whole mutating call given the outcome of its request: a request or first
   * decode failure ends it; otherwise the job is awaited with the decoded job ID
   * and the configured timeout, `poll` giving the outcome for that pair.
   */
  function Call(cfg: Config, c: Completion, request: Result<Payload, string>,
                poll: (string, int) -> Poll,
                unwrap: Payload -> Result<Payload, string>, overlay: Overlay): (out: CallResult)
    ensures request.Failure? ==> out == Failed(RequestFailed(request.error))
    ensures request.Success? && overlay(Zero, request.value).Failure? ==>
      out == Failed(DecodeFailed(overlay(Zero, request.value).error))
    ensures request.Success? && overlay(Zero, request.value).Success? ==>
      var r := overlay(Zero, request.value).value;
      out == Complete(cfg, c, r, poll(r.jobId, cfg.timeout), unwrap, overlay)
  {
    match request
    case Failure(e) => Failed(RequestFailed(e))
    case Success(raw) =>
      match overlay(Zero, raw)
      case Failure(e) => Failed(DecodeFailed(e))
      case Success(r) => Complete(cfg, c, r, poll(r.jobId, cfg.timeout), unwrap, overlay)
  }

  /**
   * The Go pair a call returns is never (nil, nil): a response, an error, or
   * both, and both only for the timeout warning of a polling call in
   * asynchronous mode.
   */
  lemma NeverNilNil(cfg: Config, c: Completion, request: Result<Payload, string>,
                    poll: (string, int) -> Poll,
                    unwrap: Payload -> Result<Payload, string>, overlay: Overlay)
    ensures var r := Call(cfg, c, request, poll, unwrap, overlay);
      && (HasResponse(r) || HasError(r))
      && (HasResponse(r) && HasError(r) <==> r.Warned?)
      && (r.Warned? ==> cfg.async && !c.Sync?)
  {
  }

  /** With asynchronous mode off, every call behaves as a synchronous one. */
  lemma AsyncOffIsSync(cfg: Config, c: Completion, request: Result<Payload, string>,
                       poll: (string, int) -> Poll,
                       unwrap: Payload -> Result<Payload, string>, overlay: Overlay)
    requires !cfg.async
    ensures Call(cfg, c, request, poll, unwrap, overlay) == Call(cfg, Sync, request, poll, unwrap, overlay)
  {
  }

  /** A synchronous call never polls: its outcome does not depend on the job at all. */
  lemma SyncIgnoresJob(cfg: Config, request: Result<Payload, string>,
                       poll1: (string, int) -> Poll, poll2: (string, int) -> Poll,
                       unwrap1: Payload -> Result<Payload, string>, unwrap2: Payload -> Result<Payload, string>,
                       overlay: Overlay)
    ensures Call(cfg, Sync, request, poll1, unwrap1, overlay) == Call(cfg, Sync, request, poll2, unwrap2, overlay)
    ensures !Call(cfg, Sync, request, poll1, unwrap1, overlay).Warned?
  {
  }

  /** Decoding the raw result is unwrapping with a `getRawValue` that changes nothing. */
  lemma RawIsIdentityUnwrap(cfg: Config, r: Response, poll: Poll, overlay: Overlay)
    ensures Complete(cfg, AwaitRaw, r, poll, b => Success(b), overlay) ==
            Complete(cfg, AwaitUnwrap, r, poll, b => Success(b), overlay)
  {
  }

  /** A call that does not unwrap gives the same outcome whatever `getRawValue` would do. */
  lemma RawIgnoresUnwrap(cfg: Config, r: Response, poll: Poll,
                         unwrap1: Payload -> Result<Payload, string>, unwrap2: Payload -> Result<Payload, string>,
                         overlay: Overlay)
    ensures Complete(cfg, AwaitRaw, r, poll, unwrap1, overlay) == Complete(cfg, AwaitRaw, r, poll, unwrap2, overlay)
  {
  }

  /**
   * The timeout warning hands back the pre-poll response untouched, so the job
   * ID the caller needs to poll again is the one the server first returned.
   */
  lemma WarningKeepsJobId(cfg: Config, c: Completion, request: Result<Payload, string>,
                          poll: (string, int) -> Poll,
                          unwrap: Payload -> Result<Payload, string>, overlay: Overlay)
    requires Call(cfg, c, request, poll, unwrap, overlay).Warned?
    ensures request.Success? && overlay(Zero, request.value).Success?
    ensures Call(cfg, c, request, poll, unwrap, overlay).resp == overlay(Zero, request.value).value
    ensures var r := overlay(Zero, request.value).value;
      poll(r.jobId, cfg.timeout).StillRunning?
  {
  }
}
