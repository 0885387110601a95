/**
 * The status-code classifier behind REST.validate(): a stored HTTP status
 * code is either accepted or turned into one of six exception kinds,
 * according to a configurable success range and four configurable codes.
 */
module StatusCodes {
  import opened Wrappers

  /** The session's classification settings: the half-open success range
      [successStart, successEnd) and the four special codes. */
  datatype CodeConfig = CodeConfig(
    successStart: int,
    successEnd: int,
    permissionDenied: int,
    notFound: int,
    rateLimit: int,
    serverError: int)

  /** The values a new session starts with. */
  const Defaults: CodeConfig := CodeConfig(200, 299, 403, 404, 429, 500)

  /** What validate() does: return normally (Passed), or throw one of the
      exception classes. The classes discard their message, so the kinds
      carry no payload. */
  datatype Outcome =
    | Passed
    | PermissionDenied
    | NotFound
    | RateLimit
    | InternalServer
    | Retryable
    | NonRetryable

  predicate InSuccessRange(cfg: CodeConfig, code: int)
  {
    cfg.successStart <= code < cfg.successEnd
  }

  /** The decision chain of validate(), tested top to bottom. */
  function Classify(cfg: CodeConfig, code: int): (o: Outcome)
    ensures o == Passed <==> InSuccessRange(cfg, code)
    ensures o == Retryable ==> 400 <= code < 500
  {
    if InSuccessRange(cfg, code) then Passed
    else if code == cfg.permissionDenied then PermissionDenied
    else if code == cfg.notFound then NotFound
    else if code == cfg.rateLimit then RateLimit
    else if code == cfg.serverError then InternalServer
    else if 400 <= code < 500 then Retryable
    else NonRetryable
  }

  // ---------------------------------------------------------------------
  // An independent reading of the chain: each outcome has its own guard,
  // read in isolation, and a rank; the chosen outcome is the one of least
  // rank whose guard holds.

  /** The condition under which the rule for `o` fires, ignoring all others. */
  predicate Guard(cfg: CodeConfig, code: int, o: Outcome)
  {
    match o
    case Passed => InSuccessRange(cfg, code)
    case PermissionDenied => code == cfg.permissionDenied
    case NotFound => code == cfg.notFound
    case RateLimit => code == cfg.rateLimit
    case InternalServer => code == cfg.serverError
    case Retryable => 400 <= code < 500
    case NonRetryable => true
  }

  /** The position of each rule in the chain. */
  function Rank(o: Outcome): nat
  {
    match o
    case Passed => 0
    case PermissionDenied => 1
    case NotFound => 2
    case RateLimit => 3
    case InternalServer => 4
    case Retryable => 5
    case NonRetryable => 6
  }

  /** Every code gets exactly one outcome, and it is the first rule in the
      chain whose guard holds: a code may satisfy several guards (success
      range and a special code, or two special codes set equal), and then
      the earlier rule wins. */
  lemma ClassifyIsFirstMatchingRule(cfg: CodeConfig, code: int, o: Outcome)
    ensures Classify(cfg, code) == o <==>
      Guard(cfg, code, o) && forall e :: Rank(e) < Rank(o) ==> !Guard(cfg, code, e)
  {
    var c := Classify(cfg, code);
    // The chosen outcome's guard holds and no earlier guard does.
    assert Guard(cfg, code, c);
    assert forall e :: Rank(e) < Rank(c) ==> !Guard(cfg, code, e) by {
      forall e | Rank(e) < Rank(c) ensures !Guard(cfg, code, e) {
        match e
        case Passed =>
        case PermissionDenied =>
        case NotFound =>
        case RateLimit =>
        case InternalServer =>
        case Retryable =>
        case NonRetryable =>
      }
    }
    // Any other outcome with a holding guard ranks after c, so c outranks it.
    if c != o && Guard(cfg, code, o) {
      assert Rank(c) < Rank(o);
    }
  }

  /** The success range is tested before any special code: a special code
      inside the range is accepted. */
  lemma SuccessRangeWins(cfg: CodeConfig, code: int)
    requires InSuccessRange(cfg, code)
    ensures Classify(cfg, code) == Passed
  {
    ClassifyIsFirstMatchingRule(cfg, code, Passed);
  }

  /** Outside the success range the special codes are tested in the fixed
      order permissionDenied, notFound, rateLimit, serverError; the
      fallback splits 4xx (retryable) from everything else. */
  lemma SpecialCodeOrder(cfg: CodeConfig, code: int)
    requires !InSuccessRange(cfg, code)
    ensures code == cfg.permissionDenied ==> Classify(cfg, code) == PermissionDenied
    ensures code != cfg.permissionDenied && code == cfg.notFound ==> Classify(cfg, code) == NotFound
    ensures Classify(cfg, code) == Retryable <==>
      code !in {cfg.permissionDenied, cfg.notFound, cfg.rateLimit, cfg.serverError} && 400 <= code < 500
    ensures Classify(cfg, code) == NonRetryable <==>
      code !in {cfg.permissionDenied, cfg.notFound, cfg.rateLimit, cfg.serverError} && !(400 <= code < 500)
  {
  }

  /** With the default settings: 2xx below 299 passes; 299 is outside the
      half-open range and falls through to NonRetryable; 403, 404, 429 and
      500 get their own kinds; 418 is retryable; 501 is not. */
  lemma DefaultClassification()
    ensures Classify(Defaults, 200) == Passed && Classify(Defaults, 204) == Passed
    ensures Classify(Defaults, 298) == Passed && Classify(Defaults, 299) == NonRetryable
    ensures Classify(Defaults, 403) == PermissionDenied
    ensures Classify(Defaults, 404) == NotFound
    ensures Classify(Defaults, 429) == RateLimit
    ensures Classify(Defaults, 500) == InternalServer
    ensures Classify(Defaults, 418) == Retryable
    ensures Classify(Defaults, 501) == NonRetryable
    ensures Classify(Defaults, 302) == NonRetryable
  {
  }

  // ---------------------------------------------------------------------
  // validate() as written. Every throwing branch first builds its message
  // with `new String(responseBody)`; the stored body is a Java null until a
  // synchronous call (execHttpCall) has run, and the paged and single-page
  // asynchronous fetches never set it. `new String(null)` throws a
  // NullPointerException, so the typed exception is lost.

  /** validate() on the stored code and body exactly as written: Some(kind)
      for the outcome it reports, None for the NullPointerException raised
      while building the message. */
  function ValidateAsWritten(cfg: CodeConfig, code: int, body: Option<seq<bv8>>): (r: Option<Outcome>)
    ensures r.None? <==> !InSuccessRange(cfg, code) && body.None?
    ensures r.Some? ==> r.value == Classify(cfg, code)
  {
    if InSuccessRange(cfg, code) then Some(Passed)
    else if body.None? then None
    else if code == cfg.permissionDenied then Some(PermissionDenied)
    else if code == cfg.notFound then Some(NotFound)
    else if code == cfg.rateLimit then Some(RateLimit)
    else if code == cfg.serverError then Some(InternalServer)
    else if 400 <= code < 500 then Some(Retryable)
    else Some(NonRetryable)
  }

  /** With a stored body, validate() as written agrees with the chain; with
      none, every code outside the success range raises the null
      dereference instead of its typed exception. */
  lemma ValidateAsWrittenLosesKind(cfg: CodeConfig, code: int, body: Option<seq<bv8>>)
    ensures body.Some? ==> ValidateAsWritten(cfg, code, body) == Some(Classify(cfg, code))
    ensures body.None? ==> (ValidateAsWritten(cfg, code, body) == None <==> Classify(cfg, code) != Passed)
  {
  }

  /** The concrete case: getPage on a page that answers 404 with body "{}"
      completes, stores the code 404 and no body; validate() then raises
      the NullPointerException, not NotFoundError. */
  lemma NotFoundAfterGetPage()
    ensures ValidateAsWritten(Defaults, 404, None) == None
    ensures Classify(Defaults, 404) == NotFound
  {
  }
}
