/**
 * The generate handler: access check, rate limit, length checks, prompt
 * rendering, the completion call and the stripped answer, in that order.
 * HTTP errors are the `Failure` values; the completion service is a function
 * parameter and the experience identifier is supplied by the caller.
 */
module Generate {
  import opened Wrappers
  import opened Text
  import opened RateLimit
  import opened Schema
  import opened Prompt

  /** Fewest characters the stripped raw experience may have. */
  const MinChars: nat := 10
  /** Most characters the raw experience may have, before stripping. */
  const MaxChars: nat := 2000
  /** Sampling temperature of every completion call. */
  const Temperature: real := 0.6

  /**
   * The access check: a request passes only with a non-empty code equal to
   * the configured one, so an empty configured code admits nobody.
   */
  predicate AccessGranted(code: string, configured: string)
    ensures AccessGranted(code, configured) ==> code == configured
    ensures configured == "" ==> !AccessGranted(code, configured)
  {
    code != "" && code == configured
  }

  datatype Failure =
    | InvalidAccess
    | TooManyRequests
    | TooShort
    | TooLong
    | Upstream(description: string)
    | Unhandled

  /**
   * The HTTP status of each failure: a client error for the four refusals
   * before the completion call, 500 exactly for the failures after it.
   */
  function Status(f: Failure): (r: nat)
    ensures 400 <= r < 600
    ensures r == 500 <==> f.Upstream? || f.Unhandled?
  {
    match f
    case InvalidAccess => 401
    case TooManyRequests => 429
    case TooShort => 400
    case TooLong => 400
    case Upstream(_) => 500
    case Unhandled => 500
  }

  /** The response detail of each failure; a provider error passes its description through. */
  function Detail(f: Failure): (r: string)
    ensures f.Upstream? ==> r == f.description
    ensures !f.Upstream? ==> r != ""
  {
    match f
    case InvalidAccess => "Invalid access code"
    case TooManyRequests => "Too many requests. Try again in a minute."
    case TooShort => "Please write a bit more (>=10 characters)."
    case TooLong => "Too long. Please keep it under 2000 characters."
    case Upstream(description) => description
    case Unhandled => "Internal Server Error"
  }

  /** The four refusals before the completion call are told apart by status and detail. */
  lemma RefusalsDistinct(f: Failure, g: Failure)
    requires f in {InvalidAccess, TooManyRequests, TooShort, TooLong}
    requires g in {InvalidAccess, TooManyRequests, TooShort, TooLong}
    requires f != g
    ensures Status(f) != Status(g) || Detail(f) != Detail(g)
  {
  }

  /**
   * The two length checks, the lower bound on the stripped text first, then
   * the upper bound on the text as sent.
   */
  function CheckLength(raw: string): (r: Option<Failure>)
    ensures r.None? <==> MinChars <= |Trim(raw)| && |raw| <= MaxChars
    ensures r == Some(TooShort) <==> |Trim(raw)| < MinChars
    ensures r == Some(TooLong) <==> MinChars <= |Trim(raw)| && MaxChars < |raw|
  {
    if |Trim(raw)| < MinChars then Some(TooShort)
    else if |raw| > MaxChars then Some(TooLong)
    else None
  }

  /** What is sent to the completion service. */
  datatype CompletionCall = CompletionCall(model: string, messages: seq<Message>, temperature: real, maxTokens: int)

  /** What the completion service gives back: an error, or a first choice whose content may be missing. */
  datatype Completion = ProviderError(description: string) | Choice(content: Option<string>)

  datatype Outcome = Generated(experienceId: string, answer: string) | Refused(failure: Failure)

  function CallFor(cfg: Config, req: ExperienceInput): CompletionCall {
    CompletionCall(cfg.modelName, Messages(req), Temperature, cfg.maxOutputTokens)
  }

  /**
   * Everything before the completion call, given the list the limiter holds
   * for the caller: the call to make, or the first failing check.
   */
  function Screen(cfg: Config, req: ExperienceInput, history: seq<int>, t: int): (r: Result<CompletionCall, Failure>)
    ensures r.Success? <==>
      && AccessGranted(req.accessCode, cfg.accessCode)
      && Admits(history, t)
      && MinChars <= |Trim(req.rawExperience)| && |req.rawExperience| <= MaxChars
    ensures r.Success? ==> r.value.messages == Messages(req) && r.value.temperature == Temperature
    ensures r.Success? ==> r.value.model == cfg.modelName && r.value.maxTokens == cfg.maxOutputTokens
    ensures r.Failure? ==> Status(r.error) < 500
  {
    if !AccessGranted(req.accessCode, cfg.accessCode) then Failure(InvalidAccess)
    else if !Admits(history, t) then Failure(TooManyRequests)
    else match CheckLength(req.rawExperience)
      case Some(f) => Failure(f)
      case None => Success(CallFor(cfg, req))
  }

  /**
   * The limiter state after the handler: only an authorised request touches
   * it, and then only the caller's list, by one admission step.
   */
  function WindowsAfter(cfg: Config, windows: map<string, seq<int>>, req: ExperienceInput, ip: string, t: int)
    : (r: map<string, seq<int>>)
    ensures AccessGranted(req.accessCode, cfg.accessCode) ==> ip in r && r[ip] == After(Lookup(windows, ip), t)
    ensures !AccessGranted(req.accessCode, cfg.accessCode) ==> r == windows
    ensures forall other :: other != ip ==> Lookup(r, other) == Lookup(windows, other)
    ensures (forall k :: k in windows ==> |windows[k]| <= MaxRequests) ==> forall k :: k in r ==> |r[k]| <= MaxRequests
  {
    if AccessGranted(req.accessCode, cfg.accessCode) then windows[ip := After(Lookup(windows, ip), t)]
    else windows
  }

  /**
   * The reply for the completion service's answer: its content, stripped; a
   * provider error is a 500 carrying its description, and a missing content
   * the unhandled 500.
   */
  function Reply(completion: Completion, experienceId: string): (out: Outcome)
    ensures out.Generated? ==> out.experienceId == experienceId && Bare(out.answer)
    ensures out.Generated? <==> completion.Choice? && completion.content.Some?
    ensures completion.ProviderError? ==> out == Refused(Upstream(completion.description))
    ensures completion == Choice(None) ==> out == Refused(Unhandled)
  {
    match completion
    case ProviderError(description) => Refused(Upstream(description))
    case Choice(None) => Refused(Unhandled)
    case Choice(Some(content)) => Generated(experienceId, Trim(content))
  }

  /** The outcome of the handler, from the screening result and the service's answer. */
  function Respond(screened: Result<CompletionCall, Failure>, experienceId: string,
                   provider: CompletionCall -> Completion): Outcome
  {
    match screened
    case Failure(f) => Refused(f)
    case Success(call) => Reply(provider(call), experienceId)
  }

  /**
   * The handler. `sent` is the call made to the completion service, `None`
   * when a check refused the request first.
   */
  method HandleGenerate(cfg: Config, limiter: RateLimiter, req: ExperienceInput, ip: string, t: int,
                        experienceId: string, provider: CompletionCall -> Completion)
    returns (out: Outcome, sent: Option<CompletionCall>)
    modifies limiter
    ensures var screened := Screen(cfg, req, old(limiter.History(ip)), t);
      && out == Respond(screened, experienceId, provider)
      && sent == (if screened.Success? then Some(screened.value) else None)
    ensures limiter.windows == WindowsAfter(cfg, old(limiter.windows), req, ip, t)
    ensures old(limiter.Valid()) ==> limiter.Valid()
  {
    if !AccessGranted(req.accessCode, cfg.accessCode) {
      return Refused(InvalidAccess), None;
    }
    var allowed := limiter.Allow(ip, t);
    if !allowed {
      return Refused(TooManyRequests), None;
    }
    if |Trim(req.rawExperience)| < MinChars {
      return Refused(TooShort), None;
    }
    if |req.rawExperience| > MaxChars {
      return Refused(TooLong), None;
    }
    var call := CallFor(cfg, req);
    sent := Some(call);
    var completion := provider(call);
    match completion {
      case ProviderError(description) =>
        out := Refused(Upstream(description));
      case Choice(content) =>
        if content.None? {
          out := Refused(Unhandled);
        } else {
          out := Generated(experienceId, Trim(content.value));
        }
    }
  }

  /**
   * A wrong or empty access code is refused with 401 whatever the rest of the
   * request and the limiter's state, and leaves the limiter untouched.
   */
  lemma AccessCheckedFirst(cfg: Config, windows: map<string, seq<int>>, req: ExperienceInput, ip: string, t: int)
    requires !AccessGranted(req.accessCode, cfg.accessCode)
    ensures Screen(cfg, req, Lookup(windows, ip), t) == Failure(InvalidAccess)
    ensures WindowsAfter(cfg, windows, req, ip, t) == windows
  {
  }

  /** An authorised caller over quota gets 429 whatever the text it sent. */
  lemma RateCheckedBeforeContent(cfg: Config, req: ExperienceInput, history: seq<int>, t: int)
    requires AccessGranted(req.accessCode, cfg.accessCode)
    requires !Admits(history, t)
    ensures Screen(cfg, req, history, t) == Failure(TooManyRequests)
  {
  }

  /**
   * A request refused by a length check has still used a slot: the caller's
   * list is pruned and the request's time recorded.
   */
  lemma LengthRefusalUsesSlot(cfg: Config, windows: map<string, seq<int>>, req: ExperienceInput, ip: string, t: int)
    requires AccessGranted(req.accessCode, cfg.accessCode)
    requires Admits(Lookup(windows, ip), t)
    requires CheckLength(req.rawExperience).Some?
    ensures Screen(cfg, req, Lookup(windows, ip), t) == Failure(CheckLength(req.rawExperience).value)
    ensures var after := WindowsAfter(cfg, windows, req, ip, t);
      ip in after && after[ip] == Recent(Lookup(windows, ip), t) + [t]
  {
  }

  /**
   * A text that is too short once stripped is refused as too short even when it
   * is also too long as sent: the lower bound is checked first.
   */
  lemma ShortCheckedBeforeLong(raw: string)
    requires |Trim(raw)| < MinChars && MaxChars < |raw|
    ensures CheckLength(raw) == Some(TooShort)
  {
  }

  /**
   * The upper bound applies to the text as sent: ten letters padded to 2001
   * characters with spaces are refused as too long although only ten
   * characters remain after stripping.
   */
  lemma PaddingCountsTowardsLimit()
    ensures var raw := "reflection" + seq(MaxChars + 1 - 10, _ => ' ');
      |Trim(raw)| == 10 && CheckLength(raw) == Some(TooLong)
  {
    var word := "reflection";
    var pad := seq(MaxChars + 1 - 10, _ => ' ');
    assert Bare(word);
    assert AllSpace(pad);
    assert [] + word + pad == word + pad;
    TrimUnique([], word, pad);
  }

  /**
   * The answer returned is the completion text stripped: a contiguous part of
   * it with only whitespace cut away on either side, with no whitespace at
   * either end, and unchanged by stripping again.
   */
  lemma AnswerIsStrippedCompletion(content: string, experienceId: string)
    ensures var out := Reply(Choice(Some(content)), experienceId);
      && out.Generated?
      && Trim(out.answer) == out.answer
      && (exists i, j :: 0 <= i <= j <= |content| && out.answer == content[i..j]
                         && AllSpace(content[..i]) && AllSpace(content[j..]))
  {
    TrimIdempotent(content);
    var i, j := TrimIsSlice(content);
  }
}
