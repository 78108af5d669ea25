/**
 * POST /api/contactForm (api/src/functions/contactForm.js): the public contact
 * form, relayed to a Discord webhook. Only POST is served; a per-address limiter
 * of its own (five per hour by default) comes next, then the field checks. The
 * webhook call is I/O: its outcome is a parameter.
 */
module ContactForm {
  import opened Wrappers
  import opened Http
  import opened RateLimit
  import opened Validators

  /** The request body; a missing or falsy member is `""`. */
  datatype ContactBody = ContactBody(name: string, email: string, subject: string, message: string)

  datatype Acknowledged = Acknowledged(message: string)

  /** What became of the webhook: no URL configured, a reply that is not ok, a throwing `fetch`, or an ok reply. */
  datatype Webhook = Unconfigured | NotOk | Threw | Ok

  const MaxRequestsPerWindow := 5
  const RateLimitWindowMs := 3600000

  const MaxName := 100
  const MaxSubject := 200
  const MaxMessage := 5000

  const TooManyRequests := "Too many requests. Please try again later."
  const Thanks := "Your message has been received. Thank you for contacting us!"

  /** The module's `rateLimitMap` with its default limit and window. */
  method NewLimiter() returns (limiter: InlineLimiter)
    ensures fresh(limiter) && limiter.rateLimitMap == map[]
    ensures limiter.maxRequests == MaxRequestsPerWindow && limiter.windowMs == RateLimitWindowMs
  {
    limiter := new InlineLimiter(MaxRequestsPerWindow, RateLimitWindowMs);
  }

  predicate Acceptable(b: ContactBody) {
    && b.name != "" && b.email != "" && b.subject != "" && b.message != ""
    && |b.name| <= MaxName && |b.subject| <= MaxSubject && |b.message| <= MaxMessage
    && IsValidEmail(b.email)
  }

  /** The first field check that fails, as its 400 message; None when the body is acceptable. */
  function Problem(b: ContactBody): (r: Option<string>)
    ensures r.None? <==> Acceptable(b)
    ensures (b.name == "" || b.email == "" || b.subject == "" || b.message == "") ==> r == Some("Missing required fields")
    ensures r.Some? && r != Some("Missing required fields") && r != Some("Field length exceeds maximum allowed")
      ==> !IsValidEmail(b.email)
  {
    if b.name == "" || b.email == "" || b.subject == "" || b.message == "" then Some("Missing required fields")
    else if |b.name| > MaxName || |b.subject| > MaxSubject || |b.message| > MaxMessage then
      Some("Field length exceeds maximum allowed")
    else if !IsValidEmail(b.email) then Some("Invalid email format")
    else None
  }

  /** The reply to a POST the limiter let through. */
  function Outcome(body: Option<ContactBody>, webhook: Webhook): (r: Reply<Acknowledged>)
    ensures r.status == 200 <==> body.Some? && Acceptable(body.value) && webhook == Ok
    ensures r.status == 200 ==> r == Done(200, Acknowledged(Thanks))
    ensures body.Some? && Acceptable(body.value) && webhook != Ok ==> r.status == 500
    ensures body.None? || !Acceptable(body.value) ==> r.status == 400
  {
    if body.None? then Fail(400, "Invalid JSON in request body")
    else if Problem(body.value).Some? then Fail(400, Problem(body.value).value)
    else match webhook
      case Unconfigured => Fail(500, "Configuration error")
      case NotOk => Fail(500, "Failed to send message")
      case Threw => InternalError()
      case Ok => Done(200, Acknowledged(Thanks))
  }

  /**
   * The handler. Anything but POST gets 405 without touching the limiter; a
   * refused address gets 429 with its stored timestamps as they were; every other
   * request is recorded by the limiter before its body is read.
   */
  method Contact(limiter: InlineLimiter, httpMethod: string, forwardedFor: string, clientIpHeader: string,
                 body: Option<ContactBody>, webhook: Webhook, now: int)
    returns (reply: Reply<Acknowledged>)
    modifies limiter
    ensures httpMethod != "POST" ==> reply == Fail(405, "Method not allowed") && unchanged(limiter)
    ensures httpMethod == "POST" ==>
      var ip := GetClientIP(forwardedFor, clientIpHeader);
      if !Allows(old(limiter.rateLimitMap), ip, now, limiter.maxRequests, limiter.windowMs) then
        && reply == Fail(429, TooManyRequests)
        && limiter.rateLimitMap == old(limiter.rateLimitMap)[ip := if ip in old(limiter.rateLimitMap) then old(limiter.rateLimitMap)[ip] else []]
      else
        && limiter.rateLimitMap == AfterCheck(old(limiter.rateLimitMap), ip, now, limiter.maxRequests, limiter.windowMs)
        && reply == Outcome(body, webhook)
  {
    if httpMethod != "POST" {
      return Fail(405, "Method not allowed");
    }
    var ip := GetClientIP(forwardedFor, clientIpHeader);
    var allowed := limiter.CheckRateLimit(ip, now);
    if !allowed {
      return Fail(429, TooManyRequests);
    }
    if body.None? {
      return Fail(400, "Invalid JSON in request body");
    }
    var problem := Problem(body.value);
    if problem.Some? {
      return Fail(400, problem.value);
    }
    match webhook {
      case Unconfigured => return Fail(500, "Configuration error");
      case NotOk => return Fail(500, "Failed to send message");
      case Threw => return InternalError();
      case Ok => return Done(200, Acknowledged(Thanks));
    }
  }
}
