/**
 * POST /api/chapterApplication (api/src/functions/chapterApplication.js): a
 * public form to apply to lead a new chapter. A per-address limiter of its own
 * (three per hour by default) comes first, then a honeypot field, then the
 * field checks; an accepted application is stored as pending. The application
 * id (`randomUUID`) and the clock are parameters. When a notifications channel
 * is configured, the approval links are signed after the row is stored; with no
 * signing secret that throws and the request ends in 500 with the row kept.
 * The Discord send itself cannot change the reply and is left out.
 */
module ChapterApplication {
  import opened Wrappers
  import opened Http
  import opened JsString
  import opened Tables
  import opened Sanitise
  import opened RateLimit
  import opened Validators
  import opened TableStorage

  /** The request body; a missing or falsy member is `""`. */
  datatype ApplicationBody = ApplicationBody(
    fullName: string, email: string, city: string, country: string, linkedIn: string,
    aboutYou: string, whyLead: string, existingCommunity: string, website: string,
    secondLeadName: string, secondLeadEmail: string, secondLeadLinkedIn: string,
    secondLeadAbout: string)

  /** The `{ success: true, message }` body of a 200 reply. */
  datatype Acknowledged = Acknowledged(message: string)

  const MaxRequestsPerWindow := 3
  const RateLimitWindowMs := 3600000

  const MaxName := 100
  const MaxPlace := 100
  const MaxStory := 2000

  const TooManyRequests := "Too many requests. Please try again later."
  const MissingFields := "Please fill in all required fields."
  const Unexpected := "An unexpected error occurred. Please try again later."
  /** What the honeypot reply says; a real submission gets `Received`. */
  const Decoy := "Your application has been received. We will review it shortly!"
  const Received := "Your application has been received. We will review it and get back to you shortly!"

  /** The module's `rateLimitMap` with its default limit and window. */
  method NewLimiter() returns (limiter: InlineLimiter)
    ensures fresh(limiter) && limiter.rateLimitMap == map[]
    ensures limiter.maxRequests == MaxRequestsPerWindow && limiter.windowMs == RateLimitWindowMs
  {
    limiter := new InlineLimiter(MaxRequestsPerWindow, RateLimitWindowMs);
  }

  /** The checks on the body a real submission must pass. */
  predicate Acceptable(b: ApplicationBody) {
    && b.fullName != "" && b.email != "" && b.city != "" && b.country != "" && b.aboutYou != "" && b.whyLead != ""
    && |b.fullName| <= MaxName && |b.city| <= MaxPlace && |b.country| <= MaxPlace
    && |b.aboutYou| <= MaxStory && |b.whyLead| <= MaxStory
    && IsValidEmail(b.email)
    && (b.linkedIn == "" || IsLinkedInUrl(b.linkedIn))
    && ((b.secondLeadName != "" || b.secondLeadEmail != "" || b.secondLeadAbout != "") ==>
          && |b.secondLeadName| <= MaxName
          && (b.secondLeadEmail == "" || IsValidEmail(b.secondLeadEmail))
          && (b.secondLeadLinkedIn == "" || IsLinkedInUrl(b.secondLeadLinkedIn)))
  }

  /**
   * The first field check that fails, as its 400 message, in the handler's
   * order; None when the body is acceptable.
   */
  function Problem(b: ApplicationBody): (r: Option<string>)
    ensures (b.fullName == "" || b.email == "" || b.city == "" || b.country == "" || b.aboutYou == "" || b.whyLead == "")
      ==> r == Some(MissingFields)
  {
    if b.fullName == "" || b.email == "" || b.city == "" || b.country == "" || b.aboutYou == "" || b.whyLead == "" then
      Some(MissingFields)
    else if |b.fullName| > MaxName || |b.city| > MaxPlace || |b.country| > MaxPlace
         || |b.aboutYou| > MaxStory || |b.whyLead| > MaxStory then
      Some("One or more fields exceed the maximum allowed length.")
    else if !IsValidEmail(b.email) then
      Some("Please enter a valid email address.")
    else if b.linkedIn != "" && !IsLinkedInUrl(b.linkedIn) then
      Some("Please enter a valid LinkedIn URL.")
    else if b.secondLeadName != "" || b.secondLeadEmail != "" || b.secondLeadAbout != "" then
      if |b.secondLeadName| > MaxName then Some("Second lead name exceeds maximum length.")
      else if b.secondLeadEmail != "" && !IsValidEmail(b.secondLeadEmail) then
        Some("Please enter a valid email for the second lead.")
      else if b.secondLeadLinkedIn != "" && !IsLinkedInUrl(b.secondLeadLinkedIn) then
        Some("Please enter a valid LinkedIn URL for the second lead.")
      else None
    else None
  }

  /** The checks pass exactly when the body is acceptable. */
  lemma ProblemIffAcceptable(b: ApplicationBody)
    ensures Problem(b).None? <==> Acceptable(b)
  {
    if b.fullName != "" && b.email != "" && b.city != "" && b.country != "" && b.aboutYou != "" && b.whyLead != ""
       && |b.fullName| <= MaxName && |b.city| <= MaxPlace && |b.country| <= MaxPlace
       && |b.aboutYou| <= MaxStory && |b.whyLead| <= MaxStory
       && IsValidEmail(b.email) && (b.linkedIn == "" || IsLinkedInUrl(b.linkedIn))
    {
      assert Problem(b).None? <==> Acceptable(b);
    }
  }

  /** With no second-lead name, e-mail or description, the second lead's LinkedIn URL is never looked at. */
  lemma LoneSecondLinkedInIgnored(b: ApplicationBody, url: string)
    requires b.secondLeadName == "" && b.secondLeadEmail == "" && b.secondLeadAbout == ""
    ensures Problem(b.(secondLeadLinkedIn := url)) == Problem(b)
  {
  }

  /**
   * The application object handed to `storeApplication`: the free-text fields
   * hold no tag, the e-mail and link fields are only trimmed.
   */
  function ApplicationFor(b: ApplicationBody, id: string): (a: NewApplication)
    ensures a.id == id
    ensures TagFree(a.fullName) && TagFree(a.city) && TagFree(a.country) && TagFree(a.aboutYou)
    ensures TagFree(a.whyLead) && TagFree(a.existingCommunity) && TagFree(a.secondLeadName) && TagFree(a.secondLeadAbout)
    ensures a.email == Trim(b.email) && a.linkedIn == Trim(b.linkedIn)
    ensures a.secondLeadEmail == Trim(b.secondLeadEmail) && a.secondLeadLinkedIn == Trim(b.secondLeadLinkedIn)
  {
    NewApplication(id, Clean(b.fullName), Trim(b.email), Clean(b.city), Clean(b.country), Trim(b.linkedIn),
      Clean(b.aboutYou), Clean(b.whyLead), Clean(b.existingCommunity), Clean(b.secondLeadName),
      Trim(b.secondLeadEmail), Trim(b.secondLeadLinkedIn), Clean(b.secondLeadAbout))
  }

  /** A valid e-mail has no white space, so trimming keeps it as typed. */
  lemma ValidEmailIsTrimmed(email: string)
    requires IsValidEmail(email)
    ensures Trim(email) == email
  {
    TrimOfUnpadded(email);
  }

  datatype Screened = Refuse(reply: Reply<Acknowledged>) | Admit(application: NewApplication)

  /** Everything after the limiter and before `storeApplication`. */
  function Screen(body: Option<ApplicationBody>, id: string): (s: Screened)
    ensures body.None? ==> s == Refuse(Fail(400, "Invalid JSON in request body"))
    ensures s.Refuse? && s.reply.status == 200 <==> body.Some? && body.value.website != ""
    ensures s.Refuse? ==> s.reply.status in {200, 400}
    ensures s.Admit? <==> body.Some? && body.value.website == "" && Acceptable(body.value)
    ensures s.Admit? && body.Some? ==>
      var a := s.application;
      && a == ApplicationFor(body.value, id)
      && a.email == body.value.email
      && TagFree(a.fullName) && TagFree(a.city) && TagFree(a.country) && TagFree(a.aboutYou) && TagFree(a.whyLead)
      && TagFree(a.existingCommunity) && TagFree(a.secondLeadName) && TagFree(a.secondLeadAbout)
  {
    if body.None? then Refuse(Fail(400, "Invalid JSON in request body"))
    else
      var b := body.value;
      if b.website != "" then Refuse(Done(200, Acknowledged(Decoy)))
      else
        var problem := Problem(b);
        ProblemIffAcceptable(b);
        if problem.Some? then Refuse(Fail(400, problem.value))
        else
          ValidEmailIsTrimmed(b.email);
          Admit(ApplicationFor(b, id))
  }

  const SafeFields: seq<string> := ["fullName", "city", "country", "aboutYou", "whyLead", "existingCommunity",
    "secondLeadName", "secondLeadAbout"]

  /** The parsed body as the object `sanitiseFields` receives. */
  function BodyObject(b: ApplicationBody): (obj: map<string, JsValue>)
    ensures "fullName" in obj && obj["fullName"] == Str(b.fullName) && "city" in obj && obj["city"] == Str(b.city) && "country" in obj && obj["country"] == Str(b.country)
    ensures "aboutYou" in obj && obj["aboutYou"] == Str(b.aboutYou) && "whyLead" in obj && obj["whyLead"] == Str(b.whyLead)
    ensures "existingCommunity" in obj && obj["existingCommunity"] == Str(b.existingCommunity)
    ensures "secondLeadName" in obj && obj["secondLeadName"] == Str(b.secondLeadName) && "secondLeadAbout" in obj && obj["secondLeadAbout"] == Str(b.secondLeadAbout)
  {
    map["fullName" := Str(b.fullName), "email" := Str(b.email), "city" := Str(b.city),
        "country" := Str(b.country), "linkedIn" := Str(b.linkedIn), "aboutYou" := Str(b.aboutYou),
        "whyLead" := Str(b.whyLead), "existingCommunity" := Str(b.existingCommunity),
        "secondLeadName" := Str(b.secondLeadName), "secondLeadEmail" := Str(b.secondLeadEmail),
        "secondLeadLinkedIn" := Str(b.secondLeadLinkedIn), "secondLeadAbout" := Str(b.secondLeadAbout)]
  }

  /** The `sanitiseFields` call and the `trim` of each value, read back field by field. */
  method SanitiseBody(b: ApplicationBody, id: string) returns (a: NewApplication)
    ensures a == ApplicationFor(b, id)
  {
    var obj := BodyObject(b);
    assert SafeFields[0] == "fullName" && SafeFields[1] == "city" && SafeFields[2] == "country";
    assert SafeFields[3] == "aboutYou" && SafeFields[4] == "whyLead" && SafeFields[5] == "existingCommunity";
    assert SafeFields[6] == "secondLeadName" && SafeFields[7] == "secondLeadAbout";
    var safe := SanitiseFields(obj, SafeFields);
    var fullName, city, country := safe["fullName"].s, safe["city"].s, safe["country"].s;
    var aboutYou, whyLead, existing := safe["aboutYou"].s, safe["whyLead"].s, safe["existingCommunity"].s;
    var secondName, secondAbout := safe["secondLeadName"].s, safe["secondLeadAbout"].s;
    a := NewApplication(id, Trim(fullName), Trim(b.email), Trim(city), Trim(country),
      Trim(b.linkedIn), Trim(aboutYou), Trim(whyLead), Trim(existing),
      Trim(secondName), Trim(b.secondLeadEmail), Trim(b.secondLeadLinkedIn), Trim(secondAbout));
  }

  /**
   * The handler. `forwardedFor` and `clientIpHeader` are the two request headers
   * (`""` when absent), `now` the clock in milliseconds and `nowText` its ISO form.
   * A refused address gets 429 and nothing else happens; otherwise the limiter
   * records the request whatever the body turns out to be.
   */
  method Apply(limiter: InlineLimiter, store: Store, forwardedFor: string, clientIpHeader: string,
               body: Option<ApplicationBody>, id: string, now: int, nowText: string, channelSet: bool, secretSet: bool)
    returns (reply: Reply<Acknowledged>)
    requires store.Valid()
    modifies limiter, store`applications
    ensures store.Valid()
    ensures var ip := GetClientIP(forwardedFor, clientIpHeader);
      if !Allows(old(limiter.rateLimitMap), ip, now, limiter.maxRequests, limiter.windowMs) then
        && reply == Fail(429, TooManyRequests) && unchanged(store)
        && limiter.rateLimitMap == old(limiter.rateLimitMap)[ip := if ip in old(limiter.rateLimitMap) then old(limiter.rateLimitMap)[ip] else []]
      else
        && limiter.rateLimitMap == AfterCheck(old(limiter.rateLimitMap), ip, now, limiter.maxRequests, limiter.windowMs)
        && match Screen(body, id)
          case Refuse(r) => reply == r && unchanged(store)
          case Admit(a) =>
            var e := ApplicationEntity(a, nowText);
            if HasKey(old(store.applications), ApplicationKey, ApplicationKey(e)) then
              reply == Fail(500, Unexpected) && unchanged(store)
            else store.applications == Insert(old(store.applications), e, ApplicationKey) && reply == AfterStore(channelSet, secretSet)
  {
    var ip := GetClientIP(forwardedFor, clientIpHeader);
    var allowed := limiter.CheckRateLimit(ip, now);
    if !allowed {
      return Fail(429, TooManyRequests);
    }
    reply := Submit(store, body, id, nowText, channelSet, secretSet);
  }

  /** The handler once the limiter has let the request through. */
  method Submit(store: Store, body: Option<ApplicationBody>, id: string, nowText: string, channelSet: bool, secretSet: bool)
    returns (reply: Reply<Acknowledged>)
    requires store.Valid()
    modifies store`applications
    ensures store.Valid()
    ensures match Screen(body, id)
      case Refuse(r) => reply == r && unchanged(store)
      case Admit(a) =>
        var e := ApplicationEntity(a, nowText);
        if HasKey(old(store.applications), ApplicationKey, ApplicationKey(e)) then
          reply == Fail(500, Unexpected) && unchanged(store)
        else store.applications == Insert(old(store.applications), e, ApplicationKey) && reply == AfterStore(channelSet, secretSet)
  {
    if body.None? {
      return Fail(400, "Invalid JSON in request body");
    }
    var b := body.value;
    if b.website != "" {
      return Done(200, Acknowledged(Decoy));
    }
    var problem := Problem(b);
    if problem.Some? {
      return Fail(400, problem.value);
    }
    var application := SanitiseBody(b, id);
    var stored := store.StoreApplication(application, nowText);
    if stored.None? {
      return Fail(500, Unexpected);
    }
    if channelSet && !secretSet {
      return Fail(500, Unexpected);
    }
    return Done(200, Acknowledged(Received));
  }

  /**
   * The reply once the application is stored. `channelSet` says whether
   * `DISCORD_NOTIFICATIONS_CHANNEL_ID` is configured and `secretSet` whether
   * `APPROVAL_TOKEN_SECRET` is: signing the approval links with no secret
   * throws, and the outer `catch` answers 500 although the row is already written.
   */
  function AfterStore(channelSet: bool, secretSet: bool): (r: Reply<Acknowledged>)
    ensures r == Done(200, Acknowledged(Received)) <==> !channelSet || secretSet
    ensures r != Done(200, Acknowledged(Received)) ==> r == Fail(500, Unexpected)
  {
    if channelSet && !secretSet then Fail(500, Unexpected) else Done(200, Acknowledged(Received))
  }

  /**
   * Retrying after that 500 stores a second application: with fresh ids, both
   * submissions of one body end up in the table as two pending rows.
   */
  lemma RetryAfterTokenFailureStoresTwice(applications: seq<Application>, a1: NewApplication, a2: NewApplication, nowText: string)
    requires a1.id != a2.id
    requires !HasKey(applications, ApplicationKey, ApplicationKey(ApplicationEntity(a1, nowText)))
    requires !HasKey(applications, ApplicationKey, ApplicationKey(ApplicationEntity(a2, nowText)))
    ensures var once := Insert(applications, ApplicationEntity(a1, nowText), ApplicationKey);
      var twice := Insert(once, ApplicationEntity(a2, nowText), ApplicationKey);
      && ApplicationEntity(a1, nowText) in twice && ApplicationEntity(a2, nowText) in twice
      && ApplicationEntity(a1, nowText) != ApplicationEntity(a2, nowText)
      && |twice| == |applications| + 2
  {
    var e1, e2 := ApplicationEntity(a1, nowText), ApplicationEntity(a2, nowText);
    var once := Insert(applications, e1, ApplicationKey);
    InsertContents(applications, e1, ApplicationKey);
    InsertContents(once, e2, ApplicationKey);
    assert |multiset(once)| == |multiset(applications)| + 1;
    assert |multiset(Insert(once, e2, ApplicationKey))| == |multiset(once)| + 1;
  }
}
