/**
 * POST /api/registerEvent (api/src/functions/registerEvent.js): a signed-in user
 * registers for an event by its slug. After the identity and per-address rate
 * checks, a pure chain of guards decides whether the request is refused; an
 * admitted request writes one registration and one demographics row under the
 * same (eventId, registrationId).
 *
 * The random bytes of the ticket code, the registration id, the clock and the
 * QR data URL are parameters. The ticket email is sent without affecting the
 * reply and is not modelled here.
 */
module RegisterEvent {
  import opened Wrappers
  import opened JsString
  import opened Http
  import opened Auth
  import opened Sanitise
  import opened Tables
  import opened TableStorage
  import opened RateLimit
  import opened Tickets

  /** Registrations allowed per client address per hour. */
  const RegisterLimit := 10
  const TooManyRequests := "Too many requests. Please try again later."
  const MissingFields := "Missing required fields: eventSlug, fullName, email"
  const EventNotFound := "Event not found"
  const RegistrationClosed := "Registration is closed for this event"
  const AlreadyRegisteredMessage := "You are already registered for this event"
  const CapacityReached := "This event has reached capacity"

  /** The request body's members; a missing or falsy member is `""`. */
  datatype RegisterBody = RegisterBody(
    eventSlug: string, fullName: string, email: string, company: string,
    employmentStatus: string, industry: string, jobTitle: string, companySize: string,
    experienceLevel: string)

  /** The `registration` object of a 201 reply. */
  datatype Ticket = Ticket(
    id: string, ticketCode: string, fullName: string, company: string,
    eventTitle: string, eventDate: string, eventLocation: string, qrDataUrl: string)

  datatype RegisterResult = Registered(ticket: Ticket) | AlreadyRegistered(ticketCode: string)

  /** The outcome of the guard chain: a refusal, or the event to register for. */
  datatype Screened = Refuse(reply: Reply<RegisterResult>) | Admit(event: Event)

  predicate MissingField(b: RegisterBody) {
    b.eventSlug == "" || b.fullName == "" || b.email == ""
  }

  predicate IsClosed(e: Event) {
    e.status == "closed" || e.status == "completed"
  }

  /** A cap of 0 means unlimited. */
  predicate AtCapacity(cap: int, count: int) {
    cap > 0 && count >= cap
  }

  /**
   * The guards once the slug has been looked up (`found`): an unknown slug, a
   * closed event, an existing registration of this user (409, before the
   * capacity test), a full event.
   */
  function ScreenEvent(found: Option<Event>, registrations: seq<Registration>, user: User): (r: Screened)
    ensures var existing := if found.Some? then Filter(registrations, RegistrationOfEvent(found.value.rowKey)) else [];
      var isOpen := found.Some? && !IsClosed(found.value);
      var firstTime := forall x :: x in existing ==> x.userId != user.userId;
      && (found.None? <==> r == Refuse(Fail(404, EventNotFound)))
      && (found.Some? && IsClosed(found.value) <==> r == Refuse(Fail(400, RegistrationClosed)))
      && (isOpen && !firstTime <==> r.Refuse? && r.reply.status == 409)
      && (isOpen && firstTime && AtCapacity(found.value.registrationCap, |existing|)
          <==> r == Refuse(Fail(400, CapacityReached)))
      && (isOpen && firstTime && !AtCapacity(found.value.registrationCap, |existing|) <==> r.Admit?)
      && (r.Refuse? && r.reply.status == 409 ==>
            && r.reply.data.Some? && r.reply.data.value.AlreadyRegistered?
            && exists x :: x in existing && x.userId == user.userId && x.ticketCode == r.reply.data.value.ticketCode)
      && (r.Refuse? && r.reply.status == 409 ==>
            r.reply.data.value.ticketCode == Find(existing, RegistrationOfUser(user.userId)).value.ticketCode)
      && (r.Admit? ==> r.event == found.value)
  {
    match found
    case None => Refuse(Fail(404, EventNotFound))
    case Some(e) =>
      if IsClosed(e) then Refuse(Fail(400, RegistrationClosed))
      else
        var existing := Filter(registrations, RegistrationOfEvent(e.rowKey));
        match Find(existing, RegistrationOfUser(user.userId))
        case Some(x) =>
          Refuse(Reply(409, AlreadyRegisteredMessage, Some(AlreadyRegistered(x.ticketCode))))
        case None =>
          if AtCapacity(e.registrationCap, |existing|) then Refuse(Fail(400, CapacityReached))
          else Admit(e)
  }

  /**
   * The guards after the rate limit, over the tables as the request finds them:
   * bad JSON, a missing field, then the event guards on the event the slug
   * lookup returns.
   */
  function Screen(events: seq<Event>, registrations: seq<Registration>, user: User, body: Option<RegisterBody>): (r: Screened)
    ensures body.None? ==> r == Refuse(Fail(400, InvalidJson))
    ensures body.Some? && MissingField(body.value) ==>
      r == Refuse(Fail(400, MissingFields))
    ensures body.Some? && !MissingField(body.value) ==>
      r == ScreenEvent(Find(events, EventWithSlug(body.value.eventSlug)), registrations, user)
    ensures r.Refuse? ==> r.reply.status in {400, 404, 409}
    ensures r.Refuse? && r.reply.status == 404 ==>
      body.Some? && forall e :: e in events ==> e.slug != body.value.eventSlug
    ensures r.Refuse? && r.reply.status == 409 ==>
      && r.reply.data.Some? && r.reply.data.value.AlreadyRegistered?
      && exists x :: x in registrations && x.userId == user.userId && x.ticketCode == r.reply.data.value.ticketCode
                     && x.partitionKey == Find(events, EventWithSlug(body.value.eventSlug)).value.rowKey
    ensures r.Admit? ==>
      && body.Some? && !MissingField(body.value)
      && r.event == Find(events, EventWithSlug(body.value.eventSlug)).value
      && r.event in events && r.event.slug == body.value.eventSlug && !IsClosed(r.event)
      && (forall x :: x in registrations && x.partitionKey == r.event.rowKey ==> x.userId != user.userId)
      && !AtCapacity(r.event.registrationCap, |Filter(registrations, RegistrationOfEvent(r.event.rowKey))|)
  {
    if body.None? then Refuse(Fail(400, InvalidJson))
    else if MissingField(body.value) then Refuse(Fail(400, MissingFields))
    else
      var found := Find(events, EventWithSlug(body.value.eventSlug));
      var r := ScreenEvent(found, registrations, user);
      assert r.Admit? ==> forall x :: x in registrations && x.partitionKey == r.event.rowKey ==>
        x in Filter(registrations, RegistrationOfEvent(found.value.rowKey));
      r
  }

  /** The registration an admitted request writes: sanitised, trimmed, with the caller's userId. */
  function NewRegistrationFor(e: Event, user: User, b: RegisterBody, bytes: seq<Byte>, id: string): (r: NewRegistration)
    requires |bytes| == 5
    ensures r.eventId == e.rowKey && r.id == id && r.userId == user.userId && r.role == "attendee"
    ensures r.fullName == Trim(StripTags(b.fullName)) && r.email == Trim(b.email)
    ensures r.company == Trim(StripTags(b.company)) && r.ticketCode == TicketCode(bytes)
  {
    NewRegistration(id, e.rowKey, user.userId, Trim(StripTags(b.fullName)), Trim(b.email),
      Trim(StripTags(b.company)), TicketCode(bytes), "attendee")
  }

  /** The demographics row, keyed like the registration; only the job title is sanitised. */
  function NewDemographicsFor(e: Event, b: RegisterBody, id: string): (d: NewDemographics)
    ensures d.eventId == e.rowKey && d.registrationId == id
    ensures d.jobTitle == StripTags(b.jobTitle) && d.industry == b.industry
    ensures d.employmentStatus == b.employmentStatus && d.companySize == b.companySize
    ensures d.experienceLevel == b.experienceLevel
  {
    NewDemographics(e.rowKey, id, b.employmentStatus, b.industry, StripTags(b.jobTitle), b.companySize, b.experienceLevel)
  }

  function TicketFor(e: Event, reg: NewRegistration, qrDataUrl: string): (t: Ticket)
    ensures t.id == reg.id && t.ticketCode == reg.ticketCode && t.fullName == reg.fullName && t.company == reg.company
    ensures t.eventTitle == e.title && t.eventDate == e.date && t.eventLocation == e.location && t.qrDataUrl == qrDataUrl
  {
    Ticket(reg.id, reg.ticketCode, reg.fullName, reg.company, e.title, e.date, e.location, qrDataUrl)
  }

  /** What an admitted request writes and replies, as a relation between the tables before and after. */
  ghost predicate Admitted(
    e: Event, user: User, b: RegisterBody, ticketBytes: seq<Byte>, registrationId: string, now: string, qrDataUrl: string,
    oldRegistrations: seq<Registration>, oldDemographics: seq<Demographics>,
    registrations: seq<Registration>, demographics: seq<Demographics>, reply: Reply<RegisterResult>)
    requires |ticketBytes| == 5
  {
    var newReg := NewRegistrationFor(e, user, b, ticketBytes, registrationId);
    var reg := RegistrationEntity(newReg, now);
    var dem := DemographicsEntity(NewDemographicsFor(e, b, registrationId));
    if HasKey(oldRegistrations, RegistrationKey, RegistrationKey(reg)) then
      reply == InternalError() && registrations == oldRegistrations && demographics == oldDemographics
    else
      && registrations == Insert(oldRegistrations, reg, RegistrationKey)
      && if HasKey(oldDemographics, DemographicsKey, DemographicsKey(dem)) then
           reply == InternalError() && demographics == oldDemographics
         else
           reply == Done(201, Registered(TicketFor(e, newReg, qrDataUrl))) && demographics == Insert(oldDemographics, dem, DemographicsKey)
  }

  /**
   * The handler. `forwardedFor` and `clientIpHeader` are the request headers
   * (`""` when absent), `nowMs` the limiter's clock, `now` the timestamp the
   * rows carry.
   */
  method Register(
    store: Store, limiter: Limiter, user: Option<User>, forwardedFor: string, clientIpHeader: string,
    nowMs: int, body: Option<RegisterBody>, ticketBytes: seq<Byte>, registrationId: string,
    now: string, qrDataUrl: string)
    returns (reply: Reply<RegisterResult>)
    requires store.Valid() && |ticketBytes| == 5
    modifies store`registrations, store`demographics, limiter
    ensures store.Valid()
    ensures user.None? ==> reply == Unauthorised("") && unchanged(limiter) && unchanged(store)
    ensures user.Some? ==> var id := LimiterId("register", GetClientIP(forwardedFor, clientIpHeader));
      limiter.limiters == AfterCheck(old(limiter.limiters), id, nowMs, RegisterLimit, DefaultWindowMs)
    ensures user.Some? ==> var id := LimiterId("register", GetClientIP(forwardedFor, clientIpHeader));
      !Allows(old(limiter.limiters), id, nowMs, RegisterLimit, DefaultWindowMs) ==>
        reply == Fail(429, TooManyRequests) && unchanged(store)
    ensures user.Some? ==> var id := LimiterId("register", GetClientIP(forwardedFor, clientIpHeader));
      Allows(old(limiter.limiters), id, nowMs, RegisterLimit, DefaultWindowMs) ==>
        match Screen(old(store.events), old(store.registrations), user.value, body)
        case Refuse(r) => reply == r && unchanged(store)
        case Admit(e) =>
          Admitted(e, user.value, body.value, ticketBytes, registrationId, now, qrDataUrl,
            old(store.registrations), old(store.demographics), store.registrations, store.demographics, reply)
  {
    if user.None? {
      return Unauthorised("");
    }
    var clientIp := GetClientIP(forwardedFor, clientIpHeader);
    var allowed := limiter.CheckRateLimit(clientIp, "register", nowMs, RegisterLimit);
    if !allowed {
      return Fail(429, TooManyRequests);
    }
    reply := RegisterChecked(store, user.value, body, ticketBytes, registrationId, now, qrDataUrl);
  }

  /** The guard chain and the writes, once identity and rate limit have passed. */
  method RegisterChecked(
    store: Store, u: User, body: Option<RegisterBody>, ticketBytes: seq<Byte>, registrationId: string,
    now: string, qrDataUrl: string)
    returns (reply: Reply<RegisterResult>)
    requires store.Valid() && |ticketBytes| == 5
    modifies store`registrations, store`demographics
    ensures store.Valid()
    ensures match Screen(old(store.events), old(store.registrations), u, body)
      case Refuse(r) => reply == r && unchanged(store)
      case Admit(e) =>
        Admitted(e, u, body.value, ticketBytes, registrationId, now, qrDataUrl,
          old(store.registrations), old(store.demographics), store.registrations, store.demographics, reply)
  {
    if body.None? {
      return Fail(400, InvalidJson);
    }
    var b := body.value;
    if MissingField(b) {
      return Fail(400, MissingFields);
    }
    var fullName, jobTitle, company := SanitiseBody(b);
    var event := store.GetEventBySlug(b.eventSlug);
    if event.None? {
      return Fail(404, EventNotFound);
    }
    var e := event.value;
    if IsClosed(e) {
      return Fail(400, RegistrationClosed);
    }
    var existing := store.GetRegistrationsByEvent(e.rowKey);
    var already := ScanFirst(existing, RegistrationOfUser(u.userId));
    if already.Some? {
      return Reply(409, AlreadyRegisteredMessage, Some(AlreadyRegistered(already.value.ticketCode)));
    }
    if AtCapacity(e.registrationCap, |existing|) {
      return Fail(400, CapacityReached);
    }
    assert Screen(old(store.events), old(store.registrations), u, body) == Admit(e);
    reply := WriteRegistration(store, e, u, b, fullName, jobTitle, company, ticketBytes, registrationId, now, qrDataUrl);
  }

  /** The `sanitiseFields` call on the three free-text fields, read back. */
  method SanitiseBody(b: RegisterBody) returns (fullName: string, jobTitle: string, company: string)
    ensures fullName == StripTags(b.fullName) && jobTitle == StripTags(b.jobTitle) && company == StripTags(b.company)
  {
    var safe := SanitiseFields(
      map["fullName" := Str(b.fullName), "jobTitle" := Str(b.jobTitle), "company" := Str(b.company)],
      ["fullName", "jobTitle", "company"]);
    assert safe["fullName"] == Str(StripTags(b.fullName));
    assert safe["jobTitle"] == Str(StripTags(b.jobTitle));
    assert safe["company"] == Str(StripTags(b.company));
    fullName, jobTitle, company := safe["fullName"].s, safe["jobTitle"].s, safe["company"].s;
  }

  /** The two writes of an admitted registration, the registration first, and the 201 reply. */
  method WriteRegistration(store: Store, e: Event, u: User, b: RegisterBody, fullName: string, jobTitle: string,
    company: string, ticketBytes: seq<Byte>, registrationId: string, now: string, qrDataUrl: string)
    returns (reply: Reply<RegisterResult>)
    requires store.Valid() && |ticketBytes| == 5
    requires fullName == StripTags(b.fullName) && jobTitle == StripTags(b.jobTitle) && company == StripTags(b.company)
    modifies store`registrations, store`demographics
    ensures store.Valid()
    ensures Admitted(e, u, b, ticketBytes, registrationId, now, qrDataUrl,
      old(store.registrations), old(store.demographics), store.registrations, store.demographics, reply)
  {
    var code := TicketCode(ticketBytes);
    var newReg := NewRegistration(registrationId, e.rowKey, u.userId, Trim(fullName), Trim(b.email),
      Trim(company), code, "attendee");
    assert newReg == NewRegistrationFor(e, u, b, ticketBytes, registrationId);
    var stored := store.StoreRegistration(newReg, now);
    if stored.None? {
      return InternalError();
    }
    var newDem := NewDemographics(e.rowKey, registrationId, b.employmentStatus, b.industry, jobTitle,
      b.companySize, b.experienceLevel);
    assert newDem == NewDemographicsFor(e, b, registrationId);
    var dem := store.StoreDemographics(newDem);
    if dem.None? {
      return InternalError();
    }
    return Done(201, Registered(TicketFor(e, newReg, qrDataUrl)));
  }

  /** An admitted registration keeps every signed-in user to one registration per event. */
  lemma AdmitKeepsOneRegistration(events: seq<Event>, registrations: seq<Registration>, user: User,
                                  body: Option<RegisterBody>, reg: Registration)
    requires OneRegistrationPerUser(registrations)
    requires Screen(events, registrations, user, body).Admit?
    requires reg.partitionKey == Screen(events, registrations, user, body).event.rowKey && reg.userId == user.userId
    ensures OneRegistrationPerUser(Insert(registrations, reg, RegistrationKey))
  {
    InsertContents(registrations, reg, RegistrationKey);
  }

  /**
   * Of several events sharing the slug, the one registered for is the one the
   * table lists first: the least (partitionKey, rowKey).
   */
  lemma AdmitPicksKeyLeast(events: seq<Event>, registrations: seq<Registration>, user: User,
                           body: Option<RegisterBody>, other: Event)
    requires SortedByKey(events, EventKey)
    requires Screen(events, registrations, user, body).Admit?
    requires other in events && other.slug == body.value.eventSlug
    requires other != Screen(events, registrations, user, body).event
    ensures KeyLess(EventKey(Screen(events, registrations, user, body).event), EventKey(other))
  {
    FindIsKeyLeast(events, EventWithSlug(body.value.eventSlug), EventKey, other);
  }

  /**
   * A 409 reports the ticket code of the user's registration with the least
   * key in the event's partition: any other registration of the user there
   * with a different code has a greater key than one carrying the reported code.
   */
  lemma DuplicateReportsKeyLeast(events: seq<Event>, registrations: seq<Registration>, user: User,
                                 body: Option<RegisterBody>, other: Registration)
    requires SortedByKey(registrations, RegistrationKey)
    requires Screen(events, registrations, user, body).Refuse? && Screen(events, registrations, user, body).reply.status == 409
    requires other in registrations && other.userId == user.userId
    requires other.partitionKey == Find(events, EventWithSlug(body.value.eventSlug)).value.rowKey
    requires other.ticketCode != Screen(events, registrations, user, body).reply.data.value.ticketCode
    ensures exists x ::
      && x in registrations && x.userId == user.userId && x.partitionKey == other.partitionKey
      && x.ticketCode == Screen(events, registrations, user, body).reply.data.value.ticketCode
      && KeyLess(RegistrationKey(x), RegistrationKey(other))
  {
    var existing := Filter(registrations, RegistrationOfEvent(other.partitionKey));
    SortedFilter(registrations, RegistrationOfEvent(other.partitionKey), RegistrationKey);
    assert other in existing;
    var x := Find(existing, RegistrationOfUser(user.userId)).value;
    FindIsKeyLeast(existing, RegistrationOfUser(user.userId), RegistrationKey, other);
    assert x in existing;
  }
}
