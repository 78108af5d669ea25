/**
 * POST /api/adminRegister (api/src/functions/adminRegister.js): an administrator
 * registers someone for an event by its id, with a role. Duplicates are found by
 * email rather than by user, speakers, sponsors and organisers may exceed the
 * cap, and a closed (but not completed) event still accepts registrations.
 */
module AdminRegister {
  import opened Wrappers
  import opened JsString
  import opened Http
  import opened Auth
  import opened Sanitise
  import opened Tables
  import opened TableStorage
  import opened Tickets

  datatype AdminRegisterBody = AdminRegisterBody(eventId: string, name: string, email: string, role: string)

  /** The `registration` object of the 201 reply. */
  datatype AdminRegistered = AdminRegistered(id: string, ticketCode: string, role: string, fullName: string, email: string)

  datatype Screened = Refuse(reply: Reply<AdminRegistered>) | Admit(event: Event, role: string)

  /** The roles that may register past a full event. */
  const CapBypassRoles: seq<string> := ["speaker", "sponsor", "organiser"]

  const MissingFields := "Missing eventId, name, or email"
  const EventNotFound := "Event not found"
  const EventCompleted := "Cannot register for a completed event"
  const DuplicateEmail := "This email is already registered for this event"
  const CapacityMessage := "Event is at capacity. Only speaker, sponsor, or organiser roles can bypass the cap."

  /** The message lists `ValidRoles` joined by ", ". */
  const InvalidRoleMessage := "Invalid role. Must be one of: attendee, volunteer, speaker, sponsor, organiser"

  /** `role || 'attendee'`. */
  function AssignedRole(role: string): (r: string)
    ensures role != "" ==> r == role
    ensures role == "" ==> r == "attendee"
  {
    if role == "" then "attendee" else role
  }

  /** The duplicate test: the stored email, lower-cased, is the trimmed input lower-cased. */
  predicate SameEmail(r: Registration, email: string) {
    Lower(r.email) == Lower(Trim(email))
  }

  function EmailIs(email: string): Registration -> bool {
    (r: Registration) => SameEmail(r, email)
  }

  /** Some row of `existing` has the e-mail, ignoring case and surrounding white space. */
  predicate EmailTaken(existing: seq<Registration>, email: string) {
    exists x :: x in existing && SameEmail(x, email)
  }

  /** The event's cap is set and reached. */
  predicate Full(e: Event, existing: seq<Registration>) {
    e.registrationCap > 0 && |existing| >= e.registrationCap
  }

  /** The guard chain after the identity and admin checks. */
  function Screen(events: seq<Event>, registrations: seq<Registration>, body: Option<AdminRegisterBody>): (r: Screened)
    ensures body.None? ==> r == Refuse(Fail(400, InvalidJson))
    ensures body.Some? ==>
      var b := body.value;
      var present := b.eventId != "" && b.name != "" && b.email != "";
      var roleOk := present && AssignedRole(b.role) in ValidRoles;
      var found := Find(events, EventWithRowKey(b.eventId));
      && (!present <==> r == Refuse(Fail(400, MissingFields)))
      && (present && !roleOk <==> r == Refuse(Fail(400, InvalidRoleMessage)))
      && (roleOk && found.None? <==> r == Refuse(Fail(400, EventNotFound)))
      && (roleOk && found.Some? && found.value.status == "completed"
          <==> r == Refuse(Fail(400, EventCompleted)))
      && (roleOk && found.Some? && found.value.status != "completed" ==>
            r == ScreenForEvent(Filter(registrations, RegistrationOfEvent(b.eventId)), b, AssignedRole(b.role), found.value))
    ensures r.Refuse? ==> r.reply.status in {400, 409} && r.reply.data.None?
    ensures r.Admit? <==>
      && body.Some? && Find(events, EventWithRowKey(body.value.eventId)).Some?
      && Admissible(events, registrations, body.value, Find(events, EventWithRowKey(body.value.eventId)).value,
                    AssignedRole(body.value.role))
    ensures r.Admit? ==> r.event == Find(events, EventWithRowKey(body.value.eventId)).value && r.role == AssignedRole(body.value.role)
  {
    if body.None? then Refuse(Fail(400, InvalidJson))
    else
      var b := body.value;
      if b.eventId == "" || b.name == "" || b.email == "" then Refuse(Fail(400, MissingFields))
      else
        var role := AssignedRole(b.role);
        if role !in ValidRoles then Refuse(Fail(400, InvalidRoleMessage))
        else match Find(events, EventWithRowKey(b.eventId))
          case None => Refuse(Fail(400, EventNotFound))
          case Some(e) =>
            if e.status == "completed" then Refuse(Fail(400, EventCompleted))
            else ScreenForEvent(Filter(registrations, RegistrationOfEvent(b.eventId)), b, role, e)
  }

  /**
   * The duplicate and capacity guards once the event is known; `existing` is
   * the event's registrations. A 409 means one of them has the e-mail; a full
   * event refuses every role but the cap-bypassing ones with a 400.
   */
  function ScreenForEvent(existing: seq<Registration>, b: AdminRegisterBody, role: string, e: Event): (r: Screened)
    ensures r.Refuse? ==> r.reply.data.None?
    ensures EmailTaken(existing, b.email) <==> r == Refuse(Fail(409, DuplicateEmail))
    ensures !EmailTaken(existing, b.email) && Full(e, existing) && role !in CapBypassRoles
      <==> r == Refuse(Fail(400, CapacityMessage))
    ensures r.Admit? <==> !EmailTaken(existing, b.email) && (Full(e, existing) ==> role in CapBypassRoles)
    ensures r.Admit? ==> r == Admit(e, role)
  {
    var found := Find(existing, EmailIs(b.email));
    if found.Some? then
      assert EmailIs(b.email)(found.value);
      Refuse(Fail(409, DuplicateEmail))
    else if Full(e, existing) && role !in CapBypassRoles then
      assert forall x :: x in existing ==> !EmailIs(b.email)(x);
      Refuse(Fail(400, CapacityMessage))
    else
      assert forall x :: x in existing ==> !EmailIs(b.email)(x);
      Admit(e, role)
  }

  /** Everything an admitted request has been checked for. */
  predicate Admissible(events: seq<Event>, registrations: seq<Registration>, b: AdminRegisterBody, e: Event, role: string) {
    var existing := Filter(registrations, RegistrationOfEvent(b.eventId));
    && b.eventId != "" && b.name != "" && b.email != ""
    && role == AssignedRole(b.role) && role in ValidRoles
    && e in events && e.rowKey == b.eventId && e.status != "completed"
    && !EmailTaken(existing, b.email)
    && (Full(e, existing) ==> role in CapBypassRoles)
  }

  /**
   * A closed event still takes administrator registrations; only a completed
   * one is refused. At a full event a speaker, sponsor or organiser is
   * admitted, any other role is refused with 400.
   */
  lemma ClosedOrFullEventAdmits(events: seq<Event>, registrations: seq<Registration>, b: AdminRegisterBody)
    requires b.eventId != "" && b.name != "" && b.email != "" && AssignedRole(b.role) in ValidRoles
    requires Find(events, EventWithRowKey(b.eventId)).Some? && Find(events, EventWithRowKey(b.eventId)).value.status == "closed"
    requires !EmailTaken(Filter(registrations, RegistrationOfEvent(b.eventId)), b.email)
    ensures var e, role := Find(events, EventWithRowKey(b.eventId)).value, AssignedRole(b.role);
      var full := Full(e, Filter(registrations, RegistrationOfEvent(b.eventId)));
      && (!full || role in CapBypassRoles ==> Screen(events, registrations, Some(b)) == Admit(e, role))
      && (full && role !in CapBypassRoles ==>
            Screen(events, registrations, Some(b)) == Refuse(Fail(400, CapacityMessage)))
  {
  }

  /** The registration written: no user, no company, the name and email stripped of tags and trimmed. */
  function NewRegistrationFor(b: AdminRegisterBody, role: string, bytes: seq<Byte>, id: string): (r: NewRegistration)
    requires |bytes| == 5
    ensures r.eventId == b.eventId && r.id == id && r.userId == "" && r.company == ""
    ensures r.fullName == Trim(StripTags(b.name)) && r.email == Trim(StripTags(b.email))
    ensures r.ticketCode == TicketCode(bytes) && r.role == role
  {
    NewRegistration(id, b.eventId, "", Trim(StripTags(b.name)), Trim(StripTags(b.email)), "", TicketCode(bytes), role)
  }

  /**
   * The handler: 401 without identity, 403 without the admin role, then the
   * guard chain; an admitted request adds exactly one registration (no
   * demographics) and replies 201 with the assigned role.
   */
  method AdminRegister(
    store: Store, user: Option<User>, body: Option<AdminRegisterBody>, ticketBytes: seq<Byte>,
    registrationId: string, now: string)
    returns (reply: Reply<AdminRegistered>)
    requires store.Valid() && |ticketBytes| == 5
    modifies store`registrations
    ensures store.Valid()
    ensures user.None? ==> reply == Unauthorised("") && unchanged(store)
    ensures user.Some? && !HasRole(user, "admin") ==>
      reply == Forbidden("Only chapter leads can admin-register") && unchanged(store)
    ensures HasRole(user, "admin") ==>
      match Screen(old(store.events), old(store.registrations), body)
      case Refuse(r) => reply == r && unchanged(store)
      case Admit(e, role) => Written(body.value, role, ticketBytes, registrationId, now,
        old(store.registrations), store.registrations, reply)
  {
    if user.None? {
      return Unauthorised("");
    }
    if !HasRole(user, "admin") {
      return Forbidden("Only chapter leads can admin-register");
    }
    reply := AdminRegisterChecked(store, body, ticketBytes, registrationId, now);
  }

  method AdminRegisterChecked(store: Store, body: Option<AdminRegisterBody>, ticketBytes: seq<Byte>,
    registrationId: string, now: string)
    returns (reply: Reply<AdminRegistered>)
    requires store.Valid() && |ticketBytes| == 5
    modifies store`registrations
    ensures store.Valid()
    ensures match Screen(old(store.events), old(store.registrations), body)
      case Refuse(r) => reply == r && unchanged(store)
      case Admit(e, role) => Written(body.value, role, ticketBytes, registrationId, now,
        old(store.registrations), store.registrations, reply)
  {
    if body.None? {
      return Fail(400, InvalidJson);
    }
    var b := body.value;
    if b.eventId == "" || b.name == "" || b.email == "" {
      return Fail(400, MissingFields);
    }
    var role := AssignedRole(b.role);
    if role !in ValidRoles {
      return Fail(400, InvalidRoleMessage);
    }
    var event := store.GetEventById(b.eventId);
    if event.None? {
      return Fail(400, EventNotFound);
    }
    var e := event.value;
    if e.status == "completed" {
      return Fail(400, EventCompleted);
    }
    reply := AdminRegisterForEvent(store, b, role, e, ticketBytes, registrationId, now);
  }

  /** What an admitted request writes and replies. */
  ghost predicate Written(b: AdminRegisterBody, role: string, ticketBytes: seq<Byte>, registrationId: string, now: string,
    oldRegistrations: seq<Registration>, registrations: seq<Registration>, reply: Reply<AdminRegistered>)
    requires |ticketBytes| == 5
  {
    var newReg := NewRegistrationFor(b, role, ticketBytes, registrationId);
    var reg := RegistrationEntity(newReg, now);
    if HasKey(oldRegistrations, RegistrationKey, RegistrationKey(reg)) then
      reply == InternalError() && registrations == oldRegistrations
    else
      && registrations == Insert(oldRegistrations, reg, RegistrationKey)
      && reply == Done(201, AdminRegistered(registrationId, newReg.ticketCode, role, newReg.fullName, newReg.email))
  }

  method AdminRegisterForEvent(store: Store, b: AdminRegisterBody, role: string, e: Event, ticketBytes: seq<Byte>,
    registrationId: string, now: string)
    returns (reply: Reply<AdminRegistered>)
    requires store.Valid() && |ticketBytes| == 5
    modifies store`registrations
    ensures store.Valid()
    ensures match ScreenForEvent(Filter(old(store.registrations), RegistrationOfEvent(b.eventId)), b, role, e)
      case Refuse(r) => reply == r && unchanged(store)
      case Admit(_, _) => Written(b, role, ticketBytes, registrationId, now, old(store.registrations), store.registrations, reply)
  {
    ghost var screened := ScreenForEvent(Filter(store.registrations, RegistrationOfEvent(b.eventId)), b, role, e);
    var existing := store.GetRegistrationsByEvent(b.eventId);
    var already := ScanFirst(existing, EmailIs(b.email));
    if already.Some? {
      return Fail(409, DuplicateEmail);
    }
    if Full(e, existing) && role !in CapBypassRoles {
      return Fail(400, CapacityMessage);
    }
    assert screened == Admit(e, role);
    reply := WriteRegistration(store, b, role, ticketBytes, registrationId, now);
  }

  /** The write of an admitted request: one registration, and the 201 reply. */
  method WriteRegistration(store: Store, b: AdminRegisterBody, role: string, ticketBytes: seq<Byte>,
    registrationId: string, now: string)
    returns (reply: Reply<AdminRegistered>)
    requires store.Valid() && |ticketBytes| == 5
    modifies store`registrations
    ensures store.Valid()
    ensures Written(b, role, ticketBytes, registrationId, now, old(store.registrations), store.registrations, reply)
  {
    var code := TicketCode(ticketBytes);
    var newReg := NewRegistration(registrationId, b.eventId, "", Trim(StripHtml(Str(b.name))),
      Trim(StripHtml(Str(b.email))), "", code, role);
    assert newReg == NewRegistrationFor(b, role, ticketBytes, registrationId);
    var stored := store.StoreRegistration(newReg, now);
    if stored.None? {
      return InternalError();
    }
    return Done(201, AdminRegistered(registrationId, code, role, newReg.fullName, newReg.email));
  }

  /** Rows written without a user leave the one-registration-per-user rule intact. */
  lemma AdminRowKeepsOneRegistration(registrations: seq<Registration>, reg: Registration)
    requires OneRegistrationPerUser(registrations) && reg.userId == ""
    ensures OneRegistrationPerUser(Insert(registrations, reg, RegistrationKey))
  {
    InsertContents(registrations, reg, RegistrationKey);
  }
}
