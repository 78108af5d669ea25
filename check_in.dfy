/**
 * POST /api/checkIn (api/src/functions/checkIn.js): an administrator or
 * volunteer checks a ticket in. The first scan of a ticket marks its
 * registration checked in at the current time; every later scan reports when
 * that happened and writes nothing.
 */
module CheckIn {
  import opened Wrappers
  import opened Http
  import opened Auth
  import opened Tables
  import opened TableStorage

  const NotStaff := "Only event organisers and volunteers can check in attendees"
  const MissingFields := "Missing ticketCode or eventId"
  const InvalidTicket := "Invalid ticket"

  datatype CheckInBody = CheckInBody(ticketCode: string, eventId: string)

  /** The `status` member of the reply, with what accompanies it. */
  datatype CheckInResult = Invalid | AlreadyCheckedIn(attendeeName: string, checkedInAt: string) | CheckedIn(attendeeName: string)

  /** `{ checkedIn: true, checkedInAt: now }`. */
  function CheckInUpdate(now: string): (u: RegistrationUpdate)
    ensures u.checkedIn == Some(Bool(true)) && u.checkedInAt == Some(now) && u.role.None?
  {
    RegistrationUpdate(Some(Bool(true)), Some(now), None)
  }

  /** Administrators and volunteers may check tickets in. */
  predicate MayCheckIn(user: Option<User>) {
    HasRole(user, "admin") || HasRole(user, "volunteer")
  }

  method CheckIn(store: Store, user: Option<User>, body: Option<CheckInBody>, now: string)
    returns (reply: Reply<CheckInResult>)
    requires store.Valid()
    modifies store`registrations
    ensures store.Valid()
    ensures user.None? ==> reply == Unauthorised("") && unchanged(store)
    ensures user.Some? && !MayCheckIn(user) ==>
      reply == Forbidden(NotStaff) && unchanged(store)
    ensures MayCheckIn(user) && body.None? ==>
      reply == Fail(400, InvalidJson) && unchanged(store)
    ensures (MayCheckIn(user) && body.Some? && (body.value.ticketCode == "" || body.value.eventId == "")) ==>
      reply == Fail(400, MissingFields) && unchanged(store)
    ensures (MayCheckIn(user) && body.Some? && body.value.ticketCode != "" && body.value.eventId != "") ==>
      Scanned(old(store.registrations), body.value, now, store.registrations, reply)
  {
    if user.None? {
      return Unauthorised("");
    }
    if !HasRole(user, "admin") && !HasRole(user, "volunteer") {
      return Forbidden(NotStaff);
    }
    if body.None? {
      return Fail(400, InvalidJson);
    }
    var b := body.value;
    if b.ticketCode == "" || b.eventId == "" {
      return Fail(400, MissingFields);
    }
    reply := Scan(store, b, now);
  }

  /**
   * What a scan of a ticket does: 404 for an unknown ticket, the earlier time
   * for one already checked in, otherwise the registration is rewritten
   * checked in at `now`.
   */
  ghost predicate Scanned(before: seq<Registration>, b: CheckInBody, now: string, registrations: seq<Registration>,
                          reply: Reply<CheckInResult>)
  {
    match Find(before, RegistrationWithTicket(b.eventId, b.ticketCode))
    case None => reply == Reply(404, InvalidTicket, Some(Invalid)) && registrations == before
    case Some(r) =>
      if r.checkedIn.Truthy() then
        reply == Done(200, AlreadyCheckedIn(r.fullName, r.checkedInAt)) && registrations == before
      else
        && reply == Done(200, CheckedIn(r.fullName))
        && registrations == MapWhere(before, RegistrationAt(RegistrationKey(r)), ApplyRegistrationUpdate(CheckInUpdate(now)))
  }

  /** The lookup and the write, once the caller and the body are checked. */
  method Scan(store: Store, b: CheckInBody, now: string) returns (reply: Reply<CheckInResult>)
    requires store.Valid()
    modifies store`registrations
    ensures store.Valid()
    ensures Scanned(old(store.registrations), b, now, store.registrations, reply)
  {
    var registration := store.GetRegistrationByTicketCode(b.eventId, b.ticketCode);
    if registration.None? {
      return Reply(404, InvalidTicket, Some(Invalid));
    }
    var r := registration.value;
    if r.checkedIn.Truthy() {
      return Done(200, AlreadyCheckedIn(r.fullName, r.checkedInAt));
    }
    assert exists i :: 0 <= i < |store.registrations| && store.registrations[i] == r;
    var updated := store.UpdateRegistration(b.eventId, r.rowKey, CheckInUpdate(now));
    return Done(200, CheckedIn(r.fullName));
  }

  /**
   * After a first check-in, the same ticket is found again as the rewritten row:
   * checked in, at the time of the first call. A second call therefore answers
   * `already_checked_in` with that time and writes nothing.
   */
  lemma SecondScanSeesFirstCheckIn(registrations: seq<Registration>, eventId: string, code: string, now: string)
    requires UniqueKeys(registrations, RegistrationKey)
    requires Find(registrations, RegistrationWithTicket(eventId, code)).Some?
    requires !Find(registrations, RegistrationWithTicket(eventId, code)).value.checkedIn.Truthy()
    ensures var r := Find(registrations, RegistrationWithTicket(eventId, code)).value;
      var after := MapWhere(registrations, RegistrationAt(RegistrationKey(r)), ApplyRegistrationUpdate(CheckInUpdate(now)));
      var again := Find(after, RegistrationWithTicket(eventId, code));
      && again.Some? && again.value.checkedIn.Truthy() && again.value.checkedInAt == now
      && again.value.fullName == r.fullName && RegistrationKey(again.value) == RegistrationKey(r)
  {
    var r := Find(registrations, RegistrationWithTicket(eventId, code)).value;
    FindAfterRewrite(registrations, RegistrationWithTicket(eventId, code), RegistrationAt(RegistrationKey(r)),
      ApplyRegistrationUpdate(CheckInUpdate(now)), RegistrationKey, r);
  }

  /** A check-in rewrites only the scanned registration; every other row is as it was. */
  lemma CheckInTouchesOneRow(registrations: seq<Registration>, r: Registration, now: string, i: int)
    requires UniqueKeys(registrations, RegistrationKey)
    requires 0 <= i < |registrations| && registrations[i] != r && r in registrations
    ensures MapWhere(registrations, RegistrationAt(RegistrationKey(r)), ApplyRegistrationUpdate(CheckInUpdate(now)))[i]
      == registrations[i]
  {
    var j :| 0 <= j < |registrations| && registrations[j] == r;
    assert i != j;
    assert RegistrationKey(registrations[i]) != RegistrationKey(registrations[j]);
  }
}
