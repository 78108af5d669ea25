/**
 * POST /api/cancelRegistration (api/src/functions/cancelRegistration.js): a
 * signed-in user cancels one of their own registrations, unless it has been
 * checked in. The registration and the demographics row at the same key are
 * deleted.
 */
module CancelRegistration {
  import opened Wrappers
  import opened Http
  import opened Auth
  import opened Tables
  import opened TableStorage

  datatype CancelBody = CancelBody(registrationId: string)

  const Cancelled := "Registration cancelled successfully"

  function RegistrationWithRowKey(id: string): Registration -> bool {
    (r: Registration) => r.rowKey == id
  }

  /**
   * `userRegs.find(r => r.rowKey === registrationId)` over the caller's
   * registrations: only a row of this user can be found.
   */
  function FindOwn(registrations: seq<Registration>, userId: string, id: string): (r: Option<Registration>)
    ensures r.Some? ==> r.value in registrations && r.value.userId == userId && r.value.rowKey == id
    ensures r.None? <==> forall x :: x in registrations && x.userId == userId ==> x.rowKey != id
  {
    Find(Filter(registrations, RegistrationOfUser(userId)), RegistrationWithRowKey(id))
  }

  method Cancel(store: Store, user: Option<User>, body: Option<CancelBody>) returns (reply: Reply<string>)
    requires store.Valid()
    modifies store`registrations, store`demographics
    ensures store.Valid()
    ensures user.None? ==> reply == Unauthorised("") && unchanged(store)
    ensures user.Some? && body.None? ==> reply == Fail(400, InvalidJson) && unchanged(store)
    ensures user.Some? && body.Some? && body.value.registrationId == "" ==>
      reply == Fail(400, "Missing required field: registrationId") && unchanged(store)
    ensures user.Some? && body.Some? && body.value.registrationId != "" ==>
      match FindOwn(old(store.registrations), user.value.userId, body.value.registrationId)
      case None => reply == Fail(404, "Registration not found") && unchanged(store)
      case Some(r) =>
        if r.checkedIn.Truthy() then
          reply == Fail(400, "Cannot cancel — you have already checked in to this event") && unchanged(store)
        else
          && reply == Done(200, Cancelled)
          && store.registrations == Filter(old(store.registrations), RegistrationNotAt(RegistrationKey(r)))
          && store.demographics == Filter(old(store.demographics), DemographicsNotAt(RegistrationKey(r)))
  {
    if user.None? {
      return Unauthorised("");
    }
    if body.None? {
      return Fail(400, InvalidJson);
    }
    var id := body.value.registrationId;
    if id == "" {
      return Fail(400, "Missing required field: registrationId");
    }
    var userRegs := store.GetRegistrationsByUser(user.value.userId);
    var reg := ScanFirst(userRegs, RegistrationWithRowKey(id));
    if reg.None? {
      return Fail(404, "Registration not found");
    }
    var r := reg.value;
    if r.checkedIn.Truthy() {
      return Fail(400, "Cannot cancel — you have already checked in to this event");
    }
    store.DeleteRegistration(r.partitionKey, r.rowKey);
    store.DeleteDemographics(r.partitionKey, r.rowKey);
    return Done(200, Cancelled);
  }

  /**
   * Once a user's registration is cancelled, registering again for that event
   * no longer meets the duplicate check: no other row of that user is left in
   * the event.
   */
  lemma CancelClearsDuplicate(registrations: seq<Registration>, r: Registration)
    requires OneRegistrationPerUser(registrations)
    requires r in registrations && r.userId != ""
    ensures Find(Filter(Filter(registrations, RegistrationNotAt(RegistrationKey(r))), RegistrationOfEvent(r.partitionKey)),
                 RegistrationOfUser(r.userId)).None?
  {
    var rest := Filter(Filter(registrations, RegistrationNotAt(RegistrationKey(r))), RegistrationOfEvent(r.partitionKey));
    forall x | x in rest ensures x.userId != r.userId {
      assert x in registrations && RegistrationKey(x) != RegistrationKey(r) && x.partitionKey == r.partitionKey;
    }
  }
}
