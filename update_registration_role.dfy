/**
 * POST /api/updateRegistrationRole (api/src/functions/updateRegistrationRole.js):
 * an administrator sets one role on a list of registrations of an event. Each
 * id is handled on its own: an unknown id or a failed write adds an entry to
 * `errors`, the others are merged, and the reply counts the merges.
 *
 * Whether a write to the table throws is a parameter, `writeError`, giving the
 * error message for an id whose write fails.
 */
module UpdateRegistrationRole {
  import opened Wrappers
  import opened Http
  import opened Auth
  import opened Tables
  import opened TableStorage

  /** `registrationIds` is None when it is missing or not an array. */
  datatype RoleBody = RoleBody(eventId: string, registrationIds: Option<seq<string>>, role: string)

  datatype RoleError = RoleError(id: string, error: string)

  /** `errors` is omitted (None) when no id failed. */
  datatype RoleResult = RoleResult(updated: nat, errors: Option<seq<RoleError>>)

  const NotFound := "Registration not found"
  const InvalidRoleMessage := "Invalid role. Must be one of: attendee, volunteer, speaker, sponsor, organiser"

  function RoleUpdate(role: string): (u: RegistrationUpdate)
    ensures u.role == Some(role) && u.checkedIn.None? && u.checkedInAt.None?
  {
    RegistrationUpdate(None, None, Some(role))
  }

  /** `regMap[regId]` is set: the event has a registration with that row key. */
  ghost function Known(registrations: seq<Registration>, eventId: string): string -> bool {
    id => exists x :: x in registrations && x.partitionKey == eventId && x.rowKey == id
  }

  /** The errors the loop collects over `ids`, in request order. */
  function RoleErrors(ids: seq<string>, known: string -> bool, writeError: string -> Option<string>): (r: seq<RoleError>)
    ensures |r| <= |ids|
    ensures forall e :: e in r ==> e.id in ids
  {
    if |ids| == 0 then []
    else
      var last := ids[|ids| - 1];
      RoleErrors(ids[..|ids| - 1], known, writeError)
        + (if !known(last) then [RoleError(last, NotFound)]
           else if writeError(last).Some? then [RoleError(last, writeError(last).value)]
           else [])
  }

  /** The rows the loop merges the role into: the event's rows named in `ids` whose write succeeds. */
  function Written(eventId: string, ids: seq<string>, writeError: string -> Option<string>): Registration -> bool {
    (r: Registration) => r.partitionKey == eventId && r.rowKey in ids && writeError(r.rowKey).None?
  }

  function NoWriteErrors(): string -> Option<string> {
    id => None
  }

  function NotFoundErrors(ids: seq<string>): (r: seq<RoleError>)
    ensures |r| == |ids|
    ensures forall i :: 0 <= i < |ids| ==> r[i] == RoleError(ids[i], NotFound)
  {
    seq(|ids|, i requires 0 <= i < |ids| => RoleError(ids[i], NotFound))
  }

  function Unknown(known: string -> bool): string -> bool {
    id => !known(id)
  }

  lemma NotFoundErrorsSnoc(a: seq<string>, x: string)
    ensures NotFoundErrors(a + [x]) == NotFoundErrors(a) + [RoleError(x, NotFound)]
  {
    var l, r := NotFoundErrors(a + [x]), NotFoundErrors(a) + [RoleError(x, NotFound)];
    assert |l| == |r|;
    forall i | 0 <= i < |l| ensures l[i] == r[i] {
      if i < |a| {
        assert (a + [x])[i] == a[i];
      }
    }
  }

  /** A known id at the end adds no error, and is not among the unknown ids. */
  lemma KnownLast(front: seq<string>, last: string, known: string -> bool)
    requires known(last)
    ensures RoleErrors(front + [last], known, NoWriteErrors()) == RoleErrors(front, known, NoWriteErrors())
    ensures Filter(front + [last], Unknown(known)) == Filter(front, Unknown(known))
  {
    var ids, w := front + [last], NoWriteErrors();
    assert ids[..|ids| - 1] == front && ids[|ids| - 1] == last;
    assert w(last).None?;
    FilterAppend(front, last, Unknown(known));
  }

  /** An unknown id at the end adds its "not found" error, and is the last unknown id. */
  lemma UnknownLast(front: seq<string>, last: string, known: string -> bool)
    requires !known(last)
    ensures RoleErrors(front + [last], known, NoWriteErrors()) == RoleErrors(front, known, NoWriteErrors()) + [RoleError(last, NotFound)]
    ensures Filter(front + [last], Unknown(known)) == Filter(front, Unknown(known)) + [last]
  {
    var ids := front + [last];
    assert ids[..|ids| - 1] == front && ids[|ids| - 1] == last;
    FilterAppend(front, last, Unknown(known));
  }

  /** When no write fails, the errors are exactly the unknown ids, in request order. */
  lemma {:induction false} ErrorsAreUnknownIds(ids: seq<string>, known: string -> bool)
    ensures RoleErrors(ids, known, NoWriteErrors()) == NotFoundErrors(Filter(ids, Unknown(known)))
  {
    if |ids| > 0 {
      var front, last := ids[..|ids| - 1], ids[|ids| - 1];
      ErrorsAreUnknownIds(front, known);
      assert ids == front + [last];
      if known(last) {
        KnownLast(front, last, known);
      } else {
        UnknownLast(front, last, known);
        NotFoundErrorsSnoc(Filter(front, Unknown(known)), last);
      }
    }
  }

  function RoleReply(ids: seq<string>, errors: seq<RoleError>): Reply<RoleResult>
    requires |errors| <= |ids|
  {
    Done(200, RoleResult(|ids| - |errors|, if |errors| > 0 then Some(errors) else None))
  }

  method UpdateRoles(store: Store, user: Option<User>, body: Option<RoleBody>, writeError: string -> Option<string>)
    returns (reply: Reply<RoleResult>)
    requires store.Valid()
    modifies store`registrations
    ensures store.Valid()
    ensures user.None? ==> reply == Unauthorised("") && unchanged(store)
    ensures user.Some? && !HasRole(user, "admin") ==> reply == Forbidden("Only chapter leads can update roles") && unchanged(store)
    ensures HasRole(user, "admin") && body.None? ==> reply == Fail(400, InvalidJson) && unchanged(store)
    ensures (HasRole(user, "admin") && body.Some? && MissingField(body.value)) ==>
      reply == Fail(400, "Missing eventId, registrationIds (array), or role") && unchanged(store)
    ensures (HasRole(user, "admin") && body.Some? && !MissingField(body.value) && body.value.role !in ValidRoles) ==>
      reply == Fail(400, InvalidRoleMessage) && unchanged(store)
    ensures (HasRole(user, "admin") && body.Some? && !MissingField(body.value) && body.value.role in ValidRoles) ==>
      var b := body.value;
      var ids := b.registrationIds.value;
      var errors := RoleErrors(ids, Known(old(store.registrations), b.eventId), writeError);
      && reply == RoleReply(ids, errors)
      && store.registrations == MapWhere(old(store.registrations), Written(b.eventId, ids, writeError),
           ApplyRegistrationUpdate(RoleUpdate(b.role)))
  {
    if user.None? {
      return Unauthorised("");
    }
    if !HasRole(user, "admin") {
      return Forbidden("Only chapter leads can update roles");
    }
    if body.None? {
      return Fail(400, InvalidJson);
    }
    var b := body.value;
    if MissingField(b) {
      return Fail(400, "Missing eventId, registrationIds (array), or role");
    }
    if b.role !in ValidRoles {
      return Fail(400, InvalidRoleMessage);
    }
    var errors := RoleLoop(store, b.eventId, b.registrationIds.value, b.role, writeError);
    reply := RoleReply(b.registrationIds.value, errors);
  }

  predicate MissingField(b: RoleBody) {
    b.eventId == "" || b.registrationIds.None? || |b.registrationIds.value| == 0 || b.role == ""
  }

  /** `regMap`: each row key of the event's registrations, mapped to its row. */
  method BuildRegMap(registrations: seq<Registration>) returns (regMap: map<string, Registration>)
    ensures forall id :: id in regMap <==> exists x :: x in registrations && x.rowKey == id
  {
    regMap := map[];
    var k := 0;
    while k < |registrations|
      invariant 0 <= k <= |registrations|
      invariant forall id :: id in regMap <==> exists j :: 0 <= j < k && registrations[j].rowKey == id
    {
      regMap := regMap[registrations[k].rowKey := registrations[k]];
      k := k + 1;
    }
  }

  /** One more id handled: the error it adds, if any. */
  lemma RoleErrorsStep(ids: seq<string>, i: nat, known: string -> bool, writeError: string -> Option<string>)
    requires i < |ids|
    ensures RoleErrors(ids[..i + 1], known, writeError) == RoleErrors(ids[..i], known, writeError)
      + (if !known(ids[i]) then [RoleError(ids[i], NotFound)]
         else if writeError(ids[i]).Some? then [RoleError(ids[i], writeError(ids[i]).value)]
         else [])
  {
    var pre := ids[..i + 1];
    assert pre[..|pre| - 1] == ids[..i] && pre[|pre| - 1] == ids[i];
  }

  /** An id that is unknown or whose write fails leaves the rows as they were. */
  lemma SkippedStep(original: seq<Registration>, eventId: string, ids: seq<string>, i: nat,
    writeError: string -> Option<string>, f: Registration -> Registration)
    requires i < |ids|
    requires !Known(original, eventId)(ids[i]) || writeError(ids[i]).Some?
    ensures MapWhere(original, Written(eventId, ids[..i], writeError), f)
         == MapWhere(original, Written(eventId, ids[..i + 1], writeError), f)
  {
    assert ids[..i + 1] == ids[..i] + [ids[i]];
    forall x | x in original
      ensures Written(eventId, ids[..i], writeError)(x) == Written(eventId, ids[..i + 1], writeError)(x)
    {
      assert x.rowKey in ids[..i + 1] <==> x.rowKey in ids[..i] || x.rowKey == ids[i];
    }
    MapWhereCongruent(original, Written(eventId, ids[..i], writeError), Written(eventId, ids[..i + 1], writeError), f);
  }

  /** A known id whose write succeeds: merging its row once more is the rewrite over one more id. */
  lemma WrittenStep(original: seq<Registration>, eventId: string, ids: seq<string>, i: nat,
    writeError: string -> Option<string>, role: string)
    requires i < |ids| && writeError(ids[i]).None?
    ensures var f := ApplyRegistrationUpdate(RoleUpdate(role));
      MapWhere(MapWhere(original, Written(eventId, ids[..i], writeError), f), RegistrationAt((eventId, ids[i])), f)
        == MapWhere(original, Written(eventId, ids[..i + 1], writeError), f)
  {
    var f := ApplyRegistrationUpdate(RoleUpdate(role));
    var before, after := Written(eventId, ids[..i], writeError), Written(eventId, ids[..i + 1], writeError);
    var q := RegistrationAt((eventId, ids[i]));
    assert ids[..i + 1] == ids[..i] + [ids[i]];
    forall x ensures before(f(x)) == before(x) && q(f(x)) == q(x) && f(f(x)) == f(x) {
    }
    forall x ensures after(x) <==> before(x) || q(x) {
      assert x.rowKey in ids[..i + 1] <==> x.rowKey in ids[..i] || x.rowKey == ids[i];
    }
    MapWhereTwice(original, before, q, after, f);
  }

  /**
   * One pass of the loop body for `ids[i]`: an error for an unknown id or a
   * failed write, otherwise the role merged into that row.
   */
  method RoleStep(store: Store, ghost original: seq<Registration>, eventId: string, ids: seq<string>, i: nat,
    regMap: map<string, Registration>, role: string, writeError: string -> Option<string>, errors: seq<RoleError>)
    returns (errors': seq<RoleError>)
    requires store.Valid() && i < |ids|
    requires forall id :: id in regMap <==> Known(original, eventId)(id)
    requires errors == RoleErrors(ids[..i], Known(original, eventId), writeError)
    requires store.registrations == MapWhere(original, Written(eventId, ids[..i], writeError), ApplyRegistrationUpdate(RoleUpdate(role)))
    modifies store`registrations
    ensures store.Valid()
    ensures errors' == RoleErrors(ids[..i + 1], Known(original, eventId), writeError)
    ensures store.registrations == MapWhere(original, Written(eventId, ids[..i + 1], writeError), ApplyRegistrationUpdate(RoleUpdate(role)))
  {
    var regId := ids[i];
    RoleErrorsStep(ids, i, Known(original, eventId), writeError);
    if regId !in regMap {
      errors' := errors + [RoleError(regId, NotFound)];
      SkippedStep(original, eventId, ids, i, writeError, ApplyRegistrationUpdate(RoleUpdate(role)));
    } else if writeError(regId).Some? {
      errors' := errors + [RoleError(regId, writeError(regId).value)];
      SkippedStep(original, eventId, ids, i, writeError, ApplyRegistrationUpdate(RoleUpdate(role)));
    } else {
      errors' := errors;
      WrittenStep(original, eventId, ids, i, writeError, role);
      var updated := store.UpdateRegistration(eventId, regId, RoleUpdate(role));
    }
  }

  /** The `for (const regId of registrationIds)` loop. */
  method RoleLoop(store: Store, eventId: string, ids: seq<string>, role: string, writeError: string -> Option<string>)
    returns (errors: seq<RoleError>)
    requires store.Valid()
    modifies store`registrations
    ensures store.Valid()
    ensures errors == RoleErrors(ids, Known(old(store.registrations), eventId), writeError)
    ensures store.registrations == MapWhere(old(store.registrations), Written(eventId, ids, writeError),
      ApplyRegistrationUpdate(RoleUpdate(role)))
  {
    var registrations := store.GetRegistrationsByEvent(eventId);
    var regMap := BuildRegMap(registrations);
    ghost var original := store.registrations;
    assert forall id :: id in regMap <==> Known(original, eventId)(id);
    errors := [];
    var i := 0;
    MapWhereNone(original, Written(eventId, [], writeError), ApplyRegistrationUpdate(RoleUpdate(role)));
    assert ids[..0] == [];
    while i < |ids|
      invariant 0 <= i <= |ids|
      invariant store.Valid()
      invariant errors == RoleErrors(ids[..i], Known(original, eventId), writeError)
      invariant store.registrations == MapWhere(original, Written(eventId, ids[..i], writeError), ApplyRegistrationUpdate(RoleUpdate(role)))
    {
      errors := RoleStep(store, original, eventId, ids, i, regMap, role, writeError, errors);
      i := i + 1;
    }
    assert ids[..i] == ids;
  }
}
