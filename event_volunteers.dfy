/**
 * /api/eventVolunteers (api/src/functions/eventVolunteers.js): an administrator
 * lists (GET), adds (POST) and removes (DELETE) the volunteers of an event.
 * Adding does not look for an existing row with the same e-mail. The table
 * lists an event's volunteers by row key, a random UUID, so the order of the
 * listing is not the order in which they were added.
 */
module EventVolunteers {
  import opened Wrappers
  import opened Http
  import opened Auth
  import opened Tables
  import opened Sanitise
  import opened TableStorage

  /** The members of a POST or DELETE body; a missing one is `""`. */
  datatype VolunteerBody = VolunteerBody(eventId: string, email: string, name: string, volunteerId: string)

  /** The request: its method, the `eventId` query parameter and the parsed body (None when not JSON). */
  datatype Request = Request(method_: string, eventIdParam: string, body: Option<VolunteerBody>)

  datatype VolunteerView = VolunteerView(id: string, email: string, name: string, addedAt: string)

  datatype VolunteersData =
    | Listed(volunteers: seq<VolunteerView>)
    | Added(id: string, email: string, name: string)
    | Removed

  function ViewOf(v: Volunteer): VolunteerView {
    VolunteerView(v.rowKey, v.email, v.name, v.addedAt)
  }

  /** The GET reply: the event's volunteers, in the table's order. */
  function Listing(volunteers: seq<Volunteer>, eventId: string): (r: seq<VolunteerView>)
    ensures |r| == |Filter(volunteers, VolunteerOfEvent(eventId))|
    ensures forall i :: 0 <= i < |r| ==>
      var v := Filter(volunteers, VolunteerOfEvent(eventId))[i];
      r[i] == ViewOf(v) && v in volunteers && v.partitionKey == eventId
  {
    var vs := Filter(volunteers, VolunteerOfEvent(eventId));
    assert forall i :: 0 <= i < |vs| ==> vs[i] in vs;
    seq(|vs|, i requires 0 <= i < |vs| => ViewOf(vs[i]))
  }

  /** What `storeVolunteer` receives for a POST: e-mail and name stripped of tags, the caller as `addedBy`. */
  function NewVolunteerOf(b: VolunteerBody, id: string, caller: User): (v: NewVolunteer)
    ensures v.id == id && v.eventId == b.eventId && v.addedBy == caller.userDetails
    ensures TagFree(v.email) && TagFree(v.name)
  {
    NewVolunteer(id, b.eventId, StripHtml(Str(b.email)), StripHtml(Str(b.name)), caller.userDetails)
  }

  /** The checks every method passes first: an identity, then the admin role. */
  function Gate(user: Option<User>): (r: Option<Reply<VolunteersData>>)
    ensures r.None? <==> HasRole(user, "admin")
    ensures user.None? ==> r == Some(Unauthorised(""))
    ensures user.Some? && !HasRole(user, "admin") ==> r == Some(Forbidden("Only chapter leads can manage volunteers"))
  {
    if user.None? then Some(Unauthorised(""))
    else if !HasRole(user, "admin") then Some(Forbidden("Only chapter leads can manage volunteers"))
    else None
  }

  method EventVolunteers(store: Store, user: Option<User>, request: Request, id: string, now: string)
    returns (reply: Reply<VolunteersData>)
    requires store.Valid()
    modifies store`volunteers
    ensures store.Valid()
    ensures Gate(user).Some? ==> reply == Gate(user).value && unchanged(store)
    ensures Gate(user).None? && request.method_ == "GET" ==>
      && unchanged(store)
      && reply == (if request.eventIdParam == "" then Fail(400, "Missing eventId")
                   else Done(200, Listed(Listing(store.volunteers, request.eventIdParam))))
    ensures Gate(user).None? && request.method_ == "POST" ==>
      if request.body.None? then reply == Fail(400, InvalidJson) && unchanged(store)
      else if request.body.value.eventId == "" || request.body.value.email == "" then
        reply == Fail(400, "Missing eventId or email") && unchanged(store)
      else
        var e := VolunteerEntity(NewVolunteerOf(request.body.value, id, user.value), now);
        if HasKey(old(store.volunteers), VolunteerKey, VolunteerKey(e)) then
          reply == InternalError() && unchanged(store)
        else
          reply == Done(201, Added(e.rowKey, e.email, e.name)) && store.volunteers == Insert(old(store.volunteers), e, VolunteerKey)
    ensures Gate(user).None? && request.method_ == "DELETE" ==>
      if request.body.None? then reply == Fail(400, InvalidJson) && unchanged(store)
      else if request.body.value.eventId == "" || request.body.value.volunteerId == "" then
        reply == Fail(400, "Missing eventId or volunteerId") && unchanged(store)
      else
        var k := (request.body.value.eventId, request.body.value.volunteerId);
        if !HasKey(old(store.volunteers), VolunteerKey, k) then reply == InternalError() && unchanged(store)
        else reply == Done(200, Removed) && store.volunteers == Filter(old(store.volunteers), VolunteerNotAt(k))
    ensures Gate(user).None? && request.method_ !in {"GET", "POST", "DELETE"} ==>
      reply == Fail(405, "Method not allowed") && unchanged(store)
  {
    var gate := Gate(user);
    if gate.Some? {
      return gate.value;
    }
    if request.method_ == "GET" {
      if request.eventIdParam == "" {
        return Fail(400, "Missing eventId");
      }
      var volunteers := store.GetVolunteersByEvent(request.eventIdParam);
      return Done(200, Listed(seq(|volunteers|, i requires 0 <= i < |volunteers| => ViewOf(volunteers[i]))));
    }
    if request.method_ == "POST" {
      if request.body.None? {
        return Fail(400, InvalidJson);
      }
      var b := request.body.value;
      if b.eventId == "" || b.email == "" {
        return Fail(400, "Missing eventId or email");
      }
      var volunteer := store.StoreVolunteer(NewVolunteerOf(b, id, user.value), now);
      if volunteer.None? {
        return InternalError();
      }
      return Done(201, Added(volunteer.value.rowKey, volunteer.value.email, volunteer.value.name));
    }
    if request.method_ == "DELETE" {
      if request.body.None? {
        return Fail(400, InvalidJson);
      }
      var b := request.body.value;
      if b.eventId == "" || b.volunteerId == "" {
        return Fail(400, "Missing eventId or volunteerId");
      }
      var removed := store.RemoveVolunteer(b.eventId, b.volunteerId);
      if !removed {
        return InternalError();
      }
      return Done(200, Removed);
    }
    return Fail(405, "Method not allowed");
  }

  /** The listing follows the row keys: each volunteer's id is below the next one's. */
  lemma ListingInIdOrder(volunteers: seq<Volunteer>, eventId: string)
    requires SortedByKey(volunteers, VolunteerKey)
    ensures var l := Listing(volunteers, eventId);
      forall i, j :: 0 <= i < j < |l| ==> StrLess(l[i].id, l[j].id)
  {
    var vs := Filter(volunteers, VolunteerOfEvent(eventId));
    var l := Listing(volunteers, eventId);
    SortedFilter(volunteers, VolunteerOfEvent(eventId), VolunteerKey);
    forall i, j | 0 <= i < j < |l| ensures StrLess(l[i].id, l[j].id) {
      assert KeyLess(VolunteerKey(vs[i]), VolunteerKey(vs[j]));
      StrLessIrreflexive(eventId);
    }
  }

  /** A row of the event is listed, and every listed view is that of a row of the event. */
  lemma ListedRows(volunteers: seq<Volunteer>, eventId: string, v: Volunteer, w: VolunteerView)
    ensures v in Filter(volunteers, VolunteerOfEvent(eventId)) ==> ViewOf(v) in Listing(volunteers, eventId)
    ensures w in Listing(volunteers, eventId) ==>
      exists u :: u in Filter(volunteers, VolunteerOfEvent(eventId)) && ViewOf(u) == w
  {
    var vs := Filter(volunteers, VolunteerOfEvent(eventId));
    var l := Listing(volunteers, eventId);
    if v in vs {
      var i :| 0 <= i < |vs| && vs[i] == v;
      assert l[i] == ViewOf(v);
    }
    if w in l {
      var i :| 0 <= i < |l| && l[i] == w;
      assert vs[i] in vs;
    }
  }

  /**
   * A volunteer added to an event is listed with that event's volunteers, every
   * volunteer listed before still is, and the listing grows by exactly one.
   */
  lemma AddedIsListed(volunteers: seq<Volunteer>, e: Volunteer)
    requires SortedByKey(volunteers, VolunteerKey) && !HasKey(volunteers, VolunteerKey, VolunteerKey(e))
    ensures var before, after := Listing(volunteers, e.partitionKey), Listing(Insert(volunteers, e, VolunteerKey), e.partitionKey);
      && ViewOf(e) in after && |after| == |before| + 1
      && forall w :: w in before ==> w in after
  {
    var p := VolunteerOfEvent(e.partitionKey);
    var after' := Insert(volunteers, e, VolunteerKey);
    FilterInsert(volunteers, e, VolunteerKey, p);
    var vs := Filter(volunteers, p);
    InsertContents(vs, e, VolunteerKey);
    assert Filter(after', p) == Insert(vs, e, VolunteerKey);
    ListedRows(after', e.partitionKey, e, ViewOf(e));
    forall w | w in Listing(volunteers, e.partitionKey) ensures w in Listing(after', e.partitionKey) {
      ListedRows(volunteers, e.partitionKey, e, w);
      var u :| u in vs && ViewOf(u) == w;
      ListedRows(after', e.partitionKey, u, w);
    }
  }

  /**
   * Adding the same e-mail twice, under two ids, gives two rows with that
   * e-mail, both listed: nothing looks for the earlier one.
   */
  lemma SameEmailTwice(volunteers: seq<Volunteer>, b: VolunteerBody, caller: User, id1: string, id2: string, now: string)
    requires SortedByKey(volunteers, VolunteerKey) && id1 != id2
    requires !HasKey(volunteers, VolunteerKey, (b.eventId, id1)) && !HasKey(volunteers, VolunteerKey, (b.eventId, id2))
    ensures var e1 := VolunteerEntity(NewVolunteerOf(b, id1, caller), now);
      var e2 := VolunteerEntity(NewVolunteerOf(b, id2, caller), now);
      var after := Listing(Insert(Insert(volunteers, e1, VolunteerKey), e2, VolunteerKey), b.eventId);
      && e1.email == e2.email && e1 != e2
      && ViewOf(e1) in after && ViewOf(e2) in after
      && |after| == |Listing(volunteers, b.eventId)| + 2
  {
    var e1 := VolunteerEntity(NewVolunteerOf(b, id1, caller), now);
    var e2 := VolunteerEntity(NewVolunteerOf(b, id2, caller), now);
    var once := Insert(volunteers, e1, VolunteerKey);
    AddedIsListed(volunteers, e1);
    InsertSorted(volunteers, e1, VolunteerKey);
    InsertHasKey(volunteers, e1, VolunteerKey, VolunteerKey(e2));
    AddedIsListed(once, e2);
  }

  /** After a DELETE the removed row is no longer listed, and every other row of the event still is. */
  lemma RemovedIsNotListed(volunteers: seq<Volunteer>, eventId: string, volunteerId: string)
    ensures var after := Filter(volunteers, VolunteerNotAt((eventId, volunteerId)));
      && (forall w :: w in Listing(after, eventId) ==> w.id != volunteerId)
      && (forall v :: v in volunteers && v.partitionKey == eventId && v.rowKey != volunteerId ==>
            ViewOf(v) in Listing(after, eventId))
  {
    var after := Filter(volunteers, VolunteerNotAt((eventId, volunteerId)));
    var l := Listing(after, eventId);
    forall w | w in l ensures w.id != volunteerId {
      var i :| 0 <= i < |l| && l[i] == w;
    }
    forall v | v in volunteers && v.partitionKey == eventId && v.rowKey != volunteerId
      ensures ViewOf(v) in l
    {
      var vs := Filter(after, VolunteerOfEvent(eventId));
      assert v in vs;
      var i :| 0 <= i < |vs| && vs[i] == v;
      assert l[i] == ViewOf(v);
    }
  }
}
