/**
 * GET /api/getEvent?slug=… (api/src/functions/getEvent.js): the public view of
 * one event, found by its slug, with the number of registrations it holds.
 * No identity is needed.
 */
module GetEvent {
  import opened Wrappers
  import opened Http
  import opened Tables
  import opened TableStorage

  /** The JSON object the endpoint returns. */
  datatype EventView = EventView(
    id: string, title: string, slug: string, chapterSlug: string, date: string, endDate: string,
    location: string, description: string, sessionizeApiId: string, registrationCap: int,
    registrationCount: nat, status: string)

  /**
   * The projection of a stored row. A missing `endDate` or `sessionizeApiId` is
   * already `""` and a missing cap already 0 in the row, so `|| ''` and `|| 0`
   * leave the values as they are.
   */
  function ViewOf(ev: Event, count: nat): EventView {
    EventView(ev.rowKey, ev.title, ev.slug, ev.chapterSlug, ev.date, ev.endDate, ev.location,
      ev.description, ev.sessionizeApiId, ev.registrationCap, count, ev.status)
  }

  /** The reply for a slug, given the rows the two queries read. */
  function View(events: seq<Event>, registrations: seq<Registration>, slug: string): (r: Reply<EventView>)
    ensures slug == "" ==> r == Fail(400, "Missing slug parameter")
    ensures slug != "" && (forall e :: e in events ==> e.slug != slug) ==> r == Fail(404, "Event not found")
    ensures r.status == 200 <==> slug != "" && exists e :: e in events && e.slug == slug
    ensures r.status == 200 ==>
      var ev := Find(events, EventWithSlug(slug)).value;
      && r.data.Some? && r.data.value.slug == slug && r.data.value.id == ev.rowKey
      && r.data.value.registrationCount == |Filter(registrations, RegistrationOfEvent(ev.rowKey))|
  {
    if slug == "" then Fail(400, "Missing slug parameter")
    else match Find(events, EventWithSlug(slug))
      case None => Fail(404, "Event not found")
      case Some(ev) => Done(200, ViewOf(ev, |Filter(registrations, RegistrationOfEvent(ev.rowKey))|))
  }

  /** The handler; it reads the store and writes nothing. */
  method GetEvent(store: Store, slug: string) returns (reply: Reply<EventView>)
    requires store.Valid()
    ensures reply == View(store.events, store.registrations, slug)
  {
    if slug == "" {
      return Fail(400, "Missing slug parameter");
    }
    var event := store.GetEventBySlug(slug);
    if event.None? {
      return Fail(404, "Event not found");
    }
    var count := store.CountRegistrations(event.value.rowKey);
    return Done(200, ViewOf(event.value, count));
  }

  /**
   * Of several events sharing the slug (two chapters may both hold a
   * "bootcamp"), the one shown is the one the table lists first: the least
   * (chapter, id) key, whatever the order of creation.
   */
  lemma ViewShowsKeyLeast(events: seq<Event>, registrations: seq<Registration>, slug: string, other: Event)
    requires SortedByKey(events, EventKey)
    requires View(events, registrations, slug).status == 200
    requires other in events && other.slug == slug && other != Find(events, EventWithSlug(slug)).value
    ensures KeyLess(EventKey(Find(events, EventWithSlug(slug)).value), EventKey(other))
  {
    FindIsKeyLeast(events, EventWithSlug(slug), EventKey, other);
  }

  /**
   * With two events of one slug in the chapters "perth" and "adelaide", the
   * view shows the Adelaide one, in whichever order they were created.
   */
  lemma SameSlugTwoChapters(events: seq<Event>, registrations: seq<Registration>, perth: Event, adelaide: Event)
    requires SortedByKey(events, EventKey)
    requires perth in events && adelaide in events && perth.slug == adelaide.slug != ""
    requires perth.partitionKey == "perth" && adelaide.partitionKey == "adelaide"
    requires forall e :: e in events && e.slug == perth.slug ==> e == perth || e == adelaide
    ensures View(events, registrations, perth.slug).data.value.id == adelaide.rowKey
  {
    var found := Find(events, EventWithSlug(perth.slug)).value;
    assert StrLess("adelaide", "perth");
    if found == perth {
      FindIsKeyLeast(events, EventWithSlug(perth.slug), EventKey, adelaide);
      KeyLessTotal(EventKey(perth), EventKey(adelaide));
      assert false;
    }
  }

  /**
   * An event created through `storeEvent`, when it is the first with its slug,
   * is shown with the id, cap, dates and text it was created with.
   */
  lemma CreatedEventReadsBack(events: seq<Event>, registrations: seq<Registration>, ne: NewEvent, now: string)
    requires ne.slug != ""
    requires forall e :: e in events ==> e.slug != ne.slug
    ensures var r := View(Insert(events, EventEntity(ne, now), EventKey), registrations, ne.slug);
      && r.status == 200
      && r.data.value.id == ne.id && r.data.value.title == ne.title && r.data.value.date == ne.date
      && r.data.value.endDate == ne.endDate && r.data.value.location == ne.location
      && r.data.value.sessionizeApiId == ne.sessionizeApiId && r.data.value.registrationCap == ne.registrationCap
      && r.data.value.registrationCount == |Filter(registrations, RegistrationOfEvent(ne.id))|
  {
    var e := EventEntity(ne, now);
    FindInsertMissing(events, e, EventKey, EventWithSlug(ne.slug));
  }

  /** A new registration in the event's partition raises the count shown by one. */
  lemma RegistrationRaisesCount(events: seq<Event>, registrations: seq<Registration>, slug: string, r: Registration)
    requires SortedByKey(registrations, RegistrationKey) && !HasKey(registrations, RegistrationKey, RegistrationKey(r))
    requires View(events, registrations, slug).status == 200
    requires r.partitionKey == View(events, registrations, slug).data.value.id
    ensures View(events, Insert(registrations, r, RegistrationKey), slug).status == 200
    ensures View(events, Insert(registrations, r, RegistrationKey), slug).data.value.registrationCount
         == View(events, registrations, slug).data.value.registrationCount + 1
  {
    var ev := Find(events, EventWithSlug(slug)).value;
    FilterInsert(registrations, r, RegistrationKey, RegistrationOfEvent(ev.rowKey));
  }
}
