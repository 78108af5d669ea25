/**
 * POST /api/createEvent (api/src/functions/createEvent.js): an administrator
 * creates an event. The text fields are stripped of tags, the display location
 * is composed from the structured address (or taken from the older single
 * `location` field), lengths are bounded, and the slug is derived from the
 * title. The new event id (`randomUUID`) is a parameter.
 */
module CreateEvent {
  import opened Wrappers
  import opened Http
  import opened Auth
  import opened JsString
  import opened Tables
  import opened Sanitise
  import opened Slug
  import opened TableStorage

  /** The request body; a field that is missing or falsy is `""`; `registrationCap` as text. */
  datatype CreateBody = CreateBody(
    title: string, date: string, endDate: string, description: string, sessionizeApiId: string,
    registrationCap: string, chapterSlug: string, locationBuilding: string, locationAddress1: string,
    locationAddress2: string, locationCity: string, locationState: string, location: string)

  datatype Created = Created(id: string, slug: string, title: string)

  const MaxTitle := 200
  const MaxLocation := 500
  const MaxDescription := 5000

  const MissingFields := "Missing required fields: title, date, description, chapterSlug"
  const MissingAddress := "Missing required field: address"
  const TooLong := "Field length exceeds maximum"
  const NotLead := "Only chapter leads can create events"

  function NonEmptyText(): string -> bool {
    (s: string) => s != ""
  }

  /** `[city, state].filter(Boolean).join(' ')`. */
  function CityState(city: string, state: string): string {
    Join(Filter([city, state], NonEmptyText()), " ")
  }

  /** The lines of the structured location: the non-empty building and address lines, then "city state" if any. */
  function LocationParts(building: string, address1: string, address2: string, city: string, state: string): seq<string> {
    var cs := CityState(city, state);
    Filter([building, address1, address2], NonEmptyText()) + (if cs != "" then [cs] else [])
  }

  /** `parts.join('\n')`. */
  function ComposeLocation(building: string, address1: string, address2: string, city: string, state: string): string {
    Join(LocationParts(building, address1, address2, city, state), "\n")
  }

  lemma CityStateCases(city: string, state: string)
    ensures CityState(city, state) == if city == "" then state else if state == "" then city else city + " " + state
  {
    var tail := Filter([state], NonEmptyText());
    assert [city, state][1..] == [state];
    assert [state][1..] == [];
    assert tail == if state != "" then [state] else [];
    assert Filter([city, state], NonEmptyText()) == (if city != "" then [city] else []) + tail;
    if city != "" && state != "" {
      assert [city, state][1..] == [state];
      assert Join([city, state], " ") == city + " " + Join([state], " ");
    }
  }

  /**
   * With no line break inside the fields, the lines of the composed location are
   * exactly the non-empty parts in order, and "city state" is the last line iff
   * city or state is set.
   */
  lemma LocationLines(building: string, address1: string, address2: string, city: string, state: string)
    requires address1 != ""
    requires '\n' !in building && '\n' !in address1 && '\n' !in address2 && '\n' !in city && '\n' !in state
    ensures var parts := LocationParts(building, address1, address2, city, state);
      && Split(ComposeLocation(building, address1, address2, city, state), '\n') == parts
      && (forall p :: p in parts ==> p != "")
      && address1 in parts
      && ((city != "" || state != "") <==> |parts| > 0 && parts[|parts| - 1] == CityState(city, state) && CityState(city, state) != "")
  {
    var lines := Filter([building, address1, address2], NonEmptyText());
    var cs := CityState(city, state);
    CityStateCases(city, state);
    assert '\n' !in cs;
    var parts := lines + (if cs != "" then [cs] else []);
    assert address1 in lines;
    forall p | p in parts ensures '\n' !in p && p != "" {
      if p in lines {
        assert p in [building, address1, address2];
      }
    }
    if city == "" && state == "" {
      assert cs == "";
      assert parts == lines;
      assert forall p :: p in lines ==> p in [building, address1, address2];
    }
    SplitJoin(parts, '\n');
  }

  /** The stored text of a field: tags stripped. */
  function Safe(s: string): string {
    StripTags(s)
  }

  /** The location after sanitising: structured when `locationAddress1` was given, the single field otherwise. */
  function LocationOf(b: CreateBody): string {
    if b.locationAddress1 != "" then
      ComposeLocation(Safe(b.locationBuilding), Safe(b.locationAddress1), Safe(b.locationAddress2),
        Safe(b.locationCity), Safe(b.locationState))
    else Safe(b.location)
  }

  /** The event object passed to `storeEvent`. */
  function EventFor(b: CreateBody, id: string, createdBy: string): NewEvent {
    var title := Safe(b.title);
    NewEvent(id, title, EventSlug(title), Trim(Lower(b.chapterSlug)), b.date, b.endDate, LocationOf(b),
      Safe(b.description), b.sessionizeApiId, ParseInt(b.registrationCap).GetOr(0), "published", createdBy)
  }

  datatype Screened = Refuse(reply: Reply<Created>) | Admit(event: NewEvent)

  predicate MissingRequired(b: CreateBody) {
    b.title == "" || b.date == "" || b.description == "" || b.chapterSlug == ""
  }

  /** Neither the structured address nor the single location field is given. */
  predicate MissingLocation(b: CreateBody) {
    b.locationAddress1 == "" && b.location == ""
  }

  /** The sanitised title, location and description fit their maximum lengths. */
  predicate WithinLimits(b: CreateBody) {
    |Safe(b.title)| <= MaxTitle && |LocationOf(b)| <= MaxLocation && |Safe(b.description)| <= MaxDescription
  }

  /** The checks before `storeEvent`, and the event it is given. */
  function Screen(user: Option<User>, body: Option<CreateBody>, id: string): (s: Screened)
    ensures s.Refuse? ==> s.reply.status in {400, 401, 403} && s.reply.data.None?
    ensures user.None? <==> s == Refuse(Unauthorised(""))
    ensures user.Some? && !HasRole(user, "admin") <==> s == Refuse(Forbidden(NotLead))
    ensures HasRole(user, "admin") ==>
      && (body.None? <==> s == Refuse(Fail(400, InvalidJson)))
      && (body.Some? && MissingRequired(body.value) <==> s == Refuse(Fail(400, MissingFields)))
      && (body.Some? && !MissingRequired(body.value) && MissingLocation(body.value) <==> s == Refuse(Fail(400, MissingAddress)))
      && (body.Some? && !MissingRequired(body.value) && !MissingLocation(body.value) && !WithinLimits(body.value)
          <==> s == Refuse(Fail(400, TooLong)))
    ensures s.Admit? <==>
      HasRole(user, "admin") && body.Some? && !MissingRequired(body.value) && !MissingLocation(body.value) && WithinLimits(body.value)
    ensures s.Admit? ==> HasRole(user, "admin") && body.Some? && user.Some?
    ensures s.Admit? && body.Some? && user.Some? ==>
      var b := body.value;
      var ev := s.event;
      && b.title != "" && b.date != "" && b.description != "" && b.chapterSlug != ""
      && (b.locationAddress1 != "" || b.location != "")
      && ev.id == id && ev.createdBy == user.value.userId && ev.status == "published"
      && ev.title == StripTags(b.title) && ev.description == StripTags(b.description)
      && ev.location == LocationOf(b)
      && |ev.title| <= MaxTitle && |ev.location| <= MaxLocation && |ev.description| <= MaxDescription
      && ev.chapterSlug == Trim(Lower(b.chapterSlug))
      && ev.registrationCap == ParseInt(b.registrationCap).GetOr(0)
      && ev.slug == EventSlug(ev.title)
      && (forall c :: c in ev.slug ==> SlugChar(c)) && NoDoubleDash(ev.slug) && |ev.slug| <= 80
  {
    if user.None? then Refuse(Unauthorised(""))
    else if !HasRole(user, "admin") then Refuse(Forbidden(NotLead))
    else if body.None? then Refuse(Fail(400, InvalidJson))
    else
      var b := body.value;
      if MissingRequired(b) then Refuse(Fail(400, MissingFields))
      else if MissingLocation(b) then Refuse(Fail(400, MissingAddress))
      else if !WithinLimits(b) then Refuse(Fail(400, TooLong))
      else
        EventSlugWellFormed(Safe(b.title));
        Admit(EventFor(b, id, user.value.userId))
  }

  const SafeFields: seq<string> := ["title", "description", "locationBuilding", "locationAddress1",
    "locationAddress2", "locationCity", "locationState", "legacyLocation"]

  /** The body as the object `sanitiseFields` receives; the single location field is `legacyLocation`. */
  function BodyObject(b: CreateBody): (obj: map<string, JsValue>)
    ensures "title" in obj && obj["title"] == Str(b.title)
    ensures "description" in obj && obj["description"] == Str(b.description)
    ensures "locationBuilding" in obj && obj["locationBuilding"] == Str(b.locationBuilding)
    ensures "locationAddress1" in obj && obj["locationAddress1"] == Str(b.locationAddress1)
    ensures "locationAddress2" in obj && obj["locationAddress2"] == Str(b.locationAddress2)
    ensures "locationCity" in obj && obj["locationCity"] == Str(b.locationCity)
    ensures "locationState" in obj && obj["locationState"] == Str(b.locationState)
    ensures "legacyLocation" in obj && obj["legacyLocation"] == Str(b.location)
  {
    map["title" := Str(b.title), "description" := Str(b.description),
        "locationBuilding" := Str(b.locationBuilding), "locationAddress1" := Str(b.locationAddress1),
        "locationAddress2" := Str(b.locationAddress2), "locationCity" := Str(b.locationCity),
        "locationState" := Str(b.locationState), "legacyLocation" := Str(b.location)]
  }

  /** The `sanitiseFields` call, read back field by field. */
  method SanitiseBody(b: CreateBody) returns (title: string, description: string, building: string,
    address1: string, address2: string, city: string, state: string, legacy: string)
    ensures title == Safe(b.title) && description == Safe(b.description)
    ensures building == Safe(b.locationBuilding) && address1 == Safe(b.locationAddress1)
    ensures address2 == Safe(b.locationAddress2) && city == Safe(b.locationCity)
    ensures state == Safe(b.locationState) && legacy == Safe(b.location)
    ensures TagFree(title) && TagFree(description) && TagFree(building) && TagFree(address1)
    ensures TagFree(address2) && TagFree(city) && TagFree(state) && TagFree(legacy)
  {
    var obj := BodyObject(b);
    assert SafeFields[0] == "title" && SafeFields[1] == "description" && SafeFields[2] == "locationBuilding";
    assert SafeFields[3] == "locationAddress1" && SafeFields[4] == "locationAddress2";
    assert SafeFields[5] == "locationCity" && SafeFields[6] == "locationState" && SafeFields[7] == "legacyLocation";
    var safe := SanitiseFields(obj, SafeFields);
    title, description := safe["title"].s, safe["description"].s;
    building, address1, address2 := safe["locationBuilding"].s, safe["locationAddress1"].s, safe["locationAddress2"].s;
    city, state, legacy := safe["locationCity"].s, safe["locationState"].s, safe["legacyLocation"].s;
  }

  /**
   * The handler. A key already taken makes `createEntity` throw: 500. The
   * GitHub dispatch and the Discord notice that follow are left out.
   */
  method Create(store: Store, user: Option<User>, body: Option<CreateBody>, id: string, now: string)
    returns (reply: Reply<Created>)
    requires store.Valid()
    modifies store`events
    ensures store.Valid()
    ensures match Screen(user, body, id)
      case Refuse(r) => reply == r && unchanged(store)
      case Admit(ev) =>
        var e := EventEntity(ev, now);
        if HasKey(old(store.events), EventKey, EventKey(e)) then reply == InternalError() && unchanged(store)
        else store.events == Insert(old(store.events), e, EventKey) && reply == Done(201, Created(id, ev.slug, ev.title))
  {
    if user.None? {
      return Unauthorised("");
    }
    if !HasRole(user, "admin") {
      return Forbidden(NotLead);
    }
    if body.None? {
      return Fail(400, InvalidJson);
    }
    var b := body.value;
    if MissingRequired(b) {
      return Fail(400, MissingFields);
    }
    if MissingLocation(b) {
      return Fail(400, MissingAddress);
    }
    reply := CreateChecked(store, user.value, b, id, now);
  }

  /** The handler from `sanitiseFields` on, once the caller and the required fields are checked. */
  method CreateChecked(store: Store, user: User, b: CreateBody, id: string, now: string)
    returns (reply: Reply<Created>)
    requires store.Valid()
    requires HasRole(Some(user), "admin")
    requires !MissingRequired(b) && !MissingLocation(b)
    modifies store`events
    ensures store.Valid()
    ensures match Screen(Some(user), Some(b), id)
      case Refuse(r) => reply == r && unchanged(store)
      case Admit(ev) =>
        var e := EventEntity(ev, now);
        if HasKey(old(store.events), EventKey, EventKey(e)) then reply == InternalError() && unchanged(store)
        else store.events == Insert(old(store.events), e, EventKey) && reply == Done(201, Created(id, ev.slug, ev.title))
  {
    var title, description, building, address1, address2, city, state, legacy := SanitiseBody(b);
    var location;
    if b.locationAddress1 != "" {
      location := ComposeLocation(building, address1, address2, city, state);
    } else {
      location := legacy;
    }
    assert location == LocationOf(b);
    if |title| > MaxTitle || |location| > MaxLocation || |description| > MaxDescription {
      return Fail(400, TooLong);
    }
    var slug := EventSlug(title);
    var ev := NewEvent(id, title, slug, Trim(Lower(b.chapterSlug)), b.date, b.endDate, location,
      description, b.sessionizeApiId, ParseInt(b.registrationCap).GetOr(0), "published", user.userId);
    assert ev == EventFor(b, id, user.userId);
    assert Screen(Some(user), Some(b), id) == Admit(ev);
    var stored := store.StoreEvent(ev, now);
    if stored.None? {
      return InternalError();
    }
    reply := Done(201, Created(id, slug, title));
  }
}
