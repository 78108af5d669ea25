/**
 * The record store of api/src/helpers/tableStorage.js: six Azure tables held in
 * memory, each a sequence of entities addressed by (partitionKey, rowKey) and
 * kept in ascending key order, the order in which the table service lists them.
 * Writes model `createEntity` (which refuses an existing key and otherwise puts
 * the row at its key's place), Merge `updateEntity` (which needs an existing row)
 * and `deleteEntity`; the `listEntities` queries are scans with the filter's
 * predicate. The clock reading each write stamps is a parameter.
 */
module TableStorage {
  import opened Wrappers
  import opened JsString
  import opened Tables
  import opened Slug

  /** The roles a registration may carry. */
  const ValidRoles: seq<string> := ["attendee", "volunteer", "speaker", "sponsor", "organiser"]

  // ─── Entities ───

  /** `checkedIn` as read back from the table: normally a boolean, possibly a string. */
  datatype Flag = Bool(b: bool) | Text(t: string) {
    /** JavaScript truthiness (`if (reg.checkedIn)`). */
    predicate Truthy() {
      match this
      case Bool(b) => b
      case Text(t) => t != ""
    }

    /** `checkedIn === true || checkedIn === 'true'`. */
    predicate IsTrue() {
      this == Bool(true) || this == Text("true")
    }
  }

  /** A row of the Events table; a field the row lacks is `""` (or 0 for the cap). */
  datatype Event = Event(
    partitionKey: string, rowKey: string, title: string, slug: string, chapterSlug: string,
    date: string, endDate: string, location: string, description: string,
    sessionizeApiId: string, registrationCap: int, status: string, createdBy: string,
    createdAt: string, updatedAt: string)

  /** A row of EventRegistrations; `role` is None until a merge writes one. */
  datatype Registration = Registration(
    partitionKey: string, rowKey: string, userId: string, fullName: string, email: string,
    company: string, ticketCode: string, checkedIn: Flag, checkedInAt: string,
    registeredAt: string, role: Option<string>)

  /** A row of EventDemographics, keyed like the registration it belongs to. */
  datatype Demographics = Demographics(
    partitionKey: string, rowKey: string, employmentStatus: string, industry: string,
    jobTitle: string, companySize: string, experienceLevel: string)

  /** A row of EventBadges. */
  datatype Badge = Badge(
    partitionKey: string, rowKey: string, recipientEmail: string, recipientName: string,
    badgeType: string, userId: string, issuedAt: string)

  /** A row of EventVolunteers. */
  datatype Volunteer = Volunteer(
    partitionKey: string, rowKey: string, email: string, name: string, addedBy: string, addedAt: string)

  /**
   * A row of ChapterApplications. `leadsJson` is written by the chapter editor;
   * `github`, `secondLeadGitHub`, `discordChannelId` and `discordGuildId` are read
   * by the handlers but written by nothing in this code base.
   */
  datatype Application = Application(
    partitionKey: string, rowKey: string, fullName: string, email: string, city: string,
    country: string, linkedIn: string, aboutYou: string, whyLead: string,
    existingCommunity: string, secondLeadName: string, secondLeadEmail: string,
    secondLeadLinkedIn: string, secondLeadAbout: string, status: string,
    submittedAt: string, updatedAt: string, leadsJson: string, github: string,
    secondLeadGitHub: string, discordChannelId: string, discordGuildId: string)

  // ─── What the store* functions receive ───

  datatype NewApplication = NewApplication(
    id: string, fullName: string, email: string, city: string, country: string,
    linkedIn: string, aboutYou: string, whyLead: string, existingCommunity: string,
    secondLeadName: string, secondLeadEmail: string, secondLeadLinkedIn: string,
    secondLeadAbout: string)

  datatype NewEvent = NewEvent(
    id: string, title: string, slug: string, chapterSlug: string, date: string,
    endDate: string, location: string, description: string, sessionizeApiId: string,
    registrationCap: int, status: string, createdBy: string)

  /** The caller's registration object; its `role` is not written. */
  datatype NewRegistration = NewRegistration(
    id: string, eventId: string, userId: string, fullName: string, email: string,
    company: string, ticketCode: string, role: string)

  datatype NewDemographics = NewDemographics(
    eventId: string, registrationId: string, employmentStatus: string, industry: string,
    jobTitle: string, companySize: string, experienceLevel: string)

  datatype NewBadge = NewBadge(
    id: string, eventId: string, recipientEmail: string, recipientName: string,
    badgeType: string, userId: string)

  datatype NewVolunteer = NewVolunteer(id: string, eventId: string, email: string, name: string, addedBy: string)

  /** The members an `updateRegistration` call sets; None leaves a field as it is. */
  datatype RegistrationUpdate = RegistrationUpdate(checkedIn: Option<Flag>, checkedInAt: Option<string>, role: Option<string>)

  /** The members a Merge on an application sets. */
  datatype ApplicationUpdate = ApplicationUpdate(status: Option<string>, leadsJson: Option<string>, updatedAt: string)

  // ─── The entities each store* writes ───

  function ApplicationEntity(a: NewApplication, now: string): (e: Application)
    ensures e.partitionKey == "applications" && e.rowKey == a.id
    ensures e.status == "pending" && e.submittedAt == now
    ensures e.fullName == a.fullName && e.email == a.email && e.city == a.city && e.country == a.country
    ensures e.linkedIn == a.linkedIn && e.existingCommunity == a.existingCommunity
    ensures e.secondLeadName == a.secondLeadName && e.secondLeadEmail == a.secondLeadEmail
    ensures e.secondLeadLinkedIn == a.secondLeadLinkedIn && e.secondLeadAbout == a.secondLeadAbout
    ensures e.aboutYou == a.aboutYou && e.whyLead == a.whyLead
    ensures e.updatedAt == "" && e.leadsJson == "" && e.github == "" && e.secondLeadGitHub == ""
  {
    Application("applications", a.id, a.fullName, a.email, a.city, a.country, a.linkedIn,
      a.aboutYou, a.whyLead, a.existingCommunity, a.secondLeadName, a.secondLeadEmail,
      a.secondLeadLinkedIn, a.secondLeadAbout, "pending", now, "", "", "", "", "", "")
  }

  function EventEntity(ev: NewEvent, now: string): (e: Event)
    ensures e.partitionKey == ev.chapterSlug && e.rowKey == ev.id && e.chapterSlug == ev.chapterSlug
    ensures e.endDate == ev.endDate && e.sessionizeApiId == ev.sessionizeApiId
    ensures e.registrationCap == ev.registrationCap
    ensures e.status == if ev.status == "" then "published" else ev.status
    ensures e.title == ev.title && e.slug == ev.slug && e.date == ev.date && e.location == ev.location
    ensures e.description == ev.description && e.createdBy == ev.createdBy
    ensures e.createdAt == now && e.updatedAt == ""
  {
    Event(ev.chapterSlug, ev.id, ev.title, ev.slug, ev.chapterSlug, ev.date, ev.endDate, ev.location,
      ev.description, ev.sessionizeApiId, ev.registrationCap,
      if ev.status == "" then "published" else ev.status, ev.createdBy, now, "")
  }

  function RegistrationEntity(r: NewRegistration, now: string): (e: Registration)
    ensures e.partitionKey == r.eventId && e.rowKey == r.id
    ensures e.userId == r.userId && e.fullName == r.fullName && e.email == r.email
    ensures e.company == r.company && e.ticketCode == r.ticketCode
    ensures e.checkedIn == Bool(false) && e.checkedInAt == "" && e.registeredAt == now
    ensures e.role.None?
  {
    Registration(r.eventId, r.id, r.userId, r.fullName, r.email, r.company, r.ticketCode,
      Bool(false), "", now, None)
  }

  function DemographicsEntity(d: NewDemographics): (e: Demographics)
    ensures e.partitionKey == d.eventId && e.rowKey == d.registrationId
    ensures e.employmentStatus == d.employmentStatus && e.industry == d.industry && e.jobTitle == d.jobTitle
    ensures e.companySize == d.companySize && e.experienceLevel == d.experienceLevel
  {
    Demographics(d.eventId, d.registrationId, d.employmentStatus, d.industry, d.jobTitle,
      d.companySize, d.experienceLevel)
  }

  function BadgeEntity(b: NewBadge, now: string): (e: Badge)
    ensures e.partitionKey == b.eventId && e.rowKey == b.id && e.issuedAt == now
    ensures e.recipientEmail == b.recipientEmail && e.recipientName == b.recipientName
    ensures e.badgeType == b.badgeType && e.userId == b.userId
  {
    Badge(b.eventId, b.id, b.recipientEmail, b.recipientName, b.badgeType, b.userId, now)
  }

  /** The text `storeVolunteer` and the volunteer lookup compare: trimmed and lower-cased. */
  function NormaliseEmail(email: string): string {
    Trim(Lower(email))
  }

  function VolunteerEntity(v: NewVolunteer, now: string): (e: Volunteer)
    ensures e.partitionKey == v.eventId && e.rowKey == v.id && e.addedAt == now
    ensures e.email == NormaliseEmail(v.email) && e.name == v.name && e.addedBy == v.addedBy
  {
    Volunteer(v.eventId, v.id, NormaliseEmail(v.email), v.name, v.addedBy, now)
  }

  /** Normalising twice is normalising once. */
  lemma NormaliseEmailIdempotent(email: string)
    ensures NormaliseEmail(NormaliseEmail(email)) == NormaliseEmail(email)
  {
    var t := Lower(email);
    LowerIdempotent(email);
    LowerTrimCommute(t);
    TrimIdempotent(t);
  }

  // ─── Merges ───

  /** `Object.assign(entity, updates)` for a registration. */
  function MergeRegistration(r: Registration, u: RegistrationUpdate): (m: Registration)
    ensures m.partitionKey == r.partitionKey && m.rowKey == r.rowKey
    ensures m.checkedIn == (if u.checkedIn.Some? then u.checkedIn.value else r.checkedIn)
    ensures m.checkedInAt == (if u.checkedInAt.Some? then u.checkedInAt.value else r.checkedInAt)
    ensures m.role == (if u.role.Some? then u.role else r.role)
    ensures m.(checkedIn := r.checkedIn, checkedInAt := r.checkedInAt, role := r.role) == r
  {
    r.(checkedIn := u.checkedIn.GetOr(r.checkedIn), checkedInAt := u.checkedInAt.GetOr(r.checkedInAt),
       role := if u.role.Some? then u.role else r.role)
  }

  /** Applying the same merge twice is applying it once. */
  lemma MergeRegistrationIdempotent(r: Registration, u: RegistrationUpdate)
    ensures MergeRegistration(MergeRegistration(r, u), u) == MergeRegistration(r, u)
  {
  }

  /** `entity.status = …` or the lead edit, with `updatedAt` set. */
  function MergeApplication(a: Application, u: ApplicationUpdate): (m: Application)
    ensures m.partitionKey == a.partitionKey && m.rowKey == a.rowKey
    ensures m.status == (if u.status.Some? then u.status.value else a.status)
    ensures m.leadsJson == (if u.leadsJson.Some? then u.leadsJson.value else a.leadsJson)
    ensures m.updatedAt == u.updatedAt
    ensures m.(status := a.status, leadsJson := a.leadsJson, updatedAt := a.updatedAt) == a
  {
    a.(status := u.status.GetOr(a.status), leadsJson := u.leadsJson.GetOr(a.leadsJson), updatedAt := u.updatedAt)
  }

  /** `Object.assign(entity, { status })` for an event, with `updatedAt` set. */
  function MergeEventStatus(e: Event, status: string, now: string): (m: Event)
    ensures m.partitionKey == e.partitionKey && m.rowKey == e.rowKey
    ensures m.status == status && m.updatedAt == now
    ensures m.(status := e.status, updatedAt := e.updatedAt) == e
  {
    e.(status := status, updatedAt := now)
  }

  // ─── OData filter literals ───

  /** `value.replace(/'/g, "''")`: the text placed between quotes in a filter. */
  function Quote(value: string): string {
    Double(value, '\'')
  }

  /** How the table service reads a quoted literal back: `''` stands for `'`. */
  function Unquote(literal: string): string {
    Undouble(literal, '\'')
  }

  /** Doubling quotes loses nothing: the service sees exactly the value filtered on. */
  lemma UnquoteQuote(value: string)
    ensures Unquote(Quote(value)) == value
  {
    UndoubleDouble(value, '\'');
  }

  /** A quoted literal never holds an unpaired quote, so it cannot close the filter's string early. */
  lemma QuoteKeepsQuotesPaired(value: string)
    ensures Paired(Quote(value), '\'')
  {
    DoublePaired(value, '\'');
  }

  // ─── Keys and scan predicates ───

  function EventKey(e: Event): Key { (e.partitionKey, e.rowKey) }
  function RegistrationKey(r: Registration): Key { (r.partitionKey, r.rowKey) }
  function DemographicsKey(d: Demographics): Key { (d.partitionKey, d.rowKey) }
  function BadgeKey(b: Badge): Key { (b.partitionKey, b.rowKey) }
  function VolunteerKey(v: Volunteer): Key { (v.partitionKey, v.rowKey) }
  function ApplicationKey(a: Application): Key { (a.partitionKey, a.rowKey) }

  function EventAt(k: Key): Event -> bool { (e: Event) => EventKey(e) == k }
  function RegistrationAt(k: Key): Registration -> bool { (r: Registration) => RegistrationKey(r) == k }
  function DemographicsAt(k: Key): Demographics -> bool { (d: Demographics) => DemographicsKey(d) == k }
  function BadgeAt(k: Key): Badge -> bool { (b: Badge) => BadgeKey(b) == k }
  function VolunteerAt(k: Key): Volunteer -> bool { (v: Volunteer) => VolunteerKey(v) == k }
  function ApplicationAt(k: Key): Application -> bool { (a: Application) => ApplicationKey(a) == k }

  function RegistrationNotAt(k: Key): Registration -> bool { (r: Registration) => RegistrationKey(r) != k }
  function DemographicsNotAt(k: Key): Demographics -> bool { (d: Demographics) => DemographicsKey(d) != k }
  function VolunteerNotAt(k: Key): Volunteer -> bool { (v: Volunteer) => VolunteerKey(v) != k }

  function ApplyApplicationUpdate(u: ApplicationUpdate): Application -> Application {
    (a: Application) => MergeApplication(a, u)
  }
  function ApplyEventStatus(status: string, now: string): Event -> Event {
    (e: Event) => MergeEventStatus(e, status, now)
  }
  function ApplyRegistrationUpdate(u: RegistrationUpdate): Registration -> Registration {
    (r: Registration) => MergeRegistration(r, u)
  }

  function EventWithRowKey(id: string): Event -> bool { (e: Event) => e.rowKey == id }
  function EventWithSlug(slug: string): Event -> bool { (e: Event) => e.slug == slug }
  function EventInPartition(chapterSlug: string): Event -> bool { (e: Event) => e.partitionKey == chapterSlug }
  function AnyEvent(): Event -> bool { (e: Event) => true }
  function RegistrationOfEvent(eventId: string): Registration -> bool { (r: Registration) => r.partitionKey == eventId }
  function RegistrationOfUser(userId: string): Registration -> bool { (r: Registration) => r.userId == userId }
  function RegistrationWithTicket(eventId: string, code: string): Registration -> bool {
    (r: Registration) => r.partitionKey == eventId && r.ticketCode == code
  }
  function BadgeOfEvent(eventId: string): Badge -> bool { (b: Badge) => b.partitionKey == eventId }
  function VolunteerOfEvent(eventId: string): Volunteer -> bool { (v: Volunteer) => v.partitionKey == eventId }
  function VolunteerWithEmail(email: string): Volunteer -> bool { (v: Volunteer) => v.email == email }
  function ApprovedApplication(): Application -> bool { (a: Application) => a.status == "approved" }

  /**
   * The test inside the `getApprovedApplicationByEmail` loop: a non-empty lead
   * or second-lead email that lower-cases to the normalised query.
   */
  function LeadEmailIs(normalised: string): Application -> bool {
    (a: Application) => (a.email != "" && Lower(a.email) == normalised)
      || (a.secondLeadEmail != "" && Lower(a.secondLeadEmail) == normalised)
  }

  function ApprovedLeadEmailIs(normalised: string): Application -> bool {
    (a: Application) => a.status == "approved" && LeadEmailIs(normalised)(a)
  }

  /** An approved application whose city slug is `slug`. */
  function ApprovedCitySlugIs(slug: string): Application -> bool {
    (a: Application) => a.status == "approved" && CitySlug(a.city) == slug
  }

  /** The store: one sequence of rows per table, in key order. */
  class Store {
    var applications: seq<Application>
    var events: seq<Event>
    var registrations: seq<Registration>
    var demographics: seq<Demographics>
    var badges: seq<Badge>
    var volunteers: seq<Volunteer>

    constructor()
      ensures applications == [] && events == [] && registrations == []
      ensures demographics == [] && badges == [] && volunteers == []
      ensures Valid()
    {
      applications, events, registrations := [], [], [];
      demographics, badges, volunteers := [], [], [];
    }

    /** Each table lists its rows in ascending key order, so no two rows share (partitionKey, rowKey). */
    ghost predicate Valid()
      reads this
    {
      && SortedByKey(applications, ApplicationKey) && UniqueKeys(applications, ApplicationKey)
      && SortedByKey(events, EventKey) && UniqueKeys(events, EventKey)
      && SortedByKey(registrations, RegistrationKey) && UniqueKeys(registrations, RegistrationKey)
      && SortedByKey(demographics, DemographicsKey) && UniqueKeys(demographics, DemographicsKey)
      && SortedByKey(badges, BadgeKey) && UniqueKeys(badges, BadgeKey)
      && SortedByKey(volunteers, VolunteerKey) && UniqueKeys(volunteers, VolunteerKey)
    }

    // ─── Chapter applications ───

    /** `storeApplication`: the pending entity, unless the key is taken. */
    method StoreApplication(a: NewApplication, now: string) returns (stored: Option<Application>)
      requires Valid()
      modifies this`applications
      ensures Valid()
      ensures var e := ApplicationEntity(a, now);
        && (stored.Some? <==> !HasKey(old(applications), ApplicationKey, ApplicationKey(e)))
        && (stored.Some? ==> stored.value == e && applications == Insert(old(applications), e, ApplicationKey))
        && (stored.None? ==> applications == old(applications))
    {
      var e := ApplicationEntity(a, now);
      if HasKey(applications, ApplicationKey, ApplicationKey(e)) {
        return None;
      }
      InsertSorted(applications, e, ApplicationKey);
      applications := Insert(applications, e, ApplicationKey);
      return Some(e);
    }

    /** `getEntity('applications', id)`: None where the SDK throws for a missing row. */
    function GetApplication(id: string): (r: Option<Application>)
      reads this
      ensures r.Some? ==> r.value in applications && ApplicationKey(r.value) == ("applications", id)
      ensures r.None? <==> !HasKey(applications, ApplicationKey, ("applications", id))
    {
      KeyLookup(applications, ApplicationKey, ("applications", id), ApplicationAt(("applications", id)))
    }

    /**
     * A Merge of `u` into the application with that row key; None (the SDK
     * throws) when there is no such row.
     */
    method UpdateApplication(id: string, u: ApplicationUpdate) returns (updated: Option<Application>)
      requires Valid()
      modifies this`applications
      ensures Valid()
      ensures var k := ("applications", id);
        && (updated.None? <==> !HasKey(old(applications), ApplicationKey, k))
        && (updated.Some? ==> updated.value == MergeApplication(old(GetApplication(id)).value, u))
        && applications == MapWhere(old(applications), ApplicationAt(k), ApplyApplicationUpdate(u))
    {
      var k := ("applications", id);
      var current := GetApplication(id);
      UniqueMapWhere(applications, ApplicationAt(k), ApplyApplicationUpdate(u), ApplicationKey);
      SortedMapWhere(applications, ApplicationAt(k), ApplyApplicationUpdate(u), ApplicationKey);
      if current.None? {
        MapWhereNone(applications, ApplicationAt(k), ApplyApplicationUpdate(u));
        return None;
      }
      applications := MapWhere(applications, ApplicationAt(k), ApplyApplicationUpdate(u));
      return Some(MergeApplication(current.value, u));
    }

    /** `updateApplicationStatus(id, status)`. */
    method UpdateApplicationStatus(id: string, status: string, now: string) returns (updated: Option<Application>)
      requires Valid()
      modifies this`applications
      ensures Valid()
      ensures var k := ("applications", id);
        && (updated.None? <==> !HasKey(old(applications), ApplicationKey, k))
        && (updated.Some? ==> updated.value == old(GetApplication(id)).value.(status := status, updatedAt := now))
        && applications == MapWhere(old(applications), ApplicationAt(k),
             ApplyApplicationUpdate(ApplicationUpdate(Some(status), None, now)))
    {
      updated := UpdateApplication(id, ApplicationUpdate(Some(status), None, now));
    }

    /**
     * `getApprovedApplicationByEmail(email)`: the first approved application whose
     * lead or second-lead email matches the trimmed, lower-cased query.
     */
    method GetApprovedApplicationByEmail(email: string) returns (found: Option<Application>)
      ensures found == Find(applications, ApprovedLeadEmailIs(Lower(Trim(email))))
    {
      var normalised := Lower(Trim(email));
      var approved := ScanAll(applications, ApprovedApplication());
      found := ScanFirst(approved, LeadEmailIs(normalised));
      FindAfterFilter(applications, ApprovedApplication(), LeadEmailIs(normalised), ApprovedLeadEmailIs(normalised));
    }

    /** The first approved application whose city slug is `slug`. */
    method GetApprovedApplicationBySlug(slug: string) returns (found: Option<Application>)
      ensures found == Find(applications, ApprovedCitySlugIs(slug))
    {
      found := ScanFirst(applications, ApprovedCitySlugIs(slug));
    }

    // ─── Events ───

    /** `storeEvent(event)`. */
    method StoreEvent(ev: NewEvent, now: string) returns (stored: Option<Event>)
      requires Valid()
      modifies this`events
      ensures Valid()
      ensures var e := EventEntity(ev, now);
        && (stored.Some? <==> !HasKey(old(events), EventKey, EventKey(e)))
        && (stored.Some? ==> stored.value == e && events == Insert(old(events), e, EventKey))
        && (stored.None? ==> events == old(events))
    {
      var e := EventEntity(ev, now);
      if HasKey(events, EventKey, EventKey(e)) {
        return None;
      }
      InsertSorted(events, e, EventKey);
      events := Insert(events, e, EventKey);
      return Some(e);
    }

    /** `getEvent(chapterSlug, eventId)`. */
    function GetEvent(chapterSlug: string, eventId: string): (r: Option<Event>)
      reads this
      ensures r.Some? ==> r.value in events && EventKey(r.value) == (chapterSlug, eventId)
      ensures r.None? <==> !HasKey(events, EventKey, (chapterSlug, eventId))
    {
      KeyLookup(events, EventKey, (chapterSlug, eventId), EventAt((chapterSlug, eventId)))
    }

    /**
     * `getEventById(eventId)`: the first event, in any partition, with that row
     * key; in key order that is the one of the least partition.
     */
    method GetEventById(eventId: string) returns (found: Option<Event>)
      requires Valid()
      ensures found == Find(events, EventWithRowKey(eventId))
      ensures found.Some? ==> forall e :: e in events && e.rowKey == eventId && e != found.value ==>
        KeyLess(EventKey(found.value), EventKey(e))
    {
      UnquoteQuote(eventId);
      found := ScanFirst(events, EventWithRowKey(Unquote(Quote(eventId))));
      forall e | found.Some? && e in events && e.rowKey == eventId && e != found.value
        ensures KeyLess(EventKey(found.value), EventKey(e))
      {
        FindIsKeyLeast(events, EventWithRowKey(eventId), EventKey, e);
      }
    }

    /**
     * `getEventBySlug(slug)`: the first event with that slug the table lists,
     * which is the one with the least (partitionKey, rowKey).
     */
    method GetEventBySlug(slug: string) returns (found: Option<Event>)
      requires Valid()
      ensures found == Find(events, EventWithSlug(slug))
      ensures found.None? <==> forall e :: e in events ==> e.slug != slug
      ensures found.Some? ==> forall e :: e in events && e.slug == slug && e != found.value ==>
        KeyLess(EventKey(found.value), EventKey(e))
    {
      UnquoteQuote(slug);
      found := ScanFirst(events, EventWithSlug(Unquote(Quote(slug))));
      forall e | found.Some? && e in events && e.slug == slug && e != found.value
        ensures KeyLess(EventKey(found.value), EventKey(e))
      {
        FindIsKeyLeast(events, EventWithSlug(slug), EventKey, e);
      }
    }

    /** `listEvents(chapterSlug)`: the chapter's events, or every event when the slug is empty. */
    method ListEvents(chapterSlug: string) returns (results: seq<Event>)
      ensures chapterSlug == "" ==> results == events
      ensures chapterSlug != "" ==> results == Filter(events, EventInPartition(chapterSlug))
    {
      if chapterSlug != "" {
        UnquoteQuote(chapterSlug);
        results := ScanAll(events, EventInPartition(Unquote(Quote(chapterSlug))));
      } else {
        results := ScanAll(events, AnyEvent());
        FilterAll(events, AnyEvent());
      }
    }

    /** `updateEvent(chapterSlug, eventId, { status })`; None when the event is missing. */
    method UpdateEventStatus(chapterSlug: string, eventId: string, status: string, now: string)
      returns (updated: Option<Event>)
      requires Valid()
      modifies this`events
      ensures Valid()
      ensures var k := (chapterSlug, eventId);
        && (updated.None? <==> !HasKey(old(events), EventKey, k))
        && (updated.Some? ==> updated.value == MergeEventStatus(old(GetEvent(chapterSlug, eventId)).value, status, now))
        && events == MapWhere(old(events), EventAt(k), ApplyEventStatus(status, now))
    {
      var k := (chapterSlug, eventId);
      var current := GetEvent(chapterSlug, eventId);
      UniqueMapWhere(events, EventAt(k), ApplyEventStatus(status, now), EventKey);
      SortedMapWhere(events, EventAt(k), ApplyEventStatus(status, now), EventKey);
      if current.None? {
        MapWhereNone(events, EventAt(k), ApplyEventStatus(status, now));
        return None;
      }
      events := MapWhere(events, EventAt(k), ApplyEventStatus(status, now));
      return Some(MergeEventStatus(current.value, status, now));
    }

    // ─── Registrations ───

    /** `storeRegistration(registration)`: checkedIn false, no role. */
    method StoreRegistration(r: NewRegistration, now: string) returns (stored: Option<Registration>)
      requires Valid()
      modifies this`registrations
      ensures Valid()
      ensures var e := RegistrationEntity(r, now);
        && (stored.Some? <==> !HasKey(old(registrations), RegistrationKey, RegistrationKey(e)))
        && (stored.Some? ==> stored.value == e && registrations == Insert(old(registrations), e, RegistrationKey))
        && (stored.None? ==> registrations == old(registrations))
    {
      var e := RegistrationEntity(r, now);
      if HasKey(registrations, RegistrationKey, RegistrationKey(e)) {
        return None;
      }
      InsertSorted(registrations, e, RegistrationKey);
      registrations := Insert(registrations, e, RegistrationKey);
      return Some(e);
    }

    /** `getRegistrationByTicketCode(eventId, ticketCode)`. */
    method GetRegistrationByTicketCode(eventId: string, ticketCode: string) returns (found: Option<Registration>)
      ensures found == Find(registrations, RegistrationWithTicket(eventId, ticketCode))
    {
      UnquoteQuote(eventId);
      UnquoteQuote(ticketCode);
      found := ScanFirst(registrations, RegistrationWithTicket(Unquote(Quote(eventId)), Unquote(Quote(ticketCode))));
    }

    /** `getRegistrationsByUser(userId)`. */
    method GetRegistrationsByUser(userId: string) returns (results: seq<Registration>)
      ensures results == Filter(registrations, RegistrationOfUser(userId))
    {
      UnquoteQuote(userId);
      results := ScanAll(registrations, RegistrationOfUser(Unquote(Quote(userId))));
    }

    /** `getRegistrationsByEvent(eventId)`: exactly the rows of that partition, in key order. */
    method GetRegistrationsByEvent(eventId: string) returns (results: seq<Registration>)
      ensures results == Filter(registrations, RegistrationOfEvent(eventId))
    {
      UnquoteQuote(eventId);
      results := ScanAll(registrations, RegistrationOfEvent(Unquote(Quote(eventId))));
    }

    /** `countRegistrations(eventId)`. */
    method CountRegistrations(eventId: string) returns (count: nat)
      ensures count == |Filter(registrations, RegistrationOfEvent(eventId))|
    {
      var regs := GetRegistrationsByEvent(eventId);
      count := |regs|;
    }

    function GetRegistration(eventId: string, id: string): (r: Option<Registration>)
      reads this
      ensures r.Some? ==> r.value in registrations && RegistrationKey(r.value) == (eventId, id)
      ensures r.None? <==> !HasKey(registrations, RegistrationKey, (eventId, id))
    {
      KeyLookup(registrations, RegistrationKey, (eventId, id), RegistrationAt((eventId, id)))
    }

    /** `updateRegistration(eventId, id, updates)`: a Merge, with no timestamp. */
    method UpdateRegistration(eventId: string, id: string, u: RegistrationUpdate) returns (updated: Option<Registration>)
      requires Valid()
      modifies this`registrations
      ensures Valid()
      ensures var k := (eventId, id);
        && (updated.None? <==> !HasKey(old(registrations), RegistrationKey, k))
        && (updated.Some? ==> updated.value == MergeRegistration(old(GetRegistration(eventId, id)).value, u))
        && registrations == MapWhere(old(registrations), RegistrationAt(k), ApplyRegistrationUpdate(u))
    {
      var k := (eventId, id);
      var current := GetRegistration(eventId, id);
      UniqueMapWhere(registrations, RegistrationAt(k), ApplyRegistrationUpdate(u), RegistrationKey);
      SortedMapWhere(registrations, RegistrationAt(k), ApplyRegistrationUpdate(u), RegistrationKey);
      if current.None? {
        MapWhereNone(registrations, RegistrationAt(k), ApplyRegistrationUpdate(u));
        return None;
      }
      registrations := MapWhere(registrations, RegistrationAt(k), ApplyRegistrationUpdate(u));
      return Some(MergeRegistration(current.value, u));
    }

    /** `deleteRegistration(partitionKey, rowKey)`: every other row stays, in key order. */
    method DeleteRegistration(eventId: string, id: string)
      requires Valid()
      modifies this`registrations
      ensures Valid()
      ensures registrations == Filter(old(registrations), RegistrationNotAt((eventId, id)))
    {
      UniqueFilter(registrations, RegistrationNotAt((eventId, id)), RegistrationKey);
      SortedFilter(registrations, RegistrationNotAt((eventId, id)), RegistrationKey);
      registrations := Filter(registrations, RegistrationNotAt((eventId, id)));
    }

    // ─── Demographics ───

    /** `storeDemographics(demographics)`. */
    method StoreDemographics(d: NewDemographics) returns (stored: Option<Demographics>)
      requires Valid()
      modifies this`demographics
      ensures Valid()
      ensures var e := DemographicsEntity(d);
        && (stored.Some? <==> !HasKey(old(demographics), DemographicsKey, DemographicsKey(e)))
        && (stored.Some? ==> stored.value == e && demographics == Insert(old(demographics), e, DemographicsKey))
        && (stored.None? ==> demographics == old(demographics))
    {
      var e := DemographicsEntity(d);
      if HasKey(demographics, DemographicsKey, DemographicsKey(e)) {
        return None;
      }
      InsertSorted(demographics, e, DemographicsKey);
      demographics := Insert(demographics, e, DemographicsKey);
      return Some(e);
    }

    /** `deleteDemographics(partitionKey, rowKey)`. */
    method DeleteDemographics(eventId: string, id: string)
      requires Valid()
      modifies this`demographics
      ensures Valid()
      ensures demographics == Filter(old(demographics), DemographicsNotAt((eventId, id)))
    {
      UniqueFilter(demographics, DemographicsNotAt((eventId, id)), DemographicsKey);
      SortedFilter(demographics, DemographicsNotAt((eventId, id)), DemographicsKey);
      demographics := Filter(demographics, DemographicsNotAt((eventId, id)));
    }

    // ─── Badges ───

    /** `storeBadge(badge)`. */
    method StoreBadge(b: NewBadge, now: string) returns (stored: Option<Badge>)
      requires Valid()
      modifies this`badges
      ensures Valid()
      ensures var e := BadgeEntity(b, now);
        && (stored.Some? <==> !HasKey(old(badges), BadgeKey, BadgeKey(e)))
        && (stored.Some? ==> stored.value == e && badges == Insert(old(badges), e, BadgeKey))
        && (stored.None? ==> badges == old(badges))
    {
      var e := BadgeEntity(b, now);
      if HasKey(badges, BadgeKey, BadgeKey(e)) {
        return None;
      }
      InsertSorted(badges, e, BadgeKey);
      badges := Insert(badges, e, BadgeKey);
      return Some(e);
    }

    /** `getBadge(eventId, badgeId)`. */
    function GetBadge(eventId: string, badgeId: string): (r: Option<Badge>)
      reads this
      ensures r.Some? ==> r.value in badges && BadgeKey(r.value) == (eventId, badgeId)
      ensures r.None? <==> !HasKey(badges, BadgeKey, (eventId, badgeId))
    {
      KeyLookup(badges, BadgeKey, (eventId, badgeId), BadgeAt((eventId, badgeId)))
    }

    /** `getBadgesByEvent(eventId)`. */
    method GetBadgesByEvent(eventId: string) returns (results: seq<Badge>)
      ensures results == Filter(badges, BadgeOfEvent(eventId))
    {
      UnquoteQuote(eventId);
      results := ScanAll(badges, BadgeOfEvent(Unquote(Quote(eventId))));
    }

    // ─── Volunteers ───

    /** `storeVolunteer(volunteer)`: the email is lower-cased and trimmed. */
    method StoreVolunteer(v: NewVolunteer, now: string) returns (stored: Option<Volunteer>)
      requires Valid()
      modifies this`volunteers
      ensures Valid()
      ensures var e := VolunteerEntity(v, now);
        && (stored.Some? <==> !HasKey(old(volunteers), VolunteerKey, VolunteerKey(e)))
        && (stored.Some? ==> stored.value == e && volunteers == Insert(old(volunteers), e, VolunteerKey))
        && (stored.None? ==> volunteers == old(volunteers))
    {
      var e := VolunteerEntity(v, now);
      if HasKey(volunteers, VolunteerKey, VolunteerKey(e)) {
        return None;
      }
      InsertSorted(volunteers, e, VolunteerKey);
      volunteers := Insert(volunteers, e, VolunteerKey);
      return Some(e);
    }

    /** `getVolunteersByEvent(eventId)`. */
    method GetVolunteersByEvent(eventId: string) returns (results: seq<Volunteer>)
      ensures results == Filter(volunteers, VolunteerOfEvent(eventId))
    {
      UnquoteQuote(eventId);
      results := ScanAll(volunteers, VolunteerOfEvent(Unquote(Quote(eventId))));
    }

    /**
     * `removeVolunteer(eventId, volunteerId)`: exactly that row goes. `deleteEntity`
     * throws when there is no such row; `removed` is false then and nothing changes.
     */
    method RemoveVolunteer(eventId: string, id: string) returns (removed: bool)
      requires Valid()
      modifies this`volunteers
      ensures Valid()
      ensures removed <==> HasKey(old(volunteers), VolunteerKey, (eventId, id))
      ensures removed ==> volunteers == Filter(old(volunteers), VolunteerNotAt((eventId, id)))
      ensures !removed ==> volunteers == old(volunteers)
    {
      if !HasKey(volunteers, VolunteerKey, (eventId, id)) {
        return false;
      }
      UniqueFilter(volunteers, VolunteerNotAt((eventId, id)), VolunteerKey);
      SortedFilter(volunteers, VolunteerNotAt((eventId, id)), VolunteerKey);
      volunteers := Filter(volunteers, VolunteerNotAt((eventId, id)));
      return true;
    }

    /** `isVolunteerForAnyEvent(email)`: a volunteer row whose stored email is the normalised query. */
    method IsVolunteerForAnyEvent(email: string) returns (found: Option<Volunteer>)
      ensures found == Find(volunteers, VolunteerWithEmail(Lower(Trim(email))))
    {
      var normalised := Lower(Trim(email));
      UnquoteQuote(normalised);
      found := ScanFirst(volunteers, VolunteerWithEmail(Unquote(Quote(normalised))));
    }
  }

  /**
   * Within one event, no signed-in user (non-empty userId) holds two
   * registrations. Rows written by an administrator carry userId `""` and are
   * not constrained.
   */
  predicate OneRegistrationPerUser(registrations: seq<Registration>) {
    forall x, y ::
      (x in registrations && y in registrations && x != y && x.partitionKey == y.partitionKey && x.userId != "")
      ==> x.userId != y.userId
  }

  // ─── Lemmas about the store's queries ───

  /** A key lookup: the row with that key, found by a scan. */
  function KeyLookup<T(!new)>(rows: seq<T>, key: T -> Key, k: Key, p: T -> bool): (r: Option<T>)
    requires forall x :: p(x) <==> key(x) == k
    ensures r.Some? ==> r.value in rows && key(r.value) == k
    ensures r.None? <==> !HasKey(rows, key, k)
  {
    var r := Find(rows, p);
    if r.None? then
      assert forall i :: 0 <= i < |rows| ==> rows[i] in rows;
      r
    else
      r
  }

  /** Finding the first `q` among the `p` rows is finding the first row with both. */
  lemma {:induction false} FindAfterFilter<T(!new)>(s: seq<T>, p: T -> bool, q: T -> bool, both: T -> bool)
    requires forall x :: both(x) <==> p(x) && q(x)
    ensures Find(Filter(s, p), q) == Find(s, both)
  {
    if |s| > 0 {
      FindAfterFilter(s[1..], p, q, both);
      if p(s[0]) {
        assert Filter(s, p) == [s[0]] + Filter(s[1..], p);
        assert ([s[0]] + Filter(s[1..], p))[1..] == Filter(s[1..], p);
      } else {
        assert Filter(s, p) == Filter(s[1..], p);
      }
    }
  }

  /** A volunteer stored with some email is found by any query with the same normalised form. */
  lemma StoredVolunteerIsFound(volunteers: seq<Volunteer>, v: NewVolunteer, now: string, query: string)
    requires NormaliseEmail(query) == NormaliseEmail(v.email)
    ensures Find(Insert(volunteers, VolunteerEntity(v, now), VolunteerKey), VolunteerWithEmail(Lower(Trim(query)))).Some?
  {
    LowerTrimCommute(query);
    var e := VolunteerEntity(v, now);
    InsertContents(volunteers, e, VolunteerKey);
    assert e in Insert(volunteers, e, VolunteerKey);
  }
}
