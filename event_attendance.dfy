/**
 * /api/eventAttendance (api/src/functions/eventAttendance.js), the
 * administrator's event endpoint. POST sets an event's status; GET with
 * `action=list` lists events with their registration counts; any other GET
 * gives one event's attendance, as JSON or, with `format=csv`, as a CSV file.
 */
module EventAttendance {
  import opened Wrappers
  import opened Http
  import opened Auth
  import opened JsString
  import opened Tables
  import opened TableStorage

  const EventStatuses: seq<string> := ["published", "closed", "completed"]

  datatype StatusBody = StatusBody(eventId: string, chapterSlug: string, status: string)

  /** The request: its method, the parsed POST body and the query parameters (`""` when absent). */
  datatype Request = Request(
    method_: string, body: Option<StatusBody>,
    action: string, chapterSlug: string, eventId: string, format: string)

  /** One element of the dashboard's event list. */
  datatype EventSummary = EventSummary(
    id: string, title: string, slug: string, chapterSlug: string, date: string,
    location: string, status: string, registrationCap: int, registrationCount: nat)

  /** One element of `attendees` in the JSON detail. */
  datatype Attendee = Attendee(
    name: string, email: string, ticketCode: string, checkedIn: Flag, checkedInAt: string, registeredAt: string)

  datatype AttendanceData =
    | StatusSet(id: string, status: string)
    | EventList(events: seq<EventSummary>)
    | Detail(eventId: string, total: nat, checkedIn: nat, attendees: seq<Attendee>)
    | Csv(filename: string, text: string)

  // ─── The event list ───

  /** The number of registrations in an event's partition. */
  function CountOf(registrations: seq<Registration>, eventId: string): nat {
    |Filter(registrations, RegistrationOfEvent(eventId))|
  }

  function Summary(ev: Event, count: nat): (s: EventSummary)
    ensures s.id == ev.rowKey && s.registrationCount == count
    ensures s.chapterSlug == if ev.chapterSlug != "" then ev.chapterSlug else ev.partitionKey
    ensures s.registrationCap == ev.registrationCap
  {
    EventSummary(ev.rowKey, ev.title, ev.slug, if ev.chapterSlug != "" then ev.chapterSlug else ev.partitionKey,
      ev.date, ev.location, ev.status, ev.registrationCap, count)
  }

  /** The `for (const ev of events)` loop that builds `enriched`. */
  method Enrich(store: Store, events: seq<Event>) returns (enriched: seq<EventSummary>)
    ensures |enriched| == |events|
    ensures forall i :: 0 <= i < |events| ==>
      enriched[i] == Summary(events[i], CountOf(store.registrations, events[i].rowKey))
  {
    enriched := [];
    var i := 0;
    while i < |events|
      invariant 0 <= i <= |events|
      invariant |enriched| == i
      invariant forall j :: 0 <= j < i ==> enriched[j] == Summary(events[j], CountOf(store.registrations, events[j].rowKey))
    {
      var count := store.CountRegistrations(events[i].rowKey);
      var next := enriched + [Summary(events[i], count)];
      assert forall j :: 0 <= j < i ==> next[j] == enriched[j];
      enriched := next;
      i := i + 1;
    }
  }

  // ─── The attendance detail ───

  /** `r.checkedIn || false`. */
  function CheckedInOrFalse(f: Flag): (r: Flag)
    ensures r.Truthy() == f.Truthy()
    ensures f.Truthy() ==> r == f
  {
    if f.Truthy() then f else Bool(false)
  }

  function AttendeeOf(r: Registration): Attendee {
    Attendee(r.fullName, r.email, r.ticketCode, CheckedInOrFalse(r.checkedIn), r.checkedInAt, r.registeredAt)
  }

  function CheckedInTruthy(): Registration -> bool {
    (r: Registration) => r.checkedIn.Truthy()
  }

  /** The JSON detail: `total`, the truthy-checked-in count and one attendee per registration. */
  function DetailOf(eventId: string, regs: seq<Registration>): (d: AttendanceData)
    ensures d.Detail? && d.eventId == eventId && d.total == |regs| && |d.attendees| == |regs|
    ensures d.checkedIn <= d.total
    ensures d.checkedIn == |Filter(regs, CheckedInTruthy())|
    ensures forall i :: 0 <= i < |regs| ==>
      d.attendees[i].ticketCode == regs[i].ticketCode && d.attendees[i].checkedIn.Truthy() == regs[i].checkedIn.Truthy()
  {
    Detail(eventId, |regs|, |Filter(regs, CheckedInTruthy())|, seq(|regs|, i requires 0 <= i < |regs| => AttendeeOf(regs[i])))
  }

  // ─── The CSV export ───

  /**
   * The header line, `Name,Email,Ticket Code,Checked In,Checked In At,Registered At`,
   * written in pieces: the verifier sees that short literals hold no line break.
   */
  const CsvHeader := "Name,Email," + "Ticket Code," + "Checked In," + "Checked In At," + "Registered At"

  function YesNo(f: Flag): (r: string)
    ensures r == "Yes" || r == "No"
    ensures r == "Yes" <==> f.Truthy()
  {
    if f.Truthy() then "Yes" else "No"
  }

  /** `"…"` around a cell. */
  function Cell(s: string): string {
    "\"" + s + "\""
  }

  /** One CSV line: six quoted cells, with only the name's `"` doubled. */
  function CsvRow(r: Registration): string {
    Cell(Double(r.fullName, '"')) + "," + Cell(r.email) + "," + Cell(r.ticketCode) + ","
      + Cell(YesNo(r.checkedIn)) + "," + Cell(r.checkedInAt) + "," + Cell(r.registeredAt)
  }

  function CsvRows(regs: seq<Registration>): (rows: seq<string>)
    ensures |rows| == |regs|
    ensures forall i :: 0 <= i < |regs| ==> rows[i] == CsvRow(regs[i])
  {
    seq(|regs|, i requires 0 <= i < |regs| => CsvRow(regs[i]))
  }

  /** `header + rows.join('\n')`, the header carrying its own line break. */
  function CsvText(regs: seq<Registration>): string {
    CsvHeader + "\n" + Join(CsvRows(regs), "\n")
  }

  /** The name cell reads back as the name, and never holds an unpaired `"`. */
  lemma NameCellRoundTrip(r: Registration)
    ensures Undouble(Double(r.fullName, '"'), '"') == r.fullName
    ensures Paired(Double(r.fullName, '"'), '"')
  {
    UndoubleDouble(r.fullName, '"');
    DoublePaired(r.fullName, '"');
  }

  /** With no line break inside a row, the lines of the file are the header and then one row per registration. */
  lemma CsvLines(regs: seq<Registration>)
    requires |regs| > 0
    requires forall i :: 0 <= i < |regs| ==> '\n' !in CsvRow(regs[i])
    ensures Split(CsvText(regs), '\n') == [CsvHeader] + CsvRows(regs)
  {
    assert '\n' !in CsvHeader;
    var rows := CsvRows(regs);
    var lines := [CsvHeader] + rows;
    assert lines[0] == CsvHeader && lines[1..] == rows;
    assert Join(lines, "\n") == CsvHeader + "\n" + Join(rows, "\n");
    forall p | p in lines ensures '\n' !in p {
      if p != CsvHeader {
        assert p in rows;
      }
    }
    SplitJoin(lines, '\n');
  }

  // ─── The handler ───

  /**
   * What the POST branch answers and writes, as a relation between the events
   * table before and after: a status update is accepted from any current status.
   */
  predicate StatusSays(oldEvents: seq<Event>, events: seq<Event>, body: Option<StatusBody>, now: string,
                       reply: Reply<AttendanceData>)
  {
    if body.None? then reply == Fail(400, InvalidJson) && events == oldEvents
    else
      var b := body.value;
      if b.eventId == "" || b.chapterSlug == "" || b.status == "" then
        reply == Fail(400, "Missing eventId, chapterSlug, or status") && events == oldEvents
      else if b.status !in EventStatuses then
        reply == Fail(400, "Invalid status. Must be published, closed, or completed") && events == oldEvents
      else
        var k := (b.chapterSlug, b.eventId);
        && events == MapWhere(oldEvents, EventAt(k), ApplyEventStatus(b.status, now))
        && reply == if HasKey(oldEvents, EventKey, k) then Done(200, StatusSet(b.eventId, b.status)) else InternalError()
  }

  /** The POST branch. */
  method SetStatus(store: Store, body: Option<StatusBody>, now: string) returns (reply: Reply<AttendanceData>)
    requires store.Valid()
    modifies store`events
    ensures store.Valid()
    ensures StatusSays(old(store.events), store.events, body, now, reply)
  {
    if body.None? {
      return Fail(400, InvalidJson);
    }
    var b := body.value;
    if b.eventId == "" || b.chapterSlug == "" || b.status == "" {
      return Fail(400, "Missing eventId, chapterSlug, or status");
    }
    if b.status !in EventStatuses {
      return Fail(400, "Invalid status. Must be published, closed, or completed");
    }
    var updated := store.UpdateEventStatus(b.chapterSlug, b.eventId, b.status, now);
    if updated.None? {
      return InternalError();
    }
    reply := Done(200, StatusSet(b.eventId, updated.value.status));
  }

  predicate IsAdmin(user: Option<User>) {
    HasRole(user, "admin")
  }

  /**
   * What the three GET modes answer: `action=list` lists every event, or the
   * chapter's, each with its registration count; otherwise a missing event id
   * is refused, and the event's registrations are answered as a CSV file or as
   * the JSON detail.
   */
  predicate ReadSays(events: seq<Event>, registrations: seq<Registration>, req: Request, reply: Reply<AttendanceData>) {
    if req.action == "list" then
      && reply.status == 200 && reply.data.Some? && reply.data.value.EventList?
      && var listed := if req.chapterSlug == "" then events else Filter(events, EventInPartition(req.chapterSlug));
      var summaries := reply.data.value.events;
      && |summaries| == |listed|
      && forall i :: 0 <= i < |listed| ==> summaries[i] == Summary(listed[i], CountOf(registrations, listed[i].rowKey))
    else if req.eventId == "" then reply == Fail(400, "Missing eventId parameter")
    else
      var regs := Filter(registrations, RegistrationOfEvent(req.eventId));
      reply == if req.format == "csv" then Done(200, Csv("attendance-" + req.eventId + ".csv", CsvText(regs)))
               else Done(200, DetailOf(req.eventId, regs))
  }

  /** The GET branch; it writes nothing. */
  method Read(store: Store, req: Request) returns (reply: Reply<AttendanceData>)
    ensures ReadSays(store.events, store.registrations, req, reply)
  {
    if req.action == "list" {
      var events := store.ListEvents(req.chapterSlug);
      var enriched := Enrich(store, events);
      return Done(200, EventList(enriched));
    }
    if req.eventId == "" {
      return Fail(400, "Missing eventId parameter");
    }
    var regs := store.GetRegistrationsByEvent(req.eventId);
    if req.format == "csv" {
      return Done(200, Csv("attendance-" + req.eventId + ".csv", CsvText(regs)));
    }
    reply := Done(200, DetailOf(req.eventId, regs));
  }

  /** Every mode needs an identity and the admin role first. */
  method Attendance(store: Store, user: Option<User>, req: Request, now: string) returns (reply: Reply<AttendanceData>)
    requires store.Valid()
    modifies store`events
    ensures store.Valid()
    ensures user.None? ==> reply == Unauthorised("") && unchanged(store)
    ensures user.Some? && !IsAdmin(user) ==>
      reply == Forbidden("Only event organisers can access attendance") && unchanged(store)
    ensures IsAdmin(user) && req.method_ == "POST" ==> StatusSays(old(store.events), store.events, req.body, now, reply)
    ensures IsAdmin(user) && req.method_ != "POST" ==>
      ReadSays(store.events, store.registrations, req, reply) && unchanged(store)
  {
    if user.None? {
      return Unauthorised("");
    }
    if !IsAdmin(user) {
      return Forbidden("Only event organisers can access attendance");
    }
    if req.method_ == "POST" {
      reply := SetStatus(store, req.body, now);
    } else {
      reply := Read(store, req);
    }
  }
}
