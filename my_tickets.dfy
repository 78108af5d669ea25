/**
 * GET /api/myTickets (api/src/functions/myTickets.js): the signed-in user's
 * registrations, each shown as a ticket with its event's details. Events are
 * looked up by id and kept in a per-call cache; a lookup that finds nothing is
 * not cached and is repeated for the next registration of that event.
 */
module MyTickets {
  import opened Wrappers
  import opened Http
  import opened Auth
  import opened Tables
  import opened TableStorage
  import opened EventAttendance

  /** One element of `tickets`. */
  datatype Ticket = Ticket(
    registrationId: string, eventId: string, ticketCode: string, fullName: string,
    checkedIn: Flag, checkedInAt: string, registeredAt: string, qrDataUrl: string,
    eventTitle: string, eventDate: string, eventEndDate: string, eventLocation: string, eventSlug: string)

  /**
   * The ticket for one registration, given the event lookup's answer and what
   * the QR encoder returned (None when it threw, which leaves `''`).
   */
  function TicketOf(reg: Registration, event: Option<Event>, qr: Option<string>): (t: Ticket)
    ensures t.registrationId == reg.rowKey && t.eventId == reg.partitionKey && t.ticketCode == reg.ticketCode
    ensures t.checkedIn.Truthy() == reg.checkedIn.Truthy() && (!reg.checkedIn.Truthy() ==> t.checkedIn == Bool(false))
    ensures event.None? ==> t.eventTitle == "" && t.eventDate == "" && t.eventEndDate == "" && t.eventLocation == "" && t.eventSlug == ""
    ensures event.Some? ==> t.eventTitle == event.value.title && t.eventSlug == event.value.slug
  {
    var ev := event.GetOr(Event("", "", "", "", "", "", "", "", "", "", 0, "", "", "", ""));
    Ticket(reg.rowKey, reg.partitionKey, reg.ticketCode, reg.fullName, CheckedInOrFalse(reg.checkedIn),
      reg.checkedInAt, reg.registeredAt, qr.GetOr(""),
      ev.title, ev.date, ev.endDate, ev.location, ev.slug)
  }

  /** The tickets the loop builds: one per registration, in order, each with the event its id names. */
  function TicketsOf(regs: seq<Registration>, events: seq<Event>, qr: string -> Option<string>): (ts: seq<Ticket>)
    ensures |ts| == |regs|
    ensures forall i :: 0 <= i < |regs| ==>
      ts[i] == TicketOf(regs[i], Find(events, EventWithRowKey(regs[i].partitionKey)), qr(regs[i].ticketCode))
  {
    seq(|regs|, i requires 0 <= i < |regs| =>
      TicketOf(regs[i], Find(events, EventWithRowKey(regs[i].partitionKey)), qr(regs[i].ticketCode)))
  }

  /** What the cache holds: only events the lookup found, under their own id. */
  ghost predicate CacheAgrees(cache: map<string, Event>, events: seq<Event>) {
    forall id :: id in cache ==> Find(events, EventWithRowKey(id)) == Some(cache[id])
  }

  /** The ids looked up: each id whose event exists appears at most once. */
  ghost predicate FetchedOnce(lookups: seq<string>, events: seq<Event>) {
    forall i, j :: 0 <= i < j < |lookups| && lookups[i] == lookups[j] ==> Find(events, EventWithRowKey(lookups[i])).None?
  }

  /** Looking up an id again is allowed only when the earlier lookups of it found nothing. */
  lemma FetchedOnceSnoc(lookups: seq<string>, id: string, events: seq<Event>)
    requires FetchedOnce(lookups, events)
    requires id in lookups ==> Find(events, EventWithRowKey(id)).None?
    ensures FetchedOnce(lookups + [id], events)
  {
    var l := lookups + [id];
    forall i, j | 0 <= i < j < |l| && l[i] == l[j] ensures Find(events, EventWithRowKey(l[i])).None? {
      if j < |lookups| {
        assert lookups[i] == l[i] && lookups[j] == l[j];
      } else {
        assert lookups[i] in lookups;
      }
    }
  }

  /** The cache and the lookups so far agree with the events table. */
  ghost predicate CacheState(cache: map<string, Event>, lookups: seq<string>, events: seq<Event>) {
    && CacheAgrees(cache, events)
    && (forall id :: id in cache ==> id in lookups)
    && FetchedOnce(lookups, events)
    && (forall id :: id in lookups && Find(events, EventWithRowKey(id)).Some? ==> id in cache)
  }

  /**
   * One iteration's `eventCache[reg.partitionKey]`: the cached event, or a
   * lookup when the id is not cached. The cache keeps only events that exist.
   */
  method CachedLookup(store: Store, cache: map<string, Event>, ghost lookups: seq<string>, eventId: string)
    returns (event: Option<Event>, cache': map<string, Event>, ghost lookups': seq<string>)
    requires store.Valid() && CacheState(cache, lookups, store.events)
    ensures CacheState(cache', lookups', store.events)
    ensures event == Find(store.events, EventWithRowKey(eventId))
    ensures lookups' == lookups || lookups' == lookups + [eventId]
    ensures eventId in lookups'
  {
    cache', lookups' := cache, lookups;
    if eventId !in cache {
      var found := store.GetEventById(eventId);
      FetchedOnceSnoc(lookups, eventId, store.events);
      lookups' := lookups + [eventId];
      if found.Some? {
        cache' := cache[eventId := found.value];
      }
    }
    event := if eventId in cache' then Some(cache'[eventId]) else None;
  }

  /** After `n` iterations: one ticket per registration so far, and the lookups those made. */
  ghost predicate Built(regs: seq<Registration>, n: nat, tickets: seq<Ticket>, cache: map<string, Event>,
                        lookups: seq<string>, events: seq<Event>, qr: string -> Option<string>)
  {
    && n <= |regs| && |tickets| == n
    && (forall i :: 0 <= i < n ==>
          tickets[i] == TicketOf(regs[i], Find(events, EventWithRowKey(regs[i].partitionKey)), qr(regs[i].ticketCode)))
    && CacheState(cache, lookups, events)
    && (forall i :: 0 <= i < n ==> regs[i].partitionKey in lookups)
    && (forall id :: id in lookups ==> exists i :: 0 <= i < n && regs[i].partitionKey == id)
  }

  /** One iteration of the loop: the ticket for `regs[n]`. */
  method AddTicket(store: Store, regs: seq<Registration>, n: nat, tickets: seq<Ticket>, cache: map<string, Event>,
                   ghost lookups: seq<string>, qr: string -> Option<string>)
    returns (tickets': seq<Ticket>, cache': map<string, Event>, ghost lookups': seq<string>)
    requires store.Valid() && n < |regs| && Built(regs, n, tickets, cache, lookups, store.events, qr)
    ensures Built(regs, n + 1, tickets', cache', lookups', store.events, qr)
    ensures lookups' == lookups || lookups' == lookups + [regs[n].partitionKey]
  {
    var reg := regs[n];
    var event;
    event, cache', lookups' := CachedLookup(store, cache, lookups, reg.partitionKey);
    tickets' := tickets + [TicketOf(reg, event, qr(reg.ticketCode))];
    forall id | id in lookups' ensures exists i :: 0 <= i < n + 1 && regs[i].partitionKey == id {
      if id !in lookups {
        assert regs[n].partitionKey == id;
      }
    }
  }

  /**
   * The `for (const reg of registrations)` loop. `lookups` records the ids the
   * loop passes to `getEventById`: every registration's event id is among them,
   * and an event that exists is fetched at most once.
   */
  method BuildTickets(store: Store, regs: seq<Registration>, qr: string -> Option<string>)
    returns (tickets: seq<Ticket>, ghost lookups: seq<string>)
    requires store.Valid()
    ensures tickets == TicketsOf(regs, store.events, qr)
    ensures FetchedOnce(lookups, store.events)
    ensures forall i :: 0 <= i < |regs| ==> regs[i].partitionKey in lookups
    ensures forall id :: id in lookups ==> exists i :: 0 <= i < |regs| && regs[i].partitionKey == id
  {
    tickets := [];
    lookups := [];
    var cache: map<string, Event> := map[];
    for n := 0 to |regs|
      invariant Built(regs, n, tickets, cache, lookups, store.events, qr)
    {
      tickets, cache, lookups := AddTicket(store, regs, n, tickets, cache, lookups, qr);
    }
  }

  /** The handler: 401 without an identity, otherwise 200 with the tickets. */
  method MyTickets(store: Store, user: Option<User>, qr: string -> Option<string>) returns (reply: Reply<seq<Ticket>>)
    requires store.Valid()
    ensures user.None? ==> reply == Unauthorised("")
    ensures user.Some? ==> reply == Done(200, TicketsOf(Filter(store.registrations, RegistrationOfUser(user.value.userId)), store.events, qr))
  {
    if user.None? {
      return Unauthorised("");
    }
    var registrations := store.GetRegistrationsByUser(user.value.userId);
    var tickets, _ := BuildTickets(store, registrations, qr);
    return Done(200, tickets);
  }

  /**
   * Every ticket shown belongs to one of the caller's registrations, in
   * the store's order, carrying its ticket code and event id; a user without
   * registrations gets an empty list.
   */
  lemma TicketsAreTheCallersOwn(store: Store, userId: string, qr: string -> Option<string>)
    ensures var regs := Filter(store.registrations, RegistrationOfUser(userId));
      var ts := TicketsOf(regs, store.events, qr);
      && (forall i :: 0 <= i < |ts| ==>
            regs[i] in store.registrations && regs[i].userId == userId
            && ts[i].ticketCode == regs[i].ticketCode && ts[i].eventId == regs[i].partitionKey)
      && ((forall r :: r in store.registrations ==> r.userId != userId) ==> ts == [])
  {
    var regs := Filter(store.registrations, RegistrationOfUser(userId));
    forall i | 0 <= i < |regs| ensures regs[i] in store.registrations && regs[i].userId == userId {
      assert regs[i] in regs;
    }
    if forall r :: r in store.registrations ==> r.userId != userId {
      FilterNone(store.registrations, RegistrationOfUser(userId));
    }
  }
}
