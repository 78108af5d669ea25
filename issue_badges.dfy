/**
 * POST /api/issueBadges (api/src/functions/issueBadges.js): an administrator
 * issues one badge per checked-in registration of an event. The badge type is
 * the registration's role, capitalised; each badge is stored on its own and a
 * failed store becomes an entry of `errors` instead of stopping the loop.
 *
 * The badge ids (`randomUUID`) are the parameter `badgeId`, the i-th id for the
 * i-th eligible registration. A store fails here when the key is already taken.
 */
module IssueBadges {
  import opened Wrappers
  import opened Http
  import opened Auth
  import opened JsString
  import opened Tables
  import opened TableStorage

  datatype IssueBody = IssueBody(eventId: string, chapterSlug: string)

  datatype BadgeError = BadgeError(email: string, error: string)

  /** The two successful replies: nobody eligible, or the issue loop's report. */
  datatype IssueReport =
    | NoneEligible
    | Report(issued: nat, total: nat, errors: Option<seq<BadgeError>>)

  /** The message of a failed `storeBadge`; its text comes from the table service. */
  const StoreFailed := "The specified entity already exists."

  const NotOrganiser := "Only event organisers can issue badges"
  const MissingFields := "Missing eventId or chapterSlug"
  const EventNotFound := "Event not found"

  /** `s` with its first letter upper-cased. */
  function Capitalise(s: string): string {
    if |s| == 0 then "" else [UpperChar(s[0])] + s[1..]
  }

  /** `reg.checkedIn === true || reg.checkedIn === 'true'`. */
  function Eligible(): Registration -> bool {
    (r: Registration) => r.checkedIn.IsTrue()
  }

  /** `roleToBadgeType`. */
  const RoleToBadgeType: map<string, string> :=
    map["attendee" := "Attendee", "volunteer" := "Volunteer", "speaker" := "Speaker",
        "sponsor" := "Sponsor", "organiser" := "Organiser"]

  /** The map covers exactly the valid roles, and sends each to itself capitalised. */
  lemma RoleToBadgeTypeCapitalises()
    ensures forall r :: r in RoleToBadgeType <==> r in ValidRoles
    ensures forall r :: r in RoleToBadgeType ==> RoleToBadgeType[r] == Capitalise(r)
  {
    assert Capitalise("attendee") == "Attendee";
    assert Capitalise("volunteer") == "Volunteer";
    assert Capitalise("speaker") == "Speaker";
    assert Capitalise("sponsor") == "Sponsor";
    assert Capitalise("organiser") == "Organiser";
  }

  /** `roleToBadgeType[reg.role || 'attendee'] || 'Attendee'`: a missing or unknown role gives Attendee. */
  function BadgeTypeOf(role: Option<string>): (t: string)
    ensures var r := if role.None? || role.value == "" then "attendee" else role.value;
      t == if r in ValidRoles then Capitalise(r) else "Attendee"
  {
    RoleToBadgeTypeCapitalises();
    var r := if role.None? || role.value == "" then "attendee" else role.value;
    if r in RoleToBadgeType then RoleToBadgeType[r] else "Attendee"
  }

  /** The badge object passed to `storeBadge` for `reg`. */
  function BadgeFor(eventId: string, id: string, reg: Registration): (b: NewBadge)
    ensures b.eventId == eventId && b.id == id
    ensures b.recipientEmail == reg.email && b.recipientName == reg.fullName
    ensures b.badgeType == BadgeTypeOf(reg.role) && b.userId == reg.userId
  {
    NewBadge(id, eventId, reg.email, reg.fullName, BadgeTypeOf(reg.role), reg.userId)
  }

  /** The badges table, the `issued` counter and the `errors` list after the loop has seen `regs`. */
  datatype Outcome = Outcome(badges: seq<Badge>, issued: nat, errors: seq<BadgeError>)

  /** One turn of the loop: store `e` at its key's place, or record an error for `email` when its key is taken. */
  function Step(prev: Outcome, e: Badge, email: string): (o: Outcome)
    ensures HasKey(prev.badges, BadgeKey, BadgeKey(e)) ==> o == Outcome(prev.badges, prev.issued, prev.errors + [BadgeError(email, StoreFailed)])
    ensures !HasKey(prev.badges, BadgeKey, BadgeKey(e)) ==> o == Outcome(Insert(prev.badges, e, BadgeKey), prev.issued + 1, prev.errors)
  {
    if HasKey(prev.badges, BadgeKey, BadgeKey(e)) then
      Outcome(prev.badges, prev.issued, prev.errors + [BadgeError(email, StoreFailed)])
    else
      Outcome(Insert(prev.badges, e, BadgeKey), prev.issued + 1, prev.errors)
  }

  /**
   * The loop over `regs` from the table `badges`: every registration is either
   * issued or reported, the old badges stay, and each new one belongs to the
   * event and carries the issue time.
   */
  function IssueOver(badges: seq<Badge>, regs: seq<Registration>, eventId: string, badgeId: nat -> string, now: string): (o: Outcome)
    ensures o.issued + |o.errors| == |regs|
    ensures |o.badges| == |badges| + o.issued
    ensures forall b :: b in badges ==> b in o.badges
    ensures forall b :: b in o.badges && b !in badges ==> b.partitionKey == eventId && b.issuedAt == now
  {
    if |regs| == 0 then Outcome(badges, 0, [])
    else
      var n := |regs| - 1;
      var prev := IssueOver(badges, regs[..n], eventId, badgeId, now);
      var e := IssuedBadge(eventId, badgeId, now, regs, n);
      InsertContents(prev.badges, e, BadgeKey);
      Step(prev, e, regs[n].email)
  }

  /** The badge the loop stores for the i-th eligible registration. */
  function IssuedBadge(eventId: string, badgeId: nat -> string, now: string, regs: seq<Registration>, i: nat): (b: Badge)
    requires i < |regs|
    ensures BadgeKey(b) == (eventId, badgeId(i))
  {
    BadgeEntity(BadgeFor(eventId, badgeId(i), regs[i]), now)
  }

  /** The badges of all of `regs`, the i-th for the i-th registration. */
  function IssuedBadges(eventId: string, badgeId: nat -> string, now: string, regs: seq<Registration>): (r: seq<Badge>)
    ensures |r| == |regs|
    ensures forall i :: 0 <= i < |regs| ==> r[i] == IssuedBadge(eventId, badgeId, now, regs, i)
  {
    seq(|regs|, i requires 0 <= i < |regs| => IssuedBadge(eventId, badgeId, now, regs, i))
  }

  /** The ids are fresh: pairwise distinct and not yet used in the event. */
  predicate FreshIds(badges: seq<Badge>, eventId: string, badgeId: nat -> string, count: nat) {
    && (forall i, j :: 0 <= i < j < count ==> badgeId(i) != badgeId(j))
    && (forall i :: 0 <= i < count ==> !HasKey(badges, BadgeKey, (eventId, badgeId(i))))
  }

  /** Dropping the last registration drops the last badge. */
  lemma IssuedBadgesPrefix(eventId: string, badgeId: nat -> string, now: string, regs: seq<Registration>)
    requires |regs| > 0
    ensures var n := |regs| - 1;
      IssuedBadges(eventId, badgeId, now, regs)
        == IssuedBadges(eventId, badgeId, now, regs[..n]) + [IssuedBadge(eventId, badgeId, now, regs, n)]
  {
    var n := |regs| - 1;
    var a := IssuedBadges(eventId, badgeId, now, regs);
    var b := IssuedBadges(eventId, badgeId, now, regs[..n]) + [IssuedBadge(eventId, badgeId, now, regs, n)];
    forall i | 0 <= i < n ensures a[i] == b[i] {
      assert regs[..n][i] == regs[i];
    }
  }

  /** With fresh ids, the next badge's key is not yet in the table. */
  lemma NextKeyIsFree(badges: seq<Badge>, prev: seq<Badge>, regs: seq<Registration>, eventId: string,
                      badgeId: nat -> string, now: string)
    requires |regs| > 0 && FreshIds(badges, eventId, badgeId, |regs|)
    requires multiset(prev) == multiset(badges) + multiset(IssuedBadges(eventId, badgeId, now, regs[..|regs| - 1]))
    ensures !HasKey(prev, BadgeKey, BadgeKey(IssuedBadge(eventId, badgeId, now, regs, |regs| - 1)))
  {
    var n := |regs| - 1;
    var issued := IssuedBadges(eventId, badgeId, now, regs[..n]);
    forall x | x in prev ensures BadgeKey(x) != (eventId, badgeId(n)) {
      assert x in multiset(prev);
      if x !in badges {
        assert x in issued;
        var k :| 0 <= k < n && issued[k] == x;
        assert BadgeKey(x) == (eventId, badgeId(k));
      }
    }
  }

  /**
   * With fresh ids nothing fails: every eligible registration gets exactly its
   * badge, and the table afterwards holds the old badges and these, no more.
   */
  lemma {:induction false} FreshIdsIssueAll(badges: seq<Badge>, regs: seq<Registration>, eventId: string,
                                             badgeId: nat -> string, now: string)
    requires FreshIds(badges, eventId, badgeId, |regs|)
    ensures var o := IssueOver(badges, regs, eventId, badgeId, now);
      && o.errors == [] && o.issued == |regs|
      && multiset(o.badges) == multiset(badges) + multiset(IssuedBadges(eventId, badgeId, now, regs))
  {
    if |regs| > 0 {
      var n := |regs| - 1;
      assert FreshIds(badges, eventId, badgeId, |regs[..n]|);
      FreshIdsIssueAll(badges, regs[..n], eventId, badgeId, now);
      var prev := IssueOver(badges, regs[..n], eventId, badgeId, now);
      var e := IssuedBadge(eventId, badgeId, now, regs, n);
      forall i | 0 <= i < n ensures IssuedBadges(eventId, badgeId, now, regs[..n])[i] == IssuedBadges(eventId, badgeId, now, regs)[i] {
        assert regs[..n][i] == regs[i];
      }
      NextKeyIsFree(badges, prev.badges, regs, eventId, badgeId, now);
      InsertContents(prev.badges, e, BadgeKey);
      IssuedBadgesPrefix(eventId, badgeId, now, regs);
    }
  }

  /** The success reply the code evidently means: `total` is the number of eligible registrations. */
  function Reported(eligible: seq<Registration>, o: Outcome): Reply<IssueReport>
    requires |eligible| > 0
  {
    Done(200, Report(o.issued, |eligible|, if |o.errors| > 0 then Some(o.errors) else None))
  }

  /**
   * The reply as written: `total: recipientList.length` names a variable that
   * does not exist, so building the reply throws and the outer `catch` answers
   * 500, after the badges have been stored.
   */
  function ReportedAsWritten(eligible: seq<Registration>, o: Outcome): Reply<IssueReport>
    requires |eligible| > 0
  {
    InternalError()
  }

  /**
   * The discrepancy: one checked-in attendee and a fresh id, yet the reply as
   * written is a 500 although the badge was stored; the intended reply reports it.
   */
  lemma AsWrittenHidesIssuedBadge(badges: seq<Badge>, reg: Registration, eventId: string, badgeId: nat -> string, now: string)
    requires !HasKey(badges, BadgeKey, (eventId, badgeId(0)))
    ensures var o := IssueOver(badges, [reg], eventId, badgeId, now);
      && o.issued == 1 && |o.badges| == |badges| + 1
      && ReportedAsWritten([reg], o).status == 500
      && Reported([reg], o) == Done(200, Report(1, 1, None))
  {
    FreshIdsIssueAll(badges, [reg], eventId, badgeId, now);
  }

  datatype Screened = Refuse(reply: Reply<IssueReport>) | Admit(eventId: string, eligible: seq<Registration>)

  /** The checks before the issue loop, and the eligible registrations when they pass. */
  function Screen(user: Option<User>, body: Option<IssueBody>, events: seq<Event>, registrations: seq<Registration>): (s: Screened)
    ensures s.Refuse? ==> s.reply.status in {400, 401, 403, 404} && s.reply.data.None?
    ensures user.None? <==> s == Refuse(Unauthorised(""))
    ensures user.Some? && !HasRole(user, "admin") <==> s == Refuse(Forbidden(NotOrganiser))
    ensures HasRole(user, "admin") ==>
      && (body.None? <==> s == Refuse(Fail(400, InvalidJson)))
      && (body.Some? && (body.value.eventId == "" || body.value.chapterSlug == "") <==> s == Refuse(Fail(400, MissingFields)))
      && (body.Some? && body.value.eventId != "" && body.value.chapterSlug != ""
          && !HasKey(events, EventKey, (body.value.chapterSlug, body.value.eventId))
          <==> s == Refuse(Fail(404, EventNotFound)))
    ensures s.Admit? <==>
      && HasRole(user, "admin") && body.Some? && body.value.eventId != "" && body.value.chapterSlug != ""
      && HasKey(events, EventKey, (body.value.chapterSlug, body.value.eventId))
    ensures s.Refuse? && s.reply.status == 404 ==>
      body.Some? && !HasKey(events, EventKey, (body.value.chapterSlug, body.value.eventId))
    ensures s.Admit? ==>
      && HasRole(user, "admin") && body.Some? && body.value.eventId != "" && body.value.chapterSlug != ""
      && HasKey(events, EventKey, (body.value.chapterSlug, body.value.eventId))
      && s.eventId == body.value.eventId
      && forall r :: r in s.eligible <==> r in registrations && r.partitionKey == s.eventId && r.checkedIn.IsTrue()
  {
    if user.None? then Refuse(Unauthorised(""))
    else if !HasRole(user, "admin") then Refuse(Forbidden(NotOrganiser))
    else if body.None? then Refuse(Fail(400, InvalidJson))
    else if body.value.eventId == "" || body.value.chapterSlug == "" then Refuse(Fail(400, MissingFields))
    else
      var b := body.value;
      var k := (b.chapterSlug, b.eventId);
      if KeyLookup(events, EventKey, k, EventAt(k)).None? then Refuse(Fail(404, EventNotFound))
      else Admit(b.eventId, Filter(Filter(registrations, RegistrationOfEvent(b.eventId)), Eligible()))
  }

  /** The guard chain and the two reads, against the store. */
  method Prepare(store: Store, user: Option<User>, body: Option<IssueBody>) returns (s: Screened)
    ensures s == Screen(user, body, store.events, store.registrations)
  {
    if user.None? {
      return Refuse(Unauthorised(""));
    }
    if !HasRole(user, "admin") {
      return Refuse(Forbidden(NotOrganiser));
    }
    if body.None? {
      return Refuse(Fail(400, InvalidJson));
    }
    var b := body.value;
    if b.eventId == "" || b.chapterSlug == "" {
      return Refuse(Fail(400, MissingFields));
    }
    var event := store.GetEvent(b.chapterSlug, b.eventId);
    if event.None? {
      return Refuse(Fail(404, EventNotFound));
    }
    var registrations := store.GetRegistrationsByEvent(b.eventId);
    var eligible := ScanAll(registrations, Eligible());
    return Admit(b.eventId, eligible);
  }

  /** The `for (const reg of checkedInRegs)` loop. */
  method IssueLoop(store: Store, eventId: string, eligible: seq<Registration>, badgeId: nat -> string, now: string)
    returns (issued: nat, errors: seq<BadgeError>)
    requires store.Valid()
    modifies store`badges
    ensures store.Valid()
    ensures var o := IssueOver(old(store.badges), eligible, eventId, badgeId, now);
      store.badges == o.badges && issued == o.issued && errors == o.errors
  {
    ghost var start := store.badges;
    issued, errors := 0, [];
    assert eligible[..0] == [];
    var i := 0;
    while i < |eligible|
      invariant 0 <= i <= |eligible|
      invariant store.Valid()
      invariant store.badges == IssueOver(start, eligible[..i], eventId, badgeId, now).badges
      invariant issued == IssueOver(start, eligible[..i], eventId, badgeId, now).issued
      invariant errors == IssueOver(start, eligible[..i], eventId, badgeId, now).errors
    {
      var reg := eligible[i];
      ghost var o := IssueOver(start, eligible[..i], eventId, badgeId, now);
      assert eligible[..i + 1][..i] == eligible[..i];
      assert IssueOver(start, eligible[..i + 1], eventId, badgeId, now) ==
        Step(o, IssuedBadge(eventId, badgeId, now, eligible, i), reg.email);
      var stored := store.StoreBadge(BadgeFor(eventId, badgeId(i), reg), now);
      if stored.Some? {
        issued := issued + 1;
      } else {
        errors := errors + [BadgeError(reg.email, StoreFailed)];
      }
      i := i + 1;
    }
    assert eligible[..i] == eligible;
  }

  /** The handler with `total` fixed to the number of eligible registrations. */
  method Issue(store: Store, user: Option<User>, body: Option<IssueBody>, badgeId: nat -> string, now: string)
    returns (reply: Reply<IssueReport>)
    requires store.Valid()
    modifies store`badges
    ensures store.Valid()
    ensures match Screen(user, body, old(store.events), old(store.registrations))
      case Refuse(r) => reply == r && store.badges == old(store.badges)
      case Admit(eventId, eligible) =>
        var o := IssueOver(old(store.badges), eligible, eventId, badgeId, now);
        && store.badges == o.badges
        && reply == if |eligible| == 0 then Done(200, NoneEligible) else Reported(eligible, o)
  {
    var s := Prepare(store, user, body);
    reply := IssueScreened(store, s, badgeId, now);
  }

  /** What follows the guard chain: the 'none eligible' reply, or the loop and its report. */
  method IssueScreened(store: Store, s: Screened, badgeId: nat -> string, now: string)
    returns (reply: Reply<IssueReport>)
    requires store.Valid()
    modifies store`badges
    ensures store.Valid()
    ensures match s
      case Refuse(r) => reply == r && store.badges == old(store.badges)
      case Admit(eventId, eligible) =>
        var o := IssueOver(old(store.badges), eligible, eventId, badgeId, now);
        && store.badges == o.badges
        && reply == if |eligible| == 0 then Done(200, NoneEligible) else Reported(eligible, o)
  {
    match s
    case Refuse(r) =>
      return r;
    case Admit(eventId, eligible) =>
      if |eligible| == 0 {
        return Done(200, NoneEligible);
      }
      var issued, errors := IssueLoop(store, eventId, eligible, badgeId, now);
      reply := Done(200, Report(issued, |eligible|, if |errors| > 0 then Some(errors) else None));
  }

  /** The handler as written: the same badges are stored, but a non-empty run answers 500. */
  method IssueAsWritten(store: Store, user: Option<User>, body: Option<IssueBody>, badgeId: nat -> string, now: string)
    returns (reply: Reply<IssueReport>)
    requires store.Valid()
    modifies store`badges
    ensures store.Valid()
    ensures match Screen(user, body, old(store.events), old(store.registrations))
      case Refuse(r) => reply == r && store.badges == old(store.badges)
      case Admit(eventId, eligible) =>
        var o := IssueOver(old(store.badges), eligible, eventId, badgeId, now);
        && store.badges == o.badges
        && reply == if |eligible| == 0 then Done(200, NoneEligible) else ReportedAsWritten(eligible, o)
  {
    var s := Prepare(store, user, body);
    match s
    case Refuse(r) =>
      return r;
    case Admit(eventId, eligible) =>
      if |eligible| == 0 {
        return Done(200, NoneEligible);
      }
      var issued, errors := IssueLoop(store, eventId, eligible, badgeId, now);
      reply := InternalError();
  }
}
