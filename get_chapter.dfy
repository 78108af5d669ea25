/**
 * GET /api/getChapter?slug= (api/src/functions/getChapter.js): an
 * administrator reads a chapter for editing. The leads are the stored
 * `leadsJson` when it reads back as a list, and otherwise are rebuilt from the
 * application's own lead and second-lead fields. `parse` is `JSON.parse` on
 * leads: None when the text does not parse or parses to a falsy value.
 */
module GetChapter {
  import opened Wrappers
  import opened Http
  import opened Auth
  import opened Tables
  import opened TableStorage
  import opened UpdateChapter

  datatype ChapterView = ChapterView(city: string, country: string, slug: string, leads: seq<Lead>)

  /** The leads rebuilt from the application: the applicant, then the second lead when named. */
  function FallbackLeads(a: Application): seq<Lead> {
    [Lead(a.fullName, a.email, a.github, a.linkedIn, "", "")]
    + (if a.secondLeadName != "" then [Lead(a.secondLeadName, a.secondLeadEmail, a.secondLeadGitHub, a.secondLeadLinkedIn, "", "")]
       else [])
  }

  /** The leads shown for an application. */
  function LeadsOf(a: Application, parse: string -> Option<seq<Lead>>): (r: seq<Lead>)
    ensures a.leadsJson != "" && parse(a.leadsJson).Some? ==> r == parse(a.leadsJson).value
    ensures (a.leadsJson == "" || parse(a.leadsJson).None?) ==>
      && |r| == (if a.secondLeadName != "" then 2 else 1)
      && r[0] == Lead(a.fullName, a.email, a.github, a.linkedIn, "", "")
      && (|r| == 2 ==> r[1] == Lead(a.secondLeadName, a.secondLeadEmail, a.secondLeadGitHub, a.secondLeadLinkedIn, "", ""))
      && forall k :: 0 <= k < |r| ==> r[k].twitter == "" && r[k].website == ""
  {
    if a.leadsJson != "" && parse(a.leadsJson).Some? then parse(a.leadsJson).value else FallbackLeads(a)
  }

  /** The whole handler as a function of the applications table. */
  function View(apps: seq<Application>, user: Option<User>, slug: string, parse: string -> Option<seq<Lead>>)
    : (r: Reply<ChapterView>)
    ensures user.None? <==> r.status == 401
    ensures user.Some? && !HasRole(user, "admin") <==> r.status == 403
    ensures r.status == 200 <==> HasRole(user, "admin") && slug != "" && Find(apps, ApprovedCitySlugIs(slug)).Some?
    ensures r.status in {200, 400, 401, 403}
    ensures r.status == 200 ==>
      var a := Find(apps, ApprovedCitySlugIs(slug)).value;
      r == Done(200, ChapterView(a.city, a.country, slug, LeadsOf(a, parse)))
  {
    if user.None? then Unauthorised("")
    else if !HasRole(user, "admin") then Forbidden("Only chapter leads can view chapter details")
    else if slug == "" then Fail(400, "Missing slug parameter")
    else
      var found := Find(apps, ApprovedCitySlugIs(slug));
      if found.None? then Fail(400, "No approved chapter found")
      else Done(200, ChapterView(found.value.city, found.value.country, slug, LeadsOf(found.value, parse)))
  }

  /** The handler; it reads and changes nothing. */
  method Get(store: Store, user: Option<User>, slug: string, parse: string -> Option<seq<Lead>>)
    returns (reply: Reply<ChapterView>)
    ensures reply == View(store.applications, user, slug, parse)
  {
    if user.None? {
      return Unauthorised("");
    }
    if !HasRole(user, "admin") {
      return Forbidden("Only chapter leads can view chapter details");
    }
    if slug == "" {
      return Fail(400, "Missing slug parameter");
    }
    var application := store.GetApprovedApplicationBySlug(slug);
    if application.None? {
      return Fail(400, "No approved chapter found");
    }
    var a := application.value;
    var leads: seq<Lead>;
    if a.leadsJson != "" && parse(a.leadsJson).Some? {
      leads := parse(a.leadsJson).value;
    } else {
      leads := [Lead(a.fullName, a.email, a.github, a.linkedIn, "", "")];
      if a.secondLeadName != "" {
        leads := leads + [Lead(a.secondLeadName, a.secondLeadEmail, a.secondLeadGitHub, a.secondLeadLinkedIn, "", "")];
      }
    }
    assert leads == LeadsOf(a, parse);
    return Done(200, ChapterView(a.city, a.country, slug, leads));
  }

  /**
   * An edit by the chapter editor reads back: after the lead edit's merge into
   * the approved application, `View` of the same slug shows exactly the
   * sanitised leads, provided `parse` inverts `encode` and the encoding is not empty.
   */
  lemma EditedLeadsReadBack(apps: seq<Application>, user: Option<User>, slug: string, a: Application,
                            leads: seq<Lead>, encode: seq<Lead> -> string, parse: string -> Option<seq<Lead>>, now: string)
    requires UniqueKeys(apps, ApplicationKey)
    requires Find(apps, ApprovedCitySlugIs(slug)) == Some(a) && a.partitionKey == "applications"
    requires HasRole(user, "admin") && slug != ""
    requires encode(SanitiseLeads(leads)) != "" && parse(encode(SanitiseLeads(leads))) == Some(SanitiseLeads(leads))
    ensures var k := ("applications", a.rowKey);
      var edited := MapWhere(apps, ApplicationAt(k), ApplyApplicationUpdate(LeadsUpdate(leads, encode, now)));
      View(edited, user, slug, parse) == Done(200, ChapterView(a.city, a.country, slug, SanitiseLeads(leads)))
  {
    var k := ("applications", a.rowKey);
    var f := ApplyApplicationUpdate(LeadsUpdate(leads, encode, now));
    FindAfterRewrite(apps, ApprovedCitySlugIs(slug), ApplicationAt(k), f, ApplicationKey, a);
    var b := f(a);
    assert b == MergeApplication(a, LeadsUpdate(leads, encode, now));
    assert b.leadsJson == encode(SanitiseLeads(leads));
  }
}
