/**
 * GET /api/chapterApproval (api/src/functions/chapterApproval.js): the link a
 * reviewer follows from Discord to approve or reject a chapter application. The
 * reply is an HTML page; the model keeps its status, its heading and the text
 * under it.
 *
 * The signed-token check (`verifyApprovalToken`) is the parameter `verify`,
 * None where it throws. What happens after the approval is written — the
 * Discord channel and the GitHub dispatch — is the parameter `github`.
 */
module ChapterApproval {
  import opened Wrappers
  import opened Http
  import opened Tables
  import opened Slug
  import opened TableStorage

  /** How the page-generation step ends: no GitHub App settings, a dispatch that throws, or a dispatch sent. */
  datatype GitHub = Unconfigured | DispatchFailed | Dispatched

  /** The page body, and the chapter slug sent to GitHub when a dispatch was made. */
  datatype ApprovalPage = ApprovalPage(text: string, dispatchedSlug: Option<string>)

  datatype Decision = Decision(reply: Reply<ApprovalPage>, applications: seq<Application>)

  function Page(status: int, title: string, text: string): Reply<ApprovalPage> {
    Reply(status, title, Some(ApprovalPage(text, None)))
  }

  /** The Merge `updateApplicationStatus(id, status)` performs. */
  function StatusUpdate(status: string, now: string): ApplicationUpdate {
    ApplicationUpdate(Some(status), None, now)
  }

  /** The application table after `updateApplicationStatus(id, status)`. */
  function WithStatus(apps: seq<Application>, id: string, status: string, now: string): seq<Application> {
    MapWhere(apps, ApplicationAt(("applications", id)), ApplyApplicationUpdate(StatusUpdate(status, now)))
  }

  const InvalidToken := "The approval token is invalid or has been tampered with."

  /** The link carries all three parameters, a known action and a token that verifies. */
  predicate LinkAccepted(id: string, action: string, token: string, verify: (string, string, string) -> Option<bool>) {
    id != "" && action != "" && token != "" && (action == "approve" || action == "reject")
    && verify(id, action, token) == Some(true)
  }

  /** The page for a rejected link: 400 for missing parameters or an unknown action, 403 for a bad token. */
  function LinkRefusal(id: string, action: string, token: string, verify: (string, string, string) -> Option<bool>): (r: Reply<ApprovalPage>)
    requires !LinkAccepted(id, action, token, verify)
    ensures (id == "" || action == "" || token == "" || (action != "approve" && action != "reject")) <==> r.status == 400
    ensures r.status == 400 || r == Page(403, "Invalid Token", InvalidToken)
  {
    if id == "" || action == "" || token == "" then
      Page(400, "Missing Parameters", "Invalid approval link. Please use the link from Discord.")
    else if action != "approve" && action != "reject" then
      Page(400, "Invalid Action", "Action must be \"approve\" or \"reject\".")
    else
      Page(403, "Invalid Token", InvalidToken)
  }

  /** The row key of the application an approval link names. */
  function LookUp(apps: seq<Application>, id: string): Option<Application> {
    KeyLookup(apps, ApplicationKey, ("applications", id), ApplicationAt(("applications", id)))
  }

  /**
   * The whole handler as a function of the applications table: a link that is
   * refused or names no application changes nothing; otherwise `DecideFound`.
   */
  function Decide(apps: seq<Application>, id: string, action: string, token: string,
                  verify: (string, string, string) -> Option<bool>, github: GitHub, now: string): (d: Decision)
    ensures !LinkAccepted(id, action, token, verify) ==> d == Decision(LinkRefusal(id, action, token, verify), apps)
    ensures LinkAccepted(id, action, token, verify) && LookUp(apps, id).None? ==>
      d.reply.status == 404 && d.applications == apps && !HasKey(apps, ApplicationKey, ("applications", id))
    ensures LinkAccepted(id, action, token, verify) && LookUp(apps, id).Some? ==>
      d == DecideFound(apps, id, action, LookUp(apps, id).value, github, now)
  {
    if !LinkAccepted(id, action, token, verify) then
      Decision(LinkRefusal(id, action, token, verify), apps)
    else if LookUp(apps, id).None? then
      Decision(Page(404, "Not Found", "This application was not found."), apps)
    else
      DecideFound(apps, id, action, LookUp(apps, id).value, github, now)
  }

  /** The handler once the application is found: only a pending one changes. */
  function DecideFound(apps: seq<Application>, id: string, action: string, a: Application, github: GitHub, now: string): (d: Decision)
    ensures a.status != "pending" ==> d.applications == apps && d.reply.status == 200 && d.reply.message == "Already Processed"
    ensures a.status == "pending" && action == "approve" ==>
      d.applications == WithStatus(apps, id, "approved", now) && d.reply == ApprovedReply(a, github)
    ensures a.status == "pending" && action != "approve" ==>
      d.applications == WithStatus(apps, id, "rejected", now) && d.reply.status == 200
  {
    if a.status != "pending" then
      Decision(Page(200, "Already Processed", "This application has already been " + a.status + "."), apps)
    else if action == "approve" then
      Decision(ApprovedReply(a, github), WithStatus(apps, id, "approved", now))
    else
      Decision(Page(200, "Application Rejected", RejectedText(a)), WithStatus(apps, id, "rejected", now))
  }

  const ConfigurationErrorText := "Chapter approved, but page generation could not be triggered. Please contact an administrator."
  const UnexpectedText := "An unexpected error occurred. Please try again."

  /** The page text after an approval: the chapter's place, and the page generation notice. */
  function ApprovedText(a: Application): string {
    "The chapter in <strong>" + a.city + ", " + a.country + "</strong> has been approved!<br><br>"
    + "A chapter page is being generated and will appear on the website shortly."
  }

  function RejectedText(a: Application): string {
    "The chapter application for <strong>" + a.city + ", " + a.country + "</strong> has been rejected."
  }

  /** The reply once the approval is written: it depends only on the GitHub step. */
  function ApprovedReply(a: Application, github: GitHub): (r: Reply<ApprovalPage>)
    ensures github == Unconfigured ==> r.status == 500 && r.message == "Configuration Error"
    ensures github == DispatchFailed ==> r.status == 500 && r.message == "Error"
    ensures github == Dispatched ==> r.status == 200 && r.data.Some? && r.data.value.dispatchedSlug == Some(CitySlug(a.city))
  {
    match github
    case Unconfigured =>
      Page(500, "Configuration Error", ConfigurationErrorText)
    case DispatchFailed =>
      Page(500, "Error", UnexpectedText)
    case Dispatched =>
      Reply(200, "Chapter Approved \U{2705}", Some(ApprovalPage(ApprovedText(a), Some(CitySlug(a.city)))))
  }

  /**
   * On a pending application a valid approve link records `approved` even when
   * the page generation then fails for want of GitHub settings (500).
   */
  lemma ApprovedDespiteMissingConfig(apps: seq<Application>, id: string, token: string,
                                     verify: (string, string, string) -> Option<bool>, now: string, a: Application)
    requires UniqueKeys(apps, ApplicationKey)
    requires a in apps && ApplicationKey(a) == ("applications", id) && a.status == "pending"
    requires id != "" && token != "" && verify(id, "approve", token) == Some(true)
    ensures var d := Decide(apps, id, "approve", token, verify, Unconfigured, now);
      && d.reply.status == 500
      && d.applications == WithStatus(apps, id, "approved", now)
      && Status(d.applications, id) == Some("approved")
  {
    var k := ("applications", id);
    FindIsTheRow(apps, id, a);
    StatusAfterUpdate(apps, id, "approved", now, a);
  }

  /** The status of the application with that row key, if there is one. */
  function Status(apps: seq<Application>, id: string): Option<string> {
    if LookUp(apps, id).None? then None else Some(LookUp(apps, id).value.status)
  }

  lemma FindIsTheRow(apps: seq<Application>, id: string, a: Application)
    requires UniqueKeys(apps, ApplicationKey)
    requires a in apps && ApplicationKey(a) == ("applications", id)
    ensures KeyLookup(apps, ApplicationKey, ("applications", id), ApplicationAt(("applications", id))) == Some(a)
  {
    var k := ("applications", id);
    FilterUnique(apps, ApplicationKey, k, ApplicationAt(k), a);
    FindIsFirstOfFilter(apps, ApplicationAt(k));
  }

  lemma StatusAfterUpdate(apps: seq<Application>, id: string, status: string, now: string, a: Application)
    requires UniqueKeys(apps, ApplicationKey)
    requires a in apps && ApplicationKey(a) == ("applications", id)
    ensures UniqueKeys(WithStatus(apps, id, status, now), ApplicationKey)
    ensures Status(WithStatus(apps, id, status, now), id) == Some(status)
  {
    var k := ("applications", id);
    var f := ApplyApplicationUpdate(StatusUpdate(status, now));
    UniqueMapWhere(apps, ApplicationAt(k), f, ApplicationKey);
    FindIsTheRow(apps, id, a);
    FindAfterRewrite(apps, ApplicationAt(k), ApplicationAt(k), f, ApplicationKey, a);
  }

  /** A call that changes the table wrote `approved` or `rejected` into the pending row. */
  lemma FirstClickWrites(apps: seq<Application>, id: string, action: string, token: string,
                         verify: (string, string, string) -> Option<bool>, github: GitHub, now: string)
    returns (status: string)
    requires UniqueKeys(apps, ApplicationKey)
    requires Decide(apps, id, action, token, verify, github, now).applications != apps
    ensures status != "pending" && id != ""
    ensures var first := Decide(apps, id, action, token, verify, github, now).applications;
      && first == WithStatus(apps, id, status, now)
      && UniqueKeys(first, ApplicationKey)
      && Status(first, id) == Some(status)
  {
    var a := LookUp(apps, id).value;
    status := if action == "approve" then "approved" else "rejected";
    StatusAfterUpdate(apps, id, status, now, a);
  }

  /**
   * Re-clicking is harmless: once a link has approved or rejected a pending
   * application, any further valid link for it answers "Already Processed" and
   * leaves the table as it is.
   */
  lemma RepeatedClickIsIdempotent(apps: seq<Application>, id: string, action: string, token: string,
                                  verify: (string, string, string) -> Option<bool>, github: GitHub, now: string,
                                  action2: string, token2: string, github2: GitHub, now2: string)
    requires UniqueKeys(apps, ApplicationKey)
    requires Decide(apps, id, action, token, verify, github, now).applications != apps
    requires token2 != "" && (action2 == "approve" || action2 == "reject") && verify(id, action2, token2) == Some(true)
    ensures var first := Decide(apps, id, action, token, verify, github, now).applications;
      var second := Decide(first, id, action2, token2, verify, github2, now2);
      && second.applications == first
      && second.reply.status == 200 && second.reply.message == "Already Processed"
  {
    var status := FirstClickWrites(apps, id, action, token, verify, github, now);
    var first := Decide(apps, id, action, token, verify, github, now).applications;
    var k := ("applications", id);
    assert LinkAccepted(id, action2, token2, verify);
  }


  /** The handler after the lookup, against the store. */
  method ApproveFound(store: Store, id: string, action: string, a: Application, github: GitHub, now: string)
    returns (reply: Reply<ApprovalPage>)
    requires store.Valid()
    modifies store`applications
    ensures store.Valid()
    ensures Decision(reply, store.applications) == DecideFound(old(store.applications), id, action, a, github, now)
  {
    if a.status != "pending" {
      return Page(200, "Already Processed", "This application has already been " + a.status + ".");
    }
    if action == "approve" {
      var updated := store.UpdateApplicationStatus(id, "approved", now);
      reply := ApprovedReply(a, github);
    } else {
      var updated := store.UpdateApplicationStatus(id, "rejected", now);
      reply := Page(200, "Application Rejected", RejectedText(a));
    }
  }

  /** The handler against the store. */
  method Approve(store: Store, id: string, action: string, token: string,
                 verify: (string, string, string) -> Option<bool>, github: GitHub, now: string)
    returns (reply: Reply<ApprovalPage>)
    requires store.Valid()
    modifies store`applications
    ensures store.Valid()
    ensures Decision(reply, store.applications) == Decide(old(store.applications), id, action, token, verify, github, now)
  {
    if !LinkAccepted(id, action, token, verify) {
      return LinkRefusal(id, action, token, verify);
    }
    var found := store.GetApplication(id);
    if found.None? {
      return Page(404, "Not Found", "This application was not found.");
    }
    reply := ApproveFound(store, id, action, found.value, github, now);
  }
}
