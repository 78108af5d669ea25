/**
 * POST /api/roles (api/src/functions/roles.js): the custom-role hook Static
 * Web Apps calls after sign-in. A user whose sign-in name is the e-mail of an
 * approved chapter lead (first or second lead) gets the `admin` role; everyone
 * else, and every failure, gets no custom role. The reply is always 200.
 */
module Roles {
  import opened Wrappers
  import opened Http
  import opened JsString
  import opened Tables
  import opened TableStorage
  import opened ChapterApproval

  /** The members of the hook's body that are read; a missing one is `""`. */
  datatype RolesBody = RolesBody(userId: string, userDetails: string)

  /**
   * The roles granted for a body (None when it is not JSON, which the outer
   * `catch` answers with no roles).
   */
  function Grant(apps: seq<Application>, body: Option<RolesBody>): (roles: seq<string>)
    ensures roles == [] || roles == ["admin"]
  {
    if body.None? || body.value.userId == "" || body.value.userDetails == "" then []
    else if Find(apps, ApprovedLeadEmailIs(Lower(Trim(body.value.userDetails)))).Some? then ["admin"]
    else []
  }

  /**
   * `admin` is granted exactly when the body names a user and some approved
   * application has that user's normalised sign-in name as a lead e-mail.
   */
  lemma GrantIsApprovedLead(apps: seq<Application>, body: Option<RolesBody>)
    ensures Grant(apps, body) == ["admin"] <==>
      && body.Some? && body.value.userId != "" && body.value.userDetails != ""
      && exists a :: a in apps && a.status == "approved" && LeadEmailIs(Lower(Trim(body.value.userDetails)))(a)
  {
    if body.Some? && body.value.userId != "" && body.value.userDetails != "" {
      var p := ApprovedLeadEmailIs(Lower(Trim(body.value.userDetails)));
      if exists a :: a in apps && a.status == "approved" && LeadEmailIs(Lower(Trim(body.value.userDetails)))(a) {
        var a :| a in apps && a.status == "approved" && LeadEmailIs(Lower(Trim(body.value.userDetails)))(a);
        assert p(a);
      }
    }
  }

  /** The handler: it reads the applications table and writes nothing. */
  method AssignRoles(store: Store, body: Option<RolesBody>) returns (reply: Reply<seq<string>>)
    ensures reply == Done(200, Grant(store.applications, body))
  {
    if body.None? {
      return Done(200, []);
    }
    if body.value.userId == "" || body.value.userDetails == "" {
      return Done(200, []);
    }
    var application := store.GetApprovedApplicationByEmail(body.value.userDetails);
    var roles: seq<string> := [];
    if application.Some? {
      roles := roles + ["admin"];
      assert roles == ["admin"];
    }
    return Done(200, roles);
  }

  /**
   * Approving an application through the approval link makes both of its
   * leads admins at their next sign-in, whatever the case or surrounding
   * white space of the name they sign in with.
   */
  lemma ApprovalGrantsAdmin(apps: seq<Application>, id: string, now: string, a: Application, userId: string, userDetails: string)
    requires a in apps && ApplicationKey(a) == ("applications", id)
    requires LeadEmailIs(Lower(Trim(userDetails)))(a)
    requires userId != "" && userDetails != ""
    ensures Grant(WithStatus(apps, id, "approved", now), Some(RolesBody(userId, userDetails))) == ["admin"]
  {
    var after := WithStatus(apps, id, "approved", now);
    var i :| 0 <= i < |apps| && apps[i] == a;
    assert after[i] == MergeApplication(a, StatusUpdate("approved", now));
    assert after[i] in after;
    GrantIsApprovedLead(after, Some(RolesBody(userId, userDetails)));
  }

  /** Rejecting the only application of a lead leaves that lead without the role. */
  lemma RejectedLeadGetsNothing(apps: seq<Application>, id: string, now: string, userId: string, userDetails: string)
    requires forall a :: a in apps && LeadEmailIs(Lower(Trim(userDetails)))(a) ==> ApplicationKey(a) == ("applications", id)
    ensures Grant(WithStatus(apps, id, "rejected", now), Some(RolesBody(userId, userDetails))) == []
  {
    var after := WithStatus(apps, id, "rejected", now);
    forall b | b in after && b.status == "approved" ensures !LeadEmailIs(Lower(Trim(userDetails)))(b) {
      var i :| 0 <= i < |after| && after[i] == b;
      assert apps[i] in apps;
    }
    GrantIsApprovedLead(after, Some(RolesBody(userId, userDetails)));
  }
}
