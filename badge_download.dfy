/**
 * GET /api/badge?eventId=…&badgeId=… (api/src/functions/badgeDownload.js): a
 * signed-in user downloads a badge as an SVG file. Only the badge's owner (a
 * non-empty `userId` equal to the caller's) or an administrator may.
 */
module BadgeDownload {
  import opened Wrappers
  import opened Http
  import opened Auth
  import opened JsString
  import opened Tables
  import opened TableStorage
  import opened BadgeGenerator
  import opened EmailService

  /** The reply body: the `Content-Disposition` file name and the regenerated badge. */
  datatype SvgFile = SvgFile(filename: string, badge: BadgeParts)

  /** `badge.userId && badge.userId === user.userId`. */
  predicate IsOwner(badge: Badge, user: User) {
    badge.userId != "" && badge.userId == user.userId
  }

  /** `user.userRoles.includes('admin')`: an exact match on the already lower-cased roles. */
  predicate IsAdmin(user: User)
    requires user.userRoles.Some?
  {
    "admin" in user.userRoles.value
  }

  /** The badge regenerated for download; the event's title is not looked up, its id stands in. */
  function BadgeSvg(badge: Badge): BadgeParts {
    GenerateBadge(badge.recipientName, badge.partitionKey, "", "", badge.badgeType)
  }

  /**
   * The whole handler over the badges table. A user record without a role list
   * makes `includes` throw, which the outer `catch` answers with 500.
   */
  function Download(badges: seq<Badge>, user: Option<User>, eventId: string, badgeId: string): (r: Reply<SvgFile>)
    ensures user.None? ==> r == Unauthorised("")
    ensures user.Some? && (eventId == "" || badgeId == "") ==> r == Fail(400, "Missing eventId or badgeId")
    ensures user.Some? && eventId != "" && badgeId != "" && !HasKey(badges, BadgeKey, (eventId, badgeId)) ==>
      r == Fail(404, "Badge not found")
    ensures r.status == 200 ==>
      && user.Some? && user.value.userRoles.Some?
      && exists b :: (b in badges && BadgeKey(b) == (eventId, badgeId) && (IsOwner(b, user.value) || IsAdmin(user.value))
                      && r.data == Some(SvgFile(BadgeFileName(b.badgeType), BadgeSvg(b))))
  {
    if user.None? then Unauthorised("")
    else if eventId == "" || badgeId == "" then Fail(400, "Missing eventId or badgeId")
    else match KeyLookup(badges, BadgeKey, (eventId, badgeId), BadgeAt((eventId, badgeId)))
      case None => Fail(404, "Badge not found")
      case Some(b) =>
        if user.value.userRoles.None? then InternalError()
        else if !IsOwner(b, user.value) && !IsAdmin(user.value) then Fail(403, "You can only download your own badges")
        else Done(200, SvgFile(BadgeFileName(b.badgeType), BadgeSvg(b)))
  }

  /** The handler; it reads the badges table and writes nothing. */
  method BadgeDownload(store: Store, user: Option<User>, eventId: string, badgeId: string) returns (reply: Reply<SvgFile>)
    ensures reply == Download(store.badges, user, eventId, badgeId)
  {
    if user.None? {
      return Unauthorised("");
    }
    if eventId == "" || badgeId == "" {
      return Fail(400, "Missing eventId or badgeId");
    }
    var badge := store.GetBadge(eventId, badgeId);
    if badge.None? {
      return Fail(404, "Badge not found");
    }
    var b := badge.value;
    if user.value.userRoles.None? {
      return InternalError();
    }
    var isOwner := b.userId != "" && b.userId == user.value.userId;
    var isAdmin := "admin" in user.value.userRoles.value;
    if !isOwner && !isAdmin {
      return Fail(403, "You can only download your own badges");
    }
    return Done(200, SvgFile(BadgeFileName(b.badgeType), BadgeSvg(b)));
  }

  /**
   * For a badge that exists and a signed-in user, the download is allowed
   * exactly for its owner or an administrator, and refused with 403 otherwise.
   */
  lemma AllowedIffOwnerOrAdmin(badges: seq<Badge>, user: User, b: Badge)
    requires UniqueKeys(badges, BadgeKey) && b in badges && b.partitionKey != "" && b.rowKey != ""
    requires user.userRoles.Some?
    ensures var r := Download(badges, Some(user), b.partitionKey, b.rowKey);
      && (r.status == 200 <==> IsOwner(b, user) || IsAdmin(user))
      && (r.status != 200 ==> r == Fail(403, "You can only download your own badges"))
  {
    var k := (b.partitionKey, b.rowKey);
    var found := KeyLookup(badges, BadgeKey, k, BadgeAt(k));
    var i :| 0 <= i < |badges| && badges[i] == b;
    assert HasKey(badges, BadgeKey, k);
    var j :| 0 <= j < |badges| && badges[j] == found.value;
    assert i == j;
  }

  /** A badge issued without a user id is downloadable by administrators only. */
  lemma UnownedBadgeIsAdminOnly(badges: seq<Badge>, user: User, b: Badge)
    requires UniqueKeys(badges, BadgeKey) && b in badges && b.partitionKey != "" && b.rowKey != ""
    requires user.userRoles.Some? && b.userId == ""
    ensures Download(badges, Some(user), b.partitionKey, b.rowKey).status == 200 <==> IsAdmin(user)
  {
    AllowedIffOwnerOrAdmin(badges, user, b);
  }
}
