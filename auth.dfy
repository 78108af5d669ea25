/**
 * The signed-in user from the Static Web Apps client-principal header, role
 * checks, and the 401/403 replies (api/src/helpers/auth.js).
 */
module Auth {
  import opened Wrappers
  import opened JsString
  import opened Http

  /**
   * The principal object after base64 and JSON decoding; a member that is
   * missing or falsy is `""`, and a missing `userRoles` is None.
   */
  datatype Principal = Principal(userId: string, userDetails: string, userRoles: Option<seq<string>>, identityProvider: string)

  /** The user record handlers work with; `userRoles` is None for a record built without roles. */
  datatype User = User(userId: string, userDetails: string, userRoles: Option<seq<string>>, identityProvider: string)

  function LowerAll(roles: seq<string>): (r: seq<string>)
    ensures |r| == |roles|
    ensures forall i :: 0 <= i < |roles| ==> r[i] == Lower(roles[i])
  {
    seq(|roles|, i requires 0 <= i < |roles| => Lower(roles[i]))
  }

  /**
   * `getAuthUser(request)`. `header` is the value of `x-ms-client-principal`,
   * `""` when absent; `decode` stands for base64, UTF-8 and JSON decoding, None
   * when any of them throws.
   */
  function GetAuthUser(header: string, decode: string -> Option<Principal>): (r: Option<User>)
    ensures header == "" ==> r.None?
    ensures header != "" ==> (r.None? <==> decode(header).None?)
    ensures r.Some? ==>
      var p := decode(header).value;
      && r.value.userId == p.userId
      && r.value.userDetails == p.userDetails
      && r.value.identityProvider == p.identityProvider
      && r.value.userRoles.Some?
      && |r.value.userRoles.value| == |p.userRoles.GetOr([])|
      && forall i :: 0 <= i < |p.userRoles.GetOr([])| ==> r.value.userRoles.value[i] == Lower(p.userRoles.GetOr([])[i])
  {
    if header == "" then None
    else match decode(header)
      case None => None
      case Some(p) => Some(User(p.userId, p.userDetails, Some(LowerAll(p.userRoles.GetOr([]))), p.identityProvider))
  }

  /** `hasRole(user, role)`. */
  predicate HasRole(user: Option<User>, role: string) {
    user.Some? && user.value.userRoles.Some? && Lower(role) in user.value.userRoles.value
  }

  /** The decoded roles are all lower case already. */
  lemma AuthUserRolesLowercase(header: string, decode: string -> Option<Principal>)
    requires GetAuthUser(header, decode).Some?
    ensures forall x :: x in GetAuthUser(header, decode).value.userRoles.value ==> Lower(x) == x
  {
    var roles := GetAuthUser(header, decode).value.userRoles.value;
    forall x | x in roles ensures Lower(x) == x {
      var i :| 0 <= i < |roles| && roles[i] == x;
      LowerIdempotent(decode(header).value.userRoles.GetOr([])[i]);
    }
  }

  /** For a decoded user, the role check ignores case on both sides. */
  lemma HasRoleOfAuthUser(header: string, decode: string -> Option<Principal>, role: string)
    requires GetAuthUser(header, decode).Some?
    ensures HasRole(GetAuthUser(header, decode), role)
        <==> exists x :: x in decode(header).value.userRoles.GetOr([]) && Lower(x) == Lower(role)
  {
    var given := decode(header).value.userRoles.GetOr([]);
    var roles := GetAuthUser(header, decode).value.userRoles.value;
    if HasRole(GetAuthUser(header, decode), role) {
      var i :| 0 <= i < |roles| && roles[i] == Lower(role);
      assert given[i] in given;
    }
    if exists x :: x in given && Lower(x) == Lower(role) {
      var x :| x in given && Lower(x) == Lower(role);
      var i :| 0 <= i < |given| && given[i] == x;
      assert roles[i] == Lower(role);
    }
  }

  lemma HasRoleIgnoresCase(user: Option<User>, a: string, b: string)
    requires Lower(a) == Lower(b)
    ensures HasRole(user, a) == HasRole(user, b)
  {
  }

  /** `unauthorised(message)`: 401, with a default message. */
  function Unauthorised<T>(message: string): (r: Reply<T>)
    ensures r.status == 401 && r.data.None?
    ensures r.message == if message == "" then "Authentication required" else message
  {
    Fail(401, if message == "" then "Authentication required" else message)
  }

  /** `forbidden(message)`: 403, with a default message. */
  function Forbidden<T>(message: string): (r: Reply<T>)
    ensures r.status == 403 && r.data.None?
    ensures r.message == if message == "" then "Insufficient permissions" else message
  {
    Fail(403, if message == "" then "Insufficient permissions" else message)
  }
}
