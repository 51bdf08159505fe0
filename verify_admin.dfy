/** The admin check: the roles stored for the signed-in user decide the two
    flags `isAdmin` and `isSuperAdmin`; every failure answers with both
    flags false. */
module VerifyAdmin {
  import opened Text
  import opened Schema

  /** The flags a role list grants. */
  datatype Flags = Flags(isAdmin: bool, isSuperAdmin: bool)

  /** `roles?.map(r => r.role) || []`, then `includes`: a missing list is
      empty; a super admin is an admin. */
  function RoleFlags(roles: Option<seq<string>>): (f: Flags)
    ensures var list := if roles.Some? then roles.value else [];
      && (f.isAdmin <==> RoleName(Admin) in list || RoleName(SuperAdmin) in list)
      && (f.isSuperAdmin <==> RoleName(SuperAdmin) in list)
  {
    var list := if roles.Some? then roles.value else [];
    Flags("admin" in list || "super_admin" in list, "super_admin" in list)
  }

  /** A super admin is always an admin. */
  lemma SuperAdminIsAdmin(roles: Option<seq<string>>)
    ensures RoleFlags(roles).isSuperAdmin ==> RoleFlags(roles).isAdmin
  {
  }

  /** No list, an empty list, or a list of plain "user" roles grants
      nothing. */
  lemma PlainUsersGetNoFlags(roles: Option<seq<string>>)
    requires roles.Some? ==> forall i :: 0 <= i < |roles.value| ==> roles.value[i] == RoleName(User)
    ensures RoleFlags(roles) == Flags(false, false)
  {
    if roles.Some? {
      assert "admin" !in roles.value && "super_admin" !in roles.value by {
        forall i | 0 <= i < |roles.value| ensures roles.value[i] != "admin" && roles.value[i] != "super_admin" {
          assert roles.value[i] == "user";
        }
      }
    }
  }

  /** The flags depend only on which roles occur: not on their order or
      repetition, and more roles never take a flag away. */
  lemma FlagsMonotone(a: seq<string>, b: seq<string>)
    requires forall r :: r in a ==> r in b
    ensures RoleFlags(Some(a)).isAdmin ==> RoleFlags(Some(b)).isAdmin
    ensures RoleFlags(Some(a)).isSuperAdmin ==> RoleFlags(Some(b)).isSuperAdmin
  {
  }

  // ---------------------------------------------------------------------------
  // The handler
  // ---------------------------------------------------------------------------

  /** What the user lookup gives: a user, an error (or no user), or an
      exception. */
  datatype UserLookup = Found(userId: string) | NotFound | LookupThrew

  /** What the role query gives: the rows' roles (`None` for no data), an
      error, or an exception. */
  datatype RoleQuery = Rows(roles: Option<seq<string>>) | QueryFailed(message: string) | QueryThrew(message: string)

  datatype Reply =
    | Preflight
    | Verdict(status: nat, flags: Flags, error: Option<string>)

  function VerifyOutcome(httpMethod: string, authorization: Option<string>, user: UserLookup, query: RoleQuery): Reply
  {
    if httpMethod == "OPTIONS" then Preflight
    else if authorization.None? || authorization.value == "" then
      Verdict(401, Flags(false, false), Some("No authorization header"))
    else if user.LookupThrew? then Verdict(500, Flags(false, false), Some("Internal server error"))
    else if user.NotFound? then Verdict(401, Flags(false, false), Some("Not authenticated"))
    else if query.QueryThrew? then Verdict(500, Flags(false, false), Some("Internal server error"))
    else if query.QueryFailed? then Verdict(500, Flags(false, false), Some("Failed to check roles"))
    else Verdict(200, RoleFlags(query.roles), None)
  }

  /** The request handler, with its early returns. */
  method Handle(httpMethod: string, authorization: Option<string>, user: UserLookup, query: RoleQuery)
    returns (r: Reply)
    ensures r == VerifyOutcome(httpMethod, authorization, user, query)
  {
    if httpMethod == "OPTIONS" {
      return Preflight;
    }
    if authorization.None? || authorization.value == "" {
      return Verdict(401, Flags(false, false), Some("No authorization header"));
    }
    match user {
      case LookupThrew =>
        return Verdict(500, Flags(false, false), Some("Internal server error"));
      case NotFound =>
        return Verdict(401, Flags(false, false), Some("Not authenticated"));
      case Found(_) =>
    }
    match query {
      case QueryThrew(_) =>
        r := Verdict(500, Flags(false, false), Some("Internal server error"));
      case QueryFailed(_) =>
        r := Verdict(500, Flags(false, false), Some("Failed to check roles"));
      case Rows(roles) =>
        r := Verdict(200, RoleFlags(roles), None);
    }
  }

  /** Every answer but a 200 is an error with both flags false; a 200 has no
      error and the flags of the stored roles. */
  lemma ErrorsGrantNothing(httpMethod: string, authorization: Option<string>, user: UserLookup, query: RoleQuery)
    ensures var r := VerifyOutcome(httpMethod, authorization, user, query);
      r.Verdict? ==>
        && (r.status != 200 <==> r.error.Some?)
        && (r.status != 200 ==> r.flags == Flags(false, false) && r.status in {401, 500})
        && (r.status == 200 ==> query.Rows? && r.flags == RoleFlags(query.roles))
  {
  }

  /** Without an Authorization header the answer is 401 whatever the lookups
      would have given; an internal error never reveals its cause. */
  lemma MissingHeaderFirst(authorization: Option<string>, u1: UserLookup, q1: RoleQuery, u2: UserLookup, q2: RoleQuery)
    requires authorization.None?
    ensures VerifyOutcome("POST", authorization, u1, q1) == VerifyOutcome("POST", authorization, u2, q2)
    ensures VerifyOutcome("POST", authorization, u1, q1) == Verdict(401, Flags(false, false), Some("No authorization header"))
  {
  }

  /** In every answer a super admin flag comes with the admin flag. */
  lemma AnswersKeepSuperAdminIsAdmin(httpMethod: string, authorization: Option<string>, user: UserLookup, query: RoleQuery)
    ensures var r := VerifyOutcome(httpMethod, authorization, user, query);
      r.Verdict? && r.flags.isSuperAdmin ==> r.flags.isAdmin
  {
  }
}
