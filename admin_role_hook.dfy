/** The client hook that tells pages whether the signed-in user is an
    admin. Its state record is replaced in each branch of the check, and
    the derivation is the admin check's own. */
module AdminRoleHook {
  import opened Text
  import opened VerifyAdmin

  class RoleState {
    var isAdmin: bool
    var isSuperAdmin: bool
    var loading: bool
    var error: Option<string>

    /** A super admin is an admin, and an error never comes with a flag. */
    ghost predicate Valid()
      reads this
    {
      && (isSuperAdmin ==> isAdmin)
      && (error.Some? ==> !isAdmin && !isSuperAdmin)
    }

    /** Before any check: no flags, loading, no error. */
    constructor ()
      ensures Valid()
      ensures !isAdmin && !isSuperAdmin && loading && error == None
    {
      isAdmin, isSuperAdmin, loading, error := false, false, true, None;
    }

    /** `checkAdminRole`. While authentication is loading nothing changes;
        otherwise loading ends and the flags come from the stored roles, or
        are both false with an error when the backend is missing or the
        query fails or throws. */
    method Check(authLoading: bool, user: Option<string>, backendConfigured: bool, query: RoleQuery)
      requires Valid()
      modifies this
      ensures Valid()
      ensures authLoading ==> isAdmin == old(isAdmin) && isSuperAdmin == old(isSuperAdmin)
                              && loading == old(loading) && error == old(error)
      ensures !authLoading ==> !loading
      ensures !authLoading && user.None? ==> !isAdmin && !isSuperAdmin && error == None
      ensures !authLoading && user.Some? && !backendConfigured ==>
                !isAdmin && !isSuperAdmin && error == Some("Backend not configured")
      ensures !authLoading && user.Some? && backendConfigured && !query.Rows? ==>
                !isAdmin && !isSuperAdmin && error == Some(query.message)
      ensures !authLoading && user.Some? && backendConfigured && query.Rows? ==>
                Flags(isAdmin, isSuperAdmin) == RoleFlags(query.roles) && error == None
    {
      if authLoading {
        return;
      }
      if user.None? {
        isAdmin, isSuperAdmin, loading, error := false, false, false, None;
        return;
      }
      if !backendConfigured {
        isAdmin, isSuperAdmin, loading, error := false, false, false, Some("Backend not configured");
        return;
      }
      match query {
        case QueryFailed(message) =>
          isAdmin, isSuperAdmin, loading, error := false, false, false, Some(message);
        case QueryThrew(message) =>
          isAdmin, isSuperAdmin, loading, error := false, false, false, Some(message);
        case Rows(roles) =>
          var f := RoleFlags(roles);
          isAdmin, isSuperAdmin, loading, error := f.isAdmin, f.isSuperAdmin, false, None;
      }
    }
  }
}
