/** `components/PrivateRoute.js`: the wrapper that shows a page only to a logged-in user with
    an allowed role, and sends everybody else to the login page. */
module PrivateRoute {
  import opened Wrappers
  import opened Jwt
  import Session
  import Records

  /** What the wrapper renders. */
  datatype View =
    | Placeholder    // "Chargement..."
    | Unauthorized   // "Accès non autorisé..."
    | Children       // the protected page

  /** `allowedRoles.includes(user.role)`; a user without a role claim matches no list. */
  predicate RoleAllowed(allowedRoles: seq<string>, user: Payload) {
    user.role.Some? && user.role.value in allowedRoles
  }

  /** The user may not see the page: `allowedRoles && !allowedRoles.includes(user.role)`
      (an empty list is still a list and admits nobody). */
  predicate Refused(allowedRoles: Option<seq<string>>, user: Payload) {
    allowedRoles.Some? && !RoleAllowed(allowedRoles.value, user)
  }

  /** The rendered view. */
  function Render(loading: bool, user: Option<Payload>, allowedRoles: Option<seq<string>>): (v: View)
    ensures v == Placeholder <==> loading || user.None?
    ensures v == Unauthorized <==> !loading && user.Some? && Refused(allowedRoles, user.value)
    ensures v == Children <==>
              !loading && user.Some? && (allowedRoles.None? || RoleAllowed(allowedRoles.value, user.value))
  {
    if loading || user.None? then Placeholder
    else if Refused(allowedRoles, user.value) then Unauthorized
    else Children
  }

  /** Whether the effect pushes the login page. */
  function Redirects(loading: bool, user: Option<Payload>, allowedRoles: Option<seq<string>>): bool {
    !loading && (user.None? || Refused(allowedRoles, user.value))
  }

  /** Once loading is over, the wrapper redirects exactly when it does not show the page;
      while loading it neither redirects nor shows the page. */
  lemma RedirectsUnlessShown(loading: bool, user: Option<Payload>, allowedRoles: Option<seq<string>>)
    ensures Redirects(loading, user, allowedRoles) <==> !loading && Render(loading, user, allowedRoles) != Children
    ensures loading ==> !Redirects(loading, user, allowedRoles) && Render(loading, user, allowedRoles) == Placeholder
  {
  }

  /** Without `allowedRoles` every logged-in user sees the page. */
  lemma AnyRoleWithoutList(user: Payload)
    ensures Render(false, Some(user), None) == Children && !Redirects(false, Some(user), None)
  {
  }

  /** The effect: push `/login` when the wrapper refuses the page. */
  method RunEffect(router: Session.Router, loading: bool, user: Option<Payload>, allowedRoles: Option<seq<string>>)
    modifies router
    ensures router.history
            == old(router.history) + (if Redirects(loading, user, allowedRoles) then [Session.LOGIN_PAGE] else [])
  {
    if loading {
      return;
    }
    if user.None? {
      router.Push(Session.LOGIN_PAGE);
      return;
    }
    if allowedRoles.Some? && !RoleAllowed(allowedRoles.value, user.value) {
      router.Push(Session.LOGIN_PAGE);
    }
  }

  /** A manager page (`allowedRoles = ['MANAGER']`) after the mount-time check: shown iff
      the restored session's role is `MANAGER`. */
  lemma ManagerPageAfterMount(stored: Option<string>, decode: string -> Option<Payload>, nowMs: int)
    ensures Render(false, Session.Restored(stored, decode, nowMs), Some([Records.MANAGER])) == Children
            <==> Session.Restored(stored, decode, nowMs).Some?
                 && Session.Restored(stored, decode, nowMs).value.role == Some(Records.MANAGER)
  {
  }
}
