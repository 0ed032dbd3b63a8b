/**
 * The `HasPermission` gate that every protected endpoint adds to its permission
 * classes: a decision over the requesting user, the decoded JWT payload and the
 * codename the view declares.
 */
module Permisos {
  import opened Wrappers
  import opened Accounts

  /**
   * The token attached to the request. `permisos` is `None` when the payload has no
   * `permisos` claim or reading it fails; both count as an empty list.
   */
  datatype Token = Token(permisos: Option<seq<string>>)

  /** The permission list read from the token, empty when there is no token or no readable claim. */
  function TokenPermissions(token: Option<Token>): seq<string> {
    if token.Some? && token.value.permisos.Some? then token.value.permisos.value else []
  }

  /** A view's `permission_codename`; `None` and `''` both mean the view names no permission. */
  predicate Names(codename: Option<string>) {
    codename.Some? && codename.value != ""
  }

  /** `HasPermission.has_permission`. */
  function HasPermission(user: User, token: Option<Token>, codename: Option<string>): (allowed: bool)
    ensures !user.isAuthenticated ==> !allowed
    ensures user.isAuthenticated && user.isSuperuser ==> allowed
    ensures user.isAuthenticated && !Names(codename) ==> allowed
    ensures !user.isSuperuser && Names(codename) ==>
              (allowed <==> user.isAuthenticated && codename.value in TokenPermissions(token))
  {
    if !user.isAuthenticated then false
    else if user.isSuperuser then true
    else if !Names(codename) then true
    else codename.value in TokenPermissions(token)
  }

  /** Without a token, or with one lacking a readable `permisos`, only superusers pass a view that names a codename. */
  lemma NoClaimDenied(user: User, token: Option<Token>, codename: Option<string>)
    requires token.None? || token.value.permisos.None?
    requires Names(codename)
    ensures HasPermission(user, token, codename) <==> user.isAuthenticated && user.isSuperuser
  {
  }

  /** Granting more permissions in the token never takes access away. */
  lemma MorePermissionsNeverDeny(user: User, t1: Option<Token>, t2: Option<Token>, codename: Option<string>)
    requires forall p :: p in TokenPermissions(t1) ==> p in TokenPermissions(t2)
    ensures HasPermission(user, t1, codename) ==> HasPermission(user, t2, codename)
  {
  }
}
