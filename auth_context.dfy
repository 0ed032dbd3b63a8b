/**
 * The frontend's session state: the capabilities derived from the signed-in user
 * and the reducer that moves the session between signed out, signing in and signed in.
 */
module AuthContext {
  import opened Wrappers
  import opened Text

  /** The user record the frontend keeps; `suscripcion` is the subscription's name when there is one. */
  datatype SessionUser = SessionUser(
    id: int,
    role: Option<string>,
    isSuperuser: bool,
    isStaff: bool,
    permisos: Option<seq<string>>,
    rolPermisos: Option<seq<string>>,
    suscripcion: Option<string>)

  datatype Limit = Finite(n: nat) | Unlimited
  datatype Tier = Basic | Premium | Esmeralda | Admin

  /** The `hasPermission` closure a capability record carries. */
  datatype PermissionRule = AllowAll | AllowListed(names: seq<string>) | DenyAll

  datatype Capabilities = Capabilities(
    canCreateProperties: bool,
    canManageProperties: bool,
    canViewProperties: bool,
    canMakeReservations: bool,
    propertyLimit: Limit,
    subscriptionTier: Tier,
    rule: PermissionRule)

  predicate Allows(rule: PermissionRule, p: string) {
    match rule
    case AllowAll => true
    case AllowListed(names) => p in names
    case DenyAll => false
  }

  predicate HasCapability(c: Capabilities, p: string) {
    Allows(c.rule, p)
  }

  const AdminRoles: set<string> := {"SUPERUSER", "ADMIN", "ADMINISTRATOR", "Administrador"}

  /** A role name from the administrator list, or the superuser or staff flag. */
  predicate IsAdmin(u: SessionUser) {
    u.role.GetOr("") in AdminRoles || u.isSuperuser || u.isStaff
  }

  /** `user.permisos`, or else the names of the role's permissions, or else nothing. */
  function UserPermissions(u: SessionUser): seq<string> {
    match u.permisos
    case Some(ps) => ps
    case None => u.rolPermisos.GetOr([])
  }

  /** The rule `calculateUserCapabilities` builds: everything for administrators, the user's list otherwise. */
  function PermissionRuleFor(u: SessionUser): (rule: PermissionRule)
    ensures forall p :: Allows(rule, p) <==> IsAdmin(u) || p in UserPermissions(u)
  {
    if IsAdmin(u) then AllowAll else AllowListed(UserPermissions(u))
  }

  const AdminCapabilities: Capabilities :=
    Capabilities(true, true, true, true, Unlimited, Admin, AllowAll)

  /** `calculateUserCapabilities`. */
  function CalculateUserCapabilities(u: SessionUser): (c: Capabilities)
    ensures IsAdmin(u) ==> c == AdminCapabilities
    ensures !IsAdmin(u) ==> forall p :: HasCapability(c, p) <==> p in UserPermissions(u)
    ensures !IsAdmin(u) ==>
      c.canViewProperties == ("ver_propiedades" in UserPermissions(u)) &&
      c.canMakeReservations == ("cud_reserva" in UserPermissions(u))
    ensures !IsAdmin(u) && u.role == Some("CLIENT") && u.suscripcion.Some? ==>
      var name := Lower(u.suscripcion.value);
      (name == "premium" ==> c.propertyLimit == Finite(5) && c.subscriptionTier == Premium) &&
      (name == "esmeralda" ==> c.propertyLimit == Unlimited && c.subscriptionTier == Esmeralda) &&
      (name != "premium" && name != "esmeralda" ==>
        !c.canCreateProperties && !c.canManageProperties && c.propertyLimit == Finite(0) && c.subscriptionTier == Basic)
    ensures c.subscriptionTier in {Premium, Esmeralda} || (!IsAdmin(u) && !(u.role == Some("CLIENT") && u.suscripcion.Some?)) ==>
      c.canCreateProperties == HasCapability(c, "cud_propiedad") &&
      c.canManageProperties == (HasCapability(c, "ver_propiedades") && HasCapability(c, "cud_propiedad"))
    ensures !IsAdmin(u) && !(u.role == Some("CLIENT") && u.suscripcion.Some?) ==>
      c.propertyLimit == Finite(0) && c.subscriptionTier == Basic
    ensures c.propertyLimit == Unlimited <==> c.subscriptionTier in {Admin, Esmeralda}
  {
    var rule := PermissionRuleFor(u);
    var defaults := Capabilities(
      Allows(rule, "cud_propiedad"),
      Allows(rule, "ver_propiedades") && Allows(rule, "cud_propiedad"),
      Allows(rule, "ver_propiedades"),
      Allows(rule, "cud_reserva"),
      Finite(0), Basic, rule);
    if IsAdmin(u) then AdminCapabilities
    else if u.role == Some("CLIENT") && u.suscripcion.Some? then
      var name := Lower(u.suscripcion.value);
      if name == "básica" then
        defaults.(canCreateProperties := false, canManageProperties := false, propertyLimit := Finite(0), subscriptionTier := Basic)
      else if name == "premium" then
        defaults.(propertyLimit := Finite(5), subscriptionTier := Premium)
      else if name == "esmeralda" then
        defaults.(propertyLimit := Unlimited, subscriptionTier := Esmeralda)
      else
        defaults.(canCreateProperties := false, canManageProperties := false, propertyLimit := Finite(0), subscriptionTier := Basic)
    else defaults
  }

  /** A `básica` subscription and an unknown subscription name give the same capabilities. */
  lemma UnknownSubscriptionIsBasica(u: SessionUser, v: SessionUser)
    requires u.(suscripcion := None) == v.(suscripcion := None)
    requires u.role == Some("CLIENT") && u.suscripcion.Some? && v.suscripcion.Some?
    requires Lower(u.suscripcion.value) == "básica"
    requires Lower(v.suscripcion.value) !in {"básica", "premium", "esmeralda"}
    ensures CalculateUserCapabilities(u) == CalculateUserCapabilities(v)
  {
    assert UserPermissions(u) == UserPermissions(v);
  }

  datatype AuthState = AuthState(
    user: Option<SessionUser>,
    token: Option<string>,
    isAuthenticated: bool,
    isLoading: bool,
    error: Option<string>,
    capabilities: Capabilities)

  const InitialCapabilities: Capabilities :=
    Capabilities(false, false, true, true, Finite(0), Basic, DenyAll)

  const InitialState: AuthState :=
    AuthState(None, None, false, false, None, InitialCapabilities)

  datatype AuthAction =
    | LoginStart
    | LoginSuccess(user: SessionUser, token: string, capabilities: Capabilities)
    | LoginFailure(message: string)
    | Logout
    | UpdateUser(user: SessionUser, capabilities: Capabilities)
    | RestoreSession(user: SessionUser, token: string, capabilities: Capabilities)
    | Other(tag: string)

  /** `authReducer`. */
  function AuthReducer(s: AuthState, a: AuthAction): (r: AuthState)
    ensures a.LoginStart? ==> r == s.(isLoading := true, error := None)
    ensures a.LoginFailure? ==> r == AuthState(None, None, false, false, Some(a.message), InitialCapabilities)
    ensures a.Logout? ==> r == InitialState
    ensures a.UpdateUser? ==> r == s.(user := Some(a.user), capabilities := a.capabilities)
    ensures a.RestoreSession? ==>
      r == AuthState(Some(a.user), Some(a.token), true, s.isLoading, s.error, a.capabilities)
    ensures a.LoginSuccess? ==> r == AuthState(Some(a.user), Some(a.token), true, false, None, a.capabilities)
    ensures a.Other? ==> r == s
  {
    match a
    case LoginStart => s.(isLoading := true, error := None)
    case LoginSuccess(user, token, caps) =>
      s.(user := Some(user), token := Some(token), capabilities := caps, isAuthenticated := true, isLoading := false, error := None)
    case LoginFailure(message) =>
      s.(user := None, token := None, isAuthenticated := false, isLoading := false, error := Some(message), capabilities := InitialCapabilities)
    case Logout => InitialState
    case UpdateUser(user, caps) => s.(user := Some(user), capabilities := caps)
    case RestoreSession(user, token, caps) =>
      s.(user := Some(user), token := Some(token), capabilities := caps, isAuthenticated := true)
    case Other(_) => s
  }

  /** A signed-in session always holds a user and a token. */
  predicate Consistent(s: AuthState) {
    s.isAuthenticated ==> s.user.Some? && s.token.Some?
  }

  /** Every action keeps a consistent session consistent, whatever sequence of actions is dispatched. */
  lemma {:induction false} ReducerKeepsConsistent(s: AuthState, actions: seq<AuthAction>)
    requires Consistent(s)
    ensures Consistent(Replay(s, actions))
    decreases |actions|
  {
    if actions != [] {
      var t := AuthReducer(s, actions[0]);
      assert Consistent(t);
      ReducerKeepsConsistent(t, actions[1..]);
    }
  }

  /** The state after dispatching `actions` in order. */
  function Replay(s: AuthState, actions: seq<AuthAction>): AuthState
    decreases |actions|
  {
    if actions == [] then s else Replay(AuthReducer(s, actions[0]), actions[1..])
  }

  /** From any state, a session restored after a failed sign-in is signed in as the restored user and still shows the failure message. */
  lemma RestoreKeepsError(s: AuthState, message: string, u: SessionUser, token: string, caps: Capabilities)
    ensures var t := Replay(s, [LoginFailure(message), RestoreSession(u, token, caps)]);
      t.isAuthenticated && t.user == Some(u) && t.token == Some(token) && t.error == Some(message) && !t.isLoading
  {
    var s1 := AuthReducer(s, LoginFailure(message));
    var s2 := AuthReducer(s1, RestoreSession(u, token, caps));
    assert Replay(s1, [RestoreSession(u, token, caps)]) == Replay(s2, []);
  }
}
