/**
 * The frontend's "may this user create a property" check, run before the
 * create form is submitted.
 */
module PropertyValidation {
  import opened Wrappers
  import opened Text
  import opened AuthContext
  import opened Seqs

  /** The part of a listed property the check reads: its owner's id. */
  datatype ListedProperty = ListedProperty(id: int, user: int)

  datatype CreateCheck = CreateCheck(canCreate: bool, message: Option<string>)

  /** `propiedades.filter(p => p.user === user?.id).length`; no user owns nothing. */
  function CurrentPropertyCount(props: seq<ListedProperty>, user: Option<SessionUser>): (n: nat)
    ensures n <= |props|
    ensures user.None? ==> n == 0
    ensures user.Some? && (forall p :: p in props ==> p.user == user.value.id) ==> n == |props|
    ensures user.Some? && (forall p :: p in props ==> p.user != user.value.id) ==> n == 0
    ensures user.Some? ==> n == |Where(props, (p: ListedProperty) => p.user == user.value.id)|
  {
    if props == [] then 0
    else
      var last := props[|props| - 1];
      assert forall p :: p in props[..|props| - 1] ==> p in props;
      CurrentPropertyCount(props[..|props| - 1], user) + (if user.Some? && last.user == user.value.id then 1 else 0)
  }

  predicate Reached(limit: Limit, count: nat) {
    match limit
    case Finite(n) => count >= n
    case Unlimited => false
  }

  function LimitText(limit: Limit): string {
    match limit
    case Finite(n) => NatToString(n)
    case Unlimited => "Infinity"
  }

  /**
   * `canCreateProperty`: refused without a user, then without the `cud_propiedad`
   * permission, then for a CLIENT whose capabilities forbid creation, then for a
   * premium CLIENT who already owns `propertyLimit` properties.
   */
  function CanCreateProperty(user: Option<SessionUser>, caps: Capabilities, props: seq<ListedProperty>): (r: CreateCheck)
    ensures r.canCreate <==>
      user.Some? && HasCapability(caps, "cud_propiedad") &&
      (user.value.role == Some("CLIENT") ==>
        caps.canCreateProperties &&
        (caps.subscriptionTier == Premium ==> !Reached(caps.propertyLimit, CurrentPropertyCount(props, user))))
    ensures !r.canCreate ==> r.message.Some?
    ensures user.Some? && !HasCapability(caps, "cud_propiedad") ==> r.message == Some("No tienes permisos para crear propiedades.")
    ensures user.Some? && user.value.role != Some("CLIENT") ==> (r.canCreate <==> HasCapability(caps, "cud_propiedad"))
  {
    if user.None? then CreateCheck(false, Some("Debes iniciar sesión"))
    else if !HasCapability(caps, "cud_propiedad") then
      CreateCheck(false, Some("No tienes permisos para crear propiedades."))
    else if user.value.role == Some("CLIENT") && !caps.canCreateProperties then
      CreateCheck(false, Some("Tu suscripción actual no permite crear propiedades. Actualiza a Premium o Esmeralda."))
    else if user.value.role == Some("CLIENT") && caps.subscriptionTier == Premium
      && Reached(caps.propertyLimit, CurrentPropertyCount(props, user)) then
      CreateCheck(false, Some("Has alcanzado el límite de " + LimitText(caps.propertyLimit)
        + " propiedades. Actualiza a Esmeralda para propiedades ilimitadas."))
    else CreateCheck(true, None)
  }

  /** `validateBeforeCreate`: false exactly when the check refuses, since every refusal has a message. */
  function ValidateBeforeCreate(user: Option<SessionUser>, caps: Capabilities, props: seq<ListedProperty>): (ok: bool)
    ensures ok == CanCreateProperty(user, caps, props).canCreate
  {
    var v := CanCreateProperty(user, caps, props);
    !(!v.canCreate && v.message.Some?)
  }

  /**
   * With the capabilities the session derives from the user, a premium CLIENT holding
   * the `cud_propiedad` permission may create a property exactly while owning fewer than 5.
   */
  lemma PremiumClientLimit(u: SessionUser, props: seq<ListedProperty>)
    requires !IsAdmin(u) && u.role == Some("CLIENT") && u.suscripcion.Some?
    requires Lower(u.suscripcion.value) == "premium"
    requires "cud_propiedad" in UserPermissions(u)
    ensures CanCreateProperty(Some(u), CalculateUserCapabilities(u), props).canCreate <==>
      CurrentPropertyCount(props, Some(u)) < 5
  {
  }

  /** An administrator may always create a property. */
  lemma AdminMayCreate(u: SessionUser, props: seq<ListedProperty>)
    requires IsAdmin(u)
    ensures CanCreateProperty(Some(u), CalculateUserCapabilities(u), props).canCreate
  {
  }
}
