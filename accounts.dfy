/** The requesting user as the backend views read it from `request.user`. */
module Accounts {

  datatype User = User(id: int, isAuthenticated: bool, isSuperuser: bool, isStaff: bool)

  /** `user.is_staff or user.is_superuser`. */
  predicate StaffOrSuperuser(u: User) {
    u.isStaff || u.isSuperuser
  }
}
