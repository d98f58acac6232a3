/** The fixed role-to-permission table and the checks built on it. */
module Auth {
  import opened Types
  import opened Http

  /** The `PERMISSIONS` table: the permissions listed for each role. */
  function Permissions(role: UserRole): (r: seq<string>)
    ensures forall p <- r :: role in Holders(p)
    ensures forall p :: role in Holders(p) ==> p in r
  {
    match role
    case Admin => [
      "view_buying_price", "edit_batches", "delete_batches", "create_batches", "view_profit",
      "override_locks", "manage_users", "view_all_bookings", "confirm_sales", "system_settings"]
    case Manager => ["view_tickets", "create_bookings", "confirm_sales", "view_all_bookings"]
    case Staff => ["view_tickets", "create_bookings", "partial_payments"]
  }

  /** Every permission name that occurs in the table. */
  const KnownPermissions: set<string> := {
    "view_buying_price", "edit_batches", "delete_batches", "create_batches", "view_profit",
    "override_locks", "manage_users", "view_all_bookings", "confirm_sales", "system_settings",
    "view_tickets", "create_bookings", "partial_payments"}

  /**
   * The same table read by permission: the roles that hold it. An
   * independent statement of the table against which `HasPermission` is
   * checked.
   */
  function Holders(permission: string): set<UserRole>
  {
    if permission in {"view_buying_price", "edit_batches", "delete_batches", "create_batches",
                      "view_profit", "override_locks", "manage_users", "system_settings"}
    then {Admin}
    else if permission in {"view_all_bookings", "confirm_sales"} then {Admin, Manager}
    else if permission in {"view_tickets", "create_bookings"} then {Manager, Staff}
    else if permission == "partial_payments" then {Staff}
    else {}
  }

  /** `hasPermission(user, permission)` */
  function HasPermission(user: Option<User>, permission: string): (r: bool)
    ensures user.None? ==> !r
    ensures r ==> permission in KnownPermissions
  {
    user.Some? && permission in Permissions(user.value.role)
  }

  /** `isRole(user, role)`: `user?.role === role`. */
  function IsRole(user: Option<User>, role: UserRole): (r: bool)
    ensures r ==> user.Some?
  {
    match user
    case None => false
    case Some(u) => u.role == role
  }

  /** A user is granted a permission exactly when the user's role holds it. */
  lemma HasPermissionByHolders(u: User, permission: string)
    ensures HasPermission(Some(u), permission) <==> u.role in Holders(permission)
  {
  }

  /** A permission name outside the table is refused to every role. */
  lemma UnknownPermissionRefused(u: User, permission: string)
    requires permission !in KnownPermissions
    ensures !HasPermission(Some(u), permission)
  {
  }

  /** Creating batches and seeing profit are for admins only. */
  lemma AdminOnlyPermissions(u: User)
    ensures HasPermission(Some(u), "create_batches") <==> u.role == Admin
    ensures HasPermission(Some(u), "view_profit") <==> u.role == Admin
  {
    HasPermissionByHolders(u, "create_batches");
    HasPermissionByHolders(u, "view_profit");
  }

  /** Admins cannot view tickets or create bookings; managers and staff can. */
  lemma AdminLacksFrontDesk(u: User)
    ensures HasPermission(Some(u), "view_tickets") <==> u.role != Admin
    ensures HasPermission(Some(u), "create_bookings") <==> u.role != Admin
  {
    HasPermissionByHolders(u, "view_tickets");
    HasPermissionByHolders(u, "create_bookings");
  }

  /** Sales are confirmed by admins and managers; partial payments only by staff. */
  lemma SalesAndPaymentsSplit(u: User)
    ensures HasPermission(Some(u), "confirm_sales") <==> u.role != Staff
    ensures HasPermission(Some(u), "partial_payments") <==> u.role == Staff
  {
    HasPermissionByHolders(u, "confirm_sales");
    HasPermissionByHolders(u, "partial_payments");
  }

  /** A user has exactly one role. */
  lemma IsRoleOfUser(u: User, role: UserRole)
    ensures IsRole(Some(u), role) <==> role == u.role
    ensures !IsRole(None, role)
  {
  }
}
