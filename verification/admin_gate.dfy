/** The server's admin middleware: the role read from a user record's four
    metadata locations, and the gate that lets admins through and answers
    everybody else with 403. */
module AdminGate {
  import opened Records

  /** The JavaScript values an `admin` flag can hold, as far as truthiness
      is concerned. Numbers are whole; NaN and -0 are not represented. */
  datatype JsValue = Undefined | Null | Bool(b: bool) | Number(n: int) | Text(s: string) | Object

  /** JavaScript truthiness. */
  predicate Truthy(v: JsValue) {
    match v
    case Undefined => false
    case Null => false
    case Bool(b) => b
    case Number(n) => n != 0
    case Text(s) => s != ""
    case Object => true
  }

  /** `a || b`: the first operand when it is truthy, else the second. */
  function JsOr(a: JsValue, b: JsValue): (r: JsValue)
    ensures r == a || r == b
  {
    if Truthy(a) then a else b
  }

  lemma JsOrTruthy(a: JsValue, b: JsValue)
    ensures Truthy(JsOr(a, b)) <==> Truthy(a) || Truthy(b)
  {
  }

  /** One metadata object of the user record: missing (null or undefined),
      or present with whatever its `admin` member holds. */
  datatype Metadata = Missing | Present(admin: JsValue)

  /** `metadata?.admin`. */
  function AdminFlag(m: Metadata): JsValue {
    match m
    case Missing => Undefined
    case Present(v) => v
  }

  datatype User = User(
    userMetadata: Metadata,
    appMetadata: Metadata,
    rawUserMetaData: Metadata,
    rawAppMetaData: Metadata)

  datatype Role = Admin | RegularUser

  /** `getRoleFromUser`. */
  function RoleFromUser(u: User): (role: Role)
    ensures role == Admin <==>
      || Truthy(AdminFlag(u.userMetadata)) || Truthy(AdminFlag(u.appMetadata))
      || Truthy(AdminFlag(u.rawUserMetaData)) || Truthy(AdminFlag(u.rawAppMetaData))
  {
    var isAdmin := JsOr(JsOr(JsOr(AdminFlag(u.userMetadata), AdminFlag(u.appMetadata)),
                             AdminFlag(u.rawUserMetaData)),
                        AdminFlag(u.rawAppMetaData));
    JsOrTruthy(AdminFlag(u.userMetadata), AdminFlag(u.appMetadata));
    JsOrTruthy(JsOr(AdminFlag(u.userMetadata), AdminFlag(u.appMetadata)), AdminFlag(u.rawUserMetaData));
    JsOrTruthy(JsOr(JsOr(AdminFlag(u.userMetadata), AdminFlag(u.appMetadata)), AdminFlag(u.rawUserMetaData)),
               AdminFlag(u.rawAppMetaData));
    if Truthy(isAdmin) then Admin else RegularUser
  }

  /** A user record with no metadata objects at all is a regular user. */
  lemma MissingMetadataIsRegular()
    ensures RoleFromUser(User(Missing, Missing, Missing, Missing)) == RegularUser
  {
  }

  /** `u2` has a truthy flag wherever `u1` has one. */
  predicate FlagsAtLeast(u1: User, u2: User) {
    && (Truthy(AdminFlag(u1.userMetadata)) ==> Truthy(AdminFlag(u2.userMetadata)))
    && (Truthy(AdminFlag(u1.appMetadata)) ==> Truthy(AdminFlag(u2.appMetadata)))
    && (Truthy(AdminFlag(u1.rawUserMetaData)) ==> Truthy(AdminFlag(u2.rawUserMetaData)))
    && (Truthy(AdminFlag(u1.rawAppMetaData)) ==> Truthy(AdminFlag(u2.rawAppMetaData)))
  }

  /** Adding truthy flags never turns an admin into a regular user. */
  lemma RoleMonotone(u1: User, u2: User)
    requires FlagsAtLeast(u1, u2)
    ensures RoleFromUser(u1) == Admin ==> RoleFromUser(u2) == Admin
  {
  }

  /** One truthy flag in any one location is enough, whatever the other
      three hold; this includes `user_metadata`, which the account holder
      can write. */
  lemma AnyOneFlagSuffices(u: User, v: JsValue)
    requires Truthy(v)
    ensures RoleFromUser(u.(userMetadata := Present(v))) == Admin
    ensures RoleFromUser(u.(appMetadata := Present(v))) == Admin
    ensures RoleFromUser(u.(rawUserMetaData := Present(v))) == Admin
    ensures RoleFromUser(u.(rawAppMetaData := Present(v))) == Admin
  {
  }

  /** What `requireAdmin` does with a request: call `next`, send a
      response, or throw (destructuring an undefined `req.user`). */
  datatype GateOutcome = CallNext | Respond(status: nat, body: string) | Throws

  const ForbiddenBody := "Access denied: Admins only."

  /** `requireAdmin(req, res, next)`, with `req.user` absent as `None`. */
  function RequireAdmin(reqUser: Option<User>): (o: GateOutcome)
    ensures o == CallNext <==> reqUser.Some? && RoleFromUser(reqUser.value) == Admin
    ensures o.Respond? <==> reqUser.Some? && RoleFromUser(reqUser.value) == RegularUser
    ensures o.Respond? ==> o.status == 403 && o.body == ForbiddenBody
    ensures o == Throws <==> reqUser.None?
  {
    match reqUser
    case None => Throws
    case Some(u) => if RoleFromUser(u) == Admin then CallNext else Respond(403, ForbiddenBody)
  }
}
