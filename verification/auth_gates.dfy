/**
 * The two middleware gates: `requireUser`, which identifies the caller by the
 * `x-telegram-id` header alone, and `requireSuperAdmin`, which admits only a
 * caller whose stored role is "super_admin".
 */
module AuthGates {
  import opened Wrappers
  import opened JsValues
  import opened UserModel
  import opened Http

  const MissingTelegramId := "Missing telegram id"
  const UserNotFound := "User not found"
  const SuperAdminOnly := "Super admin only"

  /** `next()` with `req.user` set, or the response the gate sends instead. */
  datatype Gate = Admit(user: User) | Deny(response: Response)

  /**
   * `requireUser`: a falsy header is 401 "Missing telegram id", an id with no
   * record is 401 "User not found", otherwise the caller is that record.
   */
  function RequireUser(users: map<string, User>, header: Option<string>): (g: Gate)
    ensures g.Admit? <==> Present(header) && header.value in users
    ensures g.Admit? ==> g.user == users[header.value]
    ensures !Present(header) ==> g == Deny(Fail(401, MissingTelegramId))
    ensures Present(header) && header.value !in users ==> g == Deny(Fail(401, UserNotFound))
  {
    if !Present(header) then Deny(Fail(401, MissingTelegramId))
    else if header.value !in users then Deny(Fail(401, UserNotFound))
    else Admit(users[header.value])
  }

  /** `requireSuperAdmin`: 403 "Super admin only" unless the caller's role is "super_admin". */
  function RequireSuperAdmin(user: User): (g: Gate)
    ensures g.Admit? <==> user.role == SuperAdmin
    ensures g.Admit? ==> g.user == user
    ensures g.Deny? ==> g.response == Fail(403, SuperAdminOnly)
  {
    if user.role != SuperAdmin then Deny(Fail(403, SuperAdminOnly)) else Admit(user)
  }

  /** `requireUser, requireSuperAdmin` in that order. */
  function RequireUserThenSuperAdmin(users: map<string, User>, header: Option<string>): Gate {
    match RequireUser(users, header)
    case Deny(response) => Deny(response)
    case Admit(user) => RequireSuperAdmin(user)
  }

  /** In a well-formed table the admitted caller is the record stored under the header's id. */
  lemma AdmittedIsCaller(users: map<string, User>, header: Option<string>)
    requires UsersValid(users)
    requires RequireUser(users, header).Admit?
    ensures RequireUser(users, header).user.telegramId == header.value
    ensures ValidRole(RequireUser(users, header).user.role)
  {
  }

  /**
   * Authentication comes before authorisation: a caller without a known id
   * gets the 401 of `requireUser`, never the 403, whatever the table holds;
   * a known caller who is not a super admin gets exactly the 403.
   */
  lemma GateOrder(users: map<string, User>, header: Option<string>)
    ensures RequireUser(users, header).Deny? ==>
      RequireUserThenSuperAdmin(users, header) == RequireUser(users, header)
      && RequireUserThenSuperAdmin(users, header).response.status == 401
    ensures RequireUser(users, header).Admit? && RequireUser(users, header).user.role != SuperAdmin ==>
      RequireUserThenSuperAdmin(users, header) == Deny(Fail(403, SuperAdminOnly))
  {
  }

  /**
   * With roles derived from the configured id, the pair of gates admits
   * exactly a request whose header is that id, once a record for it exists;
   * with the id unset (the empty string) it admits nobody.
   */
  lemma SuperAdminGateMeaning(superAdminId: string, users: map<string, User>, header: Option<string>)
    requires UsersValid(users) && RolesFollow(superAdminId, users)
    ensures RequireUserThenSuperAdmin(users, header).Admit? <==>
      header == Some(superAdminId) && superAdminId != "" && superAdminId in users
    ensures superAdminId == "" ==> RequireUserThenSuperAdmin(users, header).Deny?
  {
    if RequireUserThenSuperAdmin(users, header).Admit? {
      OnlyConfiguredIdIsSuperAdmin(superAdminId, users, header.value);
    }
  }

  /**
   * The header is the whole identity check: any request carrying the id of a
   * stored record is admitted as that record.
   */
  lemma HeaderIsIdentity(users: map<string, User>, id: string)
    requires id in users && id != ""
    ensures RequireUser(users, Some(id)) == Admit(users[id])
  {
  }
}
