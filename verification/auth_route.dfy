/**
 * `POST /auth/telegram`: turn a signed init-data payload (or, when test
 * authentication is enabled, a plain user object) into an upserted user
 * record, answering with its role and id.
 */
module AuthRoute {
  import opened Wrappers
  import opened JsValues
  import opened Env
  import opened InitData
  import opened UserModel
  import opened Http

  /** The fields of a Telegram user object the route reads. */
  datatype TgUser = TgUser(id: Scalar, firstName: Option<string>, lastName: Option<string>, username: Option<string>)

  /** `req.body`: the init-data payload (`None` when falsy) and the optional test user. */
  datatype LoginRequest = LoginRequest(initData: Option<seq<Pair>>, testUser: Option<TgUser>)

  /**
   * `JSON.parse` of the signed `user` field followed by the reads of its
   * fields; `None` when any of that throws.
   */
  type UserParser = string -> Option<TgUser>

  const UserField := "user"
  const MissingUserData := "Missing user data"
  const AuthFailed := "Auth failed"

  /** The fields written for a Telegram user: `String(id)`, names or "", and the derived role. */
  function ProfileOf(cfg: Config, u: TgUser): (p: Profile)
    ensures p.telegramId == ToStr(u.id)
    ensures p.role == RoleFor(cfg.superAdminId, p.telegramId)
    ensures p.firstName == OrElse(u.firstName, "") && p.lastName == OrElse(u.lastName, "")
    ensures p.username == OrElse(u.username, "")
  {
    var id := ToStr(u.id);
    Profile(id, OrElse(u.firstName, ""), OrElse(u.lastName, ""), OrElse(u.username, ""), RoleFor(cfg.superAdminId, id))
  }

  /** What the handler does: answer with an error, or upsert the profile. */
  datatype LoginPlan = LoginReject(response: Response) | LoginUpsert(profile: Profile)

  function PlanLogin(cfg: Config, req: LoginRequest, crypto: Crypto, keyLe: (string, string) -> bool,
                     parseUser: UserParser): LoginPlan
  {
    if cfg.allowTestAuth && req.testUser.Some? then LoginUpsert(ProfileOf(cfg, req.testUser.value))
    else
      match ValidateInitData(req.initData, cfg.botToken, crypto, keyLe)
      case Rejected(reason) => LoginReject(Fail(401, reason))
      case Verified(data) =>
        if UserField !in data || data[UserField] == "" then LoginReject(Fail(400, MissingUserData))
        else
          match parseUser(data[UserField])
          case None => LoginReject(Fail(500, AuthFailed))
          case Some(u) => LoginUpsert(ProfileOf(cfg, u))
  }

  /** The answer to a login that upserted: the stored record's role and id. */
  function LoginResponse(users: map<string, User>, id: string): (r: Response)
    requires id in users
    ensures r.status == 200 && r.body == AuthBody(users[id].role, users[id].telegramId)
  {
    Success(AuthBody(users[id].role, users[id].telegramId))
  }

  /**
   * With test authentication on, any request carrying a user object is
   * accepted as that user: the init data, the bot token and the signature
   * play no part.
   */
  lemma TestAuthBypass(cfg: Config, req: LoginRequest, c1: Crypto, c2: Crypto,
                       k1: (string, string) -> bool, k2: (string, string) -> bool, p1: UserParser, p2: UserParser)
    requires cfg.allowTestAuth && req.testUser.Some?
    ensures PlanLogin(cfg, req, c1, k1, p1) == LoginUpsert(ProfileOf(cfg, req.testUser.value))
    ensures PlanLogin(cfg, req, c1, k1, p1) == PlanLogin(cfg, req, c2, k2, p2)
  {
  }

  /** With test authentication off, a test user object in the body is ignored. */
  lemma TestUserIgnoredWhenOff(cfg: Config, req: LoginRequest, crypto: Crypto, keyLe: (string, string) -> bool,
                               parseUser: UserParser)
    requires !cfg.allowTestAuth
    ensures PlanLogin(cfg, req, crypto, keyLe, parseUser)
      == PlanLogin(cfg, req.(testUser := None), crypto, keyLe, parseUser)
  {
  }

  /**
   * Outside the test bypass a login upserts exactly when the payload's
   * signature verifies, the signed data carries a non-empty `user` field and
   * that field parses; the profile is then the parsed user's. Each failure
   * has its own answer: 401 with the validator's reason, 400 for a missing
   * user, 500 for a parse failure.
   */
  lemma SignedLoginCharacterised(cfg: Config, req: LoginRequest, crypto: Crypto, keyLe: (string, string) -> bool,
                                 parseUser: UserParser)
    requires !(cfg.allowTestAuth && req.testUser.Some?)
    ensures var plan := PlanLogin(cfg, req, crypto, keyLe, parseUser);
      var v := ValidateInitData(req.initData, cfg.botToken, crypto, keyLe);
      && (plan.LoginUpsert? <==>
            v.Verified? && UserField in v.data && v.data[UserField] != "" && parseUser(v.data[UserField]).Some?)
      && (plan.LoginUpsert? ==> plan.profile == ProfileOf(cfg, parseUser(v.data[UserField]).value))
      && (v.Rejected? ==> plan == LoginReject(Fail(401, v.reason)))
      && (v.Verified? && (UserField !in v.data || v.data[UserField] == "") ==>
            plan == LoginReject(Fail(400, MissingUserData)))
      && (v.Verified? && UserField in v.data && v.data[UserField] != "" && parseUser(v.data[UserField]).None? ==>
            plan == LoginReject(Fail(500, AuthFailed)))
  {
  }

  /**
   * Every upserted profile carries the role derived from its own id: the
   * super-admin role exactly for the configured id, whatever path led there.
   */
  lemma LoginRoleDerived(cfg: Config, req: LoginRequest, crypto: Crypto, keyLe: (string, string) -> bool,
                         parseUser: UserParser)
    ensures var plan := PlanLogin(cfg, req, crypto, keyLe, parseUser);
      plan.LoginUpsert? ==>
        && ValidRole(plan.profile.role)
        && (plan.profile.role == SuperAdmin <==> plan.profile.telegramId == cfg.superAdminId)
  {
  }

  /**
   * `String(undefined)`: a user object without an `id` is stored under the
   * text "undefined", and so is every other such user.
   */
  lemma MissingIdStoredAsUndefined(cfg: Config, u: TgUser)
    requires u.id.Undefined?
    ensures ProfileOf(cfg, u).telegramId == "undefined"
  {
  }

  /**
   * Logging in keeps the user table well formed with every role derived from
   * its id, and the record answered is the profile's own.
   */
  lemma LoginKeepsUsersValid(cfg: Config, users: map<string, User>, p: Profile, now: int)
    requires UsersValid(users) && RolesFollow(cfg.superAdminId, users)
    requires p.role == RoleFor(cfg.superAdminId, p.telegramId)
    ensures var after := UpsertUser(users, p, now);
      && UsersValid(after) && RolesFollow(cfg.superAdminId, after)
      && LoginResponse(after, p.telegramId) == Success(AuthBody(p.role, p.telegramId))
  {
    UpsertUserRoles(cfg.superAdminId, users, p, now);
    UpsertUserRecord(users, p, now);
  }
}
