/** The User collection: one record per Telegram account, keyed by its id. */
module UserModel {

  /** The two values the schema's `role` enum admits. */
  const SuperAdmin := "super_admin"
  const RegularUser := "user"

  datatype User = User(
    telegramId: string,
    firstName: string,
    lastName: string,
    username: string,
    role: string,
    firstUsedAt: int,
    lastUsedAt: int)

  predicate ValidRole(role: string) {
    role == SuperAdmin || role == RegularUser
  }

  /**
   * `telegramId === superAdminId ? "super_admin" : "user"`: the role is derived
   * by exact string equality with the configured super-admin id.
   */
  function RoleFor(superAdminId: string, telegramId: string): (role: string)
    ensures ValidRole(role)
    ensures role == SuperAdmin <==> telegramId == superAdminId
  {
    if telegramId == superAdminId then SuperAdmin else RegularUser
  }

  /** Every record's role is the one derived from its id. */
  ghost predicate RolesFollow(superAdminId: string, users: map<string, User>) {
    forall id :: id in users ==> users[id].role == RoleFor(superAdminId, id)
  }

  /**
   * The collection as a map from `telegramId` to its record: each record sits
   * under its own id (so the unique index holds) and carries an enum role.
   */
  ghost predicate UsersValid(users: map<string, User>) {
    forall id :: id in users ==> users[id].telegramId == id && ValidRole(users[id].role)
  }

  /**
   * The document the schema builds when a record is first inserted: names
   * empty, role "user" and both timestamps at the time of insertion.
   */
  function NewUser(telegramId: string, now: int): (u: User)
    ensures u.telegramId == telegramId && u.role == RegularUser
    ensures u.firstName == "" && u.lastName == "" && u.username == ""
    ensures u.firstUsedAt == now && u.lastUsedAt == now
  {
    User(telegramId, "", "", "", RegularUser, now, now)
  }

  /** The fields a login writes on every call. */
  datatype Profile = Profile(
    telegramId: string,
    firstName: string,
    lastName: string,
    username: string,
    role: string)

  /**
   * `findOneAndUpdate({telegramId}, {...profile, $setOnInsert: {firstUsedAt: now},
   * lastUsedAt: now}, {upsert: true})`: the record under the profile's id is
   * created from the schema defaults if absent, then every profile field and
   * `lastUsedAt` are overwritten; `firstUsedAt` is only set on insert.
   */
  function UpsertUser(users: map<string, User>, p: Profile, now: int): (r: map<string, User>)
    ensures r.Keys == users.Keys + {p.telegramId}
    ensures forall id :: id in users && id != p.telegramId ==> r[id] == users[id]
  {
    var base := if p.telegramId in users then users[p.telegramId] else NewUser(p.telegramId, now);
    users[p.telegramId := base.(
      telegramId := p.telegramId,
      firstName := p.firstName,
      lastName := p.lastName,
      username := p.username,
      role := p.role,
      lastUsedAt := now)]
  }

  /** The stored record after an upsert: profile fields, `lastUsedAt`, and `firstUsedAt` kept unless inserted. */
  lemma UpsertUserRecord(users: map<string, User>, p: Profile, now: int)
    ensures var u := UpsertUser(users, p, now)[p.telegramId];
      && u.telegramId == p.telegramId && u.role == p.role
      && u.firstName == p.firstName && u.lastName == p.lastName && u.username == p.username
      && u.lastUsedAt == now
      && u.firstUsedAt == (if p.telegramId in users then users[p.telegramId].firstUsedAt else now)
  {
  }

  /** An upsert keeps the table well formed when the role it writes is an enum value. */
  lemma UpsertUserValid(users: map<string, User>, p: Profile, now: int)
    requires UsersValid(users)
    requires ValidRole(p.role)
    ensures UsersValid(UpsertUser(users, p, now))
  {
  }

  /** An upsert adds a record exactly when the id is new. */
  lemma UpsertUserSize(users: map<string, User>, p: Profile, now: int)
    ensures |UpsertUser(users, p, now)| == if p.telegramId in users then |users| else |users| + 1
  {
    var r := UpsertUser(users, p, now);
    if p.telegramId in users {
      assert r.Keys == users.Keys;
    } else {
      assert r.Keys == users.Keys + {p.telegramId};
    }
  }

  /** Logging in again with the same id never adds a second record. */
  lemma RepeatLoginSameSize(users: map<string, User>, p: Profile, q: Profile, t1: int, t2: int)
    requires q.telegramId == p.telegramId
    ensures |UpsertUser(UpsertUser(users, p, t1), q, t2)| == |UpsertUser(users, p, t1)|
  {
    UpsertUserSize(UpsertUser(users, p, t1), q, t2);
  }

  /** A login whose profile carries the derived role keeps every role derived from its id. */
  lemma UpsertUserRoles(superAdminId: string, users: map<string, User>, p: Profile, now: int)
    requires UsersValid(users) && RolesFollow(superAdminId, users)
    requires p.role == RoleFor(superAdminId, p.telegramId)
    ensures UsersValid(UpsertUser(users, p, now)) && RolesFollow(superAdminId, UpsertUser(users, p, now))
  {
    UpsertUserRecord(users, p, now);
  }

  /** Under derived roles at most one record is a super admin: the one stored under the configured id. */
  lemma OnlyConfiguredIdIsSuperAdmin(superAdminId: string, users: map<string, User>, id: string)
    requires UsersValid(users) && RolesFollow(superAdminId, users)
    requires id in users
    ensures users[id].role == SuperAdmin <==> id == superAdminId
  {
  }
}
