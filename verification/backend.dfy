/**
 * The backend's state (the three collections) and the route handlers that
 * change it or need a method to compute their answer. Read-only handlers
 * that are plain functions of the state live in their route modules.
 */
module Backend {
  import opened Wrappers
  import opened JsValues
  import opened Env
  import opened InitData
  import opened UserModel
  import opened ChannelModel
  import opened PostModel
  import opened Http
  import opened AuthGates
  import opened TelegramApi
  import opened AuthRoute
  import opened ChannelsRoute
  import opened PublishRoute
  import opened PostsRoute

  /**
   * What every handler keeps true of the collections: users under their own
   * ids with roles derived from the configured id; bindings under their own
   * keys, verified, and owned by stored users; posts with their own index as
   * id and both required fields, all published by the configured super admin
   * (the only caller the publish gates let through).
   */
  ghost predicate Consistent(cfg: Config, users: map<string, User>, channels: map<ChannelKey, Channel>, posts: seq<Post>) {
    && UsersValid(users) && RolesFollow(cfg.superAdminId, users)
    && ChannelsValid(channels) && AllVerified(channels)
    && (forall k :: k in channels ==> channels[k].addedBy in users)
    && PostsValid(posts)
    && (forall i :: 0 <= i < |posts| ==> posts[i].publishedBy == cfg.superAdminId)
  }

  /** The empty collections of a fresh deployment are consistent. */
  lemma EmptyConsistent(cfg: Config)
    ensures Consistent(cfg, map[], map[], [])
  {
  }

  /**
   * Posts are only ever published by the super admin, so a caller who is not
   * the super admin always receives an empty post listing.
   */
  lemma RegularUsersSeeNoPosts(cfg: Config, users: map<string, User>, channels: map<ChannelKey, Channel>,
                               posts: seq<Post>, header: Option<string>)
    requires Consistent(cfg, users, channels, posts)
    requires RequireUser(users, header).Admit? && RequireUser(users, header).user.role != SuperAdmin
    ensures HandleListPosts(users, posts, header) == Success(PostListBody([]))
  {
    var user := RequireUser(users, header).user;
    assert user.telegramId == header.value;
    assert user.telegramId != cfg.superAdminId;
    NoOwnPostsEmptyListing(user, posts);
  }

  /** After a login that upserts, the same id passes `requireUser` as the record just written. */
  lemma LoginThenAdmitted(users: map<string, User>, p: Profile, now: int)
    requires p.telegramId != ""
    ensures var after := UpsertUser(users, p, now);
      && RequireUser(after, Some(p.telegramId)).Admit?
      && RequireUser(after, Some(p.telegramId)).user.role == p.role
      && RequireUser(after, Some(p.telegramId)).user.lastUsedAt == now
  {
    UpsertUserRecord(users, p, now);
  }

  class Server {
    const config: Config
    const crypto: Crypto
    const keyLe: (string, string) -> bool
    const parseUser: UserParser
    var users: map<string, User>
    var channels: map<ChannelKey, Channel>
    var posts: seq<Post>

    ghost predicate Valid()
      reads this
    {
      Consistent(config, users, channels, posts)
    }

    constructor (config: Config, crypto: Crypto, keyLe: (string, string) -> bool, parseUser: UserParser)
      ensures this.config == config && this.crypto == crypto && this.keyLe == keyLe && this.parseUser == parseUser
      ensures users == map[] && channels == map[] && posts == []
      ensures Valid()
    {
      this.config := config;
      this.crypto := crypto;
      this.keyLe := keyLe;
      this.parseUser := parseUser;
      users := map[];
      channels := map[];
      posts := [];
    }

    /** `POST /auth/telegram` */
    method Login(req: LoginRequest, now: int) returns (resp: Response)
      requires Valid()
      modifies this`users
      ensures Valid()
      ensures var plan := PlanLogin(config, req, crypto, keyLe, parseUser);
        && (plan.LoginReject? ==> resp == plan.response && users == old(users))
        && (plan.LoginUpsert? ==>
              && users == UpsertUser(old(users), plan.profile, now)
              && resp == Success(AuthBody(plan.profile.role, plan.profile.telegramId)))
    {
      var plan := PlanLogin(config, req, crypto, keyLe, parseUser);
      match plan
      case LoginReject(response) =>
        resp := response;
      case LoginUpsert(p) =>
        LoginRoleDerived(config, req, crypto, keyLe, parseUser);
        LoginKeepsUsersValid(config, users, p, now);
        users := UpsertUser(users, p, now);
        resp := LoginResponse(users, p.telegramId);
    }

    /** `GET /channels` */
    method ListChannels(header: Option<string>) returns (resp: Response)
      requires Valid()
      ensures RequireUser(users, header).Deny? ==> resp == RequireUser(users, header).response
      ensures RequireUser(users, header).Admit? ==>
        && resp.status == 200 && resp.body.ChannelListBody?
        && multiset(resp.body.channelList) == multiset(Owned(channels, header.value))
        && Sorting.SortedBy(NewestFirst(), resp.body.channelList)
    {
      var gate := RequireUser(users, header);
      if gate.Deny? {
        return gate.response;
      }
      var list := ListOwned(channels, gate.user.telegramId);
      resp := Success(ChannelListBody(list));
    }

    /** `POST /channels/connect` */
    method ConnectChannel(client: TelegramClient, header: Option<string>, channelRef: Scalar, now: int)
      returns (resp: Response)
      requires Valid()
      modifies this`channels, client
      ensures Valid()
      ensures RequireUser(users, header).Deny? ==>
        && resp == RequireUser(users, header).response
        && channels == old(channels)
        && client.cachedBotId == old(client.cachedBotId) && client.calls == old(client.calls)
      ensures RequireUser(users, header).Admit? ==>
        var plan := PlanConnect(client.authority, old(client.cachedBotId), channelRef);
        && client.calls == old(client.calls) + ConnectCalls(client.authority, old(client.cachedBotId), channelRef)
        && client.cachedBotId == ConnectCache(client.authority, old(client.cachedBotId), channelRef)
        && (plan.ConnectReject? ==> resp == plan.response && channels == old(channels))
        && (plan.ConnectSave? ==>
              && channels == UpsertChannel(old(channels), plan.info, header.value, now)
              && resp == Success(ChannelBody(Channel(plan.info.channelId, plan.info.title, plan.info.username,
                                                     header.value, true, now))))
    {
      var gate := RequireUser(users, header);
      if gate.Deny? {
        return gate.response;
      }
      if !Truthy(channelRef) {
        return Fail(400, ChannelIdRequired);
      }
      var info := client.FetchChannelInfo(channelRef);
      if info.Err? {
        return Fail(500, ConnectFailed);
      }
      var isAdmin := client.VerifyBotAdmin(info.value.channelId);
      if isAdmin.Err? {
        return Fail(500, ConnectFailed);
      }
      if !isAdmin.value {
        return Fail(400, BotNotAdmin);
      }
      var addedBy := gate.user.telegramId;
      UpsertChannelValid(channels, info.value, addedBy, now);
      UpsertChannelRecord(channels, info.value, addedBy, now);
      channels := UpsertChannel(channels, info.value, addedBy, now);
      resp := Success(ChannelBody(channels[(info.value.channelId, addedBy)]));
    }

    /** `POST /publish` */
    method Publish(client: TelegramClient, header: Option<string>, req: PublishRequest, now: int)
      returns (resp: Response)
      requires Valid()
      modifies this`posts, client`calls
      ensures Valid()
      ensures RequireUserThenSuperAdmin(users, header).Deny? ==>
        && resp == RequireUserThenSuperAdmin(users, header).response
        && posts == old(posts) && client.calls == old(client.calls)
      ensures RequireUserThenSuperAdmin(users, header).Admit? ==>
        var plan := PlanPublish(client.authority, header.value, req);
        && client.calls == old(client.calls) + PublishCalls(req)
        && (plan.PublishReject? ==> resp == plan.response && posts == old(posts))
        && (plan.PublishSave? ==>
              && posts == Create(old(posts), plan.draft, now)
              && resp == Success(PublishBody(plan.messageId, |old(posts)|)))
    {
      var gate := RequireUserThenSuperAdmin(users, header);
      if gate.Deny? {
        return gate.response;
      }
      if !Truthy(req.channelId) || !Truthy(req.text) {
        return Fail(400, PublishRequired);
      }
      var message := client.PublishToChannel(req.channelId, req.text);
      if message.Err? {
        return Fail(500, PublishFailed);
      }
      var publisher := gate.user.telegramId;
      SuperAdminGateMeaning(config.superAdminId, users, header);
      var draft := DraftOf(req, message.value.message_id, publisher);
      CreateValid(posts, draft, now);
      posts := Create(posts, draft, now);
      resp := Success(PublishBody(message.value.message_id, |posts| - 1));
    }
  }
}
