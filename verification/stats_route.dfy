/** `GET /stats`: the sizes of the three collections, for the super admin only. */
module StatsRoute {
  import opened Wrappers
  import opened UserModel
  import opened ChannelModel
  import opened PostModel
  import opened Http
  import opened AuthGates

  function HandleStats(users: map<string, User>, channels: map<ChannelKey, Channel>, posts: seq<Post>,
                       header: Option<string>): (r: Response)
    ensures r.status == 200 <==> RequireUserThenSuperAdmin(users, header).Admit?
    ensures r.status == 200 ==> r.body == StatsBody(|users|, |channels|, |posts|)
    ensures r.status != 200 ==> r == RequireUserThenSuperAdmin(users, header).response
  {
    match RequireUserThenSuperAdmin(users, header)
    case Deny(response) => response
    case Admit(_) => Success(StatsBody(|users|, |channels|, |posts|))
  }

  /**
   * With roles derived from the configured id, the counts go to the request
   * whose header is that id and to no other; every other request gets 401
   * or 403.
   */
  lemma StatsOnlyForSuperAdmin(superAdminId: string, users: map<string, User>, channels: map<ChannelKey, Channel>,
                               posts: seq<Post>, header: Option<string>)
    requires UsersValid(users) && RolesFollow(superAdminId, users)
    ensures HandleStats(users, channels, posts, header).status == 200 <==>
      header == Some(superAdminId) && superAdminId != "" && superAdminId in users
    ensures HandleStats(users, channels, posts, header).status in {200, 401, 403}
  {
    SuperAdminGateMeaning(superAdminId, users, header);
    GateOrder(users, header);
  }
}
