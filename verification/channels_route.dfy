/**
 * `GET /channels` (the caller's own bindings, newest first) and
 * `POST /channels/connect` (look the channel up, check the bot's membership,
 * upsert the binding).
 */
module ChannelsRoute {
  import opened Wrappers
  import opened JsValues
  import opened Sorting
  import opened ChannelModel
  import opened TelegramApi
  import opened Http

  const ChannelIdRequired := "Channel id is required"
  const BotNotAdmin := "Bot is not admin in channel"
  const ConnectFailed := "Channel connect failed"

  /** `sort({createdAt: -1})`: a binding comes first when it is at least as recent. */
  function NewestFirst(): (Channel, Channel) -> bool {
    (a: Channel, b: Channel) => a.createdAt >= b.createdAt
  }

  lemma NewestFirstPreorder()
    ensures TotalPreorder(NewestFirst())
  {
  }

  /** The bindings `addedBy` owns among the records stored under `keys`. */
  ghost function OwnedAmong(channels: map<ChannelKey, Channel>, keys: set<ChannelKey>, addedBy: string): set<Channel> {
    set k | k in keys && k in channels && channels[k].addedBy == addedBy :: channels[k]
  }

  /** `Channel.find({addedBy})`: every binding the user owns. */
  ghost function Owned(channels: map<ChannelKey, Channel>, addedBy: string): set<Channel> {
    OwnedAmong(channels, channels.Keys, addedBy)
  }

  /** Taking one more key into the scan adds its binding when owned; a valid table holds it nowhere else. */
  lemma OwnedStep(channels: map<ChannelKey, Channel>, seen: set<ChannelKey>, k: ChannelKey, addedBy: string)
    requires ChannelsValid(channels)
    requires k in channels && k !in seen
    ensures channels[k] !in OwnedAmong(channels, seen, addedBy)
    ensures OwnedAmong(channels, seen + {k}, addedBy)
      == OwnedAmong(channels, seen, addedBy) + (if channels[k].addedBy == addedBy then {channels[k]} else {})
  {
  }

  lemma MultisetOfSetAdd(a: set<Channel>, x: Channel)
    requires x !in a
    ensures multiset(a + {x}) == multiset(a) + multiset{x}
  {
    assert multiset(a + {x}) == multiset(a) + multiset({x});
  }

  /** One step of the scan keeps the scanned bindings equal to the owned ones among the keys seen. */
  lemma ScanStep(channels: map<ChannelKey, Channel>, seen: set<ChannelKey>, k: ChannelKey, addedBy: string,
                 found: seq<Channel>)
    requires ChannelsValid(channels)
    requires k in channels && k !in seen
    requires multiset(found) == multiset(OwnedAmong(channels, seen, addedBy))
    ensures channels[k].addedBy == addedBy ==>
      multiset(found + [channels[k]]) == multiset(OwnedAmong(channels, seen + {k}, addedBy))
    ensures channels[k].addedBy != addedBy ==>
      multiset(found) == multiset(OwnedAmong(channels, seen + {k}, addedBy))
  {
    OwnedStep(channels, seen, k, addedBy);
    if channels[k].addedBy == addedBy {
      MultisetOfSetAdd(OwnedAmong(channels, seen, addedBy), channels[k]);
    }
  }

  /** Sorting the scanned bindings keeps them, orders them newest first, and each belongs to the caller. */
  lemma SortedListing(channels: map<ChannelKey, Channel>, addedBy: string, found: seq<Channel>)
    requires ChannelsValid(channels)
    requires multiset(found) == multiset(Owned(channels, addedBy))
    ensures var list := Sort(NewestFirst(), found);
      && multiset(list) == multiset(Owned(channels, addedBy))
      && (forall i :: 0 <= i < |list| ==> list[i].addedBy == addedBy && KeyOf(list[i]) in channels)
      && SortedBy(NewestFirst(), list)
  {
    var list := Sort(NewestFirst(), found);
    NewestFirstPreorder();
    SortSorted(NewestFirst(), found);
    forall i | 0 <= i < |list|
      ensures list[i].addedBy == addedBy && KeyOf(list[i]) in channels
    {
      assert list[i] in multiset(list);
      assert list[i] in Owned(channels, addedBy);
    }
  }

  /**
   * The listing handler: scans the collection for the caller's bindings and
   * sorts them newest first. Each binding appears once, and only the
   * caller's own appear.
   */
  method ListOwned(channels: map<ChannelKey, Channel>, addedBy: string) returns (list: seq<Channel>)
    requires ChannelsValid(channels)
    ensures multiset(list) == multiset(Owned(channels, addedBy))
    ensures forall i :: 0 <= i < |list| ==> list[i].addedBy == addedBy && KeyOf(list[i]) in channels
    ensures SortedBy(NewestFirst(), list)
  {
    var found := ScanOwned(channels, addedBy);
    list := Sort(NewestFirst(), found);
    SortedListing(channels, addedBy, found);
  }

  /** The collection scan behind `find({addedBy})`: every owned binding once, in no particular order. */
  method ScanOwned(channels: map<ChannelKey, Channel>, addedBy: string) returns (found: seq<Channel>)
    requires ChannelsValid(channels)
    ensures multiset(found) == multiset(Owned(channels, addedBy))
  {
    found := [];
    var todo := channels.Keys;
    ghost var seen: set<ChannelKey> := {};
    ghost var owned: set<Channel> := {};
    while todo != {}
      invariant todo <= channels.Keys && seen == channels.Keys - todo
      invariant owned == OwnedAmong(channels, seen, addedBy)
      invariant multiset(found) == multiset(owned)
      decreases todo
    {
      var k :| k in todo;
      ScanStep(channels, seen, k, addedBy, found);
      if channels[k].addedBy == addedBy {
        found := found + [channels[k]];
      }
      todo := todo - {k};
      seen := seen + {k};
      owned := OwnedAmong(channels, seen, addedBy);
    }
    assert seen == channels.Keys;
  }

  /** What the connect handler does after the gate: answer with an error, or save the looked-up channel. */
  datatype ConnectPlan = ConnectReject(response: Response) | ConnectSave(info: ChannelInfo)

  /**
   * A falsy channel id is 400; a failed lookup or membership check (any
   * thrown error) is 500; a bot that is not administrator or creator is 400;
   * otherwise the canonical description is saved.
   */
  function PlanConnect(authority: Authority, cache: Option<string>, channelRef: Scalar): ConnectPlan {
    if !Truthy(channelRef) then ConnectReject(Fail(400, ChannelIdRequired))
    else
      match authority.getChat(channelRef)
      case Err(_) => ConnectReject(Fail(500, ConnectFailed))
      case Ok(chat) =>
        match AdminCheck(authority, cache, ChannelInfoOf(chat).channelId)
        case Err(_) => ConnectReject(Fail(500, ConnectFailed))
        case Ok(isAdmin) =>
          if isAdmin then ConnectSave(ChannelInfoOf(chat)) else ConnectReject(Fail(400, BotNotAdmin))
  }

  /** The requests the connect handler sends: none for a falsy id, the lookup, then the membership check. */
  function ConnectCalls(authority: Authority, cache: Option<string>, channelRef: Scalar): seq<Call> {
    if !Truthy(channelRef) then []
    else
      [GetChat(channelRef)] +
        match authority.getChat(channelRef)
        case Err(_) => []
        case Ok(chat) => AdminCheckCalls(authority, cache, ChannelInfoOf(chat).channelId)
  }

  /** The bot-id cache after the connect handler. */
  function ConnectCache(authority: Authority, cache: Option<string>, channelRef: Scalar): Option<string> {
    if !Truthy(channelRef) || authority.getChat(channelRef).Err? then cache
    else CacheAfter(authority, cache)
  }

  /**
   * A binding is saved exactly when the id is truthy, the lookup succeeds and
   * the bot is found to be administrator or creator of the looked-up channel;
   * what is saved is the canonical description, keyed by the numeric id
   * whatever reference the caller gave.
   */
  lemma ConnectSaveCharacterised(authority: Authority, cache: Option<string>, channelRef: Scalar)
    ensures var plan := PlanConnect(authority, cache, channelRef);
      && (plan.ConnectSave? <==>
            && Truthy(channelRef)
            && authority.getChat(channelRef).Ok?
            && AdminCheck(authority, cache, IntToString(authority.getChat(channelRef).value.id)) == Ok(true))
      && (plan.ConnectSave? ==> plan.info == ChannelInfoOf(authority.getChat(channelRef).value))
  {
  }

  /**
   * Which failure gets which answer: a falsy id is 400 before any request; a
   * failed `getChat`, a failed `getMe` behind the bot-id lookup or a failed
   * `getChatMember` is 500; a bot that is neither administrator nor creator
   * is 400.
   */
  lemma ConnectRejections(authority: Authority, cache: Option<string>, channelRef: Scalar)
    ensures !Truthy(channelRef) ==>
      && PlanConnect(authority, cache, channelRef) == ConnectReject(Fail(400, ChannelIdRequired))
      && ConnectCalls(authority, cache, channelRef) == []
      && ConnectCache(authority, cache, channelRef) == cache
    ensures Truthy(channelRef) && authority.getChat(channelRef).Err? ==>
      && PlanConnect(authority, cache, channelRef) == ConnectReject(Fail(500, ConnectFailed))
      && ConnectCalls(authority, cache, channelRef) == [GetChat(channelRef)]
    ensures Truthy(channelRef) && authority.getChat(channelRef).Ok? ==>
      var id := IntToString(authority.getChat(channelRef).value.id);
      && (BotIdLookup(authority, cache).Err? ==>
            PlanConnect(authority, cache, channelRef) == ConnectReject(Fail(500, ConnectFailed)))
      && (AdminCheck(authority, cache, id).Err? ==>
            PlanConnect(authority, cache, channelRef) == ConnectReject(Fail(500, ConnectFailed)))
      && (AdminCheck(authority, cache, id) == Ok(false) ==>
            PlanConnect(authority, cache, channelRef) == ConnectReject(Fail(400, BotNotAdmin)))
  {
    if Truthy(channelRef) && authority.getChat(channelRef).Ok? {
      AdminCheckMeaning(authority, cache, IntToString(authority.getChat(channelRef).value.id));
    }
  }

  /**
   * Two references to the same chat (its `@username` and its numeric id, say)
   * save under the same key, so connecting by either keeps one binding.
   */
  lemma AliasesShareBinding(authority: Authority, cache: Option<string>, r1: Scalar, r2: Scalar,
                            channels: map<ChannelKey, Channel>, addedBy: string, t1: int, t2: int)
    requires PlanConnect(authority, cache, r1).ConnectSave? && PlanConnect(authority, cache, r2).ConnectSave?
    requires authority.getChat(r1).value.id == authority.getChat(r2).value.id
    ensures var once := UpsertChannel(channels, PlanConnect(authority, cache, r1).info, addedBy, t1);
      |UpsertChannel(once, PlanConnect(authority, cache, r2).info, addedBy, t2)| == |once|
  {
    ReconnectSameSize(channels, PlanConnect(authority, cache, r1).info, PlanConnect(authority, cache, r2).info,
                      addedBy, t1, t2);
  }
}
