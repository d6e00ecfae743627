/**
 * The Telegram Bot API helpers: `getBotId` with its process-wide cache,
 * `verifyBotAdmin`, `fetchChannelInfo` and `publishToChannel`. The API itself
 * is an oracle (`Authority`) that answers each request with a result or an
 * error description; the client logs every request it sends.
 */
module TelegramApi {
  import opened Wrappers
  import opened JsValues
  import opened ChannelModel

  /** `data.result` when the API answers `ok`, otherwise the thrown error's description. */
  type ApiResult<T> = Result<T, string>

  datatype BotUser = BotUser(id: int)
  datatype Chat = Chat(id: int, title: Option<string>, username: Option<string>)
  datatype ChatMember = ChatMember(status: string)
  datatype Message = Message(message_id: int)

  /** The answer the Bot API gives to each method and payload. */
  datatype Authority = Authority(
    getMe: () -> ApiResult<BotUser>,
    getChat: Scalar -> ApiResult<Chat>,
    getChatMember: (string, string) -> ApiResult<ChatMember>,
    sendMessage: (Scalar, Scalar) -> ApiResult<Message>)

  /** One request sent to the Bot API. */
  datatype Call =
    | GetMe
    | GetChat(chatRef: Scalar)
    | GetChatMember(chatId: string, userId: string)
    | SendMessage(target: Scalar, text: Scalar)

  /** `if (cachedBotId) return cachedBotId;`: a cached id is used only when truthy. */
  predicate CacheHit(cache: Option<string>) {
    cache.Some? && cache.value != ""
  }

  /** What `getBotId` yields from a cache state. */
  function BotIdLookup(authority: Authority, cache: Option<string>): ApiResult<string> {
    if CacheHit(cache) then Ok(cache.value)
    else match authority.getMe()
      case Ok(me) => Ok(IntToString(me.id))
      case Err(e) => Err(e)
  }

  /** The cache after `getBotId`: filled with `String(result.id)` on a successful `getMe`. */
  function CacheAfter(authority: Authority, cache: Option<string>): Option<string> {
    if CacheHit(cache) then cache
    else match authority.getMe()
      case Ok(me) => Some(IntToString(me.id))
      case Err(_) => cache
  }

  /** The requests `getBotId` sends: `getMe` only on a cache miss. */
  function BotIdCalls(cache: Option<string>): seq<Call> {
    if CacheHit(cache) then [] else [GetMe]
  }

  /** `["administrator", "creator"].includes(status)` */
  predicate IsAdminStatus(status: string) {
    status == "administrator" || status == "creator"
  }

  /** What `verifyBotAdmin(chatId)` yields from a cache state. */
  function AdminCheck(authority: Authority, cache: Option<string>, chatId: string): ApiResult<bool> {
    match BotIdLookup(authority, cache)
    case Err(e) => Err(e)
    case Ok(bot) =>
      match authority.getChatMember(chatId, bot)
      case Err(e) => Err(e)
      case Ok(member) => Ok(IsAdminStatus(member.status))
  }

  /** The requests `verifyBotAdmin(chatId)` sends. */
  function AdminCheckCalls(authority: Authority, cache: Option<string>, chatId: string): seq<Call> {
    BotIdCalls(cache) +
      match BotIdLookup(authority, cache)
      case Ok(bot) => [GetChatMember(chatId, bot)]
      case Err(_) => []
  }

  /** `fetchChannelInfo`'s normalisation of a chat: the canonical id as a string, missing names as "". */
  function ChannelInfoOf(chat: Chat): (info: ChannelInfo)
    ensures info.channelId == IntToString(chat.id) && info.channelId != ""
    ensures info.title == OrEmpty(chat.title) && info.username == OrEmpty(chat.username)
  {
    ChannelInfo(IntToString(chat.id), OrElse(chat.title, ""), OrElse(chat.username, ""))
  }

  /** A cached id is returned as it is, with no request and no change to the cache. */
  lemma CachedIdReused(authority: Authority, cache: Option<string>)
    requires CacheHit(cache)
    ensures BotIdLookup(authority, cache) == Ok(cache.value)
    ensures CacheAfter(authority, cache) == cache && BotIdCalls(cache) == []
  {
  }

  /**
   * After one successful lookup the cache holds `String(result.id)`, and every
   * later lookup returns that same id without calling `getMe` again.
   */
  lemma LookupFillsCache(authority: Authority, cache: Option<string>)
    requires BotIdLookup(authority, cache).Ok?
    ensures var after := CacheAfter(authority, cache);
      && CacheHit(after)
      && (!CacheHit(cache) ==> after == Some(IntToString(authority.getMe().value.id)))
      && BotIdLookup(authority, after) == BotIdLookup(authority, cache)
      && CacheAfter(authority, after) == after
      && BotIdCalls(after) == []
  {
  }

  /** Once the cache is filled it never changes. */
  lemma CacheWriteOnce(authority: Authority, cache: Option<string>)
    ensures CacheHit(cache) ==> CacheAfter(authority, cache) == cache
    ensures !CacheHit(cache) ==> CacheAfter(authority, cache) == cache || authority.getMe().Ok?
  {
  }

  /**
   * The bot counts as admin exactly when its own id is known (cached, or
   * fetched by a successful `getMe`) and its membership status in the chat is
   * "administrator" or "creator"; a failed `getMe` or `getChatMember` is an
   * error, never a verdict, and a failed `getMe` sends nothing further.
   */
  lemma AdminCheckMeaning(authority: Authority, cache: Option<string>, chatId: string)
    ensures BotIdLookup(authority, cache).Err? ==>
      && AdminCheck(authority, cache, chatId) == Err(BotIdLookup(authority, cache).error)
      && AdminCheckCalls(authority, cache, chatId) == BotIdCalls(cache)
    ensures BotIdLookup(authority, cache).Ok? ==>
      var bot := BotIdLookup(authority, cache).value;
      && (AdminCheck(authority, cache, chatId) == Ok(true) <==>
            authority.getChatMember(chatId, bot).Ok? && IsAdminStatus(authority.getChatMember(chatId, bot).value.status))
      && (AdminCheck(authority, cache, chatId).Err? <==> authority.getChatMember(chatId, bot).Err?)
      && AdminCheckCalls(authority, cache, chatId) == BotIdCalls(cache) + [GetChatMember(chatId, bot)]
    ensures BotIdLookup(authority, cache).Err? <==> !CacheHit(cache) && authority.getMe().Err?
  {
  }

  /** The filled cache gives the same verdict as a fresh lookup. */
  lemma AdminCheckAfterFill(authority: Authority, cache: Option<string>, chatId: string)
    requires BotIdLookup(authority, cache).Ok?
    ensures AdminCheck(authority, CacheAfter(authority, cache), chatId) == AdminCheck(authority, cache, chatId)
  {
    LookupFillsCache(authority, cache);
  }

  /** The module-level state of the helpers: the bot-id cache, and the requests sent so far. */
  class TelegramClient {
    const authority: Authority
    var cachedBotId: Option<string>
    ghost var calls: seq<Call>

    /** `let cachedBotId = null;` at module load. */
    constructor (authority: Authority)
      ensures this.authority == authority && cachedBotId == None && calls == []
    {
      this.authority := authority;
      cachedBotId := None;
      calls := [];
    }

    method GetBotId() returns (r: ApiResult<string>)
      modifies this
      ensures r == BotIdLookup(authority, old(cachedBotId))
      ensures cachedBotId == CacheAfter(authority, old(cachedBotId))
      ensures calls == old(calls) + BotIdCalls(old(cachedBotId))
    {
      if CacheHit(cachedBotId) {
        return Ok(cachedBotId.value);
      }
      calls := calls + [GetMe];
      var me := authority.getMe();
      if me.Err? {
        return Err(me.error);
      }
      cachedBotId := Some(IntToString(me.value.id));
      r := Ok(cachedBotId.value);
    }

    method VerifyBotAdmin(chatId: string) returns (r: ApiResult<bool>)
      modifies this
      ensures r == AdminCheck(authority, old(cachedBotId), chatId)
      ensures cachedBotId == CacheAfter(authority, old(cachedBotId))
      ensures calls == old(calls) + AdminCheckCalls(authority, old(cachedBotId), chatId)
    {
      var botId := GetBotId();
      if botId.Err? {
        return Err(botId.error);
      }
      calls := calls + [GetChatMember(chatId, botId.value)];
      var member := authority.getChatMember(chatId, botId.value);
      if member.Err? {
        return Err(member.error);
      }
      r := Ok(IsAdminStatus(member.value.status));
    }

    method FetchChannelInfo(chatRef: Scalar) returns (r: ApiResult<ChannelInfo>)
      modifies this`calls
      ensures authority.getChat(chatRef).Ok? ==> r == Ok(ChannelInfoOf(authority.getChat(chatRef).value))
      ensures authority.getChat(chatRef).Err? ==> r == Err(authority.getChat(chatRef).error)
      ensures calls == old(calls) + [GetChat(chatRef)]
    {
      calls := calls + [GetChat(chatRef)];
      var chat := authority.getChat(chatRef);
      if chat.Err? {
        return Err(chat.error);
      }
      r := Ok(ChannelInfoOf(chat.value));
    }

    method PublishToChannel(chatRef: Scalar, text: Scalar) returns (r: ApiResult<Message>)
      modifies this`calls
      ensures r == authority.sendMessage(chatRef, text)
      ensures calls == old(calls) + [SendMessage(chatRef, text)]
    {
      calls := calls + [SendMessage(chatRef, text)];
      r := authority.sendMessage(chatRef, text);
    }
  }
}
