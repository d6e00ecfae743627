/** The Channel collection: bindings of a channel to the user who connected it. */
module ChannelModel {

  datatype Channel = Channel(
    channelId: string,
    title: string,
    username: string,
    addedBy: string,
    botIsAdmin: bool,
    createdAt: int)

  /** The compound unique index `{channelId: 1, addedBy: 1}`. */
  type ChannelKey = (string, string)

  function KeyOf(c: Channel): ChannelKey {
    (c.channelId, c.addedBy)
  }

  /** Each record sits under its own compound key, so no key holds two records. */
  ghost predicate ChannelsValid(channels: map<ChannelKey, Channel>) {
    forall k :: k in channels ==> KeyOf(channels[k]) == k
  }

  /**
   * The document the schema builds on insert: title and username empty,
   * `botIsAdmin` false and `createdAt` the time of insertion.
   */
  function NewChannel(channelId: string, addedBy: string, now: int): (c: Channel)
    ensures KeyOf(c) == (channelId, addedBy)
    ensures c.title == "" && c.username == "" && !c.botIsAdmin && c.createdAt == now
  {
    Channel(channelId, "", "", addedBy, false, now)
  }

  /** The canonical channel description the authority returns. */
  datatype ChannelInfo = ChannelInfo(channelId: string, title: string, username: string)

  /**
   * `findOneAndUpdate({channelId, addedBy}, {channelId, title, username, addedBy,
   * botIsAdmin: true, createdAt: now}, {upsert: true})`: every field of the
   * binding under `(info.channelId, addedBy)` is written, whether it existed or not.
   */
  function UpsertChannel(channels: map<ChannelKey, Channel>, info: ChannelInfo, addedBy: string, now: int)
    : (r: map<ChannelKey, Channel>)
    ensures r.Keys == channels.Keys + {(info.channelId, addedBy)}
    ensures forall k :: k in channels && k != (info.channelId, addedBy) ==> r[k] == channels[k]
  {
    var key := (info.channelId, addedBy);
    var base := if key in channels then channels[key] else NewChannel(info.channelId, addedBy, now);
    channels[key := base.(
      channelId := info.channelId,
      title := info.title,
      username := info.username,
      addedBy := addedBy,
      botIsAdmin := true,
      createdAt := now)]
  }

  /** The stored binding: lookup metadata, the caller, a verified flag and a fresh timestamp. */
  lemma UpsertChannelRecord(channels: map<ChannelKey, Channel>, info: ChannelInfo, addedBy: string, now: int)
    ensures var c := UpsertChannel(channels, info, addedBy, now)[(info.channelId, addedBy)];
      c == Channel(info.channelId, info.title, info.username, addedBy, true, now)
  {
  }

  /** Bindings are only ever written with `botIsAdmin` true. */
  ghost predicate AllVerified(channels: map<ChannelKey, Channel>) {
    forall k :: k in channels ==> channels[k].botIsAdmin
  }

  lemma UpsertChannelValid(channels: map<ChannelKey, Channel>, info: ChannelInfo, addedBy: string, now: int)
    requires ChannelsValid(channels) && AllVerified(channels)
    ensures ChannelsValid(UpsertChannel(channels, info, addedBy, now))
    ensures AllVerified(UpsertChannel(channels, info, addedBy, now))
  {
  }

  /** An upsert adds a record exactly when the pair is new. */
  lemma UpsertChannelSize(channels: map<ChannelKey, Channel>, info: ChannelInfo, addedBy: string, now: int)
    ensures |UpsertChannel(channels, info, addedBy, now)|
      == if (info.channelId, addedBy) in channels then |channels| else |channels| + 1
  {
    var r := UpsertChannel(channels, info, addedBy, now);
    if (info.channelId, addedBy) in channels {
      assert r.Keys == channels.Keys;
    } else {
      assert r.Keys == channels.Keys + {(info.channelId, addedBy)};
    }
  }

  /** Connecting the same channel again for the same user keeps the table size. */
  lemma ReconnectSameSize(channels: map<ChannelKey, Channel>, info: ChannelInfo, info2: ChannelInfo,
                          addedBy: string, t1: int, t2: int)
    requires info2.channelId == info.channelId
    ensures var once := UpsertChannel(channels, info, addedBy, t1);
      |UpsertChannel(once, info2, addedBy, t2)| == |once|
  {
    UpsertChannelSize(UpsertChannel(channels, info, addedBy, t1), info2, addedBy, t2);
  }

  /**
   * Uniqueness is on the pair, not on the channel: two different users
   * connecting the same channel yield two bindings.
   */
  lemma SameChannelTwoUsers(channels: map<ChannelKey, Channel>, info: ChannelInfo, u1: string, u2: string, t1: int, t2: int)
    requires u1 != u2
    requires (info.channelId, u1) !in channels && (info.channelId, u2) !in channels
    ensures var r := UpsertChannel(UpsertChannel(channels, info, u1, t1), info, u2, t2);
      && |r| == |channels| + 2
      && r[(info.channelId, u1)].channelId == r[(info.channelId, u2)].channelId
  {
    UpsertChannelSize(channels, info, u1, t1);
    UpsertChannelSize(UpsertChannel(channels, info, u1, t1), info, u2, t2);
  }
}
