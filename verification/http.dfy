/** The JSON responses the route handlers send. */
module Http {
  import opened UserModel
  import opened ChannelModel
  import opened PostModel

  datatype Body =
    | ErrorBody(error: string)
    | AuthBody(role: string, telegramId: string)
    | ChannelBody(channel: Channel)
    | ChannelListBody(channelList: seq<Channel>)        // {channels}
    | PublishBody(messageId: int, postId: nat)
    | PostListBody(postList: seq<Post>)                  // {posts}
    | StatsBody(userCount: nat, channelCount: nat, postCount: nat)  // {users, channels, posts}
    | GeneratedBody(generatedText: string)

  /** `res.status(status).json(body)`; `res.json(body)` alone is status 200. */
  datatype Response = Response(status: int, body: Body)

  function Fail(status: int, message: string): Response {
    Response(status, ErrorBody(message))
  }

  function Success(body: Body): Response {
    Response(200, body)
  }
}
