/**
 * `POST /publish`: send a text to a channel through the bot and record the
 * published post.
 */
module PublishRoute {
  import opened Wrappers
  import opened JsValues
  import opened PostModel
  import opened TelegramApi
  import opened Http

  const PublishRequired := "Channel id and text are required"
  const PublishFailed := "Publish failed"

  datatype PublishRequest = PublishRequest(channelId: Scalar, text: Scalar, prompt: Scalar)

  /** What the handler does after the gates: answer with an error, or record the sent message. */
  datatype PublishPlan = PublishReject(response: Response) | PublishSave(messageId: int, draft: Draft)

  /** The post recorded for a sent message; mongoose stores each scalar in its `String` form. */
  function DraftOf(req: PublishRequest, messageId: int, publisher: string): (d: Draft)
    requires Truthy(req.channelId) && Truthy(req.text)
    ensures d.channelId == ToStr(req.channelId) && d.channelId != ""
    ensures d.generatedText == ToStr(req.text) && d.generatedText != ""
    ensures d.prompt == (if Truthy(req.prompt) then ToStr(req.prompt) else "")
    ensures d.telegramMessageId == IntToString(messageId) && d.publishedBy == publisher
  {
    Draft(if Truthy(req.prompt) then ToStr(req.prompt) else "", ToStr(req.text), ToStr(req.channelId),
          IntToString(messageId), publisher)
  }

  function PlanPublish(authority: Authority, publisher: string, req: PublishRequest): PublishPlan {
    if !Truthy(req.channelId) || !Truthy(req.text) then PublishReject(Fail(400, PublishRequired))
    else
      match authority.sendMessage(req.channelId, req.text)
      case Err(_) => PublishReject(Fail(500, PublishFailed))
      case Ok(message) => PublishSave(message.message_id, DraftOf(req, message.message_id, publisher))
  }

  /** The requests the handler sends: one `sendMessage`, and only when both fields are truthy. */
  function PublishCalls(req: PublishRequest): seq<Call> {
    if !Truthy(req.channelId) || !Truthy(req.text) then [] else [SendMessage(req.channelId, req.text)]
  }

  /**
   * A post is recorded exactly when both fields are truthy and the message
   * was sent; it then names the publisher and the channel reference as the
   * caller gave it, which need not be a connected channel. A falsy field is
   * 400 before any request; a failed send is 500.
   */
  lemma PublishCharacterised(authority: Authority, publisher: string, req: PublishRequest)
    ensures var plan := PlanPublish(authority, publisher, req);
      && (plan.PublishSave? <==>
            Truthy(req.channelId) && Truthy(req.text) && authority.sendMessage(req.channelId, req.text).Ok?)
      && (plan.PublishSave? ==>
            && plan.messageId == authority.sendMessage(req.channelId, req.text).value.message_id
            && plan.draft.publishedBy == publisher
            && plan.draft.channelId == ToStr(req.channelId)
            && plan.draft.generatedText == ToStr(req.text))
      && (!Truthy(req.channelId) || !Truthy(req.text) ==> plan == PublishReject(Fail(400, PublishRequired)))
      && (Truthy(req.channelId) && Truthy(req.text) && authority.sendMessage(req.channelId, req.text).Err? ==>
            plan == PublishReject(Fail(500, PublishFailed)))
  {
  }

  /** A recorded draft always carries both fields the schema requires, given a publisher. */
  lemma PublishDraftValid(authority: Authority, publisher: string, req: PublishRequest, posts: seq<Post>, now: int)
    requires publisher != ""
    requires PostsValid(posts)
    requires PlanPublish(authority, publisher, req).PublishSave?
    ensures PostsValid(Create(posts, PlanPublish(authority, publisher, req).draft, now))
  {
    CreateValid(posts, PlanPublish(authority, publisher, req).draft, now);
  }

  /** Publishing the same request twice sends two messages and records two posts. */
  lemma RepublishTwoPosts(authority: Authority, publisher: string, req: PublishRequest, posts: seq<Post>,
                          t1: int, t2: int)
    requires PostsValid(posts)
    requires PlanPublish(authority, publisher, req).PublishSave?
    ensures var d := PlanPublish(authority, publisher, req).draft;
      |Create(Create(posts, d, t1), d, t2)| == |posts| + 2
  {
    CreateTwiceTwoPosts(posts, PlanPublish(authority, publisher, req).draft, t1, t2);
  }
}
