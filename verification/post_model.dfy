/** The Post collection: an append-only log of published messages. */
module PostModel {

  /**
   * A stored post. `id` stands for the document's generated `_id`; the model
   * gives each post its position in the collection, which makes ids unique.
   */
  datatype Post = Post(
    id: nat,
    prompt: string,
    generatedText: string,
    channelId: string,
    telegramMessageId: string,
    publishedBy: string,
    createdAt: int)

  /** The fields `Post.create` is given. */
  datatype Draft = Draft(
    prompt: string,
    generatedText: string,
    channelId: string,
    telegramMessageId: string,
    publishedBy: string)

  /** Every post carries its own index as id and both required fields. */
  ghost predicate PostsValid(posts: seq<Post>) {
    forall i :: 0 <= i < |posts| ==>
      posts[i].id == i && posts[i].channelId != "" && posts[i].publishedBy != ""
  }

  /**
   * `Post.create(draft)` with `createdAt: now`: the collection grows by one
   * post at the end and nothing before it changes.
   */
  function Create(posts: seq<Post>, d: Draft, now: int): (r: seq<Post>)
    ensures |r| == |posts| + 1
    ensures r[..|posts|] == posts
    ensures r[|posts|] == Post(|posts|, d.prompt, d.generatedText, d.channelId,
                               d.telegramMessageId, d.publishedBy, now)
  {
    posts + [Post(|posts|, d.prompt, d.generatedText, d.channelId, d.telegramMessageId, d.publishedBy, now)]
  }

  /** Creating a post with both required fields keeps the collection well formed. */
  lemma CreateValid(posts: seq<Post>, d: Draft, now: int)
    requires PostsValid(posts)
    requires d.channelId != "" && d.publishedBy != ""
    ensures PostsValid(Create(posts, d, now))
  {
  }

  /**
   * There is no unique index: creating the same draft twice stores two posts
   * with identical content and different ids.
   */
  lemma CreateTwiceTwoPosts(posts: seq<Post>, d: Draft, t1: int, t2: int)
    requires PostsValid(posts)
    ensures var r := Create(Create(posts, d, t1), d, t2);
      && |r| == |posts| + 2
      && r[|posts|].id != r[|posts| + 1].id
      && r[|posts|].(id := 0, createdAt := 0) == r[|posts| + 1].(id := 0, createdAt := 0)
  {
  }
}
