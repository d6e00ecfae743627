/**
 * `GET /posts`: a super admin sees every post, anyone else the posts they
 * published, newest first.
 */
module PostsRoute {
  import opened Wrappers
  import opened Sorting
  import opened UserModel
  import opened PostModel
  import opened Http
  import opened AuthGates

  /** `sort({createdAt: -1})` on posts. */
  function NewestPostFirst(): (Post, Post) -> bool {
    (a: Post, b: Post) => a.createdAt >= b.createdAt
  }

  /** `Post.find({publishedBy})`: the posts of one publisher, in collection order. */
  function ByPublisher(posts: seq<Post>, publishedBy: string): (r: seq<Post>)
    ensures |r| <= |posts|
  {
    if posts == [] then []
    else if posts[0].publishedBy == publishedBy then [posts[0]] + ByPublisher(posts[1..], publishedBy)
    else ByPublisher(posts[1..], publishedBy)
  }

  /** The filter keeps every copy of a matching post and drops every other post. */
  lemma {:induction false} ByPublisherCount(posts: seq<Post>, publishedBy: string)
    ensures forall p :: (multiset(ByPublisher(posts, publishedBy))[p]
                         == if p.publishedBy == publishedBy then multiset(posts)[p] else 0)
  {
    if posts != [] {
      ByPublisherCount(posts[1..], publishedBy);
      assert posts == [posts[0]] + posts[1..];
    }
  }

  /** The filter chosen by role: `{}` for a super admin, `{publishedBy: telegramId}` otherwise. */
  function Filtered(user: User, posts: seq<Post>): seq<Post> {
    if user.role == SuperAdmin then posts else ByPublisher(posts, user.telegramId)
  }

  /** The listing the caller receives. */
  function VisiblePosts(user: User, posts: seq<Post>): seq<Post> {
    Sort(NewestPostFirst(), Filtered(user, posts))
  }

  /**
   * The listing is ordered newest first and holds every visible post exactly
   * as often as the collection does: all of them for a super admin, and for
   * anyone else exactly the ones they published.
   */
  lemma VisiblePostsCharacterised(user: User, posts: seq<Post>)
    ensures SortedBy(NewestPostFirst(), VisiblePosts(user, posts))
    ensures forall p :: (multiset(VisiblePosts(user, posts))[p]
                         == if user.role == SuperAdmin || p.publishedBy == user.telegramId
                            then multiset(posts)[p] else 0)
  {
    SortSorted(NewestPostFirst(), Filtered(user, posts));
    ByPublisherCount(posts, user.telegramId);
  }

  /** A caller who is not a super admin sees only their own posts. */
  lemma OthersPostsHidden(user: User, posts: seq<Post>)
    requires user.role != SuperAdmin
    ensures forall i :: 0 <= i < |VisiblePosts(user, posts)| ==>
      VisiblePosts(user, posts)[i].publishedBy == user.telegramId
  {
    VisiblePostsCharacterised(user, posts);
    forall i | 0 <= i < |VisiblePosts(user, posts)|
      ensures VisiblePosts(user, posts)[i].publishedBy == user.telegramId
    {
      assert VisiblePosts(user, posts)[i] in multiset(VisiblePosts(user, posts));
    }
  }

  /**
   * When every post was published by someone else (as happens to every
   * caller other than the one who publishes), the caller's listing is empty.
   */
  lemma NoOwnPostsEmptyListing(user: User, posts: seq<Post>)
    requires user.role != SuperAdmin
    requires forall i :: 0 <= i < |posts| ==> posts[i].publishedBy != user.telegramId
    ensures VisiblePosts(user, posts) == []
  {
    VisiblePostsCharacterised(user, posts);
    forall p
      ensures multiset(VisiblePosts(user, posts))[p] == 0
    {
      if p.publishedBy == user.telegramId {
        assert p !in posts;
      }
    }
    assert multiset(VisiblePosts(user, posts)) == multiset{};
  }

  /** `GET /posts` behind `requireUser`. */
  function HandleListPosts(users: map<string, User>, posts: seq<Post>, header: Option<string>): (r: Response)
    ensures r.status == 200 <==> RequireUser(users, header).Admit?
    ensures r.status == 200 ==> r.body == PostListBody(VisiblePosts(users[header.value], posts))
  {
    match RequireUser(users, header)
    case Deny(response) => response
    case Admit(user) => Success(PostListBody(VisiblePosts(user, posts)))
  }
}
