/**
 * The community feed: the general feed and the user's own posts are two lists
 * of the same posts; likes, new posts and deletions are applied to both.
 */
module CommunityFeed {
  import opened Wrappers
  import opened Lists

  datatype Author = Author(name: string, username: string, avatar: string, verified: bool)

  datatype Post = Post(
    id: string, author: Author, content: string, images: seq<string>,
    createdAt: string, likes: int, comments: int, reposts: int, isLiked: bool)

  /** One post after a click on its heart: the flag flips and the count follows it. */
  function ToggleLike(p: Post): (r: Post)
    ensures r.isLiked == !p.isLiked
    ensures r.likes == if p.isLiked then p.likes - 1 else p.likes + 1
    ensures r.(likes := p.likes, isLiked := p.isLiked) == p
  {
    p.(likes := if p.isLiked then p.likes - 1 else p.likes + 1, isLiked := !p.isLiked)
  }

  /** The `map` of `handleLike` over one list: posts with the id are toggled, the others kept. */
  function LikePost(posts: seq<Post>, id: string): (r: seq<Post>)
    ensures |r| == |posts|
    ensures forall i :: 0 <= i < |r| && posts[i].id == id ==> r[i] == ToggleLike(posts[i])
    ensures forall i :: 0 <= i < |r| && posts[i].id != id ==> r[i] == posts[i]
  {
    seq(|posts|, i requires 0 <= i < |posts| => if posts[i].id == id then ToggleLike(posts[i]) else posts[i])
  }

  /** Liking twice restores the list. */
  lemma LikeTwice(posts: seq<Post>, id: string)
    ensures LikePost(LikePost(posts, id), id) == posts
  {
    var once := LikePost(posts, id);
    forall i | 0 <= i < |posts| ensures LikePost(once, id)[i] == posts[i] {
      if posts[i].id == id {
        assert once[i] == ToggleLike(posts[i]);
      }
    }
  }

  /** The sum of the like counters of a list. */
  function TotalLikes(posts: seq<Post>): int
  {
    if posts == [] then 0 else TotalLikes(posts[..|posts| - 1]) + posts[|posts| - 1].likes
  }

  /** When one post carries the id, a like moves the list's total by exactly one, in the direction of the flag. */
  lemma {:induction false} LikeMovesTotalByOne(posts: seq<Post>, id: string, i: int)
    requires 0 <= i < |posts| && posts[i].id == id
    requires forall j :: 0 <= j < |posts| && j != i ==> posts[j].id != id
    ensures TotalLikes(LikePost(posts, id)) == TotalLikes(posts) + (if posts[i].isLiked then -1 else 1)
  {
    var n := |posts| - 1;
    var liked := LikePost(posts, id);
    assert liked[..n] == LikePost(posts[..n], id);
    if i == n {
      assert LikePost(posts[..n], id) == posts[..n];
    } else {
      LikeMovesTotalByOne(posts[..n], id, i);
    }
  }

  /** The post `handleCreatePost` builds: the current user as author, no images when none are given, all counters zero. */
  function NewPost(content: string, images: Option<seq<string>>, freshId: string): (r: Post)
    ensures r.id == freshId && r.content == content
    ensures r.author == Author("박건도", "nagundo", "/my-avatar.png", false)
    ensures r.images == (if images.Some? then images.value else [])
    ensures r.likes == 0 && r.comments == 0 && r.reposts == 0 && !r.isLiked
  {
    Post(freshId, Author("박건도", "nagundo", "/my-avatar.png", false), content,
      if images.Some? then images.value else [], "방금 전", 0, 0, 0, false)
  }

  function HasNotId(id: string): Post -> bool {
    (p: Post) => p.id != id
  }

  /** The `filter` of `handleDeletePost` over one list: exactly the posts with the id go, the rest keep their order. */
  function DeletePost(posts: seq<Post>, id: string): (r: seq<Post>)
    ensures IsSubsequence(r, posts)
    ensures forall i :: 0 <= i < |r| ==> r[i].id != id
    ensures forall i :: 0 <= i < |posts| ==> (posts[i] in r <==> posts[i].id != id)
    ensures forall x :: multiset(r)[x] == if x.id != id then multiset(posts)[x] else 0
  {
    FilterIsSubsequence(posts, HasNotId(id));
    FilterMultiplicity(posts, HasNotId(id));
    Filter(posts, HasNotId(id))
  }

  /** Deleting an id no post has changes nothing. */
  lemma DeleteAbsent(posts: seq<Post>, id: string)
    requires forall i :: 0 <= i < |posts| ==> posts[i].id != id
    ensures DeletePost(posts, id) == posts
  {
    FilterAll(posts, HasNotId(id));
  }

  class Feed {
    var posts: seq<Post>
    var myPosts: seq<Post>

    constructor(posts: seq<Post>, myPosts: seq<Post>)
      ensures this.posts == posts && this.myPosts == myPosts
    {
      this.posts, this.myPosts := posts, myPosts;
    }

    /** `handleLike`: the same toggle on both lists. */
    method HandleLike(id: string)
      modifies this
      ensures posts == LikePost(old(posts), id) && myPosts == LikePost(old(myPosts), id)
    {
      posts := LikePost(posts, id);
      myPosts := LikePost(myPosts, id);
    }

    /** `handleCreatePost`, with `freshId` for `Date.now().toString()`: the same new post goes on top of both lists. */
    method HandleCreatePost(content: string, images: Option<seq<string>>, freshId: string)
      modifies this
      ensures posts == [NewPost(content, images, freshId)] + old(posts)
      ensures myPosts == [NewPost(content, images, freshId)] + old(myPosts)
    {
      var created := NewPost(content, images, freshId);
      posts := [created] + posts;
      myPosts := [created] + myPosts;
    }

    /** `handleDeletePost`: the id leaves both lists. */
    method HandleDeletePost(id: string)
      modifies this
      ensures myPosts == DeletePost(old(myPosts), id) && posts == DeletePost(old(posts), id)
    {
      myPosts := DeletePost(myPosts, id);
      posts := DeletePost(posts, id);
    }
  }
}
