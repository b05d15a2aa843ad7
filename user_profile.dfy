/**
 * A community user's profile page: whether it is the viewer's own page, the
 * follow button, and likes on the profile's posts.
 */
module UserProfile {
  import CommunityFeed

  /** The page is the viewer's own exactly for the user "nagundo". */
  function IsCurrentUser(username: string): bool
  {
    username == "nagundo"
  }

  /** The viewer already follows exactly the user "devkim" when the page loads. */
  function InitiallyFollowing(username: string): bool
  {
    username == "devkim"
  }

  /** The owner and the viewer are never the same person on a page that starts out followed. */
  lemma NeverFollowingOneself(username: string)
    ensures !(IsCurrentUser(username) && InitiallyFollowing(username))
  {
  }

  class Profile {
    var username: string
    var isCurrentUser: bool
    var isFollowing: bool
    var userPosts: seq<CommunityFeed.Post>

    /** The state after the page's data is loaded for `username`, with `posts` for its posts. */
    constructor(username: string, posts: seq<CommunityFeed.Post>)
      ensures this.username == username && userPosts == posts
      ensures isCurrentUser == IsCurrentUser(username) && isFollowing == InitiallyFollowing(username)
    {
      this.username := username;
      isCurrentUser := IsCurrentUser(username);
      isFollowing := InitiallyFollowing(username);
      userPosts := posts;
    }

    /** `handleToggleFollow`: negates the flag and nothing else. */
    method HandleToggleFollow()
      modifies this
      ensures isFollowing == !old(isFollowing)
      ensures username == old(username) && isCurrentUser == old(isCurrentUser) && userPosts == old(userPosts)
    {
      isFollowing := !isFollowing;
    }

    /** `handleLike`: the feed's toggle on the profile's posts. */
    method HandleLike(id: string)
      modifies this
      ensures userPosts == CommunityFeed.LikePost(old(userPosts), id)
      ensures username == old(username) && isCurrentUser == old(isCurrentUser) && isFollowing == old(isFollowing)
    {
      userPosts := CommunityFeed.LikePost(userPosts, id);
    }
  }
}
