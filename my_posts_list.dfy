/** The tabs of the user's own posts: all, liked, commented. */
module MyPostsList {
  import opened Lists
  import CommunityFeed

  type Post = CommunityFeed.Post

  function IsLiked(p: Post): bool { p.isLiked }

  function HasComments(p: Post): bool { p.comments > 0 }

  /** `filteredPosts`: the switch over the active tab; an unknown tab shows every post. */
  function FilteredPosts(posts: seq<Post>, tab: string): (r: seq<Post>)
    ensures tab == "liked" ==> forall i :: 0 <= i < |posts| ==> (posts[i] in r <==> posts[i].isLiked)
    ensures tab == "commented" ==> forall i :: 0 <= i < |posts| ==> (posts[i] in r <==> posts[i].comments > 0)
    ensures tab != "liked" && tab != "commented" ==> r == posts
    ensures tab == "liked" ==> forall x :: multiset(r)[x] == if x.isLiked then multiset(posts)[x] else 0
    ensures tab == "commented" ==> forall x :: multiset(r)[x] == if x.comments > 0 then multiset(posts)[x] else 0
    ensures IsSubsequence(r, posts)
  {
    if tab == "liked" then
      FilterIsSubsequence(posts, IsLiked);
      FilterMultiplicity(posts, IsLiked);
      Filter(posts, IsLiked)
    else if tab == "commented" then
      FilterIsSubsequence(posts, HasComments);
      FilterMultiplicity(posts, HasComments);
      Filter(posts, HasComments)
    else
      assert IsSubsequence(posts, posts) by {
        FilterAll(posts, (p: Post) => true);
        FilterIsSubsequence(posts, (p: Post) => true);
      }
      posts
  }

  /** Every tab shows only posts of the list, in list order; "liked" and "commented" show nothing else. */
  lemma FilteredPostsOnly(posts: seq<Post>, tab: string, i: int)
    requires 0 <= i < |FilteredPosts(posts, tab)|
    ensures FilteredPosts(posts, tab)[i] in posts
    ensures tab == "liked" ==> FilteredPosts(posts, tab)[i].isLiked
    ensures tab == "commented" ==> FilteredPosts(posts, tab)[i].comments > 0
  {
  }

  class View {
    var activeTab: string

    constructor()
      ensures activeTab == "all"
    {
      activeTab := "all";
    }

    method SetActiveTab(tab: string)
      modifies this
      ensures activeTab == tab
    {
      activeTab := tab;
    }
  }
}
