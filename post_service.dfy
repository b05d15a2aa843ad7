/**
 * The backend post service.  The post table is a map from post id to record
 * and the user table is the set of existing user ids.
 */
module PostService {
  import opened Wrappers

  const PostNotFound := "게시글을 찾을 수 없습니다."
  const UserNotFound := "사용자를 찾을 수 없습니다."

  /** A stored post: its author and its (nullable) content. */
  datatype Post = Post(userId: int, content: Option<string>)

  /** A request body. */
  datatype PostDto = PostDto(userId: int, content: Option<string>)

  class Service {
    var posts: map<int, Post>
    var users: set<int>
    var nextId: int

    ghost predicate Valid()
      reads this
    {
      forall k :: k in posts ==> k < nextId
    }

    constructor(users: set<int>)
      ensures Valid() && posts == map[] && this.users == users
    {
      posts := map[];
      this.users := users;
      nextId := 1;
    }

    /** `getPostsByUser`: the ids of exactly the posts written by `u`. */
    method GetPostsByUser(u: int) returns (ids: set<int>)
      ensures forall k :: k in ids <==> k in posts && posts[k].userId == u
    {
      ids := set k | k in posts && posts[k].userId == u;
    }

    /** `getPost`: the stored record, or the not-found error. */
    method GetPost(id: int) returns (r: Result<Post, string>)
      ensures id in posts ==> r == Success(posts[id])
      ensures id !in posts ==> r == Failure(PostNotFound)
    {
      if id in posts {
        r := Success(posts[id]);
      } else {
        r := Failure(PostNotFound);
      }
    }

    /** `createPost`: fails for an unknown author; otherwise stores the post under a fresh id. */
    method CreatePost(dto: PostDto) returns (r: Result<int, string>)
      requires Valid()
      modifies this
      ensures Valid() && users == old(users)
      ensures dto.userId !in users ==> r == Failure(UserNotFound) && posts == old(posts) && nextId == old(nextId)
      ensures dto.userId in users ==>
        r == Success(old(nextId)) && old(nextId) !in old(posts) && nextId == old(nextId) + 1
        && posts == old(posts)[old(nextId) := Post(dto.userId, dto.content)]
    {
      if dto.userId !in users {
        return Failure(UserNotFound);
      }
      var id := nextId;
      posts := posts[id := Post(dto.userId, dto.content)];
      nextId := nextId + 1;
      r := Success(id);
    }

    /** `updatePost`: fails for an unknown id; null content keeps the old content. */
    method UpdatePost(id: int, dto: PostDto) returns (r: Result<Post, string>)
      requires Valid()
      modifies this
      ensures Valid() && users == old(users) && nextId == old(nextId)
      ensures id !in old(posts) ==> r == Failure(PostNotFound) && posts == old(posts)
      ensures id in old(posts) && dto.content.None? ==> r == Success(old(posts)[id]) && posts == old(posts)
      ensures id in old(posts) && dto.content.Some? ==>
        r == Success(old(posts)[id].(content := dto.content))
        && posts == old(posts)[id := old(posts)[id].(content := dto.content)]
    {
      if id !in posts {
        return Failure(PostNotFound);
      }
      var post := posts[id];
      if dto.content.Some? {
        post := post.(content := dto.content);
      }
      posts := posts[id := post];
      r := Success(post);
    }

    /** `deletePost`: fails for an unknown id; otherwise removes exactly that id. */
    method DeletePost(id: int) returns (r: Result<(), string>)
      requires Valid()
      modifies this
      ensures Valid() && users == old(users) && nextId == old(nextId)
      ensures id !in old(posts) ==> r == Failure(PostNotFound) && posts == old(posts)
      ensures id in old(posts) ==> r == Success(()) && posts == old(posts) - {id}
    {
      if id !in posts {
        return Failure(PostNotFound);
      }
      posts := posts - {id};
      r := Success(());
    }
  }
}
