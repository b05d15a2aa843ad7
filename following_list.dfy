/**
 * The following and followers lists: follow toggles per list and the search
 * box, which keeps a user when the query occurs in the lower-cased name or
 * user name.
 */
module FollowingList {
  import opened Text
  import opened Lists

  datatype Person = Person(id: string, name: string, username: string, avatar: string, bio: string, isFollowing: bool)

  datatype ListType = Following | Followers

  /** The `map` of `handleToggleFollow`: flips `isFollowing` for the users with that id only. */
  function ToggleFollow(users: seq<Person>, id: string): (r: seq<Person>)
    ensures |r| == |users|
    ensures forall i :: 0 <= i < |r| ==> r[i].isFollowing == (if users[i].id == id then !users[i].isFollowing else users[i].isFollowing)
    ensures forall i :: 0 <= i < |r| ==> r[i].(isFollowing := users[i].isFollowing) == users[i]
  {
    seq(|users|, i requires 0 <= i < |users| =>
      if users[i].id == id then users[i].(isFollowing := !users[i].isFollowing) else users[i])
  }

  /** Toggling twice gives back the list. */
  lemma ToggleFollowTwice(users: seq<Person>, id: string)
    ensures ToggleFollow(ToggleFollow(users, id), id) == users
  {
  }

  /** The search test of one user. */
  predicate Matches(query: string, p: Person) {
    Includes(ToLower(p.name), ToLower(query)) || Includes(ToLower(p.username), ToLower(query))
  }

  function MatchesQuery(query: string): Person -> bool {
    (p: Person) => Matches(query, p)
  }

  /** `filteredFollowing` / `filteredFollowers`: the users the query matches, in list order. */
  function Search(users: seq<Person>, query: string): (r: seq<Person>)
    ensures IsSubsequence(r, users)
    ensures forall i :: 0 <= i < |users| ==> (users[i] in r <==> Matches(query, users[i]))
    ensures forall x :: multiset(r)[x] == if Matches(query, x) then multiset(users)[x] else 0
  {
    FilterIsSubsequence(users, MatchesQuery(query));
    FilterMultiplicity(users, MatchesQuery(query));
    Filter(users, MatchesQuery(query))
  }

  /** The empty query keeps everyone. */
  lemma SearchEmptyKeepsAll(users: seq<Person>)
    ensures Search(users, "") == users
  {
    forall i | 0 <= i < |users| ensures MatchesQuery("")(users[i]) {
      IncludesEmpty(ToLower(users[i].name));
    }
    FilterAll(users, MatchesQuery(""));
  }

  /** Case does not matter: a query and its lower-cased form select the same users. */
  lemma SearchIgnoresCase(users: seq<Person>, query: string)
    ensures Search(users, ToLower(query)) == Search(users, query)
  {
    assert ToLower(ToLower(query)) == ToLower(query);
    FilterSameTest(users, MatchesQuery(ToLower(query)), MatchesQuery(query));
  }

  class View {
    var following: seq<Person>
    var followers: seq<Person>
    var searchQuery: string

    constructor(following: seq<Person>, followers: seq<Person>)
      ensures this.following == following && this.followers == followers && searchQuery == ""
    {
      this.following, this.followers, searchQuery := following, followers, "";
    }

    /** `handleToggleFollow`: only the chosen list changes. */
    method HandleToggleFollow(id: string, listType: ListType)
      modifies this
      ensures listType == Following ==> following == ToggleFollow(old(following), id) && followers == old(followers)
      ensures listType == Followers ==> followers == ToggleFollow(old(followers), id) && following == old(following)
      ensures searchQuery == old(searchQuery)
    {
      if listType == Following {
        following := ToggleFollow(following, id);
      } else {
        followers := ToggleFollow(followers, id);
      }
    }

    /** The two tab labels count the unfiltered lists, so they never fall below what the search shows. */
    function TabCounts(): (r: (nat, nat))
      reads this
      ensures r.0 >= |Search(following, searchQuery)| && r.1 >= |Search(followers, searchQuery)|
    {
      (|following|, |followers|)
    }
  }
}
