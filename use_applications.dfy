/**
 * The client-side store of the user's job applications: the list and the statistics
 * fetched from the server, the local updates after each create, status change and
 * delete, and the grouping of the list by status. Server responses are inputs: each
 * call receives the result the API returned.
 */
module UseApplications {
  import opened Wrappers
  import opened Lists
  import opened Text

  datatype Application = Application(
    applicationId: int, userId: int, companyId: int, companyName: string,
    status: string, appliedDate: string)

  datatype Stats = Stats(
    totalApplications: int, appliedCount: int, documentPassCount: int, finalPassCount: int,
    rejectedCount: int, documentPassRate: real, finalPassRate: real)

  /** The error the last failed call left behind. */
  type Error = string

  // ---------------------------------------------------------------------------
  // Grouping by status

  /** `s.replace('_', '')` with a string pattern: only the first underscore goes. */
  function RemoveFirstUnderscore(s: string): (r: string)
    ensures '_' !in s ==> r == s
    ensures '_' in s ==> |r| == |s| - 1
  {
    if s == [] then []
    else if s[0] == '_' then s[1..]
    else [s[0]] + RemoveFirstUnderscore(s[1..])
  }

  /** The group an application goes to: its status lower-cased, first underscore removed. */
  function GroupKey(a: Application): string {
    RemoveFirstUnderscore(ToLower(a.status))
  }

  /** Lower-casing neither creates nor removes an underscore. */
  lemma LowerKeepsUnderscores(s: string)
    ensures '_' in ToLower(s) <==> '_' in s
  {
    var l := ToLower(s);
    if '_' in s {
      var k :| 0 <= k < |s| && s[k] == '_';
      assert l[k] == '_';
    }
    if '_' in l {
      var k :| 0 <= k < |l| && l[k] == '_';
      assert s[k] == '_';
    }
  }

  /** A one-word status such as APPLIED or REJECTED groups under its lower-cased form. */
  lemma GroupKeyOneWord(s: string)
    requires '_' !in s
    ensures RemoveFirstUnderscore(ToLower(s)) == ToLower(s)
  {
    LowerKeepsUnderscores(s);
  }

  /**
   * A two-word status such as DOCUMENT_PASS or FINAL_PASS groups under its two words
   * lower-cased and joined: "documentpass", "finalpass".
   */
  lemma GroupKeyTwoWords(a: string, b: string)
    requires '_' !in a
    ensures RemoveFirstUnderscore(ToLower(a + "_" + b)) == ToLower(a) + ToLower(b)
  {
    ToLowerAppend(a + "_", b);
    ToLowerAppend(a, "_");
    assert ToLower("_") == "_";
    LowerKeepsUnderscores(a);
    UnderscoreAfterLetters(ToLower(a), ToLower(b));
  }

  /** Only the first underscore is removed: what follows it is kept as it is. */
  lemma {:induction false} UnderscoreAfterLetters(a: string, b: string)
    requires '_' !in a
    ensures RemoveFirstUnderscore(a + "_" + b) == a + b
  {
    if a != [] {
      assert (a + "_" + b)[1..] == a[1..] + "_" + b;
      UnderscoreAfterLetters(a[1..], b);
      assert a == [a[0]] + a[1..];
    }
  }

  function InGroup(k: string): Application -> bool {
    (a: Application) => GroupKey(a) == k
  }

  /**
   * `applicationsByStatus`: the `reduce` that pushes each application onto the array of
   * its key, creating the array on the key's first application. What the result holds is
   * proved about `Grouping` below.
   */
  method ApplicationsByStatus(apps: seq<Application>) returns (groups: map<string, seq<Application>>)
    ensures groups == Grouping(apps)
  {
    groups := map[];
    var n := 0;
    while n < |apps|
      invariant 0 <= n <= |apps|
      invariant groups == Grouping(apps[..n])
    {
      var app := apps[n];
      var status := GroupKey(app);
      if status !in groups {
        groups := groups[status := []];
      }
      groups := groups[status := groups[status] + [app]];
      assert apps[..n + 1][..n] == apps[..n];
      n := n + 1;
    }
    assert apps[..n] == apps;
  }

  /** One step of the `reduce`: the application is pushed onto the group of its key, created empty if missing. */
  function Push(groups: map<string, seq<Application>>, app: Application): map<string, seq<Application>> {
    groups[GroupKey(app) := (if GroupKey(app) in groups then groups[GroupKey(app)] else []) + [app]]
  }

  /** The `reduce` over the whole list, from an empty record. */
  function Grouping(apps: seq<Application>): map<string, seq<Application>> {
    if apps == [] then map[] else Push(Grouping(apps[..|apps| - 1]), apps[|apps| - 1])
  }

  /** `groups` is the grouping of `s`: one non-empty group per key that occurs, holding that key's applications in order. */
  ghost predicate GroupsOf(groups: map<string, seq<Application>>, s: seq<Application>) {
    && (forall k :: k in groups ==> groups[k] == Filter(s, InGroup(k)) && groups[k] != [])
    && (forall k :: k !in groups ==> Filter(s, InGroup(k)) == [])
  }

  /** One push turns the grouping of `s` into the grouping of `s + [app]`. */
  lemma PushKeepsGroups(groups: map<string, seq<Application>>, s: seq<Application>, app: Application)
    requires GroupsOf(groups, s)
    ensures GroupsOf(Push(groups, app), s + [app])
  {
    var next := Push(groups, app);
    forall k ensures k in next ==> next[k] == Filter(s + [app], InGroup(k)) && next[k] != []
    ensures k !in next ==> Filter(s + [app], InGroup(k)) == []
    {
      GroupStep(s, app, k);
    }
  }

  /** The `reduce` groups correctly: each key that occurs has the group of its applications, in list order, and no other key has one. */
  lemma {:induction false} GroupingCorrect(apps: seq<Application>)
    ensures GroupsOf(Grouping(apps), apps)
  {
    if apps != [] {
      var init := apps[..|apps| - 1];
      GroupingCorrect(init);
      PushKeepsGroups(Grouping(init), init, apps[|apps| - 1]);
      assert init + [apps[|apps| - 1]] == apps;
    }
  }

  /** Pushing one application extends its own group by it and leaves every other group alone. */
  lemma GroupStep(s: seq<Application>, app: Application, k: string)
    ensures Filter(s + [app], InGroup(k)) == Filter(s, InGroup(k)) + (if GroupKey(app) == k then [app] else [])
  {
    FilterAppend(s, [app], InGroup(k));
    assert [app][1..] == [];
  }

  /**
   * A key has a group exactly when some application has that key, and each application
   * is in the group of its own key and in no other.
   */
  lemma GroupsPartition(apps: seq<Application>, k: string)
    ensures k in Grouping(apps) <==> exists i :: 0 <= i < |apps| && GroupKey(apps[i]) == k
    ensures forall i :: 0 <= i < |apps| && k in Grouping(apps) ==> (apps[i] in Grouping(apps)[k] <==> GroupKey(apps[i]) == k)
  {
    var groups := Grouping(apps);
    GroupingCorrect(apps);
    if k in groups {
      var g := groups[k];
      assert g[0] in apps && InGroup(k)(g[0]);
      var i :| 0 <= i < |apps| && apps[i] == g[0];
      assert GroupKey(apps[i]) == k;
    } else {
      assert forall i :: 0 <= i < |apps| ==> GroupKey(apps[i]) != k;
    }
  }

  // ---------------------------------------------------------------------------
  // Local updates

  /** After a create: one more application, counted as applied. */
  function BumpStats(s: Stats): (r: Stats)
    ensures r.totalApplications == s.totalApplications + 1 && r.appliedCount == s.appliedCount + 1
    ensures r.(totalApplications := s.totalApplications, appliedCount := s.appliedCount) == s
  {
    s.(totalApplications := s.totalApplications + 1, appliedCount := s.appliedCount + 1)
  }

  /** The total is the sum of the four status counts. */
  predicate Balanced(s: Stats) {
    s.totalApplications == s.appliedCount + s.documentPassCount + s.finalPassCount + s.rejectedCount
  }

  /** The local bump keeps the counts adding up. */
  lemma BumpKeepsBalance(s: Stats)
    ensures Balanced(BumpStats(s)) <==> Balanced(s)
  {
  }

  /** `prev.map(app => app.applicationId === id ? updated : app)`. */
  function ReplaceById(apps: seq<Application>, id: int, updated: Application): (r: seq<Application>)
    ensures |r| == |apps|
    ensures forall i :: 0 <= i < |r| ==> r[i] == if apps[i].applicationId == id then updated else apps[i]
  {
    seq(|apps|, i requires 0 <= i < |apps| => if apps[i].applicationId == id then updated else apps[i])
  }

  /** Replacing with the server's copy again changes nothing more. */
  lemma ReplaceByIdIdempotent(apps: seq<Application>, id: int, updated: Application)
    requires updated.applicationId == id
    ensures ReplaceById(ReplaceById(apps, id, updated), id, updated) == ReplaceById(apps, id, updated)
  {
  }

  function HasNotId(id: int): Application -> bool {
    (a: Application) => a.applicationId != id
  }

  /** `prev.filter(app => app.applicationId !== id)`. */
  function RemoveById(apps: seq<Application>, id: int): (r: seq<Application>)
    ensures IsSubsequence(r, apps)
    ensures forall k :: 0 <= k < |r| ==> r[k].applicationId != id
    ensures forall k :: 0 <= k < |apps| ==> (apps[k] in r <==> apps[k].applicationId != id)
    ensures forall x :: multiset(r)[x] == if x.applicationId != id then multiset(apps)[x] else 0
  {
    FilterIsSubsequence(apps, HasNotId(id));
    FilterMultiplicity(apps, HasNotId(id));
    Filter(apps, HasNotId(id))
  }

  /** Deleting an application just created with a new id gives back the list as it was. */
  lemma RemoveUndoesAppend(apps: seq<Application>, a: Application)
    requires forall k :: 0 <= k < |apps| ==> apps[k].applicationId != a.applicationId
    ensures RemoveById(apps + [a], a.applicationId) == apps
  {
    FilterAppend(apps, [a], HasNotId(a.applicationId));
    FilterAll(apps, HasNotId(a.applicationId));
    assert Filter([a], HasNotId(a.applicationId)) == [];
  }

  class Store {
    const userId: int
    var applications: seq<Application>
    var stats: Option<Stats>
    var loading: bool
    var error: Option<Error>

    constructor (userId: int)
      ensures this.userId == userId
      ensures applications == [] && stats == None && loading && error == None
    {
      this.userId := userId;
      applications := [];
      stats := None;
      loading := true;
      error := None;
    }

    /**
     * The mount effect: with a falsy user id nothing is fetched; otherwise both requests
     * run together and either both results are stored or the error is.
     */
    method FetchData(appsResponse: Result<seq<Application>, Error>, statsResponse: Result<Stats, Error>)
      modifies this
      ensures userId == 0 ==> applications == old(applications) && stats == old(stats) && error == old(error) && loading == old(loading)
      ensures userId != 0 && appsResponse.Success? && statsResponse.Success? ==>
        applications == appsResponse.value && stats == Some(statsResponse.value) && error == old(error) && !loading
      ensures userId != 0 && appsResponse.Failure? ==>
        applications == old(applications) && stats == old(stats) && error == Some(appsResponse.error) && !loading
      ensures userId != 0 && appsResponse.Success? && statsResponse.Failure? ==>
        applications == old(applications) && stats == old(stats) && error == Some(statsResponse.error) && !loading
    {
      if userId == 0 {
        return;
      }
      loading := true;
      if appsResponse.Failure? {
        error := Some(appsResponse.error);
      } else if statsResponse.Failure? {
        error := Some(statsResponse.error);
      } else {
        applications := appsResponse.value;
        stats := Some(statsResponse.value);
      }
      loading := false;
    }

    /** `createApplication`: the new application is appended, and loaded statistics count it as applied. */
    method CreateApplication(response: Result<Application, Error>) returns (r: Result<Application, Error>)
      modifies this
      ensures r == response
      ensures response.Success? ==>
        && applications == old(applications) + [response.value]
        && stats == (if old(stats).Some? then Some(BumpStats(old(stats).value)) else None)
        && error == old(error)
      ensures response.Failure? ==>
        applications == old(applications) && stats == old(stats) && error == Some(response.error)
      ensures loading == old(loading)
    {
      if response.Failure? {
        error := Some(response.error);
        return response;
      }
      applications := applications + [response.value];
      if stats.Some? {
        stats := Some(BumpStats(stats.value));
      }
      return response;
    }

    /**
     * `updateApplicationStatus`: the server's copy replaces the entry with the id; then the
     * statistics are fetched again. A failure of either call is recorded; a failed refetch
     * leaves the list already updated.
     */
    method UpdateApplicationStatus(id: int, response: Result<Application, Error>, statsResponse: Result<Stats, Error>)
      returns (r: Result<Application, Error>)
      modifies this
      ensures response.Failure? ==>
        r == response && applications == old(applications) && stats == old(stats) && error == Some(response.error)
      ensures response.Success? ==> applications == ReplaceById(old(applications), id, response.value)
      ensures response.Success? && statsResponse.Success? ==>
        r == response && stats == Some(statsResponse.value) && error == old(error)
      ensures response.Success? && statsResponse.Failure? ==>
        r == Failure(statsResponse.error) && stats == old(stats) && error == Some(statsResponse.error)
      ensures loading == old(loading)
    {
      if response.Failure? {
        error := Some(response.error);
        return response;
      }
      applications := ReplaceById(applications, id, response.value);
      if statsResponse.Failure? {
        error := Some(statsResponse.error);
        return Failure(statsResponse.error);
      }
      stats := Some(statsResponse.value);
      return response;
    }

    /** `deleteApplication`: the entries with the id go; then the statistics are fetched again. */
    method DeleteApplication(id: int, response: Result<(), Error>, statsResponse: Result<Stats, Error>)
      returns (r: Result<(), Error>)
      modifies this
      ensures response.Failure? ==>
        r == response && applications == old(applications) && stats == old(stats) && error == Some(response.error)
      ensures response.Success? ==> applications == RemoveById(old(applications), id)
      ensures response.Success? && statsResponse.Success? ==>
        r == response && stats == Some(statsResponse.value) && error == old(error)
      ensures response.Success? && statsResponse.Failure? ==>
        r == Failure(statsResponse.error) && stats == old(stats) && error == Some(statsResponse.error)
      ensures loading == old(loading)
    {
      if response.Failure? {
        error := Some(response.error);
        return response;
      }
      applications := RemoveById(applications, id);
      if statsResponse.Failure? {
        error := Some(statsResponse.error);
        return Failure(statsResponse.error);
      }
      stats := Some(statsResponse.value);
      return response;
    }
  }
}
