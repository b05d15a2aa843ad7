/**
 * The résumé list page: marking one résumé primary, toggling visibility, copying,
 * deleting, and the display order — the primary résumé on top, the others sorted
 * stably by the chosen key in the chosen direction.
 */
module ResumeList {
  import opened Wrappers
  import opened Text
  import opened Lists

  datatype Resume = Resume(
    id: string, title: string, isPrimary: bool,
    lastUpdated: string, createdAt: string,
    jobCategory: string, location: string, company: string,
    isPublic: bool)

  datatype SortOrder = Asc | Desc

  ghost predicate UniqueIds(rs: seq<Resume>) {
    forall i, j :: 0 <= i < j < |rs| ==> rs[i].id != rs[j].id
  }

  function CountPrimary(rs: seq<Resume>): (n: nat)
    ensures n <= |rs|
    ensures n == 0 <==> forall i :: 0 <= i < |rs| ==> !rs[i].isPrimary
  {
    if rs == [] then 0 else (if rs[0].isPrimary then 1 else 0) + CountPrimary(rs[1..])
  }

  /** `handleSetPrimary`: a résumé is primary exactly when it has the given id; nothing else changes. */
  function SetPrimary(rs: seq<Resume>, id: string): (r: seq<Resume>)
    ensures |r| == |rs|
    ensures forall i :: 0 <= i < |r| ==> r[i].isPrimary == (rs[i].id == id)
    ensures forall i :: 0 <= i < |r| ==> r[i].(isPrimary := rs[i].isPrimary) == rs[i]
  {
    seq(|rs|, i requires 0 <= i < |rs| => rs[i].(isPrimary := rs[i].id == id))
  }

  /** With distinct ids, exactly one résumé is primary afterwards if the id exists, and none if it does not. */
  lemma {:induction false} SetPrimaryExactlyOne(rs: seq<Resume>, id: string)
    requires UniqueIds(rs)
    ensures CountPrimary(SetPrimary(rs, id)) == if exists i :: 0 <= i < |rs| && rs[i].id == id then 1 else 0
  {
    if rs != [] {
      SetPrimaryExactlyOne(rs[1..], id);
      assert SetPrimary(rs, id)[1..] == SetPrimary(rs[1..], id);
      if rs[0].id == id {
        assert forall i :: 0 <= i < |rs[1..]| ==> rs[1..][i].id != id by {
          forall i | 0 <= i < |rs[1..]| ensures rs[1..][i].id != id {
            assert rs[1..][i] == rs[i + 1];
          }
        }
      } else {
        if exists i :: 0 <= i < |rs| && rs[i].id == id {
          var i :| 0 <= i < |rs| && rs[i].id == id;
          assert rs[1..][i - 1].id == id;
        }
      }
    }
  }

  /** `handleTogglePublic`: flips `isPublic` on the résumés with that id only. */
  function TogglePublic(rs: seq<Resume>, id: string): (r: seq<Resume>)
    ensures |r| == |rs|
    ensures forall i :: 0 <= i < |r| ==> r[i].isPublic == (if rs[i].id == id then !rs[i].isPublic else rs[i].isPublic)
    ensures forall i :: 0 <= i < |r| ==> r[i].(isPublic := rs[i].isPublic) == rs[i]
  {
    seq(|rs|, i requires 0 <= i < |rs| => if rs[i].id == id then rs[i].(isPublic := !rs[i].isPublic) else rs[i])
  }

  /** Toggling twice gives back the list. */
  lemma TogglePublicTwice(rs: seq<Resume>, id: string)
    ensures TogglePublic(TogglePublic(rs, id), id) == rs
  {
  }

  /** `resumes.find(r => r.id === id)`. */
  function FindById(rs: seq<Resume>, id: string): (r: Option<Resume>)
    ensures r.None? <==> forall i :: 0 <= i < |rs| ==> rs[i].id != id
    ensures r.Some? ==> exists i :: 0 <= i < |rs| && rs[i] == r.value && rs[i].id == id
                          && forall j :: 0 <= j < i ==> rs[j].id != id
  {
    if rs == [] then None
    else if rs[0].id == id then Some(rs[0])
    else
      var r := FindById(rs[1..], id);
      assert forall i :: 1 <= i < |rs| ==> rs[i] == rs[1..][i - 1];
      r
  }

  /** The copy: a new id, the title marked as a copy, not primary, stamped now; every other field as the original. */
  function CopyOf(r: Resume, freshId: string, stamp: string): Resume {
    r.(id := freshId, title := r.title + " (복사본)", isPrimary := false, lastUpdated := stamp)
  }

  /** `handleCopyResume`, with `freshId` for `Date.now().toString()` and `stamp` for the formatted current time: a missing id changes nothing. */
  function CopyResume(rs: seq<Resume>, id: string, freshId: string, stamp: string): (r: seq<Resume>)
    ensures (forall i :: 0 <= i < |rs| ==> rs[i].id != id) ==> r == rs
    ensures (exists i :: 0 <= i < |rs| && rs[i].id == id) ==>
      && |r| == |rs| + 1 && r[..|rs|] == rs
      && var c := r[|rs|];
         && c.id == freshId && c.title == FindById(rs, id).value.title + " (복사본)"
         && !c.isPrimary && c.lastUpdated == stamp
         && c.(id := id, title := FindById(rs, id).value.title, isPrimary := FindById(rs, id).value.isPrimary,
               lastUpdated := FindById(rs, id).value.lastUpdated) == FindById(rs, id).value
  {
    match FindById(rs, id)
    case None => rs
    case Some(original) => rs + [CopyOf(original, freshId, stamp)]
  }

  function HasNotId(id: string): Resume -> bool {
    (r: Resume) => r.id != id
  }

  /** `handleDeleteResume`: every résumé with that id goes, the rest stay in order. */
  function DeleteResume(rs: seq<Resume>, id: string): (r: seq<Resume>)
    ensures IsSubsequence(r, rs)
    ensures forall i :: 0 <= i < |r| ==> r[i].id != id
    ensures forall i :: 0 <= i < |rs| ==> (rs[i] in r <==> rs[i].id != id)
    ensures forall x :: multiset(r)[x] == if x.id != id then multiset(rs)[x] else 0
  {
    FilterIsSubsequence(rs, HasNotId(id));
    FilterMultiplicity(rs, HasNotId(id));
    Filter(rs, HasNotId(id))
  }

  function ToggleOrder(o: SortOrder): (r: SortOrder)
    ensures r != o
  {
    if o == Asc then Desc else Asc
  }

  lemma ToggleOrderTwice(o: SortOrder)
    ensures ToggleOrder(ToggleOrder(o)) == o
  {
  }

  // ---------------------------------------------------------------------------
  // Display order

  /** `resumes.find(r => r.isPrimary)`. */
  function FirstPrimary(rs: seq<Resume>): (r: Option<Resume>)
    ensures r.None? <==> CountPrimary(rs) == 0
    ensures r.Some? ==> exists i :: 0 <= i < |rs| && rs[i] == r.value && r.value.isPrimary
                          && forall j :: 0 <= j < i ==> !rs[j].isPrimary
  {
    if rs == [] then None
    else if rs[0].isPrimary then Some(rs[0])
    else
      var r := FirstPrimary(rs[1..]);
      assert forall i :: 1 <= i < |rs| ==> rs[i] == rs[1..][i - 1];
      r
  }

  function NotPrimary(r: Resume): bool {
    !r.isPrimary
  }

  function Others(rs: seq<Resume>): (r: seq<Resume>)
    ensures IsSubsequence(r, rs)
    ensures forall i :: 0 <= i < |r| ==> !r[i].isPrimary
    ensures forall i :: 0 <= i < |rs| ==> (rs[i] in r <==> !rs[i].isPrimary)
    ensures forall x :: multiset(r)[x] == if !x.isPrimary then multiset(rs)[x] else 0
  {
    FilterIsSubsequence(rs, NotPrimary);
    FilterMultiplicity(rs, NotPrimary);
    Filter(rs, NotPrimary)
  }

  predicate KnownKey(sortBy: string) {
    sortBy == "title" || sortBy == "lastUpdated" || sortBy == "createdAt" || sortBy == "jobCategory"
  }

  /** The text compared for `sortBy`; `lastUpdated` is compared on its date part, before the first space. */
  function SortKey(sortBy: string, r: Resume): string {
    if sortBy == "title" then r.title
    else if sortBy == "lastUpdated" then BeforeFirstSpace(r.lastUpdated)
    else if sortBy == "createdAt" then r.createdAt
    else if sortBy == "jobCategory" then r.jobCategory
    else ""
  }

  /** How many résumés of `s` have a key strictly before `k`. */
  function CountBefore(s: seq<Resume>, sortBy: string, k: string): nat {
    if s == [] then 0 else (if Before(SortKey(sortBy, s[0]), k) then 1 else 0) + CountBefore(s[1..], sortBy, k)
  }

  function CountKey(s: seq<Resume>, sortBy: string, k: string): nat {
    if s == [] then 0 else (if SortKey(sortBy, s[0]) == k then 1 else 0) + CountKey(s[1..], sortBy, k)
  }

  /**
   * A résumé's rank among `others`: the number whose key comes strictly before its own,
   * negated for ascending order. Sorting by rank, largest first and stably, is sorting
   * with the comparator `localeCompare` (negated for descending).
   */
  function Rank(others: seq<Resume>, sortBy: string, order: SortOrder): Resume -> int {
    (r: Resume) => var n: int := CountBefore(others, sortBy, SortKey(sortBy, r)); if order == Desc then n else -n
  }

  /** `otherResumes` after sorting; an unknown key compares everything equal and keeps the list order. */
  function SortedOthers(rs: seq<Resume>, sortBy: string, order: SortOrder): seq<Resume> {
    if KnownKey(sortBy) then SortDesc(Others(rs), Rank(Others(rs), sortBy, order)) else Others(rs)
  }

  /** `getSortedResumes`. */
  function GetSortedResumes(rs: seq<Resume>, sortBy: string, order: SortOrder): (Option<Resume>, seq<Resume>) {
    (FirstPrimary(rs), SortedOthers(rs, sortBy, order))
  }

  lemma {:induction false} CountBeforeMonotone(s: seq<Resume>, sortBy: string, a: string, b: string)
    requires Before(a, b)
    ensures CountBefore(s, sortBy, a) + CountKey(s, sortBy, a) <= CountBefore(s, sortBy, b)
  {
    if s != [] {
      CountBeforeMonotone(s[1..], sortBy, a, b);
      var k := SortKey(sortBy, s[0]);
      BeforeIrreflexive(a);
      if Before(k, a) {
        BeforeTransitive(k, a, b);
      }
    }
  }

  lemma {:induction false} CountKeyOfMember(s: seq<Resume>, sortBy: string, x: Resume)
    requires x in s
    ensures CountKey(s, sortBy, SortKey(sortBy, x)) >= 1
  {
    if s[0] != x {
      CountKeyOfMember(s[1..], sortBy, x);
    }
  }

  /** Among members of `others`, a strictly earlier key means a strictly smaller count of keys before it. */
  lemma RankStrict(others: seq<Resume>, sortBy: string, x: Resume, y: Resume)
    requires x in others && Before(SortKey(sortBy, x), SortKey(sortBy, y))
    ensures CountBefore(others, sortBy, SortKey(sortBy, x)) < CountBefore(others, sortBy, SortKey(sortBy, y))
  {
    CountBeforeMonotone(others, sortBy, SortKey(sortBy, x), SortKey(sortBy, y));
    CountKeyOfMember(others, sortBy, x);
  }

  /** Two members of `others` have the same rank exactly when they have the same key. */
  lemma RankTies(others: seq<Resume>, sortBy: string, order: SortOrder, x: Resume, y: Resume)
    requires x in others && y in others
    ensures Rank(others, sortBy, order)(x) == Rank(others, sortBy, order)(y) <==> SortKey(sortBy, x) == SortKey(sortBy, y)
  {
    BeforeTotal(SortKey(sortBy, x), SortKey(sortBy, y));
    if Before(SortKey(sortBy, x), SortKey(sortBy, y)) {
      RankStrict(others, sortBy, x, y);
    } else if Before(SortKey(sortBy, y), SortKey(sortBy, x)) {
      RankStrict(others, sortBy, y, x);
    }
  }

  /**
   * The non-primary résumés, each exactly once, ordered by key — ascending for `Asc`,
   * descending for `Desc` — with résumés of equal key (and every résumé under an unknown
   * key) in their list order: descending is the negated comparator, not the reversal.
   */
  lemma SortedOthersCorrect(rs: seq<Resume>, sortBy: string, order: SortOrder)
    ensures var o, r := Others(rs), SortedOthers(rs, sortBy, order);
      && multiset(r) == multiset(o)
      && (!KnownKey(sortBy) ==> r == o)
      && (forall i, j :: 0 <= i < j < |r| && order == Asc ==> !Before(SortKey(sortBy, r[j]), SortKey(sortBy, r[i])))
      && (forall i, j :: 0 <= i < j < |r| && order == Desc ==> !Before(SortKey(sortBy, r[i]), SortKey(sortBy, r[j])))
      && (forall k :: SameKey(r, sortBy, k) == SameKey(o, sortBy, k))
  {
    var o, r := Others(rs), SortedOthers(rs, sortBy, order);
    if KnownKey(sortBy) {
      var rank := Rank(o, sortBy, order);
      SortDescCorrect(o, rank);
      forall i, j | 0 <= i < j < |r|
        ensures order == Asc ==> !Before(SortKey(sortBy, r[j]), SortKey(sortBy, r[i]))
        ensures order == Desc ==> !Before(SortKey(sortBy, r[i]), SortKey(sortBy, r[j]))
      {
        assert r[i] in multiset(o) && r[j] in multiset(o);
        assert rank(r[i]) >= rank(r[j]);
        if Before(SortKey(sortBy, r[j]), SortKey(sortBy, r[i])) {
          RankStrict(o, sortBy, r[j], r[i]);
        }
        if Before(SortKey(sortBy, r[i]), SortKey(sortBy, r[j])) {
          RankStrict(o, sortBy, r[i], r[j]);
        }
      }
      forall k ensures SameKey(r, sortBy, k) == SameKey(o, sortBy, k) {
        StableByKey(o, r, sortBy, order, k);
      }
    }
  }

  /** The résumés of `s` whose key is `k`, in order. */
  function SameKey(s: seq<Resume>, sortBy: string, k: string): seq<Resume> {
    Filter(s, KeyEquals(sortBy, k))
  }

  function KeyEquals(sortBy: string, k: string): Resume -> bool {
    (r: Resume) => SortKey(sortBy, r) == k
  }

  lemma {:induction false} FilterSame<T>(s: seq<T>, p: T -> bool, q: T -> bool)
    requires forall i :: 0 <= i < |s| ==> p(s[i]) == q(s[i])
    ensures Filter(s, p) == Filter(s, q)
  {
    if s != [] {
      FilterSame(s[1..], p, q);
    }
  }

  lemma StableByKey(o: seq<Resume>, r: seq<Resume>, sortBy: string, order: SortOrder, k: string)
    requires r == SortDesc(o, Rank(o, sortBy, order))
    ensures SameKey(r, sortBy, k) == SameKey(o, sortBy, k)
  {
    var rank := Rank(o, sortBy, order);
    SortDescCorrect(o, rank);
    if x :| x in o && SortKey(sortBy, x) == k {
      var n := rank(x);
      forall i | 0 <= i < |o| ensures KeyEquals(sortBy, k)(o[i]) == KeyIs(rank, n)(o[i]) {
        RankTies(o, sortBy, order, o[i], x);
      }
      forall i | 0 <= i < |r| ensures KeyEquals(sortBy, k)(r[i]) == KeyIs(rank, n)(r[i]) {
        assert r[i] in multiset(o);
        RankTies(o, sortBy, order, r[i], x);
      }
      FilterSame(o, KeyEquals(sortBy, k), KeyIs(rank, n));
      FilterSame(r, KeyEquals(sortBy, k), KeyIs(rank, n));
      assert Ties(r, rank, n) == Ties(o, rank, n);
    } else {
      forall i | 0 <= i < |r| ensures !KeyEquals(sortBy, k)(r[i]) {
        assert r[i] in multiset(o);
      }
      NoneKept(r, KeyEquals(sortBy, k));
      NoneKept(o, KeyEquals(sortBy, k));
    }
  }

  lemma {:induction false} NoneKept<T>(s: seq<T>, p: T -> bool)
    requires forall i :: 0 <= i < |s| ==> !p(s[i])
    ensures Filter(s, p) == []
  {
    if s != [] {
      NoneKept(s[1..], p);
    }
  }

  // ---------------------------------------------------------------------------
  // The page state

  class ResumeListView {
    var resumes: seq<Resume>
    var sortBy: string
    var sortOrder: SortOrder

    constructor (fetched: seq<Resume>)
      ensures resumes == fetched && sortBy == "lastUpdated" && sortOrder == Desc
    {
      resumes, sortBy, sortOrder := fetched, "lastUpdated", Desc;
    }

    method HandleSetPrimary(id: string)
      modifies this
      ensures resumes == SetPrimary(old(resumes), id) && sortBy == old(sortBy) && sortOrder == old(sortOrder)
    {
      resumes := SetPrimary(resumes, id);
    }

    method HandleTogglePublic(id: string)
      modifies this
      ensures resumes == TogglePublic(old(resumes), id) && sortBy == old(sortBy) && sortOrder == old(sortOrder)
    {
      resumes := TogglePublic(resumes, id);
    }

    method HandleCopyResume(id: string, freshId: string, stamp: string)
      modifies this
      ensures resumes == CopyResume(old(resumes), id, freshId, stamp) && sortBy == old(sortBy) && sortOrder == old(sortOrder)
    {
      var found := FindById(resumes, id);
      if found.None? {
        return;
      }
      resumes := resumes + [CopyOf(found.value, freshId, stamp)];
    }

    method HandleDeleteResume(id: string)
      modifies this
      ensures resumes == DeleteResume(old(resumes), id) && sortBy == old(sortBy) && sortOrder == old(sortOrder)
    {
      resumes := DeleteResume(resumes, id);
    }

    method HandleSortChange(value: string)
      modifies this
      ensures sortBy == value && resumes == old(resumes) && sortOrder == old(sortOrder)
    {
      sortBy := value;
    }

    method HandleSortOrderToggle()
      modifies this
      ensures sortOrder == ToggleOrder(old(sortOrder)) && resumes == old(resumes) && sortBy == old(sortBy)
    {
      sortOrder := ToggleOrder(sortOrder);
    }
  }
}
