/**
 * The dashboard's own state: the tracked companies and the job-interest series derived
 * from them, and the four-column application board with its drop, add and remove handlers.
 */
module Dashboard {
  import opened Wrappers
  import opened Text
  import opened Lists
  import opened BubbleChart
  import opened InterestChart

  /** `JOB_COLORS`, in key order. */
  const JobColors: seq<(string, string)> := [
    ("프론트엔드", "#4f46e5"), ("백엔드", "#8b5cf6"), ("풀스택", "#10b981"), ("데이터 분석", "#f59e0b"),
    ("DevOps", "#ef4444"), ("모바일 앱", "#ec4899"), ("UI/UX", "#06b6d4"), ("AI/ML", "#14b8a6")]

  function Categories(): (r: seq<string>)
    ensures |r| == |JobColors|
    ensures forall i :: 0 <= i < |r| ==> r[i] == JobColors[i].0
  {
    seq(|JobColors|, i requires 0 <= i < |JobColors| => JobColors[i].0)
  }

  /** `JOB_COLORS[label] || "#888888"`. */
  function ColorOf(category: string): (c: string)
    ensures forall i :: 0 <= i < |JobColors| && JobColors[i].0 == category ==> c == JobColors[i].1
    ensures (forall i :: 0 <= i < |JobColors| ==> JobColors[i].0 != category) ==> c == "#888888"
  {
    ColorIn(JobColors, category)
  }

  function ColorIn(table: seq<(string, string)>, category: string): (c: string)
    requires forall i, j :: 0 <= i < j < |table| ==> table[i].0 != table[j].0
    ensures forall i :: 0 <= i < |table| && table[i].0 == category ==> c == table[i].1
    ensures (forall i :: 0 <= i < |table| ==> table[i].0 != category) ==> c == "#888888"
  {
    if table == [] then "#888888"
    else if table[0].0 == category then table[0].1
    else ColorIn(table[1..], category)
  }

  function ValueOf(j: JobInterest): int {
    j.value
  }

  /** `Object.entries(categoryCounts).map(...)`, before sorting: one entry per colour key, in key order. */
  function Entries(companies: seq<Company>): (r: seq<JobInterest>)
    ensures |r| == |JobColors|
    ensures forall i :: 0 <= i < |r| ==>
      r[i] == JobInterest(JobColors[i].0, CategoryCount(companies, JobColors[i].0), ColorOf(JobColors[i].0))
  {
    seq(|JobColors|, i requires 0 <= i < |JobColors| =>
      JobInterest(JobColors[i].0, CategoryCount(companies, JobColors[i].0), ColorOf(JobColors[i].0)))
  }

  /** The job-interest series: the entries ordered by value, largest first, ties in key order. */
  function JobInterestsFor(companies: seq<Company>): seq<JobInterest> {
    SortDesc(Entries(companies), ValueOf)
  }

  /**
   * Exactly one entry per colour key (eight, none dropped), each counting the companies
   * of its category and carrying that category's colour, largest value first, with
   * entries of equal value in key order.
   */
  lemma JobInterestsCorrect(companies: seq<Company>)
    ensures var r := JobInterestsFor(companies);
      && |r| == |JobColors|
      && SortedDesc(r, ValueOf)
      && multiset(r) == multiset(Entries(companies))
      && SameTies(r, Entries(companies), ValueOf)
      && (forall i :: 0 <= i < |r| ==> r[i].value == CategoryCount(companies, r[i].category))
      && (forall i :: 0 <= i < |r| ==> r[i].color == ColorOf(r[i].category))
      && (forall k :: 0 <= k < |JobColors| ==> exists i :: 0 <= i < |r| && r[i].category == JobColors[k].0)
  {
    SortDescCorrect(Entries(companies), ValueOf);
    SortedEntryFacts(companies, Entries(companies), JobInterestsFor(companies));
    var e, r := Entries(companies), JobInterestsFor(companies);
    forall k | 0 <= k < |JobColors| ensures exists i :: 0 <= i < |r| && r[i].category == JobColors[k].0 {
      assert e[k] in multiset(r);
      var i :| 0 <= i < |r| && r[i] == e[k];
    }
  }

  /** Every element of a permutation of the entries carries its category's count and colour. */
  lemma SortedEntryFacts(companies: seq<Company>, e: seq<JobInterest>, r: seq<JobInterest>)
    requires e == Entries(companies) && multiset(r) == multiset(e)
    ensures forall i :: 0 <= i < |r| ==> r[i].value == CategoryCount(companies, r[i].category) && r[i].color == ColorOf(r[i].category)
  {
    forall i | 0 <= i < |r|
      ensures r[i].value == CategoryCount(companies, r[i].category) && r[i].color == ColorOf(r[i].category)
    {
      assert r[i] in multiset(e);
      EntryFacts(companies, r[i]);
    }
  }

  lemma EntryFacts(companies: seq<Company>, x: JobInterest)
    requires x in Entries(companies)
    ensures x.value == CategoryCount(companies, x.category) && x.color == ColorOf(x.category)
  {
    var e := Entries(companies);
    var k :| 0 <= k < |e| && e[k] == x;
  }

  /** With the four initial companies, the chart's five bars are 프론트엔드 2, 백엔드 1, 풀스택 1, 데이터 분석 0, DevOps 0. */
  lemma InitialBarData()
    ensures BarData(Counts(InitialCompanies))
      == [Bar("프론트엔드", 2, 0), Bar("백엔드", 1, 1), Bar("풀스택", 1, 2), Bar("데이터 분석", 0, 3), Bar("DevOps", 0, 4)]
  {
    InitialCounts();
    BarDataOfCounts(Counts(InitialCompanies));
  }

  /** The five bars for the counts of the initial companies. */
  lemma BarDataOfCounts(counts: seq<nat>)
    requires counts == [2, 1, 1, 0, 0, 0, 0, 0]
    ensures BarData(counts)
      == [Bar("프론트엔드", 2, 0), Bar("백엔드", 1, 1), Bar("풀스택", 1, 2), Bar("데이터 분석", 0, 3), Bar("DevOps", 0, 4)]
  {
    var u := Unsorted(counts);
    assert forall i :: 0 <= i < |u| ==> CountOf(u[i]) == counts[i];
    assert SortedDesc(u, CountOf);
    BarDataOfSorted(counts);
    assert u[..5] == [u[0], u[1], u[2], u[3], u[4]];
  }

  /** Counts already in descending order are shown as they stand. */
  lemma BarDataOfSorted(counts: seq<nat>)
    requires |counts| == |JobInterests|
    requires SortedDesc(Unsorted(counts), CountOf)
    ensures BarData(counts) == Unsorted(counts)[..5]
  {
    SortDescOfSorted(Unsorted(counts), CountOf);
  }

  lemma InitialCounts()
    ensures Counts(InitialCompanies) == [2, 1, 1, 0, 0, 0, 0, 0]
  {
    var cs := InitialCompanies;
    forall k | 0 <= k < |JobInterests| ensures CategoryCount(cs, JobInterests[k]) == [2, 1, 1, 0, 0, 0, 0, 0][k] {
      var l := JobInterests[k];
      assert cs[..1][..0] == [] && cs[..2][..1] == cs[..1] && cs[..3][..2] == cs[..2] && cs[..4][..3] == cs[..3];
      assert CategoryCount(cs[..1], l) == (if cs[0].jobCategory == l then 1 else 0);
      assert CategoryCount(cs[..2], l) == CategoryCount(cs[..1], l) + (if cs[1].jobCategory == l then 1 else 0);
      assert CategoryCount(cs[..3], l) == CategoryCount(cs[..2], l) + (if cs[2].jobCategory == l then 1 else 0);
      assert cs[..4] == cs;
    }
  }

  const InitialCompanies: seq<Company> := [
    Company("네이버", "프론트엔드"), Company("카카오", "백엔드"),
    Company("라인", "풀스택"), Company("쿠팡", "프론트엔드")]

  // ---------------------------------------------------------------------------
  // The application board

  datatype Column = Applied | Document | Final | Rejected
  datatype Item = Item(id: string, company: string)
  type Board = map<Column, seq<Item>>

  ghost predicate IsBoard(b: Board) {
    forall c: Column :: c in b
  }

  function HasNotId(id: string): Item -> bool {
    (x: Item) => x.id != id
  }

  function Total(b: Board): nat
    requires IsBoard(b)
  {
    |b[Applied]| + |b[Document]| + |b[Final]| + |b[Rejected]|
  }

  function Occurrences(s: seq<Item>, id: string): (n: nat)
    ensures n == |s| - |Filter(s, HasNotId(id))|
  {
    if s == [] then 0
    else (if s[0].id == id then 1 else 0) + Occurrences(s[1..], id)
  }

  /** `removeApplication`: drops every item with that id from that column; the other columns stay as they were. */
  function RemoveApplication(b: Board, id: string, column: Column): (r: Board)
    requires IsBoard(b)
    ensures IsBoard(r)
    ensures IsSubsequence(r[column], b[column])
    ensures forall k :: 0 <= k < |r[column]| ==> r[column][k].id != id
    ensures forall k :: 0 <= k < |b[column]| ==> (b[column][k] in r[column] <==> b[column][k].id != id)
    ensures forall x :: multiset(r[column])[x] == if x.id != id then multiset(b[column])[x] else 0
    ensures forall c :: c != column ==> r[c] == b[c]
  {
    FilterIsSubsequence(b[column], HasNotId(id));
    FilterMultiplicity(b[column], HasNotId(id));
    b[column := Filter(b[column], HasNotId(id))]
  }

  /** `handleDrop`: a drop on the column it came from changes nothing; otherwise the item leaves the source and joins the end of the target. */
  function Drop(b: Board, item: Item, source: Column, target: Column): (r: Board)
    requires IsBoard(b)
    ensures IsBoard(r)
    ensures source == target ==> r == b
    ensures source != target ==>
      && r[source] == Filter(b[source], HasNotId(item.id))
      && r[target] == b[target] + [item]
      && (forall c :: c != source && c != target ==> r[c] == b[c])
  {
    if source == target then b
    else b[source := Filter(b[source], HasNotId(item.id))][target := b[target] + [item]]
  }

  /** Moving an item found once in its source column keeps the number of cards on the board. */
  lemma DropKeepsTotal(b: Board, item: Item, source: Column, target: Column)
    requires IsBoard(b) && source != target
    ensures Total(Drop(b, item, source, target)) == Total(b) - Occurrences(b[source], item.id) + 1
    ensures Occurrences(b[source], item.id) == 1 ==> Total(Drop(b, item, source, target)) == Total(b)
  {
  }

  /** `handleAddApplication`: a new card with the given id and the trimmed company name at the end of "applied". */
  function AddApplication(b: Board, company: string, freshId: string): (r: Board)
    requires IsBoard(b)
    ensures IsBoard(r)
    ensures IsBlank(company) ==> r == b
    ensures !IsBlank(company) ==> r[Applied] == b[Applied] + [Item(freshId, Trim(company))]
    ensures forall c :: c != Applied ==> r[c] == b[c]
  {
    if IsBlank(company) then b else b[Applied := b[Applied] + [Item(freshId, Trim(company))]]
  }

  const InitialBoard: Board := map[
    Applied := [Item("1", "네이버"), Item("2", "라인")],
    Document := [Item("3", "카카오")],
    Final := [Item("4", "토스")],
    Rejected := [Item("5", "쿠팡")]]

  class Dashboard {
    var companies: seq<Company>
    var jobInterests: seq<JobInterest>
    var applications: Board
    var newApplication: string

    ghost predicate Valid()
      reads this
    {
      IsBoard(applications)
    }

    constructor ()
      ensures Valid()
      ensures companies == InitialCompanies && jobInterests == [] && applications == InitialBoard
    {
      companies := InitialCompanies;
      jobInterests := [];
      applications := InitialBoard;
      newApplication := "";
      new;
      forall c: Column ensures c in applications {
        match c
        case Applied =>
        case Document =>
        case Final =>
        case Rejected =>
      }
    }

    /** `updateJobInterests`, run by the effect after every change of `companies`. */
    method UpdateJobInterests()
      requires Valid()
      modifies this`jobInterests
      ensures Valid()
      ensures jobInterests == JobInterestsFor(companies)
      ensures companies == old(companies) && applications == old(applications)
    {
      var categoryCounts := CountJobs(Categories(), companies);
      var entries := seq(|JobColors|, i requires 0 <= i < |JobColors| =>
        JobInterest(JobColors[i].0, categoryCounts[JobColors[i].0], ColorOf(JobColors[i].0)));
      assert forall i :: 0 <= i < |JobColors| ==> JobColors[i].0 in categoryCounts;
      assert entries == Entries(companies);
      jobInterests := SortDesc(entries, ValueOf);
    }

    /** `handleAddCompany`: appends the trimmed name with its category when the name is not blank and a category is given. */
    method AddCompany(name: string, jobCategory: string)
      requires Valid()
      modifies this`companies
      ensures Valid()
      ensures !IsBlank(name) && jobCategory != "" ==> companies == old(companies) + [Company(Trim(name), jobCategory)]
      ensures IsBlank(name) || jobCategory == "" ==> companies == old(companies)
      ensures applications == old(applications) && jobInterests == old(jobInterests)
    {
      if !IsBlank(name) && jobCategory != "" {
        companies := companies + [Company(Trim(name), jobCategory)];
      }
    }

    /** `handleRemoveCompany`: removes exactly the company at `index`. */
    method RemoveCompany(index: int)
      requires Valid()
      modifies this`companies
      ensures Valid()
      ensures companies == RemoveAt(old(companies), index)
      ensures applications == old(applications) && jobInterests == old(jobInterests)
    {
      companies := RemoveAt(companies, index);
    }

    method RemoveApplicationClick(id: string, column: Column)
      requires Valid()
      modifies this`applications
      ensures Valid()
      ensures applications == RemoveApplication(old(applications), id, column)
      ensures companies == old(companies)
    {
      applications := RemoveApplication(applications, id, column);
    }

    method HandleDrop(item: Item, source: Column, target: Column)
      requires Valid()
      modifies this`applications
      ensures Valid()
      ensures applications == Drop(old(applications), item, source, target)
      ensures companies == old(companies)
    {
      if source == target {
        return;
      }
      applications := Drop(applications, item, source, target);
    }

    /** `handleAddApplication` with `freshId` standing for `Date.now().toString()`; the input is cleared only when a card was added. */
    method HandleAddApplication(company: string, freshId: string)
      requires Valid()
      modifies this`applications, this`newApplication
      ensures Valid()
      ensures applications == AddApplication(old(applications), company, freshId)
      ensures IsBlank(company) ==> newApplication == old(newApplication)
      ensures !IsBlank(company) ==> newApplication == ""
      ensures companies == old(companies)
    {
      if IsBlank(company) {
        return;
      }
      applications := AddApplication(applications, company, freshId);
      newApplication := "";
    }
  }
}
