/**
 * The specification page: the skill tags, the three editable career cards,
 * the accordion of sections, and the eight entry forms (work experience,
 * education, certificates, links, languages, projects, activities, military
 * service), which all share one add / remove / update pattern over a list of
 * records keyed by field name.
 */
module SpecManagement {
  import opened Wrappers
  import opened Text
  import opened Lists

  // ---------------------------------------------------------------------------------------------
  // Skills

  ghost predicate NoDuplicates(s: seq<string>) {
    forall i, j :: 0 <= i < j < |s| ==> s[i] != s[j]
  }

  const InitialSkills: seq<string> := ["React", "TypeScript", "Next.js", "Node.js", "Tailwind CSS"]

  function IsNot(x: string): string -> bool {
    (s: string) => s != x
  }

  /** `removeSkill`: every copy of the skill goes, the others keep their order. */
  function RemoveSkill(skills: seq<string>, x: string): (r: seq<string>)
    ensures x !in r
    ensures IsSubsequence(r, skills)
    ensures forall s :: s in skills && s != x ==> s in r
  {
    FilterIsSubsequence(skills, IsNot(x));
    Filter(skills, IsNot(x))
  }

  /** An order-preserving subsequence of a duplicate-free list is duplicate-free. */
  lemma {:induction false} SubsequenceNoDuplicates(a: seq<string>, b: seq<string>)
    requires IsSubsequence(a, b) && NoDuplicates(b)
    ensures NoDuplicates(a)
    decreases |b|
  {
    if a != [] && b != [] {
      if a[0] == b[0] {
        assert IsSubsequence(a[1..], b[1..]);
        SubsequenceNoDuplicates(a[1..], b[1..]);
        forall j | 0 < j < |a| ensures a[0] != a[j] {
          assert a[j] == a[1..][j - 1];
          SubsequenceMember(a[1..], b[1..], j - 1);
        }
      } else {
        SubsequenceNoDuplicates(a, b[1..]);
      }
    }
  }

  /** Each element of an order-preserving subsequence occurs in the list. */
  lemma {:induction false} SubsequenceMember(a: seq<string>, b: seq<string>, i: int)
    requires IsSubsequence(a, b) && 0 <= i < |a|
    ensures a[i] in b
    decreases |b|
  {
    if a[0] == b[0] {
      if i > 0 {
        SubsequenceMember(a[1..], b[1..], i - 1);
      }
    } else {
      SubsequenceMember(a, b[1..], i);
    }
  }

  /** `handleSectionClick`: a click on the open section closes it, any other click opens the clicked one. */
  function ToggleSection(active: Option<string>, section: string): (r: Option<string>)
    ensures r == None <==> active == Some(section)
    ensures r != None ==> r == Some(section)
  {
    if active == Some(section) then None else Some(section)
  }

  /** Two clicks on the same section: back to closed, unless it was open before. */
  lemma ToggleSectionTwice(active: Option<string>, section: string)
    ensures ToggleSection(ToggleSection(active, section), section) == if active == Some(section) then active else None
  {
  }

  class Page {
    var activeSection: Option<string>
    var skills: seq<string>
    var newSkill: string
    var careerStats: map<string, string>
    var editingCard: Option<string>
    var editValue: string

    ghost predicate Valid()
      reads this
    {
      NoDuplicates(skills)
    }

    constructor()
      ensures Valid() && skills == InitialSkills && newSkill == "" && activeSection == None && editingCard == None
      ensures careerStats == map["experience" := "0개월", "workRecords" := "0개", "careerGoal" := "커리어 목표를 입력해 주세요"]
    {
      activeSection := None;
      skills := InitialSkills;
      newSkill := "";
      careerStats := map["experience" := "0개월", "workRecords" := "0개", "careerGoal" := "커리어 목표를 입력해 주세요"];
      editingCard := None;
      editValue := "";
    }

    /** `addSkill`: appends the trimmed input when it is non-blank and new, and only then clears the input. */
    method AddSkill()
      requires Valid()
      modifies this
      ensures Valid()
      ensures !IsBlank(old(newSkill)) && Trim(old(newSkill)) !in old(skills) ==>
        skills == old(skills) + [Trim(old(newSkill))] && newSkill == ""
      ensures IsBlank(old(newSkill)) || Trim(old(newSkill)) in old(skills) ==>
        skills == old(skills) && newSkill == old(newSkill)
      ensures activeSection == old(activeSection) && careerStats == old(careerStats)
      ensures editingCard == old(editingCard) && editValue == old(editValue)
    {
      var skill := Trim(newSkill);
      if skill != [] && skill !in skills {
        skills := skills + [skill];
        newSkill := "";
      }
    }

    /** `removeSkill` on the page's list. */
    method HandleRemoveSkill(x: string)
      requires Valid()
      modifies this
      ensures Valid()
      ensures skills == RemoveSkill(old(skills), x) && newSkill == old(newSkill)
      ensures activeSection == old(activeSection) && careerStats == old(careerStats)
      ensures editingCard == old(editingCard) && editValue == old(editValue)
    {
      SubsequenceNoDuplicates(RemoveSkill(skills, x), skills);
      skills := RemoveSkill(skills, x);
    }

    method HandleSectionClick(section: string)
      modifies this
      ensures activeSection == ToggleSection(old(activeSection), section)
      ensures skills == old(skills) && newSkill == old(newSkill) && careerStats == old(careerStats)
      ensures editingCard == old(editingCard) && editValue == old(editValue)
    {
      activeSection := ToggleSection(activeSection, section);
    }

    /** `handleEditCard`: starts editing `field` with its current text. */
    method HandleEditCard(field: string, value: string)
      modifies this
      ensures editingCard == Some(field) && editValue == value
      ensures activeSection == old(activeSection) && skills == old(skills) && newSkill == old(newSkill)
      ensures careerStats == old(careerStats)
    {
      editingCard := Some(field);
      editValue := value;
    }

    /**
     * `saveCardEdit`: writes the edited text into the card being edited and ends editing;
     * with no card being edited (`null`, or the falsy empty name) nothing happens.
     */
    method SaveCardEdit()
      modifies this
      ensures old(editingCard).Some? && old(editingCard).value != "" ==>
        careerStats == old(careerStats)[old(editingCard).value := old(editValue)] && editingCard == None
      ensures old(editingCard).None? || old(editingCard).value == "" ==>
        careerStats == old(careerStats) && editingCard == old(editingCard)
      ensures activeSection == old(activeSection) && skills == old(skills) && newSkill == old(newSkill)
      ensures editValue == old(editValue)
    {
      if editingCard.Some? && editingCard.value != "" {
        careerStats := careerStats[editingCard.value := editValue];
        editingCard := None;
      }
    }
  }

  // ---------------------------------------------------------------------------------------------
  // Entry forms

  /** A field value: text, or the `isCurrent` check box. */
  datatype Value = Str(s: string) | Bool(b: bool)

  /** One form entry as a JavaScript object: field name to value, with its id under "id". */
  type Entry = map<string, Value>

  datatype Kind = Work | Education | Certificate | Link | Language | Project | Activity | Military

  /** The id prefix of each form, as in `"work-" + Date.now()`. */
  function Prefix(k: Kind): string {
    match k
    case Work => "work-"
    case Education => "edu-"
    case Certificate => "cert-"
    case Link => "link-"
    case Language => "lang-"
    case Project => "proj-"
    case Activity => "act-"
    case Military => "mil-"
  }

  function Blanks(names: seq<string>): (r: Entry)
    ensures forall n :: n in r <==> n in names
    ensures forall n :: n in r ==> r[n] == Str("")
  {
    if names == [] then map[] else Blanks(names[1..])[names[0] := Str("")]
  }

  /** The fields of a blank entry of each form, all empty (the check boxes unticked). */
  function Template(k: Kind): Entry {
    match k
    case Work => Blanks(["company", "position", "startDate", "endDate", "description"])["isCurrent" := Bool(false)]
    case Education => Blanks(["school", "major", "degree", "startDate", "endDate"])["isCurrent" := Bool(false)]
    case Certificate => Blanks(["name", "issuer", "acquisitionDate", "expirationDate"])
    case Link => Blanks(["title", "url", "description"])
    case Language => Blanks(["language", "level", "testName", "score"])
    case Project => Blanks(["name", "startDate", "endDate", "description", "technologies", "url"])
    case Activity => Blanks(["name", "organization", "startDate", "endDate", "description"])
    case Military => Blanks(["serviceType", "militaryBranch", "startDate", "endDate", "position", "note"])
  }

  /** A new blank entry; `stamp` stands for `Date.now()`. */
  function BlankEntry(k: Kind, stamp: string): (r: Entry)
    ensures "id" in r && r["id"] == Str(Prefix(k) + stamp)
    ensures forall n :: n in r && n != "id" ==> n in Template(k) && r[n] == Template(k)[n]
  {
    Template(k)["id" := Str(Prefix(k) + stamp)]
  }

  /** `exp.id === id`. */
  predicate HasId(e: Entry, id: string) {
    "id" in e && e["id"] == Str(id)
  }

  function LacksId(id: string): Entry -> bool {
    (e: Entry) => !HasId(e, id)
  }

  ghost predicate DistinctIds(entries: seq<Entry>) {
    forall i, j :: 0 <= i < j < |entries| && "id" in entries[i] && "id" in entries[j] ==> entries[i]["id"] != entries[j]["id"]
  }

  /** `removeWorkExperience` and its seven twins: with more than one entry, every entry with the id goes; a single entry stays. */
  function RemoveEntry(entries: seq<Entry>, id: string): (r: seq<Entry>)
    ensures |entries| <= 1 ==> r == entries
    ensures IsSubsequence(r, entries)
    ensures |entries| > 1 ==> forall k :: 0 <= k < |r| ==> !HasId(r[k], id)
    ensures |entries| > 1 ==> forall x :: multiset(r)[x] == if HasId(x, id) then 0 else multiset(entries)[x]
  {
    if |entries| > 1 then
      FilterIsSubsequence(entries, LacksId(id));
      FilterMultiplicity(entries, LacksId(id));
      Filter(entries, LacksId(id))
    else
      assert IsSubsequence(entries, entries) by {
        FilterAll(entries, (e: Entry) => true);
        FilterIsSubsequence(entries, (e: Entry) => true);
      }
      entries
  }

  /** Removing entries keeps the remaining ids distinct. */
  lemma {:induction false} FilterKeepsDistinctIds(entries: seq<Entry>, p: Entry -> bool)
    requires DistinctIds(entries)
    ensures DistinctIds(Filter(entries, p))
  {
    if entries != [] {
      var t := entries[1..];
      TailDistinctIds(entries);
      FilterKeepsDistinctIds(t, p);
      assert entries == [entries[0]] + t;
      FilterCons(entries[0], t, p);
      if p(entries[0]) {
        var g := Filter(t, p);
        forall k | 0 <= k < |g| && "id" in entries[0] && "id" in g[k] ensures entries[0]["id"] != g[k]["id"] {
          var m :| 0 <= m < |t| && t[m] == g[k];
          assert t[m] == entries[m + 1];
        }
        ConsDistinctIds(entries[0], g);
      }
    }
  }

  lemma TailDistinctIds(entries: seq<Entry>)
    requires entries != [] && DistinctIds(entries)
    ensures DistinctIds(entries[1..])
  {
    var t := entries[1..];
    forall i, j | 0 <= i < j < |t| && "id" in t[i] && "id" in t[j] ensures t[i]["id"] != t[j]["id"] {
      assert t[i] == entries[i + 1] && t[j] == entries[j + 1];
    }
  }

  lemma ConsDistinctIds(e: Entry, g: seq<Entry>)
    requires DistinctIds(g)
    requires forall k :: 0 <= k < |g| && "id" in e && "id" in g[k] ==> e["id"] != g[k]["id"]
    ensures DistinctIds([e] + g)
  {
    var r := [e] + g;
    forall i, j | 0 <= i < j < |r| && "id" in r[i] && "id" in r[j] ensures r[i]["id"] != r[j]["id"] {
      assert r[j] == g[j - 1];
      if i > 0 {
        assert r[i] == g[i - 1];
      }
    }
  }

  /** With distinct ids a removal takes at most one entry, so a non-empty list never becomes empty. */
  lemma RemoveEntryKeepsOne(entries: seq<Entry>, id: string)
    requires |entries| >= 1 && DistinctIds(entries)
    ensures |RemoveEntry(entries, id)| >= 1
  {
    if |entries| > 1 {
      if HasId(entries[0], id) {
        assert !HasId(entries[1], id);
        assert entries[1] in Filter(entries, LacksId(id));
      } else {
        assert entries[0] in Filter(entries, LacksId(id));
      }
    }
  }

  /** Without distinct ids the guard is not enough: two entries stamped in the same millisecond both go. */
  lemma RemoveEntrySharedIdEmpties(stamp: string)
    ensures RemoveEntry([BlankEntry(Work, stamp), BlankEntry(Work, stamp)], "work-" + stamp) == []
  {
    var e := BlankEntry(Work, stamp);
    assert HasId(e, "work-" + stamp);
    assert Filter([e, e], LacksId("work-" + stamp)) == [];
  }

  /** `updateWorkExperience` and its twins: `{ ...exp, [field]: value }` on the entries with the id. */
  function UpdateEntry(entries: seq<Entry>, id: string, field: string, value: Value): (r: seq<Entry>)
    ensures |r| == |entries|
    ensures forall i :: 0 <= i < |r| && HasId(entries[i], id) ==>
      field in r[i] && r[i][field] == value
      && r[i].Keys == entries[i].Keys + {field}
      && forall f :: f in entries[i] && f != field ==> r[i][f] == entries[i][f]
    ensures forall i :: 0 <= i < |r| && !HasId(entries[i], id) ==> r[i] == entries[i]
  {
    seq(|entries|, i requires 0 <= i < |entries| => if HasId(entries[i], id) then entries[i][field := value] else entries[i])
  }

  /** Updating a field other than the id keeps every entry's id, so ids stay distinct. */
  lemma UpdateEntryKeepsIds(entries: seq<Entry>, id: string, field: string, value: Value)
    requires field != "id" && DistinctIds(entries)
    ensures DistinctIds(UpdateEntry(entries, id, field, value))
    ensures forall i :: 0 <= i < |entries| ==> ("id" in UpdateEntry(entries, id, field, value)[i] <==> "id" in entries[i])
  {
    var r := UpdateEntry(entries, id, field, value);
    forall i | 0 <= i < |entries| && "id" in entries[i] ensures "id" in r[i] && r[i]["id"] == entries[i]["id"] {
    }
  }

  class EntryForm {
    const kind: Kind
    var entries: seq<Entry>

    /** The form never runs out of entries, and no two entries share an id. */
    ghost predicate Valid()
      reads this
    {
      |entries| >= 1 && DistinctIds(entries)
    }

    /** The form's initial state: one blank entry. */
    constructor(kind: Kind, stamp: string)
      ensures Valid()
      ensures this.kind == kind && entries == [BlankEntry(kind, stamp)]
    {
      this.kind := kind;
      entries := [BlankEntry(kind, stamp)];
    }

    /** `addWorkExperience` and its twins: appends one blank entry, stamped later than every entry so far. */
    method Add(stamp: string)
      requires Valid()
      requires forall k :: 0 <= k < |entries| ==> !HasId(entries[k], Prefix(kind) + stamp)
      modifies this
      ensures Valid()
      ensures entries == old(entries) + [BlankEntry(kind, stamp)]
    {
      var e := BlankEntry(kind, stamp);
      var r := entries + [e];
      forall i, j | 0 <= i < j < |r| && "id" in r[i] && "id" in r[j] ensures r[i]["id"] != r[j]["id"] {
        assert r[i] == entries[i];
        if j < |entries| {
          assert r[j] == entries[j];
        } else {
          assert !HasId(entries[i], Prefix(kind) + stamp);
        }
      }
      entries := r;
    }

    /** `removeWorkExperience` and its twins: the guarded filter, which never empties the form. */
    method Remove(id: string)
      requires Valid()
      modifies this
      ensures Valid()
      ensures entries == RemoveEntry(old(entries), id)
    {
      RemoveEntryKeepsOne(entries, id);
      if |entries| > 1 {
        FilterKeepsDistinctIds(entries, LacksId(id));
        entries := Filter(entries, LacksId(id));
      }
    }

    /** `updateWorkExperience` and its twins; the form's inputs write named fields, never the id. */
    method Update(id: string, field: string, value: Value)
      requires Valid() && field != "id"
      modifies this
      ensures Valid()
      ensures entries == UpdateEntry(old(entries), id, field, value)
    {
      UpdateEntryKeepsIds(entries, id, field, value);
      entries := UpdateEntry(entries, id, field, value);
    }
  }
}
