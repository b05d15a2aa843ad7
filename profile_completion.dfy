/**
 * The profile-completion card: which of the ten profile sections hold data, the
 * rounded completion percentage, and the sections still to fill in.
 */
module ProfileCompletion {
  import opened Lists
  import Text

  /** The JavaScript values a section of the fetched profile record can hold. */
  datatype SectionData =
    | Missing                                          // `undefined` or `null`
    | Flag(b: bool)
    | Number(n: int)
    | Str(s: string)
    | List(length: nat)
    /** An object with its own keys; `completedIsTrue` is `obj.completed === true`. */
    | Object(keys: set<string>, completedIsTrue: bool)

  /** An object whose `completed` property is `true` has that key among its own keys. */
  predicate WellFormed(d: SectionData) {
    d.Object? && d.completedIsTrue ==> "completed" in d.keys
  }

  /** JavaScript truthiness, the `if (!sectionData) return false` guard. */
  predicate Truthy(d: SectionData) {
    match d
    case Missing => false
    case Flag(b) => b
    case Number(n) => n != 0
    case Str(s) => s != ""
    case List(_) => true
    case Object(_, _) => true
  }

  /** The completion test of one section, branch by branch. */
  predicate IsComplete(d: SectionData) {
    if !Truthy(d) then false
    else match d
      case List(n) => n > 0
      case Str(s) => Text.Trim(s) != ""
      case Object(keys, c) => c || |keys| > 0
      case _ => false
  }

  /**
   * What the branches amount to: a non-empty array, a string with a character that
   * is not white space, or an object with at least one key. Booleans and numbers never
   * count, and the `completed === true` test adds nothing to the key count.
   */
  lemma CompleteMeans(d: SectionData)
    requires WellFormed(d)
    ensures IsComplete(d) <==>
              || (d.List? && d.length > 0)
              || (d.Str? && exists k :: 0 <= k < |d.s| && !Text.IsSpace(d.s[k]))
              || (d.Object? && d.keys != {})
  {
    if d.Object? && d.completedIsTrue {
      assert "completed" in d.keys;
    }
    if d.Str? && d.s == "" {
      assert Text.Trim(d.s) == "";
    }
  }

  /** The section ids, in display order. */
  const SectionIds: seq<string> :=
    ["work", "education", "language", "activity", "skill",
     "certificate", "link", "goal", "introduction", "military"]

  /** A fetched profile: section id to its data; an absent id reads as `undefined`. */
  type Profile = map<string, SectionData>

  function DataOf(p: Profile, id: string): SectionData {
    if id in p then p[id] else Missing
  }

  function CompleteIn(p: Profile): string -> bool {
    id => IsComplete(DataOf(p, id))
  }

  /** `completedSections`: the ids of the complete sections, in section order. */
  function CompletedSections(p: Profile): (r: seq<string>)
    ensures forall id :: id in r <==> id in SectionIds && IsComplete(DataOf(p, id))
    ensures IsSubsequence(r, SectionIds)
  {
    FilterIsSubsequence(SectionIds, CompleteIn(p));
    Filter(SectionIds, CompleteIn(p))
  }

  function NotIn(r: seq<string>): string -> bool {
    id => id !in r
  }

  /** `incompleteSections`: the sections whose ids are not among the completed ones. */
  function IncompleteSections(p: Profile): (r: seq<string>)
    ensures forall id :: id in r <==> id in SectionIds && !IsComplete(DataOf(p, id))
  {
    Filter(SectionIds, NotIn(CompletedSections(p)))
  }

  /** The completed and incomplete sections are disjoint and between them cover all ten. */
  lemma CompletedAndIncompletePartition(p: Profile)
    ensures forall id :: id in SectionIds <==> (id in CompletedSections(p) || id in IncompleteSections(p))
    ensures forall id :: !(id in CompletedSections(p) && id in IncompleteSections(p))
    ensures |CompletedSections(p)| + |IncompleteSections(p)| == |SectionIds|
  {
    var c := CompletedSections(p);
    forall k | 0 <= k < |SectionIds|
      ensures NotIn(c)(SectionIds[k]) == !CompleteIn(p)(SectionIds[k])
    {
      assert SectionIds[k] in SectionIds;
    }
    FilterSplits(SectionIds, CompleteIn(p), NotIn(c));
  }

  /**
   * `Math.round(completed / total * 100)` in exact arithmetic: the integer nearest to
   * the ratio in percent, halves rounding up.
   */
  function Percentage(completed: nat, total: nat): (r: int)
    requires total > 0
    ensures 2 * total * r <= 200 * completed + total < 2 * total * (r + 1)
    ensures completed <= total ==> 0 <= r <= 100
  {
    var n := 200 * completed + total;
    var d := 2 * total;
    DivisionBounds(n, d);
    if completed <= total then PercentageBound(n, d, n / d); n / d else n / d
  }

  lemma DivisionBounds(n: int, d: int)
    requires d > 0
    ensures d * (n / d) <= n < d * (n / d + 1)
  {
    assert n == d * (n / d) + n % d && 0 <= n % d < d;
  }

  lemma PercentageBound(n: int, d: int, q: int)
    requires d > 0 && 0 <= n < d * 101 && d * q <= n
    ensures q <= 100
  {
  }

  /** With ten sections, every completed section is worth exactly ten percent. */
  lemma TenSectionsPercentage(completed: nat)
    requires completed <= 10
    ensures Percentage(completed, 10) == 10 * completed
  {
    var r := Percentage(completed, 10);
    assert 20 * r <= 200 * completed + 10 < 20 * (r + 1);
  }

  /** The percentage on the card. */
  function CompletionPercentage(p: Profile): (r: int)
    ensures 0 <= r <= 100
    ensures r == 10 * |CompletedSections(p)|
  {
    TenSectionsPercentage(|CompletedSections(p)|);
    Percentage(|CompletedSections(p)|, |SectionIds|)
  }

  /** The placeholder record that stands in for the profile request. */
  const Sample: Profile := map[
    "work" := List(1),
    "education" := List(1),
    "language" := List(0),
    "activity" := List(0),
    "skill" := List(3),
    "certificate" := List(0),
    "link" := List(0),
    "goal" := Str("프론트엔드 개발자로 성장하기"),
    "introduction" := Str("안녕하세요, 신입 개발자입니다."),
    "military" := Object({"serviceType", "completed"}, true)
  ]

  /** A string whose first character is not white space completes its section. */
  lemma StartsWithTextComplete(s: string)
    requires s != [] && !Text.IsSpace(s[0])
    ensures IsComplete(Str(s))
  {
  }

  /** Which sections of the placeholder record are complete. */
  lemma SampleSections(p: Profile)
    requires p == Sample
    ensures CompleteIn(p)("work") && CompleteIn(p)("education") && CompleteIn(p)("skill")
    ensures CompleteIn(p)("goal") && CompleteIn(p)("introduction") && CompleteIn(p)("military")
    ensures !CompleteIn(p)("language") && !CompleteIn(p)("activity")
    ensures !CompleteIn(p)("certificate") && !CompleteIn(p)("link")
  {
    SampleFilledLists(p);
    SampleEmptyLists(p);
    SampleTexts(p);
  }

  lemma SampleFilledLists(p: Profile)
    requires p == Sample
    ensures CompleteIn(p)("work") && CompleteIn(p)("education") && CompleteIn(p)("skill")
  {
    assert DataOf(p, "work") == List(1);
    assert DataOf(p, "education") == List(1);
    assert DataOf(p, "skill") == List(3);
  }

  lemma SampleEmptyLists(p: Profile)
    requires p == Sample
    ensures !CompleteIn(p)("language") && !CompleteIn(p)("activity")
    ensures !CompleteIn(p)("certificate") && !CompleteIn(p)("link")
  {
    assert DataOf(p, "language") == List(0);
    assert DataOf(p, "activity") == List(0);
    assert DataOf(p, "certificate") == List(0);
    assert DataOf(p, "link") == List(0);
  }

  lemma SampleTexts(p: Profile)
    requires p == Sample
    ensures CompleteIn(p)("goal") && CompleteIn(p)("introduction") && CompleteIn(p)("military")
  {
    SampleText(p, "goal");
    SampleText(p, "introduction");
    assert DataOf(p, "military") == Object({"serviceType", "completed"}, true);
  }

  lemma SampleText(p: Profile, id: string)
    requires p == Sample && (id == "goal" || id == "introduction")
    ensures CompleteIn(p)(id)
  {
    var d := DataOf(p, id);
    assert d.Str? && d.s != [] && !Text.IsSpace(d.s[0]) by {
      if id == "goal" {
        assert d == Str("프론트엔드 개발자로 성장하기");
      } else {
        assert d == Str("안녕하세요, 신입 개발자입니다.");
      }
    }
    StartsWithTextComplete(d.s);
  }

  /** The placeholder record completes six of the ten sections: the card shows 60%. */
  lemma SampleIsSixtyPercent()
    ensures CompletedSections(Sample) == ["work", "education", "skill", "goal", "introduction", "military"]
    ensures CompletionPercentage(Sample) == 60
  {
    SampleSections(Sample);
    FilterSections(CompleteIn(Sample));
  }

  lemma SectionIdsSpelled()
    ensures SectionIds == ["work"] + (["education"] + (["language"] + (["activity"] + (["skill"]
                          + (["certificate"] + (["link"] + (["goal"] + (["introduction"] + (["military"] + [])))))))))
  {
  }

  /** Filtering the section ids with a test that passes exactly the given six. */
  lemma FilterSections(f: string -> bool)
    requires f("work") && f("education") && f("skill") && f("goal") && f("introduction") && f("military")
    requires !f("language") && !f("activity") && !f("certificate") && !f("link")
    ensures Filter(SectionIds, f) == ["work", "education", "skill", "goal", "introduction", "military"]
  {
    FilterSpelledSections(f);
    SectionIdsSpelled();
    assert Filter(SectionIds, f) == ["work"] + (["education"] + (["skill"] + (["goal"] + (["introduction"] + (["military"] + [])))));
    CompleteSpelled();
  }

  lemma CompleteSpelled()
    ensures ["work", "education", "skill", "goal", "introduction", "military"]
            == ["work"] + (["education"] + (["skill"] + (["goal"] + (["introduction"] + (["military"] + [])))))
  {
  }

  lemma FilterSpelledSections(f: string -> bool)
    requires f("work") && f("education") && f("skill") && f("goal") && f("introduction") && f("military")
    requires !f("language") && !f("activity") && !f("certificate") && !f("link")
    ensures Filter(["work"] + (["education"] + (["language"] + (["activity"] + (["skill"] + (["certificate"] + (["link"] + (["goal"] + (["introduction"] + (["military"] + []))))))))), f)
            == ["work"] + (["education"] + (["skill"] + (["goal"] + (["introduction"] + (["military"] + [])))))
  {
    var done: seq<string> := [];
    var kept: seq<string> := [];
    assert Filter(done, f) == kept;
    FilterCons("military", done, f);
    done := ["military"] + done;
    kept := ["military"] + kept;
    assert Filter(done, f) == kept;
    FilterCons("introduction", done, f);
    done := ["introduction"] + done;
    kept := ["introduction"] + kept;
    assert Filter(done, f) == kept;
    FilterCons("goal", done, f);
    done := ["goal"] + done;
    kept := ["goal"] + kept;
    assert Filter(done, f) == kept;
    FilterCons("link", done, f);
    done := ["link"] + done;
    assert Filter(done, f) == kept;
    FilterCons("certificate", done, f);
    done := ["certificate"] + done;
    assert Filter(done, f) == kept;
    FilterCons("skill", done, f);
    done := ["skill"] + done;
    kept := ["skill"] + kept;
    assert Filter(done, f) == kept;
    FilterCons("activity", done, f);
    done := ["activity"] + done;
    assert Filter(done, f) == kept;
    FilterCons("language", done, f);
    done := ["language"] + done;
    assert Filter(done, f) == kept;
    FilterCons("education", done, f);
    done := ["education"] + done;
    kept := ["education"] + kept;
    assert Filter(done, f) == kept;
    FilterCons("work", done, f);
    done := ["work"] + done;
    kept := ["work"] + kept;
    assert Filter(done, f) == kept;
  }
}
