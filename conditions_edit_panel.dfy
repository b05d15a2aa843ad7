/**
 * The desired-conditions dialog: three tag lists (job types, locations,
 * preferences), each with its own text input, and the minimum-salary field. The
 * state is one record that every handler replaces by a copy with one or two
 * fields changed.
 */
module ConditionsEditPanel {
  import opened Text
  import opened Lists

  datatype ListField = JobTypes | Locations | Preferences

  /** The text fields `handleChange` is called with. */
  datatype TextField = MinSalary | NewJobType | NewLocation | NewPreference

  datatype Conditions = Conditions(
    jobTypes: seq<string>, locations: seq<string>, minSalary: string, preferences: seq<string>,
    newJobType: string, newLocation: string, newPreference: string)

  const Initial: Conditions := Conditions(
    ["웹・SW 개발", "프론트엔드 개발", "백엔드 개발"], ["서울특별시", "경기도"], "3500",
    ["재택근무 가능", "유연근무제", "주 4일 근무"], "", "", "")

  /** `prev[field]` for a list field. */
  function ListOf(c: Conditions, f: ListField): seq<string> {
    match f
    case JobTypes => c.jobTypes
    case Locations => c.locations
    case Preferences => c.preferences
  }

  /** `prev[field]` for a text field. */
  function TextOf(c: Conditions, f: TextField): string {
    match f
    case MinSalary => c.minSalary
    case NewJobType => c.newJobType
    case NewLocation => c.newLocation
    case NewPreference => c.newPreference
  }

  /** `{ ...prev, [field]: v }` for a list field. */
  function WithList(c: Conditions, f: ListField, v: seq<string>): (r: Conditions)
    ensures ListOf(r, f) == v
    ensures forall g :: g != f ==> ListOf(r, g) == ListOf(c, g)
    ensures forall t :: TextOf(r, t) == TextOf(c, t)
  {
    match f
    case JobTypes => c.(jobTypes := v)
    case Locations => c.(locations := v)
    case Preferences => c.(preferences := v)
  }

  /** `handleChange`: `{ ...prev, [field]: value }` for a text field. */
  function Change(c: Conditions, f: TextField, v: string): (r: Conditions)
    ensures TextOf(r, f) == v
    ensures forall t :: t != f ==> TextOf(r, t) == TextOf(c, t)
    ensures forall g :: ListOf(r, g) == ListOf(c, g)
  {
    match f
    case MinSalary => c.(minSalary := v)
    case NewJobType => c.(newJobType := v)
    case NewLocation => c.(newLocation := v)
    case NewPreference => c.(newPreference := v)
  }

  /**
   * `handleAddItem(field, value, inputField)`: a blank value changes nothing; any other
   * appends its trimmed text to the list and empties the input.
   */
  function AddItem(c: Conditions, f: ListField, value: string, input: TextField): (r: Conditions)
    ensures IsBlank(value) ==> r == c
    ensures !IsBlank(value) ==>
      && ListOf(r, f) == ListOf(c, f) + [Trim(value)]
      && TextOf(r, input) == ""
      && (forall g :: g != f ==> ListOf(r, g) == ListOf(c, g))
      && (forall t :: t != input ==> TextOf(r, t) == TextOf(c, t))
  {
    if IsBlank(value) then c else Change(WithList(c, f, ListOf(c, f) + [Trim(value)]), input, "")
  }

  /** `handleRemoveItem(field, index)`: drops entry `index` of that list and nothing else. */
  function RemoveItem(c: Conditions, f: ListField, index: int): (r: Conditions)
    ensures ListOf(r, f) == RemoveAt(ListOf(c, f), index)
    ensures forall g :: g != f ==> ListOf(r, g) == ListOf(c, g)
    ensures forall t :: TextOf(r, t) == TextOf(c, t)
  {
    WithList(c, f, RemoveAt(ListOf(c, f), index))
  }

  /** Removing the entry just added gives back the list as it was; only the input has been emptied. */
  lemma RemoveUndoesAdd(c: Conditions, f: ListField, value: string, input: TextField)
    requires !IsBlank(value)
    ensures RemoveItem(AddItem(c, f, value, input), f, |ListOf(c, f)|) == Change(c, input, "")
  {
    var added := AddItem(c, f, value, input);
    var back := RemoveItem(added, f, |ListOf(c, f)|);
    assert ListOf(back, f) == ListOf(c, f);
    match f
    case JobTypes =>
    case Locations =>
    case Preferences =>
  }

  /** A tag is clean when it is non-blank and already trimmed, as every tag `handleAddItem` stores is. */
  ghost predicate CleanTag(t: string) {
    !IsBlank(t) && Trim(t) == t
  }

  ghost predicate Clean(c: Conditions) {
    forall f: ListField, k :: 0 <= k < |ListOf(c, f)| ==> CleanTag(ListOf(c, f)[k])
  }

  /** Adding keeps every list clean: the stored tag is the trimmed, non-blank input. */
  lemma AddItemKeepsClean(c: Conditions, f: ListField, value: string, input: TextField)
    requires Clean(c)
    ensures Clean(AddItem(c, f, value, input))
  {
    if !IsBlank(value) {
      TrimIdempotent(value);
      assert CleanTag(Trim(value));
      var r := AddItem(c, f, value, input);
      forall g: ListField, k | 0 <= k < |ListOf(r, g)| ensures CleanTag(ListOf(r, g)[k]) {
        if g == f && k == |ListOf(c, f)| {
          assert ListOf(r, g)[k] == Trim(value);
        } else {
          assert ListOf(r, g)[k] == ListOf(c, g)[k];
        }
      }
    }
  }

  /** Removing and typing keep every list clean too. */
  lemma RemoveItemKeepsClean(c: Conditions, f: ListField, index: int)
    requires Clean(c)
    ensures Clean(RemoveItem(c, f, index))
  {
    var r := RemoveItem(c, f, index);
    forall g: ListField, k | 0 <= k < |ListOf(r, g)| ensures CleanTag(ListOf(r, g)[k]) {
      if g == f && 0 <= index < |ListOf(c, f)| && k >= index {
        assert ListOf(r, g)[k] == ListOf(c, g)[k + 1];
      } else {
        assert ListOf(r, g)[k] == ListOf(c, g)[k];
      }
    }
  }

  lemma InitialClean()
    ensures Clean(Initial)
  {
    forall g: ListField, k | 0 <= k < |ListOf(Initial, g)| ensures CleanTag(ListOf(Initial, g)[k]) {
      var t := ListOf(Initial, g)[k];
      assert !IsSpace(t[0]) && !IsSpace(t[|t| - 1]);
      assert LeadingSpaces(t) == 0 && KeptBeforeTrailingSpaces(t) == |t|;
    }
  }

  class Panel {
    var conditions: Conditions

    /** Every tag in the three lists is non-blank and trimmed. */
    ghost predicate Valid()
      reads this
    {
      Clean(conditions)
    }

    constructor ()
      ensures Valid() && conditions == Initial
    {
      conditions := Initial;
      InitialClean();
    }

    method HandleChange(f: TextField, value: string)
      requires Valid()
      modifies this
      ensures Valid()
      ensures conditions == Change(old(conditions), f, value)
    {
      conditions := Change(conditions, f, value);
    }

    method HandleAddItem(f: ListField, value: string, input: TextField)
      requires Valid()
      modifies this
      ensures Valid()
      ensures conditions == AddItem(old(conditions), f, value, input)
    {
      if IsBlank(value) {
        return;
      }
      AddItemKeepsClean(conditions, f, value, input);
      conditions := Change(WithList(conditions, f, ListOf(conditions, f) + [Trim(value)]), input, "");
    }

    method HandleRemoveItem(f: ListField, index: int)
      requires Valid()
      modifies this
      ensures Valid()
      ensures conditions == RemoveItem(old(conditions), f, index)
    {
      RemoveItemKeepsClean(conditions, f, index);
      conditions := WithList(conditions, f, RemoveAt(ListOf(conditions, f), index));
    }
  }
}
