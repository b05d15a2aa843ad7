/**
 * The job-posting calendar page: the list of bookmarked postings, the form that
 * adds one after checking that it has a title and a start no later than its end,
 * hovering and clicking, and the details dialog.
 */
module JobCalendarView {
  import opened Wrappers
  import opened Lists
  import opened CivilDate
  import opened SimpleCalendar

  /** The six colours a new posting may be given. */
  const Palette: seq<string> := ["#4f46e5", "#f59e0b", "#10b981", "#ef4444", "#8b5cf6", "#ec4899"]

  /** The add form; a date not yet picked is `None`. */
  datatype NewCompany = NewCompany(title: string, start: Option<int>, end: Option<int>)

  const EmptyForm: NewCompany := NewCompany("", None, None)

  /** Why `handleAddCompany` refused the form. */
  datatype AddError = MissingField | StartAfterEnd

  /** Midnight of a civil date. */
  function At(y: int, m: int, d: int): int
    requires 0 <= m < 12
  {
    DayNumber(Date(y, m, d)) * MsPerDay
  }

  function InitialCompanies(): seq<Company> {
    [ Company("1", "네이버", At(2025, 4, 5), At(2025, 4, 20), "#4f46e5"),
      Company("2", "카카오", At(2025, 4, 10), At(2025, 4, 25), "#f59e0b"),
      Company("3", "라인", At(2025, 4, 15), At(2025, 5, 5), "#10b981"),
      Company("4", "쿠팡", At(2025, 4, 20), At(2025, 5, 10), "#ef4444"),
      Company("5", "당근마켓", At(2025, 4, 25), At(2025, 5, 15), "#8b5cf6") ]
  }

  /** Every posting's period is non-empty. */
  ghost predicate Ordered(cs: seq<Company>) {
    forall k :: 0 <= k < |cs| ==> cs[k].start <= cs[k].end
  }

  /**
   * The checks of `handleAddCompany`, in order: a missing title, start or end, then a
   * start after the end. On success, the posting's period.
   */
  function Check(f: NewCompany): (r: Result<(int, int), AddError>)
    ensures r == Failure(MissingField) <==> f.title == "" || f.start.None? || f.end.None?
    ensures r == Failure(StartAfterEnd) <==>
      f.title != "" && f.start.Some? && f.end.Some? && f.start.value > f.end.value
    ensures r.Success? ==> r.value == (f.start.value, f.end.value) && r.value.0 <= r.value.1
  {
    if f.title == "" || f.start.None? || f.end.None? then Failure(MissingField)
    else if f.start.value > f.end.value then Failure(StartAfterEnd)
    else Success((f.start.value, f.end.value))
  }

  /**
   * `handleAddCompany` on the list: a refused form leaves it alone; an accepted one appends
   * the posting with id `stamp` (for `Date.now().toString()`) and palette colour `pick`
   * (for `Math.floor(Math.random() * colors.length)`).
   */
  function AddCompany(cs: seq<Company>, f: NewCompany, pick: nat, stamp: string): (r: Result<seq<Company>, AddError>)
    requires pick < |Palette|
    ensures r.Failure? <==> Check(f).Failure?
    ensures r.Failure? ==> r.error == Check(f).error
    ensures r.Success? ==>
      && |r.value| == |cs| + 1 && r.value[..|cs|] == cs
      && r.value[|cs|] == Company(stamp, f.title, f.start.value, f.end.value, Palette[pick])
      && r.value[|cs|].color in Palette
    ensures r.Success? && Ordered(cs) ==> Ordered(r.value)
  {
    match Check(f)
    case Failure(e) => Failure(e)
    case Success(period) => Success(cs + [Company(stamp, f.title, period.0, period.1, Palette[pick])])
  }

  function HasNotId(id: string): Company -> bool {
    (c: Company) => c.id != id
  }

  /** `handleDeleteCompany`: every posting with the id goes, the others keep their order. */
  function DeleteCompany(cs: seq<Company>, id: string): (r: seq<Company>)
    ensures IsSubsequence(r, cs)
    ensures forall k :: 0 <= k < |r| ==> r[k].id != id
    ensures forall k :: 0 <= k < |cs| ==> (cs[k] in r <==> cs[k].id != id)
    ensures forall x :: multiset(r)[x] == if x.id != id then multiset(cs)[x] else 0
  {
    FilterIsSubsequence(cs, HasNotId(id));
    FilterMultiplicity(cs, HasNotId(id));
    Filter(cs, HasNotId(id))
  }

  /** A posting just added with a fresh id is removed again by deleting that id. */
  lemma DeleteUndoesAdd(cs: seq<Company>, f: NewCompany, pick: nat, stamp: string)
    requires pick < |Palette|
    requires forall k :: 0 <= k < |cs| ==> cs[k].id != stamp
    requires AddCompany(cs, f, pick, stamp).Success?
    ensures DeleteCompany(AddCompany(cs, f, pick, stamp).value, stamp) == cs
  {
    var added := AddCompany(cs, f, pick, stamp).value;
    assert added == cs + [added[|cs|]];
    FilterAppend(cs, [added[|cs|]], HasNotId(stamp));
    FilterAll(cs, HasNotId(stamp));
    assert Filter([added[|cs|]], HasNotId(stamp)) == [];
  }

  lemma DeleteKeepsOrdered(cs: seq<Company>, id: string)
    requires Ordered(cs)
    ensures Ordered(DeleteCompany(cs, id))
  {
  }

  lemma InitialOrdered()
    ensures Ordered(InitialCompanies())
  {
  }

  class View {
    var currentHoverCompany: Option<Company>
    var bookmarkedCompanies: seq<Company>
    var showAddForm: bool
    var newCompany: NewCompany
    var selectedEvent: Option<Company>
    var showEventDetails: bool
    /** The date shown by the calendar, as a time. */
    var calendarDate: int

    /** Every bookmarked posting starts no later than it ends. */
    ghost predicate Valid()
      reads this
    {
      Ordered(bookmarkedCompanies)
    }

    /** `now` stands for `new Date()`. */
    constructor (now: int)
      ensures Valid()
      ensures bookmarkedCompanies == InitialCompanies() && newCompany == EmptyForm
      ensures !showAddForm && !showEventDetails && selectedEvent.None? && currentHoverCompany.None?
      ensures calendarDate == now
    {
      currentHoverCompany := None;
      bookmarkedCompanies := InitialCompanies();
      showAddForm := false;
      newCompany := EmptyForm;
      selectedEvent := None;
      showEventDetails := false;
      calendarDate := now;
      InitialOrdered();
    }

    method HandleDeleteCompany(id: string)
      requires Valid()
      modifies this`bookmarkedCompanies
      ensures Valid()
      ensures bookmarkedCompanies == DeleteCompany(old(bookmarkedCompanies), id)
    {
      bookmarkedCompanies := DeleteCompany(bookmarkedCompanies, id);
    }

    method HandleCompanyMouseEnter(c: Company)
      modifies this`currentHoverCompany
      ensures currentHoverCompany == Some(c)
    {
      currentHoverCompany := Some(c);
    }

    method HandleCompanyMouseLeave()
      modifies this`currentHoverCompany
      ensures currentHoverCompany == None
    {
      currentHoverCompany := None;
    }

    method HandleEventClick(c: Company)
      modifies this`selectedEvent, this`showEventDetails
      ensures selectedEvent == Some(c) && showEventDetails
    {
      selectedEvent := Some(c);
      showEventDetails := true;
    }

    /** A click in the list moves the calendar to the posting's start and opens its details. */
    method HandleCompanyClick(c: Company)
      modifies this`calendarDate, this`selectedEvent, this`showEventDetails
      ensures calendarDate == c.start && selectedEvent == Some(c) && showEventDetails
    {
      calendarDate := c.start;
      selectedEvent := Some(c);
      showEventDetails := true;
    }

    method HandleAddCompany(pick: nat, stamp: string) returns (err: Option<AddError>)
      requires Valid() && pick < |Palette|
      modifies this`bookmarkedCompanies, this`newCompany, this`showAddForm
      ensures Valid()
      ensures AddCompany(old(bookmarkedCompanies), old(newCompany), pick, stamp).Failure? ==>
        && err == Some(AddCompany(old(bookmarkedCompanies), old(newCompany), pick, stamp).error)
        && bookmarkedCompanies == old(bookmarkedCompanies)
        && newCompany == old(newCompany) && showAddForm == old(showAddForm)
      ensures AddCompany(old(bookmarkedCompanies), old(newCompany), pick, stamp).Success? ==>
        && err == None
        && bookmarkedCompanies == AddCompany(old(bookmarkedCompanies), old(newCompany), pick, stamp).value
        && newCompany == EmptyForm && !showAddForm
    {
      if newCompany.title == "" || newCompany.start.None? || newCompany.end.None? {
        return Some(MissingField);
      }
      if newCompany.start.value > newCompany.end.value {
        return Some(StartAfterEnd);
      }
      var added := Company(stamp, newCompany.title, newCompany.start.value, newCompany.end.value, Palette[pick]);
      bookmarkedCompanies := bookmarkedCompanies + [added];
      newCompany := EmptyForm;
      showAddForm := false;
      err := None;
    }
  }
}
