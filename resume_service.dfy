/**
 * The backend resume service.  The resume table is a map from resume id to
 * record, the user table is the set of existing user ids, and ids are drawn
 * from an identity counter.  Every operation either fails with the service's
 * message and leaves the store as it was (the transaction rolls back), or
 * performs the setters and saves of the service.  The service keeps the rule
 * that a user has at most one primary resume.
 */
module ResumeService {
  import opened Wrappers

  const ResumeNotFound := "이력서를 찾을 수 없습니다."
  const UserNotFound := "사용자를 찾을 수 없습니다."
  /** The refusal of a resume row whose title is null: the column is declared not-null, so the save fails and the transaction rolls back. */
  /** The refusal of deleting a resume that an application still points at: `resume_id` is a foreign key without cascade, so the delete fails at flush and rolls back. */
  const ResumeReferenced := "referential integrity constraint violation: application.resume_id"
  const TitleNull := "not-null property references a null value: Resume.title"

  /** A stored resume; the title column is not-null, the other text columns are nullable and so are options. */
  datatype Resume = Resume(
    userId: int,
    title: string,
    isPrimary: bool,
    jobCategory: Option<string>,
    targetCompanyType: Option<string>,
    targetLocation: Option<string>,
    isPublic: bool)

  /** A request body; every field except the owner may be null. */
  datatype ResumeDto = ResumeDto(
    userId: int,
    title: Option<string>,
    isPrimary: Option<bool>,
    jobCategory: Option<string>,
    targetCompanyType: Option<string>,
    targetLocation: Option<string>,
    isPublic: Option<bool>)

  /** The ids of the primary resumes of user `u`. */
  function PrimaryOf(store: map<int, Resume>, u: int): set<int>
  {
    set k | k in store && store[k].userId == u && store[k].isPrimary
  }

  /** No user has two primary resumes. */
  predicate AtMostOnePrimary(store: map<int, Resume>)
  {
    forall a, b ::
      (a in store && b in store && store[a].userId == store[b].userId && store[a].isPrimary && store[b].isPrimary)
      ==> a == b
  }

  /** The invariant read per user: the "find the primary resume" query has at most one answer. */
  lemma AtMostOnePrimaryPerUser(store: map<int, Resume>, u: int)
    requires AtMostOnePrimary(store)
    ensures PrimaryOf(store, u) == {} || exists k :: PrimaryOf(store, u) == {k}
  {
    if exists k :: k in store && store[k].userId == u && store[k].isPrimary {
      var k :| k in store && store[k].userId == u && store[k].isPrimary;
      forall j | j in PrimaryOf(store, u) ensures j == k {
        assert store[j].userId == store[k].userId && store[j].isPrimary;
      }
      assert PrimaryOf(store, u) == {k};
    } else {
      assert PrimaryOf(store, u) == {};
    }
  }

  /** The store after un-setting the primary flag of user `u`'s resumes. */
  function ClearPrimary(store: map<int, Resume>, u: int): (r: map<int, Resume>)
    ensures r.Keys == store.Keys
    ensures PrimaryOf(r, u) == {}
    ensures forall k :: k in store && (store[k].userId != u || !store[k].isPrimary) ==> r[k] == store[k]
    ensures forall k :: k in store && store[k].userId == u && store[k].isPrimary ==> r[k] == store[k].(isPrimary := false)
  {
    map k | k in store :: if store[k].userId == u && store[k].isPrimary then store[k].(isPrimary := false) else store[k]
  }

  /** The record that `createResume` builds, for a request that carries a title: null flags default to false. */
  function NewResume(dto: ResumeDto): (r: Resume)
    requires dto.title.Some?
    ensures r.isPrimary <==> dto.isPrimary == Some(true)
    ensures r.isPublic <==> dto.isPublic == Some(true)
    ensures r.userId == dto.userId && Some(r.title) == dto.title && r.jobCategory == dto.jobCategory
    ensures r.targetCompanyType == dto.targetCompanyType && r.targetLocation == dto.targetLocation
  {
    Resume(dto.userId, dto.title.value,
      if dto.isPrimary.Some? then dto.isPrimary.value else false,
      dto.jobCategory, dto.targetCompanyType, dto.targetLocation,
      if dto.isPublic.Some? then dto.isPublic.value else false)
  }

  /** The fields `updateResume` copies: a null field keeps the stored value. */
  function Merge(rec: Resume, dto: ResumeDto): (r: Resume)
    ensures r.userId == rec.userId
    ensures r.title == (if dto.title.Some? then dto.title.value else rec.title)
    ensures r.isPrimary == (if dto.isPrimary.Some? then dto.isPrimary.value else rec.isPrimary)
    ensures r.jobCategory == (if dto.jobCategory.Some? then dto.jobCategory else rec.jobCategory)
    ensures r.targetCompanyType == (if dto.targetCompanyType.Some? then dto.targetCompanyType else rec.targetCompanyType)
    ensures r.targetLocation == (if dto.targetLocation.Some? then dto.targetLocation else rec.targetLocation)
    ensures r.isPublic == (if dto.isPublic.Some? then dto.isPublic.value else rec.isPublic)
  {
    rec.(
      title := if dto.title.Some? then dto.title.value else rec.title,
      isPrimary := if dto.isPrimary.Some? then dto.isPrimary.value else rec.isPrimary,
      jobCategory := if dto.jobCategory.Some? then dto.jobCategory else rec.jobCategory,
      targetCompanyType := if dto.targetCompanyType.Some? then dto.targetCompanyType else rec.targetCompanyType,
      targetLocation := if dto.targetLocation.Some? then dto.targetLocation else rec.targetLocation,
      isPublic := if dto.isPublic.Some? then dto.isPublic.value else rec.isPublic)
  }

  /** An update whose fields are all null changes nothing. */
  lemma MergeNothing(rec: Resume, u: int)
    ensures Merge(rec, ResumeDto(u, None, None, None, None, None, None)) == rec
  {
  }

  /** The store after saving the new resume `rec` under the fresh id. */
  function AfterCreate(store: map<int, Resume>, id: int, rec: Resume): map<int, Resume>
  {
    (if rec.isPrimary then ClearPrimary(store, rec.userId) else store)[id := rec]
  }

  /** The store after the update of resume `id` with `dto`. */
  function AfterUpdate(store: map<int, Resume>, id: int, dto: ResumeDto): map<int, Resume>
    requires id in store
  {
    (if dto.isPrimary == Some(true) && !store[id].isPrimary then ClearPrimary(store, store[id].userId) else store)
      [id := Merge(store[id], dto)]
  }

  /** Creating keeps at most one primary per user; a primary creation becomes the user's only primary. */
  lemma CreateKeepsOnePrimary(store: map<int, Resume>, id: int, rec: Resume)
    requires AtMostOnePrimary(store) && id !in store
    ensures AtMostOnePrimary(AfterCreate(store, id, rec))
    ensures rec.isPrimary ==> PrimaryOf(AfterCreate(store, id, rec), rec.userId) == {id}
  {
    var u := rec.userId;
    var base := if rec.isPrimary then ClearPrimary(store, u) else store;
    var s := AfterCreate(store, id, rec);
    assert AtMostOnePrimary(base) by {
      if rec.isPrimary {
        ClearKeepsOnePrimary(store, u);
      }
    }
    forall k | k in base && base[k].userId == u && rec.isPrimary
      ensures !base[k].isPrimary
    {
      assert k !in PrimaryOf(base, u);
    }
    forall a, b | a in s && b in s && s[a].userId == s[b].userId && s[a].isPrimary && s[b].isPrimary
      ensures a == b
    {
      if a != id && b != id {
        assert s[a] == base[a] && s[b] == base[b];
      }
    }
    if rec.isPrimary {
      forall k | k in s && k != id ensures k !in PrimaryOf(s, u) {
        assert s[k] == base[k];
      }
      assert id in PrimaryOf(s, u);
    }
  }

  /** Updating keeps at most one primary per user; setting the flag makes the resume the owner's only primary. */
  lemma UpdateKeepsOnePrimary(store: map<int, Resume>, id: int, dto: ResumeDto)
    requires AtMostOnePrimary(store) && id in store
    ensures AtMostOnePrimary(AfterUpdate(store, id, dto))
    ensures dto.isPrimary == Some(true) ==> PrimaryOf(AfterUpdate(store, id, dto), store[id].userId) == {id}
  {
    var u := store[id].userId;
    var updated := Merge(store[id], dto);
    var clears := dto.isPrimary == Some(true) && !store[id].isPrimary;
    var base := if clears then ClearPrimary(store, u) else store;
    var s := AfterUpdate(store, id, dto);
    assert s == base[id := updated];
    assert AtMostOnePrimary(base) by {
      if clears {
        ClearKeepsOnePrimary(store, u);
      }
    }
    forall k | k in base && k != id && base[k].userId == u && updated.isPrimary
      ensures !base[k].isPrimary
    {
      if clears {
        assert k !in PrimaryOf(base, u);
      } else {
        assert store[id].isPrimary;
      }
    }
    forall a, b | a in s && b in s && s[a].userId == s[b].userId && s[a].isPrimary && s[b].isPrimary
      ensures a == b
    {
      if a != id && b != id {
        assert s[a] == base[a] && s[b] == base[b];
      }
    }
    if dto.isPrimary == Some(true) {
      forall k | k in s && k != id ensures k !in PrimaryOf(s, u) {
        assert s[k] == base[k];
      }
      assert id in PrimaryOf(s, u);
    }
  }

  /** Deleting a resume keeps at most one primary per user. */
  lemma DeleteKeepsOnePrimary(store: map<int, Resume>, id: int)
    requires AtMostOnePrimary(store)
    ensures AtMostOnePrimary(store - {id})
  {
    var s := store - {id};
    forall a, b | a in s && b in s && s[a].userId == s[b].userId && s[a].isPrimary && s[b].isPrimary
      ensures a == b
    {
      assert s[a] == store[a] && s[b] == store[b];
    }
  }

  class Service {
    /** The resume table. */
    var resumes: map<int, Resume>
    /** The ids of the user table. */
    var users: set<int>
    /** The next identity value. */
    var nextId: int

    ghost predicate Valid()
      reads this
    {
      AtMostOnePrimary(resumes) && (forall k :: k in resumes ==> k < nextId)
    }

    constructor(users: set<int>)
      ensures Valid() && resumes == map[] && this.users == users
    {
      resumes := map[];
      this.users := users;
      nextId := 1;
    }

    /** The repository query for the user's primary resume (an optional result). */
    method FindPrimary(u: int) returns (r: Option<int>)
      requires Valid()
      ensures r.None? <==> PrimaryOf(resumes, u) == {}
      ensures r.Some? ==> PrimaryOf(resumes, u) == {r.value}
    {
      AtMostOnePrimaryPerUser(resumes, u);
      if PrimaryOf(resumes, u) == {} {
        r := None;
      } else {
        var k :| k in PrimaryOf(resumes, u);
        r := Some(k);
      }
    }

    /** `getResume`: the stored record, or the not-found error. */
    method GetResume(id: int) returns (r: Result<Resume, string>)
      ensures id in resumes ==> r == Success(resumes[id])
      ensures id !in resumes ==> r == Failure(ResumeNotFound)
    {
      if id in resumes {
        r := Success(resumes[id]);
      } else {
        r := Failure(ResumeNotFound);
      }
    }

    /** Un-set the primary flag of the one primary resume of `u`, if there is one. */
    method UnsetPrimary(u: int)
      requires Valid()
      modifies this
      ensures Valid()
      ensures resumes == ClearPrimary(old(resumes), u)
      ensures users == old(users) && nextId == old(nextId)
    {
      var existing := FindPrimary(u);
      if existing.Some? {
        var e := existing.value;
        resumes := resumes[e := resumes[e].(isPrimary := false)];
        assert resumes == ClearPrimary(old(resumes), u) by {
          forall k | k in resumes ensures resumes[k] == ClearPrimary(old(resumes), u)[k] {
            if k != e {
              assert k !in PrimaryOf(old(resumes), u);
            }
          }
        }
      } else {
        assert resumes == ClearPrimary(old(resumes), u) by {
          forall k | k in resumes ensures resumes[k] == ClearPrimary(old(resumes), u)[k] {
            assert k !in PrimaryOf(old(resumes), u);
          }
        }
      }
      ClearKeepsOnePrimary(old(resumes), u);
    }

    /**
     * `createResume`: fails for an unknown user, and fails with the whole
     * transaction rolled back when the title is null; otherwise saves the new
     * record under a fresh id.
     */
    method CreateResume(dto: ResumeDto) returns (r: Result<int, string>)
      requires Valid()
      modifies this
      ensures Valid() && users == old(users)
      ensures dto.userId !in users ==> r == Failure(UserNotFound) && resumes == old(resumes) && nextId == old(nextId)
      ensures dto.userId in users && dto.title == None ==>
        r == Failure(TitleNull) && resumes == old(resumes) && nextId == old(nextId)
      ensures dto.userId in users && dto.title != None ==>
        r == Success(old(nextId)) && old(nextId) !in old(resumes)
        && resumes == AfterCreate(old(resumes), old(nextId), NewResume(dto))
        && nextId == old(nextId) + 1
    {
      if dto.userId !in users {
        return Failure(UserNotFound);
      }
      if dto.title == None {
        // the primary flag cleared before the failing save is rolled back with it
        return Failure(TitleNull);
      }
      var resume := NewResume(dto);
      if resume.isPrimary {
        UnsetPrimary(dto.userId);
      }
      CreateKeepsOnePrimary(old(resumes), nextId, resume);
      var id := nextId;
      resumes := resumes[id := resume];
      nextId := nextId + 1;
      r := Success(id);
    }

    /** `updateResume`: fails for an unknown id; otherwise applies the non-null fields, clearing the owner's primary first when the flag is newly set. */
    method UpdateResume(id: int, dto: ResumeDto) returns (r: Result<Resume, string>)
      requires Valid()
      modifies this
      ensures Valid() && users == old(users) && nextId == old(nextId)
      ensures id !in old(resumes) ==> r == Failure(ResumeNotFound) && resumes == old(resumes)
      ensures id in old(resumes) ==>
        r == Success(Merge(old(resumes)[id], dto)) && resumes == AfterUpdate(old(resumes), id, dto)
    {
      if id !in resumes {
        return Failure(ResumeNotFound);
      }
      var resume := resumes[id];
      if dto.title.Some? {
        resume := resume.(title := dto.title.value);
      }
      if dto.isPrimary.Some? {
        if dto.isPrimary.value && !resume.isPrimary {
          UnsetPrimary(resume.userId);
        }
        resume := resume.(isPrimary := dto.isPrimary.value);
      }
      if dto.jobCategory.Some? {
        resume := resume.(jobCategory := dto.jobCategory);
      }
      if dto.targetCompanyType.Some? {
        resume := resume.(targetCompanyType := dto.targetCompanyType);
      }
      if dto.targetLocation.Some? {
        resume := resume.(targetLocation := dto.targetLocation);
      }
      if dto.isPublic.Some? {
        resume := resume.(isPublic := dto.isPublic.value);
      }
      UpdateKeepsOnePrimary(old(resumes), id, dto);
      resumes := resumes[id := resume];
      r := Success(resume);
    }

    /**
     * `deleteResume`: fails for an unknown id, and fails with nothing removed
     * when an application still refers to the resume; otherwise removes exactly
     * that id. `referenced` is the set of resume ids in the application table's
     * `resume_id` column.
     */
    method DeleteResume(id: int, referenced: set<int>) returns (r: Result<(), string>)
      requires Valid()
      modifies this
      ensures Valid() && users == old(users) && nextId == old(nextId)
      ensures id !in old(resumes) ==> r == Failure(ResumeNotFound) && resumes == old(resumes)
      ensures id in old(resumes) && id in referenced ==> r == Failure(ResumeReferenced) && resumes == old(resumes)
      ensures id in old(resumes) && id !in referenced ==> r == Success(()) && resumes == old(resumes) - {id}
    {
      if id !in resumes {
        return Failure(ResumeNotFound);
      }
      if id in referenced {
        return Failure(ResumeReferenced);
      }
      DeleteKeepsOnePrimary(resumes, id);
      resumes := resumes - {id};
      r := Success(());
    }
  }

  /** Clearing a user's primary flags keeps at most one primary per user. */
  lemma ClearKeepsOnePrimary(store: map<int, Resume>, u: int)
    requires AtMostOnePrimary(store)
    ensures AtMostOnePrimary(ClearPrimary(store, u))
  {
    var s := ClearPrimary(store, u);
    forall a, b | a in s && b in s && s[a].userId == s[b].userId && s[a].isPrimary && s[b].isPrimary
      ensures a == b
    {
      assert s[a] == store[a] && s[b] == store[b];
    }
  }
}
