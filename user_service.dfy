/**
 * The backend user service: look-up and partial update of a user.  The user
 * table is a map from user id to record.
 */
module UserService {
  import opened Wrappers

  const UserNotFound := "사용자를 찾을 수 없습니다."

  datatype CareerLevel = Newcomer | Experienced

  /** `CareerLevel.valueOf`: exact name match, `None` where Java throws. */
  function ParseCareerLevel(s: string): (r: Option<CareerLevel>)
    ensures r == Some(Newcomer) <==> s == "NEWCOMER"
    ensures r == Some(Experienced) <==> s == "EXPERIENCED"
  {
    if s == "NEWCOMER" then Some(Newcomer)
    else if s == "EXPERIENCED" then Some(Experienced)
    else None
  }

  /** A stored user; `createdAt` stands for the columns no update touches. */
  datatype User = User(
    name: string,
    careerLevel: CareerLevel,
    jobCategory: Option<string>,
    profileImageUrl: Option<string>,
    isMatchingEnabled: bool,
    createdAt: int)

  /** A request body: the profile fields, each possibly null, and fields the update ignores. */
  datatype UserDto = UserDto(
    userId: Option<int>,
    name: Option<string>,
    careerLevel: Option<string>,
    jobCategory: Option<string>,
    profileImageUrl: Option<string>,
    isMatchingEnabled: Option<bool>,
    email: Option<string>,
    phone: Option<string>,
    jobTitle: Option<string>,
    introduction: Option<string>)

  /** The fields `updateUser` copies: null keeps the stored value, an unknown career level is ignored. */
  function Merge(rec: User, dto: UserDto): (r: User)
    ensures r.createdAt == rec.createdAt
    ensures r.name == (if dto.name.Some? then dto.name.value else rec.name)
    ensures r.jobCategory == (if dto.jobCategory.Some? then dto.jobCategory else rec.jobCategory)
    ensures r.profileImageUrl == (if dto.profileImageUrl.Some? then dto.profileImageUrl else rec.profileImageUrl)
    ensures r.isMatchingEnabled == (if dto.isMatchingEnabled.Some? then dto.isMatchingEnabled.value else rec.isMatchingEnabled)
    ensures dto.careerLevel.Some? && ParseCareerLevel(dto.careerLevel.value).Some?
      ==> r.careerLevel == ParseCareerLevel(dto.careerLevel.value).value
    ensures (dto.careerLevel.None? || ParseCareerLevel(dto.careerLevel.value).None?) ==> r.careerLevel == rec.careerLevel
  {
    var level :=
      if dto.careerLevel.Some? && ParseCareerLevel(dto.careerLevel.value).Some?
      then ParseCareerLevel(dto.careerLevel.value).value
      else rec.careerLevel;
    rec.(
      name := if dto.name.Some? then dto.name.value else rec.name,
      careerLevel := level,
      jobCategory := if dto.jobCategory.Some? then dto.jobCategory else rec.jobCategory,
      profileImageUrl := if dto.profileImageUrl.Some? then dto.profileImageUrl else rec.profileImageUrl,
      isMatchingEnabled := if dto.isMatchingEnabled.Some? then dto.isMatchingEnabled.value else rec.isMatchingEnabled)
  }

  /** Two requests that agree on the five profile fields update a user identically. */
  lemma OnlyProfileFieldsMatter(rec: User, a: UserDto, b: UserDto)
    requires a.name == b.name && a.careerLevel == b.careerLevel && a.jobCategory == b.jobCategory
    requires a.profileImageUrl == b.profileImageUrl && a.isMatchingEnabled == b.isMatchingEnabled
    ensures Merge(rec, a) == Merge(rec, b)
  {
  }

  /** Applying the same request twice is the same as applying it once. */
  lemma MergeIdempotent(rec: User, dto: UserDto)
    ensures Merge(Merge(rec, dto), dto) == Merge(rec, dto)
  {
  }

  class Service {
    var users: map<int, User>

    constructor(users: map<int, User>)
      ensures this.users == users
    {
      this.users := users;
    }

    /** `getUser`: the stored record, or the not-found error. */
    method GetUser(id: int) returns (r: Result<User, string>)
      ensures id in users ==> r == Success(users[id])
      ensures id !in users ==> r == Failure(UserNotFound)
    {
      if id in users {
        r := Success(users[id]);
      } else {
        r := Failure(UserNotFound);
      }
    }

    /** `updateUser`: fails for an unknown id; otherwise applies the request with the conditional setters. */
    method UpdateUser(id: int, dto: UserDto) returns (r: Result<User, string>)
      modifies this
      ensures id !in old(users) ==> r == Failure(UserNotFound) && users == old(users)
      ensures id in old(users) ==>
        r == Success(Merge(old(users)[id], dto)) && users == old(users)[id := Merge(old(users)[id], dto)]
    {
      if id !in users {
        return Failure(UserNotFound);
      }
      var user := users[id];
      if dto.name.Some? {
        user := user.(name := dto.name.value);
      }
      if dto.jobCategory.Some? {
        user := user.(jobCategory := dto.jobCategory);
      }
      if dto.careerLevel.Some? {
        var level := ParseCareerLevel(dto.careerLevel.value);
        if level.Some? {
          user := user.(careerLevel := level.value);
        }
      }
      if dto.profileImageUrl.Some? {
        user := user.(profileImageUrl := dto.profileImageUrl);
      }
      if dto.isMatchingEnabled.Some? {
        user := user.(isMatchingEnabled := dto.isMatchingEnabled.value);
      }
      users := users[id := user];
      r := Success(user);
    }
  }
}
