/**
 * The backend application service.  The application table is a map from
 * application id to record; the user, company, resume and cover-letter tables
 * are the sets of their existing ids.  A failing operation returns the
 * service's message and leaves the table as it was.
 */
module ApplicationService {
  import opened Wrappers
  import Lists

  const ApplicationNotFound := "지원 내역을 찾을 수 없습니다."
  const UserNotFound := "사용자를 찾을 수 없습니다."
  const CompanyNotFound := "회사를 찾을 수 없습니다."
  const ResumeNotFound := "이력서를 찾을 수 없습니다."
  const CoverLetterNotFound := "자기소개서를 찾을 수 없습니다."
  const InvalidStatusPrefix := "유효하지 않은 상태값입니다: "

  datatype Status = Applied | DocumentPass | FinalPass | Rejected

  /** The enum constant's name, as stored and as sent over the wire. */
  function StatusName(s: Status): string
  {
    match s
    case Applied => "APPLIED"
    case DocumentPass => "DOCUMENT_PASS"
    case FinalPass => "FINAL_PASS"
    case Rejected => "REJECTED"
  }

  /** `ApplicationStatus.valueOf`: exact name match, `None` where Java throws. */
  function ParseStatus(s: string): (r: Option<Status>)
    ensures r.Some? ==> StatusName(r.value) == s
  {
    if s == "APPLIED" then Some(Applied)
    else if s == "DOCUMENT_PASS" then Some(DocumentPass)
    else if s == "FINAL_PASS" then Some(FinalPass)
    else if s == "REJECTED" then Some(Rejected)
    else None
  }

  /** Parsing accepts exactly the four names, and each name parses back to its constant. */
  lemma ParseStatusExact(s: string, st: Status)
    ensures ParseStatus(StatusName(st)) == Some(st)
    ensures ParseStatus(s) == Some(st) <==> s == StatusName(st)
  {
  }

  /** The status `createApplication` stores: the parsed name, else `APPLIED` (also for null). */
  function CreatedStatus(s: Option<string>): (r: Status)
    ensures s.Some? && ParseStatus(s.value).Some? ==> r == ParseStatus(s.value).value
    ensures (s.None? || ParseStatus(s.value).None?) ==> r == Applied
  {
    if s.Some? then
      match ParseStatus(s.value)
      case Some(st) => st
      case None => Applied
    else Applied
  }

  /** A stored application; dates are day numbers. */
  datatype Application = Application(
    userId: int,
    companyId: int,
    resumeId: Option<int>,
    coverLetterId: Option<int>,
    status: Status,
    appliedDate: Option<int>,
    notes: Option<string>)

  /** A request body; every field except the owner and the company may be null. */
  datatype ApplicationDto = ApplicationDto(
    userId: int,
    companyId: int,
    resumeId: Option<int>,
    coverLetterId: Option<int>,
    status: Option<string>,
    appliedDate: Option<int>,
    notes: Option<string>)

  /** The fields `updateApplication` copies; an unparsable status is ignored. */
  function Merge(rec: Application, dto: ApplicationDto): (r: Application)
    ensures r.userId == rec.userId && r.companyId == rec.companyId
    ensures r.resumeId == rec.resumeId && r.coverLetterId == rec.coverLetterId
    ensures r.appliedDate == (if dto.appliedDate.Some? then dto.appliedDate else rec.appliedDate)
    ensures r.notes == (if dto.notes.Some? then dto.notes else rec.notes)
    ensures dto.status.Some? && ParseStatus(dto.status.value).Some? ==> r.status == ParseStatus(dto.status.value).value
    ensures (dto.status.None? || ParseStatus(dto.status.value).None?) ==> r.status == rec.status
  {
    rec.(
      appliedDate := if dto.appliedDate.Some? then dto.appliedDate else rec.appliedDate,
      notes := if dto.notes.Some? then dto.notes else rec.notes,
      status := if dto.status.Some? && ParseStatus(dto.status.value).Some? then ParseStatus(dto.status.value).value else rec.status)
  }

  /** Five counters of `ApplicationStatsDto`. */
  datatype Stats = Stats(total: nat, applied: nat, documentPass: nat, finalPass: nat, rejected: nat)

  /** The ids of user `u`'s applications. */
  function OfUser(store: map<int, Application>, u: int): set<int>
  {
    set k | k in store && store[k].userId == u
  }

  /** The ids of user `u`'s applications with status `st`. */
  function OfUserWithStatus(store: map<int, Application>, u: int, st: Status): set<int>
  {
    set k | k in store && store[k].userId == u && store[k].status == st
  }

  /** The disjoint union of two sets has the sum of their sizes. */
  lemma DisjointUnionSize(a: set<int>, b: set<int>)
    requires a * b == {}
    ensures |a + b| == |a| + |b|
  {
  }

  /** The four status counts add up to the total: every application has exactly one status. */
  lemma StatsAddUp(store: map<int, Application>, u: int)
    ensures |OfUser(store, u)| == |OfUserWithStatus(store, u, Applied)| + |OfUserWithStatus(store, u, DocumentPass)|
      + |OfUserWithStatus(store, u, FinalPass)| + |OfUserWithStatus(store, u, Rejected)|
  {
    var a := OfUserWithStatus(store, u, Applied);
    var d := OfUserWithStatus(store, u, DocumentPass);
    var f := OfUserWithStatus(store, u, FinalPass);
    var x := OfUserWithStatus(store, u, Rejected);
    forall k | k in OfUser(store, u) ensures k in a + d + f + x {
      match store[k].status
      case Applied => assert k in a;
      case DocumentPass => assert k in d;
      case FinalPass => assert k in f;
      case Rejected => assert k in x;
    }
    assert OfUser(store, u) == a + d + f + x;
    DisjointUnionSize(a, d);
    DisjointUnionSize(a + d, f);
    DisjointUnionSize(a + d + f, x);
  }

  /** The user's applications with a date come in non-increasing date order. */
  ghost predicate DatesDescending(store: map<int, Application>, ids: seq<int>)
  {
    forall i, j :: 0 <= i < j < |ids| && ids[i] in store && ids[j] in store
      && store[ids[i]].appliedDate.Some? && store[ids[j]].appliedDate.Some?
      ==> store[ids[i]].appliedDate.value >= store[ids[j]].appliedDate.value
  }

  /** The sort key of the date ordering. */
  function DateKey(store: map<int, Application>): int -> int
  {
    k => if k in store && store[k].appliedDate.Some? then store[k].appliedDate.value else 0
  }

  class Service {
    var applications: map<int, Application>
    var users: set<int>
    var companies: set<int>
    var resumes: set<int>
    var coverLetters: set<int>
    var nextId: int

    ghost predicate Valid()
      reads this
    {
      forall k :: k in applications ==> k < nextId
    }

    constructor(users: set<int>, companies: set<int>, resumes: set<int>, coverLetters: set<int>)
      ensures Valid() && applications == map[]
      ensures this.users == users && this.companies == companies
      ensures this.resumes == resumes && this.coverLetters == coverLetters
    {
      applications := map[];
      this.users := users;
      this.companies := companies;
      this.resumes := resumes;
      this.coverLetters := coverLetters;
      nextId := 1;
    }

    /** The user's application ids split by whether they carry a date, each id once. */
    method SplitByDate(u: int) returns (dated: seq<int>, undated: seq<int>)
      ensures forall i :: 0 <= i < |dated| ==> dated[i] in OfUser(applications, u) && applications[dated[i]].appliedDate.Some?
      ensures forall i :: 0 <= i < |undated| ==> undated[i] in OfUser(applications, u) && applications[undated[i]].appliedDate.None?
      ensures forall k :: k in OfUser(applications, u) ==> k in dated || k in undated
      ensures |dated| + |undated| == |OfUser(applications, u)|
    {
      var mine := OfUser(applications, u);
      dated, undated := [], [];
      var remaining := mine;
      ghost var done: set<int> := {};
      while remaining != {}
        invariant remaining + done == mine && remaining * done == {}
        invariant forall i :: 0 <= i < |dated| ==> dated[i] in done && applications[dated[i]].appliedDate.Some?
        invariant forall i :: 0 <= i < |undated| ==> undated[i] in done && applications[undated[i]].appliedDate.None?
        invariant forall k :: k in done ==> k in dated || k in undated
        invariant |dated| + |undated| == |done|
        decreases |remaining|
      {
        Lists.EmptyOrHasElement(remaining);
        var id :| id in remaining;
        if applications[id].appliedDate.Some? {
          dated := dated + [id];
        } else {
          undated := undated + [id];
        }
        remaining := remaining - {id};
        done := done + {id};
      }
    }

    /**
     * `getApplicationsByUser`: the ids of exactly the user's applications, each once, dated
     * ones in non-increasing date order; undated ones come last (their place in the SQL
     * order depends on the database).
     */
    method GetApplicationsByUser(u: int) returns (ids: seq<int>)
      ensures forall i :: 0 <= i < |ids| ==> ids[i] in OfUser(applications, u)
      ensures forall k :: k in OfUser(applications, u) ==> k in ids
      ensures |ids| == |OfUser(applications, u)|
      ensures DatesDescending(applications, ids)
    {
      var dated, undated := SplitByDate(u);
      var key := DateKey(applications);
      var sorted := Lists.SortDesc(dated, key);
      Lists.SortDescSorted(dated, key);
      forall i | 0 <= i < |sorted|
        ensures sorted[i] in OfUser(applications, u) && applications[sorted[i]].appliedDate.Some?
      {
        assert sorted[i] in multiset(dated);
      }
      ids := sorted + undated;
      forall k | k in OfUser(applications, u) ensures k in ids {
        if k in dated {
          assert k in multiset(sorted);
        }
      }
    }

    /** `getApplication`: the stored record, or the not-found error. */
    method GetApplication(id: int) returns (r: Result<Application, string>)
      ensures id in applications ==> r == Success(applications[id])
      ensures id !in applications ==> r == Failure(ApplicationNotFound)
    {
      if id in applications {
        r := Success(applications[id]);
      } else {
        r := Failure(ApplicationNotFound);
      }
    }

    /** `getApplicationStats`: the total and per-status counts of the user's applications. */
    method GetApplicationStats(u: int) returns (stats: Stats)
      ensures stats.total == |OfUser(applications, u)|
      ensures stats.applied == |OfUserWithStatus(applications, u, Applied)|
      ensures stats.documentPass == |OfUserWithStatus(applications, u, DocumentPass)|
      ensures stats.finalPass == |OfUserWithStatus(applications, u, FinalPass)|
      ensures stats.rejected == |OfUserWithStatus(applications, u, Rejected)|
      ensures stats.total == stats.applied + stats.documentPass + stats.finalPass + stats.rejected
    {
      StatsAddUp(applications, u);
      stats := Stats(
        |OfUser(applications, u)|,
        |OfUserWithStatus(applications, u, Applied)|,
        |OfUserWithStatus(applications, u, DocumentPass)|,
        |OfUserWithStatus(applications, u, FinalPass)|,
        |OfUserWithStatus(applications, u, Rejected)|);
    }

    /**
     * `createApplication`: the user, the company and any given resume and cover letter
     * must exist, checked in that order; the new record gets a fresh id.
     */
    method CreateApplication(dto: ApplicationDto) returns (r: Result<int, string>)
      requires Valid()
      modifies this
      ensures Valid()
      ensures users == old(users) && companies == old(companies)
      ensures resumes == old(resumes) && coverLetters == old(coverLetters)
      ensures dto.userId !in users ==> r == Failure(UserNotFound)
      ensures dto.userId in users && dto.companyId !in companies ==> r == Failure(CompanyNotFound)
      ensures (dto.userId in users && dto.companyId in companies
               && dto.resumeId.Some? && dto.resumeId.value !in resumes)
        ==> r == Failure(ResumeNotFound)
      ensures (dto.userId in users && dto.companyId in companies
               && (dto.resumeId.None? || dto.resumeId.value in resumes)
               && dto.coverLetterId.Some? && dto.coverLetterId.value !in coverLetters)
        ==> r == Failure(CoverLetterNotFound)
      ensures r.Failure? ==> applications == old(applications) && nextId == old(nextId)
      ensures r.Success? <==>
        dto.userId in users && dto.companyId in companies
        && (dto.resumeId.None? || dto.resumeId.value in resumes)
        && (dto.coverLetterId.None? || dto.coverLetterId.value in coverLetters)
      ensures r.Success? ==>
        r.value == old(nextId) && r.value !in old(applications) && nextId == old(nextId) + 1
        && applications == old(applications)[r.value := Application(dto.userId, dto.companyId,
             dto.resumeId, dto.coverLetterId, CreatedStatus(dto.status), dto.appliedDate, dto.notes)]
    {
      if dto.userId !in users {
        return Failure(UserNotFound);
      }
      if dto.companyId !in companies {
        return Failure(CompanyNotFound);
      }
      var record := Application(dto.userId, dto.companyId, None, None, Applied, dto.appliedDate, dto.notes);
      if dto.resumeId.Some? {
        if dto.resumeId.value !in resumes {
          return Failure(ResumeNotFound);
        }
        record := record.(resumeId := dto.resumeId);
      }
      if dto.coverLetterId.Some? {
        if dto.coverLetterId.value !in coverLetters {
          return Failure(CoverLetterNotFound);
        }
        record := record.(coverLetterId := dto.coverLetterId);
      }
      if dto.status.Some? {
        var parsed := ParseStatus(dto.status.value);
        if parsed.Some? {
          record := record.(status := parsed.value);
        } else {
          record := record.(status := Applied);
        }
      } else {
        record := record.(status := Applied);
      }
      var id := nextId;
      applications := applications[id := record];
      nextId := nextId + 1;
      r := Success(id);
    }

    /** `updateApplication`: fails for an unknown id; otherwise applies the non-null, valid fields. */
    method UpdateApplication(id: int, dto: ApplicationDto) returns (r: Result<Application, string>)
      requires Valid()
      modifies this
      ensures Valid() && nextId == old(nextId)
      ensures users == old(users) && companies == old(companies)
      ensures resumes == old(resumes) && coverLetters == old(coverLetters)
      ensures id !in old(applications) ==> r == Failure(ApplicationNotFound) && applications == old(applications)
      ensures id in old(applications) ==>
        r == Success(Merge(old(applications)[id], dto))
        && applications == old(applications)[id := Merge(old(applications)[id], dto)]
    {
      if id !in applications {
        return Failure(ApplicationNotFound);
      }
      var application := applications[id];
      if dto.appliedDate.Some? {
        application := application.(appliedDate := dto.appliedDate);
      }
      if dto.notes.Some? {
        application := application.(notes := dto.notes);
      }
      if dto.status.Some? {
        var parsed := ParseStatus(dto.status.value);
        if parsed.Some? {
          application := application.(status := parsed.value);
        }
      }
      applications := applications[id := application];
      r := Success(application);
    }

    /** `updateApplicationStatus`: fails for an unknown id or an invalid name; otherwise sets exactly that status. */
    method UpdateApplicationStatus(id: int, status: string) returns (r: Result<Application, string>)
      requires Valid()
      modifies this
      ensures Valid() && nextId == old(nextId)
      ensures users == old(users) && companies == old(companies)
      ensures resumes == old(resumes) && coverLetters == old(coverLetters)
      ensures id !in old(applications) ==> r == Failure(ApplicationNotFound)
      ensures id in old(applications) && ParseStatus(status).None? ==> r == Failure(InvalidStatusPrefix + status)
      ensures r.Failure? ==> applications == old(applications)
      ensures id in old(applications) && ParseStatus(status).Some? ==>
        r == Success(old(applications)[id].(status := ParseStatus(status).value))
        && applications == old(applications)[id := old(applications)[id].(status := ParseStatus(status).value)]
    {
      if id !in applications {
        return Failure(ApplicationNotFound);
      }
      var application := applications[id];
      var parsed := ParseStatus(status);
      if parsed.None? {
        return Failure(InvalidStatusPrefix + status);
      }
      application := application.(status := parsed.value);
      applications := applications[id := application];
      r := Success(application);
    }

    /** `deleteApplication`: fails for an unknown id; otherwise removes exactly that id. */
    method DeleteApplication(id: int) returns (r: Result<(), string>)
      requires Valid()
      modifies this
      ensures Valid() && nextId == old(nextId)
      ensures users == old(users) && companies == old(companies)
      ensures resumes == old(resumes) && coverLetters == old(coverLetters)
      ensures id !in old(applications) ==> r == Failure(ApplicationNotFound) && applications == old(applications)
      ensures id in old(applications) ==> r == Success(()) && applications == old(applications) - {id}
    {
      if id !in applications {
        return Failure(ApplicationNotFound);
      }
      applications := applications - {id};
      r := Success(());
    }
  }
}
