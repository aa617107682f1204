/** The three stores the enrollment writes to (courses, users, course progress) and the
    writes one enrolled course makes to them, as values. */
module Records {

  type CourseId = string
  type UserId = string

  /** A progress record is identified by its position in the progress store, so the id
      handed out on creation is always fresh. */
  type ProgressId = nat

  datatype Course = Course(price: int, studentsEnrolled: seq<UserId>)

  datatype User = User(courses: seq<CourseId>, courseProgress: seq<ProgressId>)

  datatype ProgressRecord = ProgressRecord(courseId: CourseId, userId: UserId, completedVideos: seq<string>)

  /** A snapshot of the three stores. */
  datatype Stores = Stores(courses: map<CourseId, Course>, users: map<UserId, User>, progress: seq<ProgressRecord>)

  /** `$push` of the user onto the course's `studentsEnrolled`; there is no duplicate check. */
  function PushStudent(s: Stores, c: CourseId, u: UserId): Stores
    requires c in s.courses
  {
    s.(courses := s.courses[c := s.courses[c].(studentsEnrolled := s.courses[c].studentsEnrolled + [u])])
  }

  /** `CourseProgress.create` with an empty `completedVideos`; its id is the old store size. */
  function AddProgress(s: Stores, c: CourseId, u: UserId): Stores
  {
    s.(progress := s.progress + [ProgressRecord(c, u, [])])
  }

  /** `$push` of the course id and the progress id onto the user. */
  function LinkUser(s: Stores, u: UserId, c: CourseId, p: ProgressId): Stores
    requires u in s.users
  {
    s.(users := s.users[u := User(s.users[u].courses + [c], s.users[u].courseProgress + [p])])
  }

  /** `t` comes from `s` by enrollment writes only: no course, user or progress record is
      removed, and no existing progress record is rewritten. */
  predicate Grows(s: Stores, t: Stores)
  {
    s.courses.Keys == t.courses.Keys && s.users.Keys == t.users.Keys && s.progress <= t.progress
  }

  /** The three writes for one course, when the course and the user both exist: the user
      lands on the roster, the new record is the last progress record, and the user's new
      last course and last progress id point at it. */
  function EnrollCourse(s: Stores, c: CourseId, u: UserId): (r: Stores)
    requires c in s.courses && u in s.users
    ensures Grows(s, r) && |r.progress| == |s.progress| + 1
    ensures r.progress[|s.progress|] == ProgressRecord(c, u, [])
    ensures u in r.courses[c].studentsEnrolled
    ensures r.users[u].courses == s.users[u].courses + [c]
    ensures r.users[u].courseProgress == s.users[u].courseProgress + [|s.progress|]
  {
    LinkUser(AddProgress(PushStudent(s, c, u), c, u), u, c, |s.progress|)
  }

  /** Every course of `cs` exists, and so does the user unless `cs` is empty. */
  predicate Enrollable(s: Stores, cs: seq<CourseId>, u: UserId)
  {
    (cs != [] ==> u in s.users) && forall j :: 0 <= j < |cs| ==> cs[j] in s.courses
  }

  /** The stores after every course of `cs`, in order, has gone through all three writes. */
  function EnrollAll(s: Stores, cs: seq<CourseId>, u: UserId): (r: Stores)
    requires Enrollable(s, cs, u)
    ensures r.courses.Keys == s.courses.Keys && r.users.Keys == s.users.Keys
    ensures |r.progress| == |s.progress| + |cs|
    decreases |cs|
  {
    if cs == [] then s
    else
      var before := EnrollAll(s, cs[..|cs| - 1], u);
      EnrollCourse(before, cs[|cs| - 1], u)
  }

  /** How often `c` occurs in `cs`. */
  function Count(cs: seq<CourseId>, c: CourseId): (n: nat)
    ensures n == multiset(cs)[c]
    decreases |cs|
  {
    if cs == [] then 0
    else
      assert cs == cs[..|cs| - 1] + [cs[|cs| - 1]];
      Count(cs[..|cs| - 1], c) + (if cs[|cs| - 1] == c then 1 else 0)
  }

  /** `n` copies of `u`. */
  function Repeat(u: UserId, n: nat): (r: seq<UserId>)
    ensures |r| == n && forall j :: 0 <= j < n ==> r[j] == u
  {
    if n == 0 then [] else Repeat(u, n - 1) + [u]
  }

  /** The fresh progress records for `cs`, one per course, in order. */
  function NewRecords(cs: seq<CourseId>, u: UserId): (r: seq<ProgressRecord>)
    ensures |r| == |cs|
    ensures forall j :: 0 <= j < |cs| ==> r[j] == ProgressRecord(cs[j], u, [])
    decreases |cs|
  {
    if cs == [] then []
    else NewRecords(cs[..|cs| - 1], u) + [ProgressRecord(cs[|cs| - 1], u, [])]
  }

  /** The `n` consecutive ids starting at `from`. */
  function IdRange(from: nat, n: nat): (r: seq<ProgressId>)
    ensures |r| == n && forall j :: 0 <= j < n ==> r[j] == from + j
  {
    if n == 0 then [] else IdRange(from, n - 1) + [from + n - 1]
  }

  /** The prefix of `cs` without its last course is enrollable too. */
  lemma EnrollableInit(s: Stores, cs: seq<CourseId>, u: UserId)
    requires Enrollable(s, cs, u) && cs != []
    ensures Enrollable(s, cs[..|cs| - 1], u)
  {
  }

  /** `EnrollAll` appends one empty progress record per course, in course order. */
  lemma {:induction false} EnrollAllProgress(s: Stores, cs: seq<CourseId>, u: UserId)
    requires Enrollable(s, cs, u)
    ensures EnrollAll(s, cs, u).progress == s.progress + NewRecords(cs, u)
    decreases |cs|
  {
    if cs != [] {
      EnrollableInit(s, cs, u);
      EnrollAllProgress(s, cs[..|cs| - 1], u);
    }
  }

  /** `EnrollAll` grows the user's course list by `cs` and the progress list, in step,
      by the ids of the records it creates. */
  lemma {:induction false} EnrollAllUser(s: Stores, cs: seq<CourseId>, u: UserId)
    requires Enrollable(s, cs, u) && u in s.users
    ensures EnrollAll(s, cs, u).users[u]
            == User(s.users[u].courses + cs, s.users[u].courseProgress + IdRange(|s.progress|, |cs|))
    decreases |cs|
  {
    if cs != [] {
      var init, last := cs[..|cs| - 1], cs[|cs| - 1];
      EnrollableInit(s, cs, u);
      EnrollAllUser(s, init, u);
      assert s.users[u].courses + init + [last] == s.users[u].courses + cs;
      assert IdRange(|s.progress|, |cs|) == IdRange(|s.progress|, |init|) + [|s.progress| + |init|];
    }
  }

  /** `EnrollAll` leaves every other user as it was. */
  lemma {:induction false} EnrollAllOtherUsers(s: Stores, cs: seq<CourseId>, u: UserId, v: UserId)
    requires Enrollable(s, cs, u) && v in s.users && v != u
    ensures EnrollAll(s, cs, u).users[v] == s.users[v]
    decreases |cs|
  {
    if cs != [] {
      EnrollableInit(s, cs, u);
      EnrollAllOtherUsers(s, cs[..|cs| - 1], u, v);
    }
  }

  /** `EnrollAll` appends to each course's roster one copy of the user per occurrence of
      the course in `cs`, and changes nothing else about the course. */
  lemma {:induction false} EnrollAllCourse(s: Stores, cs: seq<CourseId>, u: UserId, c: CourseId)
    requires Enrollable(s, cs, u) && c in s.courses
    ensures EnrollAll(s, cs, u).courses[c]
            == s.courses[c].(studentsEnrolled := s.courses[c].studentsEnrolled + Repeat(u, Count(cs, c)))
    decreases |cs|
  {
    if cs != [] {
      var init, last := cs[..|cs| - 1], cs[|cs| - 1];
      EnrollableInit(s, cs, u);
      EnrollAllCourse(s, init, u, c);
      assert Count(cs, c) == Count(init, c) + (if last == c then 1 else 0);
      if c == last {
        assert Repeat(u, Count(cs, c)) == Repeat(u, Count(init, c)) + [u];
        assert s.courses[c].studentsEnrolled + Repeat(u, Count(init, c)) + [u]
               == s.courses[c].studentsEnrolled + Repeat(u, Count(cs, c));
      }
    }
  }

  /** A course that `cs` does not name keeps its record. */
  lemma CoursesOutsideUntouched(s: Stores, cs: seq<CourseId>, u: UserId, d: CourseId)
    requires Enrollable(s, cs, u) && d in s.courses && d !in cs
    ensures EnrollAll(s, cs, u).courses[d] == s.courses[d]
  {
  }

  /** The user's course list and progress list run in parallel, and each progress id
      points at an existing record for that same course and user. */
  predicate UserLinked(s: Stores, u: UserId)
    requires u in s.users
  {
    var usr := s.users[u];
    && |usr.courses| == |usr.courseProgress|
    && forall i :: 0 <= i < |usr.courseProgress| ==>
         && usr.courseProgress[i] < |s.progress|
         && s.progress[usr.courseProgress[i]].courseId == usr.courses[i]
         && s.progress[usr.courseProgress[i]].userId == u
  }

  /** Every user is linked to the progress store consistently. */
  predicate Linked(s: Stores)
  {
    forall u :: u in s.users ==> UserLinked(s, u)
  }

  /** Appending a course to a roster or a record to the progress store keeps every link. */
  lemma PushAndProgressKeepLinked(s: Stores, c: CourseId, u: UserId)
    requires c in s.courses && Linked(s)
    ensures Linked(AddProgress(PushStudent(s, c, u), c, u))
  {
  }

  /** One full enrollment keeps every link: the new progress id points at the new record. */
  lemma EnrollCourseKeepsLinked(s: Stores, c: CourseId, u: UserId)
    requires c in s.courses && u in s.users && Linked(s)
    ensures Linked(EnrollCourse(s, c, u))
  {
  }

}
