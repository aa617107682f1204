/** `enrollStudents` (server/controllers/payments.js, lines 114-160) as a function on store
    snapshots: a per-course loop with no rollback that stops at the first course that fails. */
module Enrollment {

  import opened Wrappers
  import opened Http
  import opened Records

  /** The end state of the stores and the response `enrollStudents` wrote. */
  datatype Outcome = Outcome(stores: Stores, response: Response)

  /** What one iteration of the loop did: it went on to the next course, or it stopped
      with a response after the writes it had already made. */
  datatype StepResult = Done(stores: Stores) | Stopped(stores: Stores, response: Response)

  const MissingIds := Response(400, false, Message("Missing course or user ID"))
  const CourseNotFound := Response(404, false, Message("Course not found"))
  const EnrollError := Response(500, false, ErrorText("Error enrolling student"))
  const AllEnrolled := Response(200, true, Message("All students enrolled and notified"))

  /** One iteration for the course at position `pos`. A course or user id Mongoose cannot
      cast makes the course update throw before it writes; a course that is gone gives 404;
      a missing user leaves the update of the user a no-op and the following read of its
      email throws, after the roster push and the progress record; a rejected mail throws
      after all three writes. Every throw ends in the catch block's 500. */
  function EnrollStep(s: Stores, c: CourseId, u: UserId, pos: nat,
                      isObjectId: string -> bool, mailFailures: set<nat>): (r: StepResult)
    ensures Grows(s, r.stores)
    ensures r.Stopped? ==> r.response.status != 200 && !r.response.success
  {
    if !isObjectId(c) || !isObjectId(u) then Stopped(s, EnrollError)
    else if c !in s.courses then Stopped(s, CourseNotFound)
    else if u !in s.users then Stopped(AddProgress(PushStudent(s, c, u), c, u), EnrollError)
    else if pos in mailFailures then Stopped(EnrollCourse(s, c, u), EnrollError)
    else Done(EnrollCourse(s, c, u))
  }

  /** The iteration for the course at `pos` goes through. It depends on the stores only
      through which courses and users exist, which enrollment never changes. */
  predicate StepOk(s: Stores, c: CourseId, u: UserId, pos: nat,
                   isObjectId: string -> bool, mailFailures: set<nat>)
  {
    isObjectId(c) && isObjectId(u) && c in s.courses && u in s.users && pos !in mailFailures
  }

  /** The loop from position `i` on. */
  function RunFrom(s: Stores, cs: seq<CourseId>, u: UserId, i: nat,
                   isObjectId: string -> bool, mailFailures: set<nat>): (r: Outcome)
    requires i <= |cs|
    ensures Grows(s, r.stores)
    ensures r.response.success <==> r.response.status == 200
    decreases |cs| - i
  {
    if i == |cs| then Outcome(s, AllEnrolled)
    else
      match EnrollStep(s, cs[i], u, i, isObjectId, mailFailures)
      case Stopped(t, r) => Outcome(t, r)
      case Done(t) => RunFrom(t, cs, u, i + 1, isObjectId, mailFailures)
  }

  /** `enrollStudents`: the guard on its arguments, then the loop. */
  function Enroll(s: Stores, courses: Option<seq<CourseId>>, u: UserId,
                  isObjectId: string -> bool, mailFailures: set<nat>): (r: Outcome)
    ensures Grows(s, r.stores)
    ensures courses.None? || u == "" ==> r == Outcome(s, MissingIds)
  {
    if courses.None? || u == "" then Outcome(s, MissingIds)
    else RunFrom(s, courses.value, u, 0, isObjectId, mailFailures)
  }

  /** Every iteration before position `k` goes through. */
  predicate OkBefore(s: Stores, cs: seq<CourseId>, u: UserId, k: nat,
                     isObjectId: string -> bool, mailFailures: set<nat>)
    requires k <= |cs|
  {
    forall j :: 0 <= j < k ==> StepOk(s, cs[j], u, j, isObjectId, mailFailures)
  }

  /** The position of the first iteration at or after `i` that does not go through, or
      `|cs|` when there is none. */
  function FirstFailure(s: Stores, cs: seq<CourseId>, u: UserId, i: nat,
                        isObjectId: string -> bool, mailFailures: set<nat>): (k: nat)
    requires i <= |cs|
    ensures i <= k <= |cs|
    ensures forall j :: i <= j < k ==> StepOk(s, cs[j], u, j, isObjectId, mailFailures)
    ensures k < |cs| ==> !StepOk(s, cs[k], u, k, isObjectId, mailFailures)
    decreases |cs| - i
  {
    if i == |cs| then i
    else if !StepOk(s, cs[i], u, i, isObjectId, mailFailures) then i
    else FirstFailure(s, cs, u, i + 1, isObjectId, mailFailures)
  }

  /** A step that goes through performs exactly the three writes of `EnrollCourse`, and a
      step that does not stops. */
  lemma StepOkIsDone(s: Stores, c: CourseId, u: UserId, pos: nat,
                     isObjectId: string -> bool, mailFailures: set<nat>)
    ensures EnrollStep(s, c, u, pos, isObjectId, mailFailures).Done?
            <==> StepOk(s, c, u, pos, isObjectId, mailFailures)
    ensures StepOk(s, c, u, pos, isObjectId, mailFailures)
            ==> EnrollStep(s, c, u, pos, isObjectId, mailFailures) == Done(EnrollCourse(s, c, u))
  {
  }

  /** Running the loop over a prefix of courses that all go through reaches exactly the
      stores in which that prefix is fully enrolled. */
  lemma {:induction false} RunThroughPrefix(s: Stores, cs: seq<CourseId>, u: UserId, i: nat, k: nat,
                                             isObjectId: string -> bool, mailFailures: set<nat>)
    requires i <= k <= |cs|
    requires OkBefore(s, cs, u, k, isObjectId, mailFailures)
    ensures Enrollable(s, cs[..k], u)
    ensures RunFrom(EnrollAll(s, cs[..i], u), cs, u, i, isObjectId, mailFailures)
            == RunFrom(EnrollAll(s, cs[..k], u), cs, u, k, isObjectId, mailFailures)
    decreases k - i
  {
    assert Enrollable(s, cs[..k], u) by {
      if k > 0 { assert StepOk(s, cs[0], u, 0, isObjectId, mailFailures); }
      var prefix := cs[..k];
      forall j | 0 <= j < |prefix| ensures prefix[j] in s.courses {
        assert StepOk(s, cs[j], u, j, isObjectId, mailFailures);
      }
    }
    if i < k {
      assert Enrollable(s, cs[..i + 1], u) by {
        var next := cs[..i + 1];
        forall j | 0 <= j < |next| ensures next[j] in s.courses { assert next[j] == cs[j]; }
      }
      assert cs[..i + 1][..i] == cs[..i];
      var before := EnrollAll(s, cs[..i], u);
      assert EnrollAll(s, cs[..i + 1], u) == EnrollCourse(before, cs[i], u);
      assert StepOk(s, cs[i], u, i, isObjectId, mailFailures);
      assert StepOk(before, cs[i], u, i, isObjectId, mailFailures);
      StepOkIsDone(before, cs[i], u, i, isObjectId, mailFailures);
      RunThroughPrefix(s, cs, u, i + 1, k, isObjectId, mailFailures);
    }
  }

  /** When every course goes through, every course is fully enrolled and the response is
      200. */
  lemma EnrollSucceeds(s: Stores, cs: seq<CourseId>, u: UserId,
                       isObjectId: string -> bool, mailFailures: set<nat>)
    requires u != ""
    requires OkBefore(s, cs, u, |cs|, isObjectId, mailFailures)
    ensures Enrollable(s, cs, u)
    ensures Enroll(s, Some(cs), u, isObjectId, mailFailures) == Outcome(EnrollAll(s, cs, u), AllEnrolled)
  {
    RunThroughPrefix(s, cs, u, 0, |cs|, isObjectId, mailFailures);
    assert cs[..0] == [] && cs[..|cs|] == cs;
  }

  /** The first course that does not go through ends the loop. The courses before it stay
      fully enrolled; what the failing course left behind depends on where it failed;
      no later course is touched. */
  lemma EnrollStopsAtFirstFailure(s: Stores, cs: seq<CourseId>, u: UserId, k: nat,
                                  isObjectId: string -> bool, mailFailures: set<nat>)
    requires u != "" && k < |cs|
    requires OkBefore(s, cs, u, k, isObjectId, mailFailures)
    requires !StepOk(s, cs[k], u, k, isObjectId, mailFailures)
    ensures Enrollable(s, cs[..k], u)
    ensures var before := EnrollAll(s, cs[..k], u);
            var out := Enroll(s, Some(cs), u, isObjectId, mailFailures);
            && (!isObjectId(cs[k]) || !isObjectId(u) ==> out == Outcome(before, EnrollError))
            && (isObjectId(cs[k]) && isObjectId(u) && cs[k] !in s.courses
                ==> out == Outcome(before, CourseNotFound))
            && (isObjectId(cs[k]) && isObjectId(u) && cs[k] in s.courses && u !in s.users
                ==> out == Outcome(AddProgress(PushStudent(before, cs[k], u), cs[k], u), EnrollError))
            && (isObjectId(cs[k]) && isObjectId(u) && cs[k] in s.courses && u in s.users
                ==> k in mailFailures && out == Outcome(EnrollCourse(before, cs[k], u), EnrollError))
  {
    RunThroughPrefix(s, cs, u, 0, k, isObjectId, mailFailures);
    assert cs[..0] == [];
  }

  /** The response is 200 if and only if every course goes through; otherwise it is a
      failure (400, 404 or 500). */
  lemma EnrollSucceedsIff(s: Stores, courses: Option<seq<CourseId>>, u: UserId,
                          isObjectId: string -> bool, mailFailures: set<nat>)
    ensures Enroll(s, courses, u, isObjectId, mailFailures).response.status == 200
            <==> courses.Some? && u != "" && OkBefore(s, courses.value, u, |courses.value|, isObjectId, mailFailures)
    ensures Enroll(s, courses, u, isObjectId, mailFailures).response.success
            <==> Enroll(s, courses, u, isObjectId, mailFailures).response.status == 200
  {
    if courses.Some? && u != "" {
      var cs := courses.value;
      var k := FirstFailure(s, cs, u, 0, isObjectId, mailFailures);
      if k == |cs| {
        EnrollSucceeds(s, cs, u, isObjectId, mailFailures);
      } else {
        EnrollStopsAtFirstFailure(s, cs, u, k, isObjectId, mailFailures);
      }
    }
  }

  /** Every link from a user to its progress records survives the loop, whatever the
      outcome; a record left behind by a missing user is an orphan no user points at. */
  lemma {:induction false} RunFromKeepsLinked(s: Stores, cs: seq<CourseId>, u: UserId, i: nat,
                                               isObjectId: string -> bool, mailFailures: set<nat>)
    requires i <= |cs| && Linked(s)
    ensures Linked(RunFrom(s, cs, u, i, isObjectId, mailFailures).stores)
    decreases |cs| - i
  {
    if i < |cs| {
      var c := cs[i];
      if isObjectId(c) && isObjectId(u) && c in s.courses {
        if u !in s.users {
          PushAndProgressKeepLinked(s, c, u);
        } else {
          EnrollCourseKeepsLinked(s, c, u);
          if i !in mailFailures {
            RunFromKeepsLinked(EnrollCourse(s, c, u), cs, u, i + 1, isObjectId, mailFailures);
          }
        }
      }
    }
  }

  /** `enrollStudents` keeps the user-to-progress links consistent. */
  lemma EnrollKeepsLinked(s: Stores, courses: Option<seq<CourseId>>, u: UserId,
                          isObjectId: string -> bool, mailFailures: set<nat>)
    requires Linked(s)
    ensures Linked(Enroll(s, courses, u, isObjectId, mailFailures).stores)
  {
    if courses.Some? && u != "" {
      RunFromKeepsLinked(s, courses.value, u, 0, isObjectId, mailFailures);
    }
  }

  /** Nothing stops a second enrollment of the same user in the same course: after a
      successful run the user appears once more per occurrence of the course in the
      request, on top of any earlier entries. */
  lemma {:induction false} EnrollAppendsDuplicates(s: Stores, cs: seq<CourseId>, u: UserId, c: CourseId,
                                                    isObjectId: string -> bool, mailFailures: set<nat>)
    requires u != "" && c in cs
    requires OkBefore(s, cs, u, |cs|, isObjectId, mailFailures)
    requires u in s.courses[c].studentsEnrolled
    ensures c in Enroll(s, Some(cs), u, isObjectId, mailFailures).stores.courses
    ensures multiset(Enroll(s, Some(cs), u, isObjectId, mailFailures).stores.courses[c].studentsEnrolled)[u]
            >= 2
  {
    EnrollSucceeds(s, cs, u, isObjectId, mailFailures);
    var j :| 0 <= j < |cs| && cs[j] == c;
    assert StepOk(s, cs[j], u, j, isObjectId, mailFailures);
    EnrollAllCourse(s, cs, u, c);
    var roster := s.courses[c].studentsEnrolled;
    var extra := Repeat(u, Count(cs, c));
    assert Count(cs, c) >= 1;
    assert extra[0] == u;
    assert multiset(roster + extra) == multiset(roster) + multiset(extra);
  }

}
