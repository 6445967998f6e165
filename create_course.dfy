/** The `CreateCourse` server action of app/admin/courses/create/actions.ts:
    admin guard, then (inside the try block) the rate-limit decision, schema
    validation and the insert into the course table. */
module CreateCourseAction {
  import opened JsValues
  import opened ZodSchema
  import opened Auth
  import opened AdminGuard

  /** A row of the course table: the validated form plus the creator's id. */
  datatype CourseRecord = CourseRecord(data: CourseInput, userId: string)

  datatype Status = Success | Error

  /** The `ApiResponse` object the action returns. */
  datatype ApiResponse = ApiResponse(status: Status, message: string)

  /** A call either ends in a redirect thrown by `requireAdmin` or returns a response. */
  datatype Outcome = Redirected(path: string) | Responded(response: ApiResponse)

  /** Exceptions raised inside the try block: by `request()`/`aj.protect`
      before the decision is known, or by the insert. */
  datatype Faults = Faults(protectThrows: bool, insertThrows: bool)

  const Denied := ApiResponse(Error, "Errrrrr")
  const InvalidForm := ApiResponse(Error, "Invalid form data")
  const Created := ApiResponse(Success, "Course created successfully.")
  const Failed := ApiResponse(Error, "Failed to create course.")

  /** The course table. */
  class CourseStore {
    var courses: seq<CourseRecord>

    /** Every stored course satisfies `courseSchema`. */
    ghost predicate Valid()
      reads this
    {
      forall i :: 0 <= i < |courses| ==> CourseValid(courses[i].data)
    }

    constructor ()
      ensures Valid() && courses == []
    {
      courses := [];
    }

    /** `CreateCourse(values)`. `denied` is the rate-limit and bot decision,
        `faults` the exceptions the I/O inside the try block raises. */
    method CreateCourse(session: Option<Session>, denied: bool, values: Json, faults: Faults)
      returns (outcome: Outcome)
      requires Valid()
      modifies this
      ensures Valid()
      ensures RequireAdmin(session).Redirect? ==>
        outcome == Redirected(RequireAdmin(session).path) && courses == old(courses)
      ensures RequireAdmin(session).Admin? && faults.protectThrows ==>
        outcome == Responded(Failed) && courses == old(courses)
      ensures RequireAdmin(session).Admin? && !faults.protectThrows && denied ==>
        outcome == Responded(Denied) && courses == old(courses)
      ensures RequireAdmin(session).Admin? && !faults.protectThrows && !denied && ParseCourse(values).Rejected? ==>
        outcome == Responded(InvalidForm) && courses == old(courses)
      ensures RequireAdmin(session).Admin? && !faults.protectThrows && !denied && ParseCourse(values).Parsed? && faults.insertThrows ==>
        outcome == Responded(Failed) && courses == old(courses)
      ensures RequireAdmin(session).Admin? && !faults.protectThrows && !denied && ParseCourse(values).Parsed? && !faults.insertThrows ==>
        outcome == Responded(Created) &&
        courses == old(courses) + [CourseRecord(ParseCourse(values).data, session.value.user.id)]
      ensures outcome == Responded(Created) <==> |courses| == |old(courses)| + 1
    {
      var gate := RequireAdmin(session);
      if gate.Redirect? {
        return Redirected(gate.path);
      }
      // try {
      if faults.protectThrows {
        return Responded(Failed);
      }
      if denied {
        return Responded(Denied);
      }
      var validation := ParseCourse(values);
      if validation.Rejected? {
        return Responded(InvalidForm);
      }
      if faults.insertThrows {
        return Responded(Failed);
      }
      courses := courses + [CourseRecord(validation.data, gate.session.user.id)];
      return Responded(Created);
      // } catch { return Failed }
    }
  }
}
