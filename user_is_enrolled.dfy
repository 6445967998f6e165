/** `checkIfCourseBought` of app/data/user/user-is-enrolled.ts: a user owns a
    course when a SUCCESS payment exists for the pair. */
module UserIsEnrolled {
  import opened JsValues
  import opened Auth
  import opened Payments

  /** `checkIfCourseBought(courseId)` for the current `session` and payment table. */
  function CheckIfCourseBought(session: Option<Session>, table: seq<Payment>, courseId: string): (bought: bool)
    ensures session.None? ==> !bought
    ensures bought <==> session.Some? && HasSuccessfulPayment(table, session.value.userId, courseId)
  {
    if session.None? then false
    else
      var enrollment := FindFirst(table, session.value.userId, courseId, SuccessStatus);
      enrollment.Some? && enrollment.value.status == SuccessStatus
  }

  /** Without a session the payment table is never consulted: any two tables
      give the same answer. */
  lemma {:induction false} NoSessionIgnoresTable(t1: seq<Payment>, t2: seq<Payment>, courseId: string)
    ensures CheckIfCourseBought(None, t1, courseId) == CheckIfCourseBought(None, t2, courseId) == false
  {
  }

  /** Adding a row that is not a SUCCESS payment of this user for this course,
      anywhere in the table, never changes the answer: other users, other
      courses, and PENDING or FAILED payments do not count. */
  lemma {:induction false} UnrelatedPaymentIrrelevant(session: Option<Session>, table: seq<Payment>, k: nat, p: Payment, courseId: string)
    requires k <= |table|
    requires session.Some? ==> !Matches(p, session.value.userId, courseId, SuccessStatus)
    ensures CheckIfCourseBought(session, table[..k] + [p] + table[k..], courseId) == CheckIfCourseBought(session, table, courseId)
  {
    if session.Some? {
      var u := session.value.userId;
      var t := table[..k] + [p] + table[k..];
      if HasSuccessfulPayment(t, u, courseId) {
        var i :| 0 <= i < |t| && Matches(t[i], u, courseId, SuccessStatus);
        if i < k { assert t[i] == table[i]; } else { assert i > k && t[i] == table[i - 1]; }
      }
      if HasSuccessfulPayment(table, u, courseId) {
        var i :| 0 <= i < |table| && Matches(table[i], u, courseId, SuccessStatus);
        if i < k { assert t[i] == table[i]; } else { assert t[i + 1] == table[i]; }
      }
    }
  }

  /** Payments whose status is not "SUCCESS" never make the course bought,
      however many there are and whoever made them. */
  lemma {:induction false} OnlySuccessCounts(session: Session, t: seq<Payment>, courseId: string)
    requires forall i :: 0 <= i < |t| ==> t[i].status != SuccessStatus
    ensures !CheckIfCourseBought(Some(session), t, courseId)
  {
  }
}
