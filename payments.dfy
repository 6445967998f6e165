/** The payment table as the access checks read it, and the
    `prisma.payment.findFirst({ where: { userId, courseId, status } })` query
    that both entitlement checks run. */
module Payments {
  import opened JsValues

  /** A payment row; `status` is the stored string ("PENDING", "SUCCESS",
      "FAILED" or a gateway status in upper case). */
  datatype Payment = Payment(id: string, userId: string, courseId: string, status: string)

  const SuccessStatus := "SUCCESS"

  predicate Matches(p: Payment, userId: string, courseId: string, status: string) {
    p.userId == userId && p.courseId == courseId && p.status == status
  }

  /** The first row, in table order, matching all three columns. */
  function FindFirst(table: seq<Payment>, userId: string, courseId: string, status: string): (r: Option<Payment>)
    ensures r.Some? ==> r.value in table && Matches(r.value, userId, courseId, status)
    ensures r.None? <==> forall i :: 0 <= i < |table| ==> !Matches(table[i], userId, courseId, status)
    ensures r.Some? ==> exists i :: 0 <= i < |table| && table[i] == r.value &&
                                    forall j :: 0 <= j < i ==> !Matches(table[j], userId, courseId, status)
  {
    if table == [] then None
    else if Matches(table[0], userId, courseId, status) then Some(table[0])
    else
      var r := FindFirst(table[1..], userId, courseId, status);
      assert forall i :: 1 <= i < |table| ==> table[i] == table[1..][i - 1];
      if r.Some? then
        ghost var k :| 0 <= k < |table[1..]| && table[1..][k] == r.value &&
                       forall j :: 0 <= j < k ==> !Matches(table[1..][j], userId, courseId, status);
        assert table[k + 1] == r.value;
        assert forall j :: 0 <= j < k + 1 ==> !Matches(table[j], userId, courseId, status) by {
          forall j | 0 <= j < k + 1 ensures !Matches(table[j], userId, courseId, status) {
            if j > 0 { assert table[j] == table[1..][j - 1]; }
          }
        }
        r
      else r
  }

  /** Some row records a successful payment by `userId` for `courseId`. */
  predicate HasSuccessfulPayment(table: seq<Payment>, userId: string, courseId: string) {
    exists i :: 0 <= i < |table| && Matches(table[i], userId, courseId, SuccessStatus)
  }
}
