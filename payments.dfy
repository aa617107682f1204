/** The payment controller (server/controllers/payments.js): order creation, payment
    verification with enrollment, and the payment-success mail, over in-memory stores.
    The payment gateway, the HMAC primitive, Mongoose's id casting and the mailer are
    parameters. */
module Payments {

  import opened Wrappers
  import opened Http
  import opened Records
  import opened Enrollment
  import opened Signature

  /** JavaScript truthiness of a string field of the request body: a missing field and
      the empty string are both falsy. */
  predicate Present(field: Option<string>)
  {
    field.Some? && field.value != ""
  }

  const NoCourses := Response(200, false, Message("Please Provide Course ID"))
  const UnknownCourse := Response(404, false, Message("Could not find the Course"))
  const AlreadyEnrolled := Response(200, false, Message("Student is already Enrolled"))
  const ProcessingError := Response(500, false, Message("Error processing courses"))
  const OrderNotCreated := Response(500, false, Message("Could not initiate order."))
  const MissingPaymentDetails := Response(400, false, Message("Missing required payment details"))
  const VerificationFailed := Response(400, false, Message("Payment verification failed"))
  const MissingEmailDetails := Response(400, false, Message("Missing email details"))
  const EmailSent := Response(200, true, Message("Payment success email sent"))
  const EmailNotSent := Response(500, false, Message("Could not send email"))

  /** What one course of the order loop (lines 25-35) stops the request with, if anything:
      an id Mongoose cannot cast throws (500), an unknown course gives 404, a user id that
      is not an ObjectId throws (500), a user already on the roster gives 200 with
      `success: false`. */
  function CourseCheck(courses: map<CourseId, Course>, c: CourseId, u: UserId,
                       isObjectId: string -> bool): (r: Option<Response>)
    ensures r.None? <==> isObjectId(c) && c in courses && isObjectId(u) && u !in courses[c].studentsEnrolled
    ensures r.Some? ==> !r.value.success
  {
    if !isObjectId(c) then Some(ProcessingError)
    else if c !in courses then Some(UnknownCourse)
    else if !isObjectId(u) then Some(ProcessingError)
    else if u in courses[c].studentsEnrolled then Some(AlreadyEnrolled)
    else None
  }

  /** The course at position `k` is the first one the order loop stops at. */
  predicate FirstRejected(courses: map<CourseId, Course>, cs: seq<CourseId>, u: UserId,
                          isObjectId: string -> bool, k: nat)
  {
    && k < |cs|
    && CourseCheck(courses, cs[k], u, isObjectId).Some?
    && forall j :: 0 <= j < k ==> CourseCheck(courses, cs[j], u, isObjectId).None?
  }

  /** The sum of the prices of `cs`, counting a course once per occurrence. It is never
      negative when no price is, and it is at least the price of every course in the cart. */
  function TotalPrice(courses: map<CourseId, Course>, cs: seq<CourseId>): (total: int)
    requires forall j :: 0 <= j < |cs| ==> cs[j] in courses
    ensures (forall c :: c in courses ==> courses[c].price >= 0)
            ==> total >= 0 && forall j :: 0 <= j < |cs| ==> total >= courses[cs[j]].price
    decreases |cs|
  {
    if cs == [] then 0
    else TotalPrice(courses, cs[..|cs| - 1]) + courses[cs[|cs| - 1]].price
  }

  /** The total of a concatenation is the sum of the totals: the amount does not depend
      on how the cart is split. */
  lemma {:induction false} TotalPriceAppend(courses: map<CourseId, Course>, a: seq<CourseId>, b: seq<CourseId>)
    requires forall j :: 0 <= j < |a| ==> a[j] in courses
    requires forall j :: 0 <= j < |b| ==> b[j] in courses
    ensures forall j :: 0 <= j < |a + b| ==> (a + b)[j] in courses
    ensures TotalPrice(courses, a + b) == TotalPrice(courses, a) + TotalPrice(courses, b)
    decreases |b|
  {
    assert forall j :: 0 <= j < |a + b| ==> (a + b)[j] in courses by {
      forall j | 0 <= j < |a + b| ensures (a + b)[j] in courses {
        if j < |a| { assert (a + b)[j] == a[j]; } else { assert (a + b)[j] == b[j - |a|]; }
      }
    }
    if b != [] {
      var init := b[..|b| - 1];
      assert (a + b)[..|a + b| - 1] == a + init;
      TotalPriceAppend(courses, a, init);
    } else {
      assert a + b == a;
    }
  }

  /** The request fields `verifyPayment` demands (line 66). An empty course list is an
      array and so truthy: it passes. */
  predicate HasPaymentDetails(orderId: Option<string>, paymentId: Option<string>, signature: Option<string>,
                              courses: Option<seq<CourseId>>, userId: UserId)
  {
    Present(orderId) && Present(paymentId) && Present(signature) && courses.Some? && userId != ""
  }

  datatype Verdict = MissingDetails | Mismatch | Verified

  /** The decision `verifyPayment` takes before it enrolls (lines 66-80): missing fields
      reject before any HMAC is computed, and enrollment is reached exactly when the
      supplied signature equals the HMAC of the signed message. */
  function CheckPayment(orderId: Option<string>, paymentId: Option<string>, signature: Option<string>,
                        courses: Option<seq<CourseId>>, userId: UserId,
                        hmac: (string, string) -> string, secret: string): (v: Verdict)
    ensures v == MissingDetails <==> !HasPaymentDetails(orderId, paymentId, signature, courses, userId)
    ensures v == Verified
            <==> && HasPaymentDetails(orderId, paymentId, signature, courses, userId)
                 && signature.value == hmac(secret, orderId.value + "|" + paymentId.value)
  {
    if !HasPaymentDetails(orderId, paymentId, signature, courses, userId) then MissingDetails
    else if SignatureMatches(hmac, secret, orderId.value, paymentId.value, signature.value) then Verified
    else Mismatch
  }

  /** A signature that differs from the one the gateway would produce for this order and
      payment never reaches enrollment, whatever it looks like. */
  lemma ForgedSignatureRejected(orderId: string, paymentId: string, forged: string,
                                courses: seq<CourseId>, userId: UserId,
                                hmac: (string, string) -> string, secret: string)
    requires orderId != "" && paymentId != "" && forged != "" && userId != ""
    requires forged != hmac(secret, SignedMessage(orderId, paymentId))
    ensures CheckPayment(Some(orderId), Some(paymentId), Some(forged), Some(courses), userId, hmac, secret)
            == Mismatch
  {
  }

  /** The signature covers the order id and the payment id only, never the course list:
      a signature that verifies one request verifies the same request with any other
      course list, so the courses enrolled are whatever the request body names. */
  lemma SignatureIgnoresCourses(orderId: Option<string>, paymentId: Option<string>, signature: Option<string>,
                                courses1: seq<CourseId>, courses2: seq<CourseId>, userId: UserId,
                                hmac: (string, string) -> string, secret: string)
    ensures CheckPayment(orderId, paymentId, signature, Some(courses1), userId, hmac, secret)
            == CheckPayment(orderId, paymentId, signature, Some(courses2), userId, hmac, secret)
  {
  }

  /** The guard of `sendPaymentSuccessEmail` (lines 89-91); `!amount` also rejects 0. */
  predicate HasEmailDetails(orderId: Option<string>, paymentId: Option<string>, amount: Option<int>, userId: UserId)
  {
    Present(orderId) && Present(paymentId) && amount.Some? && amount.value != 0 && userId != ""
  }

  /** The platform's three stores, updated in place by the handlers. */
  class Platform {
    var courses: map<CourseId, Course>
    var users: map<UserId, User>
    var progress: seq<ProgressRecord>

    /** The current contents of the three stores. */
    function Snapshot(): Stores
      reads this
    {
      Stores(courses, users, progress)
    }

    constructor (initial: Stores)
      ensures Snapshot() == initial
    {
      courses, users, progress := initial.courses, initial.users, initial.progress;
    }

    /** `capturePayment` (lines 12-59): validate the cart, add up the prices and ask the
        gateway for an order of the total in paise. `request` is the order asked of the
        gateway, `None` when no gateway call is made; `gatewayOrder` is the id the gateway
        assigns, `None` when the call throws. The stores are only read. */
    method CapturePayment(courseIds: Option<seq<CourseId>>, userId: UserId, isObjectId: string -> bool,
                          gatewayOrder: Option<string>)
      returns (response: Response, request: Option<OrderRequest>)
      ensures courseIds.None? || courseIds.value == [] ==> response == NoCourses && request == None
      ensures forall k: nat :: courseIds.Some? && FirstRejected(courses, courseIds.value, userId, isObjectId, k)
                ==> response == CourseCheck(courses, courseIds.value[k], userId, isObjectId).value && request == None
      ensures courseIds.Some? && courseIds.value != []
              && (forall j :: 0 <= j < |courseIds.value| ==> CourseCheck(courses, courseIds.value[j], userId, isObjectId).None?)
              ==> && (forall j :: 0 <= j < |courseIds.value| ==> courseIds.value[j] in courses)
                  && request == Some(OrderRequest(100 * TotalPrice(courses, courseIds.value), "INR"))
                  && response == if gatewayOrder.Some?
                                 then Response(200, true, OrderData(Order(gatewayOrder.value, request.value.amount, "INR")))
                                 else OrderNotCreated
    {
      if courseIds.None? || |courseIds.value| == 0 {
        return NoCourses, None;
      }
      var cs := courseIds.value;
      var totalAmount := 0;
      for i := 0 to |cs|
        invariant forall j :: 0 <= j < i ==> CourseCheck(courses, cs[j], userId, isObjectId).None?
        invariant forall j :: 0 <= j < i ==> cs[..i][j] in courses
        invariant totalAmount == TotalPrice(courses, cs[..i])
      {
        var courseId := cs[i];
        if !isObjectId(courseId) {
          return ProcessingError, None;
        }
        if courseId !in courses {
          return UnknownCourse, None;
        }
        if !isObjectId(userId) {
          return ProcessingError, None;
        }
        if userId in courses[courseId].studentsEnrolled {
          return AlreadyEnrolled, None;
        }
        assert cs[..i + 1][..i] == cs[..i];
        totalAmount := totalAmount + courses[courseId].price;
      }
      assert cs[..|cs|] == cs;
      var amount := totalAmount * 100;
      request := Some(OrderRequest(amount, "INR"));
      if gatewayOrder.Some? {
        response := Response(200, true, OrderData(Order(gatewayOrder.value, amount, "INR")));
      } else {
        response := OrderNotCreated;
      }
    }

    /** `enrollStudents` (lines 114-160): for each course in order, push the user onto the
        roster, create an empty progress record and push both ids onto the user, then mail;
        the first failure ends the loop and nothing is rolled back. `mailFailures` holds the
        positions whose mail send rejects. */
    method EnrollStudents(courseIds: Option<seq<CourseId>>, userId: UserId,
                          isObjectId: string -> bool, mailFailures: set<nat>)
      returns (response: Response)
      modifies this
      ensures Outcome(Snapshot(), response) == Enroll(old(Snapshot()), courseIds, userId, isObjectId, mailFailures)
    {
      if courseIds.None? || userId == "" {
        return MissingIds;
      }
      var cs := courseIds.value;
      var i := 0;
      while i < |cs|
        invariant 0 <= i <= |cs|
        invariant RunFrom(Snapshot(), cs, userId, i, isObjectId, mailFailures)
                  == RunFrom(old(Snapshot()), cs, userId, 0, isObjectId, mailFailures)
      {
        var courseId := cs[i];
        if !isObjectId(courseId) || !isObjectId(userId) {
          return EnrollError;
        }
        if courseId !in courses {
          return CourseNotFound;
        }
        courses := courses[courseId := courses[courseId].(studentsEnrolled := courses[courseId].studentsEnrolled + [userId])];
        var progressId := |progress|;
        progress := progress + [ProgressRecord(courseId, userId, [])];
        if userId !in users {
          return EnrollError;
        }
        users := users[userId := User(users[userId].courses + [courseId], users[userId].courseProgress + [progressId])];
        if i in mailFailures {
          return EnrollError;
        }
        i := i + 1;
      }
      response := AllEnrolled;
    }

    /** `verifyPayment` (lines 62-82): the field guard, then the signature gate, then
        enrollment. On the enrollment path the client sees the response `enrollStudents`
        wrote; the handler's own later 200 cannot be sent. */
    method VerifyPayment(orderId: Option<string>, paymentId: Option<string>, signature: Option<string>,
                         courseIds: Option<seq<CourseId>>, userId: UserId,
                         hmac: (string, string) -> string, secret: string,
                         isObjectId: string -> bool, mailFailures: set<nat>)
      returns (response: Response)
      modifies this
      ensures CheckPayment(orderId, paymentId, signature, courseIds, userId, hmac, secret) == MissingDetails
              ==> response == MissingPaymentDetails && Snapshot() == old(Snapshot())
      ensures CheckPayment(orderId, paymentId, signature, courseIds, userId, hmac, secret) == Mismatch
              ==> response == VerificationFailed && Snapshot() == old(Snapshot())
      ensures CheckPayment(orderId, paymentId, signature, courseIds, userId, hmac, secret) == Verified
              ==> Outcome(Snapshot(), response) == Enroll(old(Snapshot()), courseIds, userId, isObjectId, mailFailures)
    {
      if !HasPaymentDetails(orderId, paymentId, signature, courseIds, userId) {
        return MissingPaymentDetails;
      }
      var body := SignedMessage(orderId.value, paymentId.value);
      var expectedSignature := hmac(secret, body);
      if expectedSignature == signature.value {
        response := EnrollStudents(courseIds, userId, isObjectId, mailFailures);
      } else {
        response := VerificationFailed;
      }
    }

    /** `sendPaymentSuccessEmail` (lines 85-111): the field guard, then a user lookup and
        one mail. A user id Mongoose cannot cast throws, a missing user makes the read of
        its email throw, and a rejected send (`mailOk` false) throws: all three give 500. */
    method SendPaymentSuccessEmail(orderId: Option<string>, paymentId: Option<string>, amount: Option<int>,
                                   userId: UserId, isObjectId: string -> bool, mailOk: bool)
      returns (response: Response)
      ensures !HasEmailDetails(orderId, paymentId, amount, userId) ==> response == MissingEmailDetails
      ensures HasEmailDetails(orderId, paymentId, amount, userId)
              ==> (response == EmailSent <==> isObjectId(userId) && userId in users && mailOk)
      ensures HasEmailDetails(orderId, paymentId, amount, userId) && response != EmailSent
              ==> response == EmailNotSent
    {
      if !HasEmailDetails(orderId, paymentId, amount, userId) {
        return MissingEmailDetails;
      }
      if !isObjectId(userId) || userId !in users || !mailOk {
        return EmailNotSent;
      }
      response := EmailSent;
    }
  }

  /** One checkout end to end: a user who owns nothing buys the one course priced 500.
      The order asked of the gateway is for 50000 paise in INR, and the gateway's correct
      signature enrolls the user: 200, the course on the user, one fresh empty progress
      record, and the record's id 0 on the user. */
  method CheckoutScenario(hmac: (string, string) -> string, secret: string)
    returns (order: Option<OrderRequest>, verified: Response, enrolled: seq<CourseId>,
             progressIds: seq<ProgressId>, records: seq<ProgressRecord>)
    requires hmac(secret, SignedMessage("order_1", "pay_1")) != ""
    ensures order == Some(OrderRequest(50000, "INR"))
    ensures verified == AllEnrolled
    ensures enrolled == ["c1"] && progressIds == [0] && records == [ProgressRecord("c1", "u1", [])]
  {
    var initial := Stores(map["c1" := Course(500, [])], map["u1" := User([], [])], []);
    var isObjectId := (id: string) => true;
    var platform := new Platform(initial);
    assert CourseCheck(platform.courses, "c1", "u1", isObjectId).None?;
    var created;
    created, order := platform.CapturePayment(Some(["c1"]), "u1", isObjectId, Some("order_1"));
    assert ["c1"][..0] == [];

    var signature := hmac(secret, SignedMessage("order_1", "pay_1"));
    assert SignedMessage("order_1", "pay_1") == "order_1|pay_1";
    assert CheckPayment(Some("order_1"), Some("pay_1"), Some(signature), Some(["c1"]), "u1", hmac, secret)
           == Verified;
    verified := platform.VerifyPayment(Some("order_1"), Some("pay_1"), Some(signature), Some(["c1"]), "u1",
                                       hmac, secret, isObjectId, {});
    assert OkBefore(initial, ["c1"], "u1", 1, isObjectId, {});
    EnrollSucceeds(initial, ["c1"], "u1", isObjectId, {});
    EnrollAllUser(initial, ["c1"], "u1");
    EnrollAllProgress(initial, ["c1"], "u1");
    assert IdRange(0, 1) == [0];
    enrolled, progressIds, records := platform.users["u1"].courses, platform.users["u1"].courseProgress,
                                      platform.progress;
  }

  /** The same checkout with a tampered signature: 400, and none of the three stores
      changes, so the user owns nothing, the roster stays empty and no progress record
      exists. */
  method TamperedCheckoutScenario(hmac: (string, string) -> string, secret: string, tampered: string)
    returns (response: Response, enrolled: seq<CourseId>, roster: seq<UserId>, records: seq<ProgressRecord>)
    requires tampered != "" && tampered != hmac(secret, SignedMessage("order_1", "pay_1"))
    ensures response == VerificationFailed
    ensures enrolled == [] && roster == [] && records == []
  {
    var initial := Stores(map["c1" := Course(500, [])], map["u1" := User([], [])], []);
    var isObjectId := (id: string) => true;
    var platform := new Platform(initial);
    assert SignedMessage("order_1", "pay_1") == "order_1|pay_1";
    assert CheckPayment(Some("order_1"), Some("pay_1"), Some(tampered), Some(["c1"]), "u1", hmac, secret)
           == Mismatch;
    response := platform.VerifyPayment(Some("order_1"), Some("pay_1"), Some(tampered), Some(["c1"]), "u1",
                                       hmac, secret, isObjectId, {});
    enrolled, roster, records := platform.users["u1"].courses, platform.courses["c1"].studentsEnrolled,
                                 platform.progress;
  }

}
