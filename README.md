# Payment capture, verification and enrollment — a Dafny model

This project models the server-side payment controller of the StudyNotion learning platform
(`server/controllers/payments.js`). The controller has three handlers and one helper:

- `capturePayment` checks a cart of course ids, adds up their prices and asks the Razorpay
  gateway for an order of the total in paise (INR).
- `verifyPayment` checks the gateway's callback. It rebuilds `order_id + "|" + payment_id`,
  computes HMAC-SHA256 under the account secret (hex) and compares it with the supplied
  signature. Only on a match does it enroll the user.
- `enrollStudents` runs the enrollment loop. For each course, in order, it pushes the user
  onto the course's `studentsEnrolled`, creates an empty progress record, pushes the course
  id and the progress id onto the user, and sends a mail. The first failure ends the loop,
  and nothing done for earlier courses is rolled back.
- `sendPaymentSuccessEmail` sends the "payment received" mail after its own field guard.

The platform's three stores (courses, users, course progress) are the fields of the class
`Payments.Platform`, and the handlers update them in place. The rest of the outside world
is passed in as parameters:

- the HMAC primitive, as a function `hmac(secret, message)`;
- the gateway's answer, as the order id it assigns, or `None` when order creation throws;
- Mongoose's id casting, as a predicate `isObjectId`. An id it rejects makes the query throw,
  and the handler's `catch` turns that into a 500;
- the mailer, as the set of loop positions whose send rejects (`mailFailures`), or as a
  flag (`mailOk`) for the single payment-success mail.

A progress record's id is its position in the progress store. That makes the id handed out
on creation fresh by construction.

Files:
- `wrappers.dfy`: the `Option` type, used for request fields that may be absent.
- `http.dfy`: responses, bodies and gateway orders.
- `records.dfy`: the stores as values, the writes one enrolled course makes, the fold of
  those writes over a course list (`EnrollAll`), its closed form, and the
  user-to-progress link invariant.
- `enrollment.dfy`: `enrollStudents` as a function on store snapshots, plus its outcome
  theorems.
- `signature.dfy`: the signed message and the signature check.
- `payments.dfy`: the controller class and the pure decisions its handlers take.

Points of the code's behaviour that the model keeps as written:

- A missing or empty cart gets the default status 200 with `success: false`, not a 400.
- "Already enrolled" is also 200 with `success: false`.
- A rejected mail send in `enrollStudents` is caught by the loop's `catch`. It ends the loop
  with a 500, after that course's three writes, which stay in place.
- `verifyPayment` accepts an empty course list, because an empty array is truthy. The
  loop then does nothing and the response is 200.
- On the enrollment path, the response the client sees is the one `enrollStudents` wrote.
  The handler's own 200 at line 78 comes after headers were sent, so it cannot be written.
- The signature covers `order_id|payment_id` only, never the course list. A signature that
  verifies one request verifies it with any other course list, so the courses enrolled are
  whatever the request body names (`Payments.SignatureIgnoresCourses`).

## Model

| member | source | states |
|---|---|---|
| `Payments.Platform.CapturePayment` | server/controllers/payments.js:12-59 | A missing or empty cart gives 200 `success:false` and no gateway call. Otherwise the first course the loop stops at decides the response (500 for an id that cannot be cast, 404 for an unknown course, 200 `success:false` when the user is already on the roster), again with no gateway call. When every course passes, the gateway is asked for exactly 100 × the sum of the prices in "INR", and the response carries the created order, or a 500 when creation fails. The method has no `modifies` clause, so no store changes. |
| `Payments.CourseCheck` | server/controllers/payments.js:22-35 | One course passes the order loop if and only if both ids can be cast, the course exists and the user is not on its roster. Every rejection has `success:false`. |
| `Payments.TotalPrice` | server/controllers/payments.js:20-38 | The amount the order loop accumulates, one price per occurrence of a course in the cart. When no price is negative, neither is the total, and it is at least the price of each course in the cart. |
| `Payments.TotalPriceAppend` | server/controllers/payments.js:20-38 | The accumulated total of a concatenated cart is the sum of the totals of its parts. |
| `Payments.CheckPayment` | server/controllers/payments.js:66-80 | Missing details (an absent or empty order id, payment id or signature, an absent course list, an empty user id) are rejected before any signature is looked at. Enrollment is reached if and only if the fields are present and the signature equals `hmac(secret, orderId + "\|" + paymentId)`. |
| `Payments.SignatureIgnoresCourses` | server/controllers/payments.js:66-80 | The verdict on a request is the same for any two course lists: the signature does not bind the courses that are then enrolled. |
| `Payments.HasPaymentDetails` | server/controllers/payments.js:66 | Definition of the field guard of `verifyPayment`: order id, payment id and signature present and non-empty, a course list present (an empty one passes, being truthy), a non-empty user id. |
| `Payments.HasEmailDetails` | server/controllers/payments.js:89 | Definition of the field guard of `sendPaymentSuccessEmail`: order id and payment id present and non-empty, an amount present and not 0, a non-empty user id. |
| `Payments.ForgedSignatureRejected` | server/controllers/payments.js:70-80 | Any signature other than the gateway's HMAC for that order and payment is a mismatch, whatever its shape. |
| `Payments.Platform.VerifyPayment` | server/controllers/payments.js:62-82 | On missing details, 400 with the stores unchanged. On a signature mismatch, 400 with the stores unchanged. On a match, the stores and the response are exactly those of `enrollStudents` run on the old stores. |
| `Payments.Platform.EnrollStudents` | server/controllers/payments.js:114-160 | The loop's end state and response are those of the enrollment specification `Enrollment.Enroll` applied to the old stores. |
| `Payments.Platform.SendPaymentSuccessEmail` | server/controllers/payments.js:85-111 | An absent or empty order id or payment id, an absent or zero amount, or an empty user id gives 400. Past the guard, the response is 200 if and only if the user id can be cast, the user exists and the mail is sent. Otherwise it is 500. |
| `Payments.CheckoutScenario` | server/controllers/payments.js:12-82 | For a course priced 500, the order asked for is 50000 paise in INR. A correct signature gives 200 with `success:true`. It leaves the user enrolled in exactly that course, with exactly one empty progress record, whose id 0 is the user's only progress id. |
| `Payments.TamperedCheckoutScenario` | server/controllers/payments.js:62-82 | For the same stores, a tampered signature gives 400 and changes none of the three stores: the user owns nothing, the roster is empty and no progress record exists. |
| `Signature.SignedMessage` | server/controllers/payments.js:70 | Definition of the signed message: the order id, a bar, the payment id. |
| `Signature.SignatureMatches` | server/controllers/payments.js:71-76 | Definition of the check: the HMAC of the signed message under the secret equals the supplied signature as a string. |
| `Signature.SignedMessageInjective` | server/controllers/payments.js:70 | When order ids contain no bar, the signed message determines both the order id and the payment id. |
| `Signature.SignedMessageAmbiguous` | server/controllers/payments.js:70 | Without that condition, two different (order, payment) pairs share one signed message. |
| `Records.PushStudent` | server/controllers/payments.js:122-126 | Definition of the roster write: the user is appended to the course's `studentsEnrolled`, with no duplicate check. |
| `Records.AddProgress` | server/controllers/payments.js:133-137 | Definition of the progress write: one record for the course and the user with no completed videos is appended; its id is the old store size. |
| `Records.LinkUser` | server/controllers/payments.js:140-144 | Definition of the user write: the course id and the progress id are appended to the user's `courses` and `courseProgress`. |
| `Records.EnrollCourse` | server/controllers/payments.js:122-144 | The three writes for one course remove nothing and rewrite no existing progress record. They put the user on the roster, make the new record the last progress record, and append the course and that record's id to the user. |
| `Records.Linked` | server/controllers/payments.js:133-144 | Definition of the link invariant: for every user, `courses` and `courseProgress` have the same length, and each progress id names an existing record for that course and that user. |
| `Records.EnrollAll` | server/controllers/payments.js:120-144 | Fully enrolling a list of courses keeps the set of courses and the set of users. It grows the progress store by one record per course. |
| `Records.EnrollAllProgress` | server/controllers/payments.js:133-137 | The progress store grows by exactly one record `{courseID, userId, completedVideos: []}` per course, in order. |
| `Records.EnrollAllUser` | server/controllers/payments.js:140-144 | The user's `courses` grows by the course list. Its `courseProgress` grows, in step, by the ids of the new records. |
| `Records.EnrollAllOtherUsers` | server/controllers/payments.js:140-144 | Every other user is unchanged. |
| `Records.EnrollAllCourse` | server/controllers/payments.js:122-126 | Each course's `studentsEnrolled` grows by one copy of the user per occurrence of the course in the list, with no duplicate check. The price is unchanged. |
| `Records.CoursesOutsideUntouched` | server/controllers/payments.js:120-144 | A course that the list does not name keeps its record. |
| `Records.PushAndProgressKeepLinked` | server/controllers/payments.js:122-137 | Pushing onto a roster and creating a progress record keep every user's links to its progress records valid. |
| `Records.EnrollCourseKeepsLinked` | server/controllers/payments.js:122-144 | One full enrollment keeps every user's `courses` and `courseProgress` parallel. Each progress id points at a record for that course and that user. |
| `Enrollment.EnrollStep` | server/controllers/payments.js:120-153 | One iteration removes nothing and rewrites no existing progress record. When it stops the loop, the response is not 200 and has `success:false`. |
| `Enrollment.RunFrom` | server/controllers/payments.js:120-159 | The loop from a given position removes nothing and rewrites no existing progress record, and its response has `success:true` exactly when its status is 200. |
| `Enrollment.Enroll` | server/controllers/payments.js:114-160 | `enrollStudents` removes nothing and rewrites no existing progress record. A missing course list or an empty user id gives 400 with the stores unchanged. |
| `Enrollment.StepOkIsDone` | server/controllers/payments.js:120-151 | One iteration goes on to the next course if and only if both ids can be cast, the course and the user exist and the mail is sent. It then makes exactly the three writes. |
| `Enrollment.RunThroughPrefix` | server/controllers/payments.js:120-154 | Running the loop over a prefix of courses that all go through reaches the stores where that prefix is fully enrolled. |
| `Enrollment.EnrollSucceeds` | server/controllers/payments.js:120-155 | When every course goes through, every course is fully enrolled and the response is 200. |
| `Enrollment.EnrollStopsAtFirstFailure` | server/controllers/payments.js:120-159 | The first failing course ends the loop, and every earlier course stays fully enrolled. A cast failure gives 500 and an unknown course gives 404; neither touches the failing course. A missing user gives 500 after the roster push and the progress record (an orphan record). A rejected mail gives 500 after all three writes. No later course is touched. |
| `Enrollment.EnrollSucceedsIff` | server/controllers/payments.js:114-159 | The response is 200 if and only if the arguments are present and every course goes through. `success` is true exactly when the status is 200. |
| `Enrollment.RunFromKeepsLinked` | server/controllers/payments.js:120-159 | Every outcome of the loop, including a partial one, keeps the user-to-progress links valid. |
| `Enrollment.EnrollKeepsLinked` | server/controllers/payments.js:114-159 | `enrollStudents` keeps the user-to-progress links valid. |
| `Enrollment.EnrollAppendsDuplicates` | server/controllers/payments.js:122-126 | Enrolling a user already on a course's roster succeeds and leaves the user on that roster at least twice. |

## Left out

- Mongoose internals, database errors other than a failed id cast, and connection handling.
  The stores are in-memory maps and a sequence that never throw.
- `isObjectId` stands for Mongoose's casting rules. Which strings it accepts (24 hex digits,
  12-byte strings) is not modelled.
- `Math.random(Date.now())` as the order receipt (line 48). It is nondeterministic and its
  argument is ignored. `OrderRequest` carries only the amount and the currency.
- The gateway's order object beyond its id, amount and currency. The gateway is assumed to
  echo the requested amount and currency.
- HMAC-SHA256 and hex encoding (lines 71-74). They are a parameter; no cryptographic
  property is assumed or proved. "Not computed on missing fields" is stated as the order of
  the decision, since a pure parameter call has no observable effect.
- Prices are integers. The source adds JavaScript numbers, so a fractional price or a
  missing price (`NaN`) is not modelled.
- Request fields are strings or absent. JavaScript's coercion of other JSON types (numbers,
  objects) in the guards and in the signed message is not modelled.
- The amount display `amount / 100` and both mail templates are not modelled. The mail
  sends are reduced to success or rejection.
- The client-side checkout script (`src/services/operations/studentFeaturesAPI.js`) is not
  part of this model. That covers the widget loading, toasts, navigation and cart reset.
  `server/config/database.js` is not part of this model either.
- The second response write at line 78 after `enrollStudents` has responded. It fails
  because headers were already sent, so the model returns the response `enrollStudents`
  wrote.
- Concurrency between requests. Each handler runs alone on the stores, so the race between
  the "already enrolled" check and the enrollment push is not modelled.
