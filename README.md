# LMS back end: subscriptions, enrollment credits, authentication and course editing

This project models the core of a learning-management back end written in
JavaScript (Express, Mongoose, Stripe) and proves properties of the model.

It covers these parts of the system:

- **Subscriptions** (`controllers/student/payment.js`). A student subscribes to
  one of four plans (Bronze, Silver, Gold, Daily), resubscribes, changes or
  cancels the plan, pays an open invoice, lists and detaches cards, and reads
  invoice statistics. The billing provider's webhook updates receipts. Each
  successful subscription resets the student's enrollment credits to the
  plan's grant (4, 8, 12 or 2).
- **Enrollment** (`controllers/student/course.js`). Enrolling costs one
  credit and pays the course's teacher 10 wallet points. The enrolled-course
  listing is paged.
- **The subscriber gate** (`middlewares/isSubscriber.js`). It lets a request
  through only when the student's receipt is "active" or "past_due".
- **Helpers** (`utils/functions/HelperFunctions.js`): OTP generation, title
  case, whitespace normalisation, shuffling, plan details and the active
  plan of a student.
- **Account verification and login** (`utils/auth/VerifyUser.js`,
  `utils/auth/Login.js`).
- **The admin plans overview** (`utils/functions/admin/getPlansOverview.js`):
  a cursor-paged fetch of all subscriptions and a count per plan.
- **The admin dashboard** (`controllers/admin/dashboard.js`): top five
  courses, earnings per month, the number of active students and the reply
  to the plans overview request.
- **Course editing** by admins and teachers (`controllers/admin/course.js`,
  `controllers/teacher/course.js`): listing, viewing, creating, editing and
  deleting courses with their cover image and materials.

## How the model is built

The persisted collections are the fields of one class, `Db.Database`:

- students, receipts, courses, teachers, wallets and enrollments;
- the set of stored file names;
- counters that hand out fresh ids.

Request handlers are methods that change only the fields their `modifies`
clause names. A refusal that returns before the handler's first write
leaves the database as it was. Some handlers write before a later step
fails, and their contracts say what stays:

- the admin edit deletes the old cover before it checks the material entries;
- the teacher create and edit keep the files they stored or deleted before a refusal;
- the subscription-update webhook keeps the receipt it wrote when the student lookup after it throws.

Calls to the billing provider, to the database's queries and to the file
store that the model covers are parameters of the handlers (the calls left
out are listed under "Left out"):

- a `Remote<T>` value says whether the call returned a value or threw;
- a `Page` sequence says what each page of a paged list endpoint returned.

Loops become methods with loop invariants, each proved against a
specification function:

- the subscription pager;
- the invoice statistics;
- the material loops of course create and edit;
- the removal loops;
- the top-course counting;
- the earnings buckets;
- OTP generation and the shuffle.

Lemmas then prove what the source promises about those functions.

Modules follow the source files:

| module | models |
|---|---|
| `Plans` | the plan table and `planDetails` |
| `Payment` | `controllers/student/payment.js` |
| `Enrollment` | `controllers/student/course.js` |
| `Subscriber` | `middlewares/isSubscriber.js` |
| `Helpers` | `utils/functions/HelperFunctions.js` |
| `Auth` | `VerifyUser.js` and `Login.js` |
| `PlansOverview` | `getPlansOverview.js` |
| `Cursor` | the shared cursor-paging loop |
| `Paging` | skip/limit paging |
| `Dashboard` | `controllers/admin/dashboard.js` |
| `CourseMaterial` | the cover and material steps shared by the two course editors |
| `AdminCourse` | `controllers/admin/course.js` |
| `TeacherCourse` | `controllers/teacher/course.js` |

`Common` holds the reply and result types and string helpers.

JavaScript's falsy strings are modelled as the empty string, and a
possibly-null reference as `Option`.

## Model

| member | source | states |
|---|---|---|
| Plans.ParsePlan | controllers/student/payment.js:61-66 | exactly "Bronze", "Silver", "Gold" and "Daily" are plans; any other name is rejected |
| Plans.PlanDetails | utils/functions/HelperFunctions.js:122-139 | the four configured price ids, and only they, have details; the course limit equals the plan's enrollment grant; with distinct price ids each plan's price maps back to that plan |
| Plans.PlanOfPrice | utils/functions/admin/getPlansOverview.js:10-15 | a price id names a plan iff it is one of the four configured ids, and then it is that plan's price |
| Payment.ClientErrorsAre400 | controllers/student/payment.js:154-155 | the invalid-plan, invalid-card, invalid-user and "Subscription failed" errors map to status 400, in subscribe and in plan change |
| Payment.NotOwnerIs400 | controllers/student/payment.js:250 | the "Unauthorized" plan-change error maps to 400 |
| Payment.PlanChangeServerError | controllers/student/payment.js:335-338 | a plan-change error answers 500 exactly when its message contains none of "Invalid", "failed" and "Unauthorized", and 400 otherwise |
| Payment.NotFoundIs500 | controllers/student/payment.js:248-249 | "Subscription not found" in a plan change is answered with 500 |
| Payment.AlreadySubscribedIs500 | controllers/student/payment.js:259-260 | "Already subscribed to … plan" in a plan change is answered with 500 |
| Payment.ValidateInput | controllers/student/payment.js:33-38 | the subscribe input passes iff the plan is known, the card id starts with "pm_" and email, first and last name are present; a failure is a 400 error |
| Payment.ValidateResubscription | controllers/student/payment.js:43-47 | the resubscribe input passes iff the plan is known and the user has a customer id and both names; a failure is a 400 error |
| Payment.ValidatePlanChange | controllers/student/payment.js:51-57 | the plan-change input passes iff the plan is known and the user has a subscription, a customer id and both names; a failure is a 400 error |
| Payment.Subscribe | controllers/student/payment.js:74-160 | success iff the input is valid, the customer and subscription calls return and the subscription is "active"; then a fresh receipt is stored and the student gets the customer id, the receipt and exactly the plan's grant; a thrown customer or subscription call is answered with its message and 400 when the message contains "Invalid" or "failed", 500 otherwise; a non-active status gives 400; on any failure students and receipts are unchanged; the receipt id is sent as metadata once the customer exists |
| Payment.Resubscribe | controllers/student/payment.js:161-233 | success iff the input is valid, both remote calls return and the status is "active"; then a fresh receipt and a reset of credits to the grant; a thrown customer lookup or subscription call is answered with 400 when its message contains "Invalid" or "failed" and 500 otherwise, with the fixed text for an invalid-request error; a non-active status gives 400; otherwise nothing changes |
| Payment.PlanChangeRejection | controllers/student/payment.js:248-261 | a plan change is refused exactly when the current receipt is missing, belongs to another user or already has the new plan's price |
| Payment.UpdateSubscriptionPlan | controllers/student/payment.js:234-342 | validation and refusal come before any remote call; success iff they pass and the update returns "active"; then a new receipt, the old one marked "updated-to-other-plan", and the student pointed at the new receipt with the new grant; a thrown retrieval or update is answered with 400 when its message contains "Invalid", "failed" or "Unauthorized" and 500 otherwise, with the fixed text for an invalid-request error; a non-active status gives 400 "Subscription update failed with … status"; otherwise nothing changes |
| Payment.CancelSubscription | controllers/student/payment.js:343-402 | no subscription: 400; missing receipt: 404; already canceled: 400; a remote status other than "canceled": 400 with that status; success clears the subscription, zeroes the credits and marks the receipt "canceled"; otherwise nothing changes |
| Payment.OnUpdatedSubscription | controllers/student/payment.js:12-25 | a known receipt gets the remote status and period fields, and a known student is pointed at it with credits untouched; an unknown receipt changes nothing |
| Payment.Webhook | controllers/student/payment.js:814-877 | a bad signature is rejected and changes nothing; "customer.subscription.updated" applies the update; the four counter cases crash; every other type is acknowledged; only the update event changes state; for an update it acknowledges iff the metadata names a stored receipt and a stored student, writes the mirrored periods into a named stored receipt whether or not the student exists, and points the student to it only on acknowledgement |
| Payment.PayInvoiceFailure | controllers/student/payment.js:756-761 | a thrown remote call during invoice payment is answered with 500 |
| Payment.PayInvoiceReply | controllers/student/payment.js:668-764 | a non-open invoice gives 400; no card and no default card gives 400; a payment intent that does not succeed gives 400 "Payment failed"; each provider call that throws gives 500 with the card error's message or "Internal server error"; 200 iff the payment goes through and the open-invoice count (and, when it is zero, the subscription) is read; then "Invoice paid!" |
| Payment.PayInvoice | controllers/student/payment.js:668-764 | the reply is the one above; credits are regranted only on a paid invoice with no open invoice left, through a fresh receipt and the plan details of the paid price; otherwise nothing changes |
| Payment.RecordRenewal | controllers/student/payment.js:723-750 | stores a fresh receipt for the renewed subscription and points the student at it with the plan's course limit |
| Payment.Renewed | controllers/student/payment.js:741-749 | the student points at the new receipt; credits become the plan's course limit when the price is known, and stay as they were otherwise |
| Payment.PaidCount | controllers/student/payment.js:795-798 | the paid count never exceeds the total, and equals it iff every invoice is paid |
| Payment.GetStats | controllers/student/payment.js:765-813 | no customer: 500 "No customer id"; otherwise 200 iff every listing call returns and no page that says "more" is empty, and then total and paid count all invoices of all pages up to the last; an empty "more" page answers 500 with the message of reading `id` of undefined; a listing call that throws answers 500 with its message, or "Internal server error" when that is empty |
| Payment.MostRecent | controllers/student/payment.js:427-429 | none iff there are no cards; otherwise the first card with the latest creation time |
| Payment.Others | controllers/student/payment.js:540-542 | exactly the cards with a different id |
| Payment.Views | controllers/student/payment.js:446-453 | one view per card, in order, flagged default iff its id is the default |
| Payment.Flagged | controllers/student/payment.js:455 | exactly the views with the given default flag |
| Payment.FlaggedSplit | controllers/student/payment.js:455 | the default and non-default views together are the views, as multisets |
| Payment.DefaultFirstIsPermutation | controllers/student/payment.js:446-455 | moving default cards first permutes the list and leaves no default card after a non-default one |
| Payment.MostRecentListed | controllers/student/payment.js:427-429 | the promoted card is one of the cards and none is newer |
| Payment.NoDefaultNoFlag | controllers/student/payment.js:446-455 | without a default card no view is flagged default |
| Payment.GetPaymentMethods | controllers/student/payment.js:403-469 | a card is promoted iff there are cards and no default, and it is the newest; the list holds every card once, default cards first |
| Payment.CaughtMessage | controllers/student/payment.js:556-558 | a caught error's reply text is its message, or "Internal server error" when the message is empty; never empty |
| Payment.DetachPaymentMethod | controllers/student/payment.js:521-560 | missing ids: 400; a failed card listing: 500 with its message; unknown card: 404; a non-default card is detached; a default card with no other card: 400 "No alternative payment methods available to set as default" and nothing is detached; otherwise the newest other card is promoted and then the card detached, with 200; a failed promotion or detach: 500 with the error's message, and a promotion made before a failed detach stays |
| Payment.DetachListed | controllers/student/payment.js:534-554 | with the cards listed: unknown card 404; the lone-default 400; a default card promotes the newest other card before the detach; each failed call gives 500 with its message; 200 exactly when the card is detached |
| Payment.FirstWithId | controllers/student/payment.js:535-536 | a listed card with the id, or none iff no card has it (that it is the first such card is `FirstWithIdIsFirst`) |
| Payment.FirstWithIdIsFirst | controllers/student/payment.js:535-536 | the card found is the first with the id: every card before it has another id |
| Enrollment.Credited | controllers/student/course.js:30-43 | the teacher's wallet is created with 10 points or gains exactly 10; every other wallet is unchanged |
| Enrollment.EnrollCourse | controllers/student/course.js:13-55 | unknown course: 404; no credits left: 404; otherwise exactly one enrollment is appended, the teacher is credited, and the credits drop from n to n-1 >= 0 and are returned; a rejection changes nothing |
| Enrollment.GetEnrolledCourses | controllers/student/course.js:57-114 | not logged in: 400; a missing or unparsable page is page 1; the items are the window at (page-1)*10, at most 10 of them, non-empty iff the page is within ceil(total/10) |
| Paging.PageNumber | controllers/student/course.js:59-61 | `parseInt(page) or 1`: a missing, unparsable or zero page becomes 1, any other number is kept |
| Paging.TotalPages | controllers/admin/course.js:45 | the fewest pages of the given size that hold all items; zero iff there are none |
| Paging.CeilBounds | controllers/teacher/course.js:227 | the rounded-up quotient holds all items with less than one page to spare |
| Paging.Window | controllers/student/course.js:82-83 | at most `perPage` items, each the item at skip+k, and short only at the end of the list |
| Paging.Slice | controllers/teacher/course.js:229-232 | at most `count` items from `from` on, each the matching item, short only at the end |
| Paging.WindowNonEmpty | controllers/student/course.js:82-90 | a page holds items iff it is between 1 and the page count |
| Paging.ItemOnItsPage | controllers/student/course.js:82-90 | every item appears on page i/perPage+1 at position i%perPage |
| Paging.ListPage | controllers/admin/course.js:12-14 | a page below 1 is refused (negative skip); otherwise the window and the page count |
| Subscriber.IsSubscriber | middlewares/isSubscriber.js:4-14 | no subscription: 401 "not a subscriber"; the request passes iff the receipt is "active" or "past_due"; any other status gives 401 with a message naming it; a missing receipt crashes into the error path |
| Subscriber.CheckSubscription | middlewares/isSubscriber.js:19-31 | true iff the lookup returns a receipt whose status is "active" or "past_due"; a failed lookup is false |
| Subscriber.GateAgreesWithCheck | middlewares/isSubscriber.js:4-31 | the gate passes a request iff the check accepts the same receipt |
| Helpers.GenerateOtp | utils/functions/HelperFunctions.js:37-47 | exactly `length` characters (none for a length below 1), each a decimal digit |
| Helpers.Upper | utils/functions/HelperFunctions.js:49 | an ASCII lower-case letter becomes its capital (32 code points down); every other character is kept |
| Helpers.ToTitleCase | utils/functions/HelperFunctions.js:49 | the first character is mapped by `Upper` (ASCII letters only); every later character is unchanged and the length is kept |
| Helpers.ToTitleCaseIdempotent | utils/functions/HelperFunctions.js:49 | title-casing twice is title-casing once |
| Helpers.DropLeading | utils/functions/HelperFunctions.js:50 | a suffix of the input that does not start with whitespace |
| Helpers.DropTrailing | utils/functions/HelperFunctions.js:50 | a prefix of the input that does not end with whitespace |
| Helpers.CollapseSingleSpaced | utils/functions/HelperFunctions.js:50 | after collapsing, every whitespace is a single space not followed by whitespace |
| Helpers.CollapseFixes | utils/functions/HelperFunctions.js:50 | collapsing a single-spaced string changes nothing |
| Helpers.RemoveExtraSpacesNormalizes | utils/functions/HelperFunctions.js:50 | the result has no leading or trailing whitespace and no run of two; applying it twice is applying it once |
| Helpers.NonSpacesAppend | utils/functions/HelperFunctions.js:50 | the non-space characters of a concatenation are those of the parts |
| Helpers.DropLeadingKeepsText | utils/functions/HelperFunctions.js:50 | trimming the start keeps every non-space character |
| Helpers.DropTrailingKeepsText | utils/functions/HelperFunctions.js:50 | trimming the end keeps every non-space character |
| Helpers.CollapseKeepsText | utils/functions/HelperFunctions.js:50 | collapsing keeps every non-space character in order |
| Helpers.RemoveExtraSpacesKeepsText | utils/functions/HelperFunctions.js:50 | normalising keeps every non-space character in order |
| Helpers.ShuffleArray | utils/functions/HelperFunctions.js:52-59 | a new array of the same length holding a permutation of the input; the input is not modified |
| Helpers.GetStudentActivePlan | utils/functions/HelperFunctions.js:153-191 | missing or malformed input throws with the source's message; an unknown id gives null; a loaded receipt, or the receipt stored under a known id, gives its id, user, status, provider ids, price, the five period dates and the plan details of its price |
| Helpers.ActivePlanAdvertisesGrant | utils/functions/HelperFunctions.js:160-191 | the active plan of a receipt for plan p has p's name and a course limit equal to p's grant |
| Auth.GetCredentials | utils/auth/Login.js:114-120 | exactly first name, last name and email |
| Auth.TwoFieldsMessage | utils/auth/Login.js:75-86 | the message names the missing fields in order, or there is none |
| Auth.ValidateVerifyFields | utils/auth/VerifyUser.js:110-121 | none iff email and otp are both present; otherwise the message names the missing ones, email before otp |
| Auth.ValidateLoginFields | utils/auth/Login.js:75-86 | none iff email and password are both present; otherwise the message names the missing ones, email before password |
| Auth.ExpiryBoundary | utils/auth/VerifyUser.js:132-157 | with the default two minutes a code exactly 120000 ms old is valid, one ms later expired |
| Auth.ExpiryMonotone | utils/auth/VerifyUser.js:132-157 | once expired, a code stays expired |
| Auth.VerifyOtp | utils/auth/VerifyUser.js:159-171 | a match clears the code and its time and marks the user verified; a mismatch changes nothing |
| Auth.VerifyRejection | utils/auth/VerifyUser.js:80-92 | 400 in the fixed order missing fields, unknown user, already verified, expired (only with the expiry flag) |
| Auth.Verify | utils/auth/VerifyUser.js:77-108 | as written: after the checks the reply is 200 with credentials whether or not the code matched, and the user is verified iff it matched; a refused request changes no field of the account; names, e-mail and the two-factor setting never change |
| Auth.VerifyAwaited | utils/auth/VerifyUser.js:94-102 | with the result awaited: 200 and a session iff the checks pass and the code matches; "Invalid OTP!" otherwise; nothing changes on a rejection |
| Auth.WrongOtpLogsIn | utils/auth/VerifyUser.js:94-102 | a wrong code logs the user in as written, leaves them unverified, and is refused when awaited |
| Auth.TwoFactorLogin | utils/auth/Login.js:97-111 | with two-factor on, a four-digit code and its time are stored and true is returned; otherwise false and nothing changes |
| Auth.LoginRejection | utils/auth/Login.js:22-42 | 400 in the fixed order missing fields, unknown user, unverified (only with the check on), wrong password |
| Auth.LoginUser | utils/auth/Login.js:16-71 | as written: with the two-factor feature on, every accepted login answers "code sent" without a session; with it off, credentials and a session |
| Auth.LoginUserAwaited | utils/auth/Login.js:45-66 | with the result awaited: a session is withheld iff the feature is on and the user has two-factor on |
| Auth.TwoFactorOffUserGetsNoToken | utils/auth/Login.js:45-66 | a user without two-factor gets neither a code nor a session as written, and a session when awaited |
| PlansOverview.CountKnown | utils/functions/admin/getPlansOverview.js:51-58 | at most one count per subscription |
| PlansOverview.CountsSum | utils/functions/admin/getPlansOverview.js:44-58 | the four plan counts add up to the subscriptions with a known price, at most all of them |
| PlansOverview.FetchAllSubscriptions | utils/functions/admin/getPlansOverview.js:17-38 | returns iff every listing call returns and no page that says "more" is empty, and then all pages' items in order; otherwise it throws the listing call's error, or the error of reading `id` of undefined |
| PlansOverview.GetPlansOverview | utils/functions/admin/getPlansOverview.js:41-66 | four entries, Daily, Bronze, Silver, Gold, each the number of subscriptions of that plan, summing to at most the total; an error of the fetch passes on unchanged |
| Cursor.FinalIndex | utils/functions/admin/getPlansOverview.js:22-35 | the first answer that stops the loop: a thrown call or a page that says there is nothing more; every earlier answer is a page that says "more" |
| Cursor.CollectPages | utils/functions/admin/getPlansOverview.js:22-35 | the items of every page up to the last, in order; the first request has no cursor and each later one the id of the previous page's last item; a listing call that throws ends the loop with its error, and an empty page that says "more" throws reading `id` of undefined |
| Dashboard.GetPlans | controllers/admin/dashboard.js:215-222 | 200 "Got plans overview!" with the four plan counts iff the fetch returns; whatever it throws, 500 "Internal server error" |
| Dashboard.OccurrencesPositive | controllers/admin/dashboard.js:153-157 | a course has a positive count iff some enrollment names it |
| Dashboard.FirstOccurrencesListed | controllers/admin/dashboard.js:153-157 | the counted courses are listed once each, exactly the enrolled ones |
| Dashboard.CountStudents | controllers/admin/dashboard.js:153-157 | the count map has exactly the enrolled courses, each with its number of enrollments |
| Dashboard.Entries | controllers/admin/dashboard.js:160 | one entry per counted course, in order |
| Dashboard.InsertPermutes | controllers/admin/dashboard.js:161 | inserting adds exactly the new entry |
| Dashboard.InsertSorted | controllers/admin/dashboard.js:161 | inserting keeps the entries ordered by non-increasing count |
| Dashboard.SortByCountSorts | controllers/admin/dashboard.js:160-162 | the sort permutes the entries into non-increasing count order |
| Dashboard.Detail | controllers/admin/dashboard.js:166-181 | title and description are the course's when it exists and null otherwise; id and count are kept |
| Dashboard.Details | controllers/admin/dashboard.js:166-181 | one detail per entry, in order |
| Dashboard.Take | controllers/admin/dashboard.js:163 | the first min(n, length) entries |
| Dashboard.TakeKeepsLargest | controllers/admin/dashboard.js:160-163 | an entry left out of the top five is beaten or matched by all five kept |
| Dashboard.SortedEntriesCounted | controllers/admin/dashboard.js:153-162 | one sorted entry per enrolled course, each with its true enrollment count, which is positive |
| Dashboard.LeftOutNoLarger | controllers/admin/dashboard.js:153-163 | a course left out has no more enrollments than any of the five kept |
| Dashboard.PermutationOnePerCourse | controllers/admin/dashboard.js:160-162 | reordering the entries keeps one entry per course |
| Dashboard.RankedPrefix | controllers/admin/dashboard.js:160-163 | the top five are ranked, counted, one per course and complete |
| Dashboard.Counts | controllers/admin/dashboard.js:166-181 | the id and count of each reported course |
| Dashboard.DetailsOfRanked | controllers/admin/dashboard.js:166-181 | adding details to ranked entries gives a top-course list |
| Dashboard.GetTopCourses | controllers/admin/dashboard.js:148-189 | at most five courses, each listed once with its true enrollment count, non-increasing, none left out with more, with title and description or null |
| Dashboard.InMonth | controllers/admin/dashboard.js:76-87 | the bucket is drawn from the charges |
| Dashboard.Since | controllers/admin/dashboard.js:89-91 | the charges of this month are drawn from the charges |
| Dashboard.InMonthMembers | controllers/admin/dashboard.js:79-84 | a charge is in a month's bucket iff start <= created <= end |
| Dashboard.SinceMembers | controllers/admin/dashboard.js:89-91 | a charge counts for this month iff it is not before its start |
| Dashboard.GetEarnings | controllers/admin/dashboard.js:68-102 | the total is the sum of all charges; six buckets, oldest first, each the sum of its month's charges; this month's sum counts the charges since its start |
| Dashboard.MonthAtMostTotal | controllers/admin/dashboard.js:72-87 | with no negative amounts a month's earnings lie between 0 and the total |
| Dashboard.CurrentMonthIsThisMonth | controllers/admin/dashboard.js:76-91 | when no charge is later than this month's end, the current bucket and "this month" agree |
| Dashboard.ActiveStudentsMembership | controllers/admin/dashboard.js:29-31 | a student is active iff enrolled in an existing course |
| Dashboard.ActiveStudentsBound | controllers/admin/dashboard.js:29-31 | there are no more active students than enrollments |
| Dashboard.TotalActiveStudents | controllers/admin/dashboard.js:29-54 | at most the number of enrollments; zero iff no enrollment names an existing course |
| CourseMaterial.MimePrefix | controllers/admin/course.js:147 | the part of the mimetype before the first "/" |
| CourseMaterial.Ids | controllers/admin/course.js:132 | the ids of the materials, in order |
| CourseMaterial.IndexOfId | controllers/admin/course.js:132-133 | the first material with the id, or -1 iff none has it |
| CourseMaterial.IndexOfSameIds | controllers/admin/course.js:132 | the lookup depends only on the ids |
| CourseMaterial.CoverStepMeaning | controllers/admin/course.js:103-118 | a cover of a disallowed type, or one that fails to save, is refused with 400 and nothing changes; otherwise the new cover is stored and the old one deleted |
| CourseMaterial.ReplaceCover | controllers/teacher/course.js:110-120 | the file store and the course change as the cover step says |
| CourseMaterial.EditMaterials | controllers/admin/course.js:124-164 | the loop's outcome, files included, is the one the step-by-step specification gives |
| CourseMaterial.EditEntry | controllers/teacher/course.js:125-160 | one entry updates a listed material or adds a new one, as the step specification says |
| CourseMaterial.RunAfterRejection | controllers/admin/course.js:124-164 | after a rejection the remaining entries change nothing |
| CourseMaterial.StepKeepsIds | controllers/admin/course.js:135-148 | updating a material keeps every id in place |
| CourseMaterial.RunKeepsIds | controllers/admin/course.js:124-164 | the loop keeps the existing materials' ids in place |
| CourseMaterial.StepRejects | controllers/admin/course.js:130-155 | an entry is refused with 400 iff it names an unknown id, or is new without a file, or its file fails to save |
| CourseMaterial.RunRejection | controllers/admin/course.js:124-164 | the loop is refused with 400 iff some entry is refused |
| CourseMaterial.RunFirstRejection | controllers/admin/course.js:124-164 | the refusal is the first refused entry's |
| CourseMaterial.Fresh | controllers/admin/course.js:150-163 | the entries without an id |
| CourseMaterial.StepAdded | controllers/admin/course.js:150-163 | a new entry appends one new material with the next id; an update appends nothing |
| CourseMaterial.RunAppendsFresh | controllers/admin/course.js:150-169 | the new materials are the entries without an id, in request order, with consecutive ids |
| CourseMaterial.RunUpdates | controllers/admin/course.js:130-149 | each existing material takes the title and description of the last entry naming it and the type and media of the last file sent for it, keeping its own type and media when none was sent; a material no entry names is unchanged |
| CourseMaterial.StepUpdates | controllers/admin/course.js:130-148 | an update sets the title and description of exactly the named material, and its type (the mimetype's prefix) and media name when a file comes with it; without a file type and media are kept |
| CourseMaterial.RemoveIdsMembers | controllers/admin/course.js:183 | the kept materials are exactly those whose id is not listed |
| CourseMaterial.RemoveIdsAppend | controllers/admin/course.js:183 | filtering a concatenation filters each part, so the order is kept |
| CourseMaterial.RemoveIdsOneMore | controllers/teacher/course.js:165-171 | filtering one id after another equals filtering all at once |
| CourseMaterial.RemoveIdsKeepsIds | controllers/admin/course.js:183 | filtering keeps the ids distinct and below the counter |
| CourseMaterial.AppendedIds | controllers/admin/course.js:166-169 | after appending, the ids are distinct and below the advanced counter |
| CourseMaterial.SaveCourse | controllers/admin/course.js:186 | the course is replaced and the id counter advanced by the number of new materials |
| AdminCourse.GetCourses | controllers/admin/course.js:10-53 | a missing page is page 1; five per page; the items are the window at (page-1)*5, non-empty iff the page is within ceil(total/5); a negative skip fails with 500 |
| AdminCourse.GetCourse | controllers/admin/course.js:54-81 | no id: 400; unknown course: 404; otherwise the course, its enrollment count, and "Active" iff that count is positive |
| CourseMaterial.RemovedIds | controllers/admin/course.js:174-181 | the ids listed for removal, one per entry, in request order |
| AdminCourse.EditRejectionAgrees | controllers/admin/course.js:94-186 | an edit of an existing course succeeds iff no cover or material entry is refused, and a refusal is a 400 that saves nothing |
| AdminCourse.EditedMaterials | controllers/admin/course.js:98-184 | name, category and description change only when a non-empty value is sent; materials are updated in place, new ones appended in request order, and the listed ids removed when a removal count is sent |
| AdminCourse.EditedKeepsIds | controllers/admin/course.js:122-184 | after an edit the material ids stay distinct and below the counter |
| AdminCourse.Edit | controllers/admin/course.js:87-193 | as written: unknown course: 404; the reply, course and files are those the edit specification gives; a refused edit still keeps the files it deleted or saved before the refusal |
| AdminCourse.ApplyEdit | controllers/admin/course.js:98-188 | the edit of an existing course, with the outcome the specification gives |
| AdminCourse.RemoveMaterials | controllers/admin/course.js:172-184 | with a removal count the listed ids are filtered out and their media deleted; without one nothing is removed |
| AdminCourse.EditChecked | controllers/admin/course.js:94-188 | corrected: the same replies, but a refused edit leaves courses, files and counters unchanged |
| AdminCourse.RejectedEditDeletesCover | controllers/admin/course.js:114-133 | an edit with a new cover and an unknown material id is refused with 400, keeps the old cover name in the course, but has deleted the old cover's file |
| TeacherCourse.Iterations | controllers/teacher/course.js:55 | `parseInt(material_length) or 0`: the loop runs for a positive count and not at all otherwise |
| TeacherCourse.EntryRejection | controllers/teacher/course.js:60-65 | entry i passes iff it has a media file that saves; a refusal is 400 |
| TeacherCourse.CreateMaterialRejectionFirst | controllers/teacher/course.js:57-73 | the loop is refused iff some entry is, and then with the first refused entry's reply |
| TeacherCourse.FirstRefused | controllers/teacher/course.js:57-73 | the first refused entry among the first n: every entry before it passes, and it is refused unless it is n |
| TeacherCourse.FirstRefusedRejects | controllers/teacher/course.js:57-73 | the loop is refused iff an entry before the count is refused, and then with that first refused entry's reply |
| TeacherCourse.RefusedAt | controllers/teacher/course.js:57-73 | an entry that is refused after every earlier one passed is the first refused |
| TeacherCourse.Create | controllers/teacher/course.js:14-86 | no user: 401; a missing field: 400; both with no file stored; an unknown teacher: 404 "Instructor not found!" with no file stored; a cover of a disallowed type: 400 "Invalid cover image type!", a failed cover save: 400 "Cover image upload failed!", both with no file stored; 201 iff the teacher exists, the cover passes and every material passes; then a fresh course with the materials in request order is stored and its id appended once to the teacher's courses; otherwise no course or teacher changes; a refused material keeps the cover and the media files of the entries before it stored |
| TeacherCourse.SaveCover | controllers/teacher/course.js:42-51 | a disallowed type is refused with 400 "Invalid cover image type!", a failed save with 400 "Cover image upload failed!", and either stores nothing; otherwise the cover is stored |
| TeacherCourse.StoreCourse | controllers/teacher/course.js:75-80 | the course gets a fresh id, and that id is appended to the teacher's course list |
| TeacherCourse.CreateMaterials | controllers/teacher/course.js:54-73 | the loop's refusal is the first refused entry's, and then exactly the media files of the entries before that one are added; on success the materials and files are those specified |
| TeacherCourse.CreatedMaterials | controllers/teacher/course.js:67-72 | one material per entry, in order, each from its entry, with distinct consecutive ids |
| TeacherCourse.RejectionPersists | controllers/teacher/course.js:57-73 | a refusal within the first m entries is the refusal of the whole loop |
| TeacherCourse.RemoveEachAll | controllers/teacher/course.js:165-171 | the removal loop fails iff some entry has no media; otherwise it removes exactly the listed ids |
| TeacherCourse.RemoveIdsNone | controllers/teacher/course.js:165-171 | filtering no ids keeps every material |
| TeacherCourse.EditedMeaning | controllers/teacher/course.js:107-174 | a successful edit sets name, category and description to the values sent, even empty ones, keeps the instructor, and leaves none of the removed ids; ids stay distinct |
| TeacherCourse.Edit | controllers/teacher/course.js:88-179 | no user: 400; unknown teacher or course: 404; another instructor's course: 400; all with nothing changed; otherwise the reply, course and files the edit specification gives |
| TeacherCourse.RemoveOneByOne | controllers/teacher/course.js:165-171 | filters and deletes the listed media one by one, and fails at the first entry without media, having deleted those before it |
| TeacherCourse.NoneStops | controllers/teacher/course.js:165-171 | once the removal loop fails, later entries do not matter |
| TeacherCourse.Delete | controllers/teacher/course.js:181-210 | no user: 400; unknown course: 404; another instructor's course: 400; unknown teacher: 404; all with nothing changed; otherwise the cover and every material's media are deleted and the course removed |
| TeacherCourse.DeleteCourseFiles | controllers/teacher/course.js:196-201 | deletes the cover when present and every material's media |
| TeacherCourse.MediaDeletedRemovesAll | controllers/teacher/course.js:199-201 | no deleted media is left, and every other file is kept |
| TeacherCourse.GetCourses | controllers/teacher/course.js:213-247 | not logged in: 400; a missing page is page 1; ten per page; the items are the window at (page-1)*10, non-empty iff the page is within ceil(total/10); a negative skip fails with 500 |

## Left out

- The billing provider, the database, and the local and S3 file stores are modelled as parameters. What they return is an input, and their internals are not modelled.
- Transactions and sessions (`withTransaction`) are not modelled. A handler's writes happen in order, and a failure keeps the writes made before it, as the contracts state.
- Amounts are integer cents. The division by 100 and the `toFixed(2)` formatting are floating point and are left out.
- Dates are integers: month boundaries, "now" and the start of this month are inputs.
- `moment` calendar arithmetic and `calcNumberOfCycles` are left out.
- The random course colour at controllers/teacher/course.js:28-31 is not modelled.
- Mail sending and the JWT signing of a session are left out. A session is the credentials it would carry.
- The webhook's counter cases (controllers/student/payment.js:845-863) reassign `const` variables and read an undefined `stats`, so they always throw. They are modelled only as `Crashed`.
- `saveFile` returns a time-stamped name and never fails. The model lets an upload carry an empty saved name so that the "upload failed" branches stay reachable.
- `deleteFile` of a name that is not stored deletes nothing, and the model's set difference does the same. A removal entry without media throws in the teacher edit (`path.join` of undefined) and is skipped in the admin edit; both are modelled.
- `Number(material_length)` in the teacher edit is modelled as a list of entries. A non-numeric length, which runs no iteration, is the empty list.
- A page parameter that is not a number is treated as missing.
- The teacher `get` with a search term lists all matching courses, not only the teacher's. The model takes the matching courses as input either way.
- The per-course `studentsEnrolled` and `enrolledCount` counts of the listings are left out.
- `Course.create`'s schema validation is left out. A course with the required fields is always created.
- The teacher edit writes an empty string where the request leaves out the name, category or description; the source writes `undefined` there (controllers/teacher/course.js:107). Whether `course.save()` (controllers/teacher/course.js:173) then accepts the course depends on the course schema, which is not part of this model; the model always saves it.
- The teacher delete leaves the course id in `teacher.courses`, and the enrollments of the course, as they are. The model keeps that behaviour.
- Tie order among courses with equal counts in the top five is not modelled. The sort is specified by its multiset and order only.
- The admin course `delete` (controllers/admin/course.js:196-221) is left out, together with the other payment handlers: adding a card, setting the default card, listing invoices, and the like.
- The un-awaited `checkSubscription` in controllers/student/dashboard.js:13 is outside this model.
- The `countDocs` option of the enrolled-course listing, which answers only the number of courses on the page, is left out.
- Payment.GetPaymentMethods: the customer lookup, the three calls that promote the newest card (`paymentMethods.update`, `customers.update` and `paymentMethods.retrieve`, controllers/student/payment.js:431-441) and the catch's 400 and 500 replies are not modelled. The function takes the listed cards and the default as given and returns the card to promote. The retrieved card only refreshes display fields, and `isDefault` compares against the default read before the promotion.
- Payment.GetPaymentMethods: the in-place sort of the cards by creation time, newest first (controllers/student/payment.js:428-429), is stated only as a permutation with default cards first, not as the full order.
- Payment.PayInvoice / Payment.Renewed: for a price id no plan has, `planDetails` adds no fields, so `activePlan.courseLimit` is undefined, and controllers/student/payment.js:748-749 saves `remainingEnrollmentCount = undefined`, which removes the count from the student. The model has no absent count and keeps the old credits in that case.
- Helpers.Upper / Helpers.ToTitleCase: only the ASCII case mapping is modelled. `toUpperCase` also maps non-ASCII letters, can lengthen a string (ß becomes SS), and `charAt(0)` splits a UTF-16 surrogate pair; none of these is modelled.
- Helpers.GetStudentActivePlan: the `createdAt` and `updatedAt` time stamps the view copies (utils/functions/HelperFunctions.js:184-185) are not part of the receipt model.
- Credits are always a number. The count that Payment.PayInvoice's source can remove from a student cannot be represented, so the subscriber gate and Enrollment.EnrollCourse never see a student without one.
- Helpers.ShuffleArray: the random swap index is any index at or before the current one. Only the permutation is stated, not the uniform distribution.

## Findings

| source | as written | input that shows it | evidently intended | confidence | as-written member | corrected member |
|---|---|---|---|---|---|---|
| utils/auth/VerifyUser.js:94 | `verifyOTP` is async and not awaited, so `userVerified` is a promise and always truthy | a registered, unverified user sends a wrong OTP | a wrong OTP is refused with "Invalid OTP!" and no session | not executed | Auth.Verify, Auth.WrongOtpLogsIn | Auth.VerifyAwaited |
| utils/auth/Login.js:45 | `twoFactorLogin` is async and not awaited, so with the two-factor feature on every login answers "code sent" | the feature is on and a user without two-factor logs in with the right password | a user without two-factor gets a session and token | not executed | Auth.LoginUser, Auth.TwoFactorOffUserGetsNoToken | Auth.LoginUserAwaited |
| controllers/admin/course.js:114-116 | the old cover file is deleted before the material entries are checked, so a refused edit has already deleted it while the saved course still names it | a new cover plus an entry with an unknown material id | a refused edit changes no file and no course | not executed | AdminCourse.Edit, AdminCourse.RejectedEditDeletesCover | AdminCourse.EditChecked |
