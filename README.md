# A/B test of two course-card designs, in Dafny

The system runs an A/B test on a course storefront. It has three parts, modelled here:

- **The server** (`index.js`, module `Server`).
  - A cookie middleware gives every browser a durable `userId`.
  - `POST /api/variant` assigns each user A or B once and then keeps that assignment. It answers `{ userId, variant }` (index.js:76).
  - `POST /api/events` logs interaction events. It counts an `exposure` at most once per user and course. It ignores any `sessionId` in the body, although abtest.js:38 sends one.
  - `POST /api/enrollments` records at most one enrollment per user and course.
  - The two GET endpoints return each collection ordered by time.
  - The model is a `Store` class. It has the three collections `users`, `events` and `enrollments` as sequence fields, and one method per handler. Each method's contract gives the reply and the whole new state, and keeps the uniqueness invariants in `Valid()`.
- **The dashboard aggregation** (`client/src/pages/Analytics.js`, module `Analytics`).
  - `calculateMetrics` groups events and enrollments into buckets by variant (`"A"`, `"B"`) and by course (`"1"`, `"2"`).
  - It counts each bucket and turns the counts into zero-guarded rates. The page then derives totals and the decision rules: winner, significance and the course preferences.
  - The grouping loops are methods, each proved equal to a specification function (`MetricsOf` and the bucket functions). The lemmas state what the counts mean. These loops look buckets up by own key only, which is the intended behaviour. The lookup as written, which also sees `Object.prototype`, is modelled separately (`BucketEventsAsWritten`, `CalculateMetricsAsWritten`).
- **The session id** (`client/src/utils/abtest.js`, module `Session`).
  - `getSessionId` reads `sessionId` from local storage. When it is missing or empty, the function creates one and stores it.
  - The id comes from `crypto.randomUUID`, or else from a version-4 UUID template in which each placeholder prints its random draw with `toString(16)`. That gives a UUID when every draw is below 16 (the `Math.random() * 16` path), but a byte of 16 or more prints as two digits (the `getRandomValues` path).

Shared pieces:
- `Seqs` holds the list operations the code relies on:
  - `filter` and `find` (and a `findOne` in insertion order);
  - an ordering by a numeric key, which is what `sort({ key: 1 })` delivers.
- `Wrappers` holds `Option` and `Result`.

**Inputs instead of library calls.** The model takes these as parameters:
- the uuid `uuidv4()` draws;
- the coin `Math.random()` yields;
- the timestamps `new Date()` gives;
- the value of `crypto.randomUUID()`;
- the random draws of the template fill.

## Model

| member | source | states |
|---|---|---|
| Server.CookieRoundTrip | index.js:49-56 | A Set-Cookie header issued for an id without `;` makes the browser send back exactly that id as `userId`. |
| Server.ResolveIdentity | index.js:45-63 | A non-empty `userId` cookie is used unchanged and no cookie is set. Otherwise the fresh uuid becomes the user id and the header `userId=<id>; Path=/; HttpOnly; SameSite=Lax; Max-Age=31536000` is emitted. |
| Server.IdentityIsDurable | index.js:45-63 | A second request that carries the cookie the first set keeps the same identity and gets no new cookie. |
| Server.AtMostOneUser | index.js:70-74 | While `users` holds one document per userId, `findOne({ userId })` has at most one candidate. |
| Server.AtMostOneExposure | index.js:96-104 | While exposures are unique per (userId, courseId), at most one exposure matches a pair. |
| Server.AtMostOneEnrollment | index.js:133-144 | While enrollments are unique per (userId, courseId), at most one enrollment matches a pair. |
| Server.AssignmentNeverChanges | index.js:70-77 | Appending users never changes the document found for an id that already has one, so an assigned variant is never reassigned. |
| Server.Truthy | index.js:112 | JavaScript truthiness of a JSON value: `undefined`, `null`, `false`, `0` and `""` are falsy; arrays and objects, even empty ones, are truthy. |
| Server.Given | index.js:87 | A body field passes `!field` exactly when it is present and not empty. The enrollment handler applies the same test. |
| Server.SetCookieHeader | index.js:51-56 | The header is `userId=`, then the id, then `;` and the attributes `Path=/; HttpOnly; SameSite=Lax; Max-Age=31536000`. |
| Server.FindUser | index.js:70 | `findOne({ userId })` finds nothing exactly when no document has that userId. Otherwise it returns a stored document with that userId. |
| Server.Draw | index.js:72 | The variant drawn is `"A"` exactly when the coin is below 0.5, and `"B"` otherwise. |
| Server.StoredExtra | index.js:112 | `extra \|\| null` keeps a truthy `extra` unchanged, and a falsy `extra` becomes `null`. So it is never `undefined`, and it is truthy exactly when `extra` is. |
| Server.Store.AssignVariant | index.js:66-80 | A known user gets the stored variant with no write. A new user gets `"A"` when the coin is below 0.5 and `"B"` otherwise, as exactly one appended document. The reply carries the userId. Events and enrollments are unchanged, and uniqueness of users is kept. |
| Server.Store.RecordEvent | index.js:83-119 | The status is 400 exactly when variant, courseId or type is missing or empty. That case gives the 400 reply with its message and no write. A repeated exposure for (userId, courseId) gives `skipped`, whatever its variant, with no write. Otherwise exactly one event is appended with `extra` defaulting to null. Exposure uniqueness is kept. |
| Server.Store.RecordEnrollment | index.js:122-155 | The status is 400 exactly when variant or courseId is missing or empty, and then nothing is written. An existing (userId, courseId) gives "Already enrolled" with no write. Otherwise exactly one enrollment is appended and "Enrollment recorded" is returned. Enrollment uniqueness is kept. |
| Server.Store.ReadEvents | index.js:169-177 | The reply is a permutation of the stored events, ascending by `ts`. |
| Server.Store.ReadEnrollments | index.js:158-166 | The reply is a permutation of the stored enrollments, ascending by `enrolledAt`. |
| Server.AssignTwice | index.js:66-80 | Two variant requests by one user get the same variant, and at most one document is created. |
| Server.ExposeTwice | index.js:96-115 | A second identical exposure is skipped, and exactly one exposure for the pair is stored. |
| Server.EnrollTwice | index.js:133-151 | A second identical enrollment answers "Already enrolled", and exactly one record for the pair is stored. |
| Seqs.SortBy | index.js:172 | The result is sorted by the key and is a permutation of the input. |
| Seqs.FindFirst | index.js:70 | The result is `None` exactly when nothing matches. Otherwise it is a matching element of the collection. |
| Seqs.FindFirstAppend | index.js:97-101 | An existing first match survives appending. A missing one is looked for in the appended part. |
| Analytics.Key | client/src/pages/Analytics.js:15-16 | `field \|\| "unknown"`: a non-empty field is its own key, and an empty or missing one becomes "unknown". The key is never empty. |
| Analytics.EventBucketsOf | client/src/pages/Analytics.js:11-24 | The intended grouping of events: for each of A, B, "1" and "2", the events whose key is that name, in log order. |
| Analytics.EnrollmentBucketsOf | client/src/pages/Analytics.js:27-40 | The intended grouping of enrollments, by the same rule. |
| Analytics.EventBucketsMembership | client/src/pages/Analytics.js:11-24 | An event is in bucket A, B, course 1 or course 2 exactly when its variant is "A" or "B", or its courseId is "1" or "2". So an event without a variant lands in no variant bucket, and a "home" event (courseId "home") in its variant's bucket but in no course bucket. |
| Analytics.EnrollmentBucketsMembership | client/src/pages/Analytics.js:27-40 | The same rule for enrollments. |
| Analytics.EventBucketsSnoc | client/src/pages/Analytics.js:14-24 | One more event is pushed onto the bucket of its variant and the bucket of its course, and nowhere else. |
| Analytics.EnrollmentBucketsSnoc | client/src/pages/Analytics.js:30-40 | One more enrollment is pushed onto the buckets of its variant and course, and nowhere else. |
| Analytics.VariantSplitSnoc | client/src/pages/Analytics.js:73-79 | One more course enrollment is pushed onto the split of its variant, if it has one. |
| Analytics.EventBucketsPermutation | client/src/pages/Analytics.js:14-24 | Reordering the events reorders each bucket. |
| Analytics.EnrollmentBucketsPermutation | client/src/pages/Analytics.js:30-40 | Reordering the enrollments reorders each bucket. |
| Analytics.RoundedPercent | client/src/pages/Analytics.js:49-50 | The rate is 0 when the denominator is 0. Otherwise it is the unit of 10^-d percent nearest to num / den * 100, halves rounded up. |
| Analytics.RateAtMostHundredPercent | client/src/pages/Analytics.js:49 | A count over a denominator at least as large gives a rate of at most 100 percent. |
| Analytics.VariantMetricsOf | client/src/pages/Analytics.js:43-61 | The exposure and click counts are counts of the bucket's events, the enrollment count is the bucket's size, both rates are 0 when there is no exposure, and the conversion is at most 100 percent when enrollments do not exceed exposures. |
| Analytics.CourseMetricsOf | client/src/pages/Analytics.js:63-93 | The record keeps the course id, counts the course's exposures and enrollments, has a zero rate without exposures, and its A and B splits together never exceed its enrollments. |
| Analytics.ReportOf | client/src/pages/Analytics.js:42-104 | The report is the per-variant record of buckets A and B and the per-course record of courses "1" and "2". |
| Analytics.MetricsOf | client/src/pages/Analytics.js:9-104 | The intended `calculateMetrics`: the report of the buckets of both logs, joined with the catalog. |
| Analytics.GroupEvents | client/src/pages/Analytics.js:14-24 | With the own-key lookup (the intended half; as written see `BucketEventsAsWritten`), the loop's buckets equal the specification buckets of the whole event list. |
| Analytics.GroupEnrollments | client/src/pages/Analytics.js:30-40 | With the own-key lookup (the intended half; as written see `BucketEnrollmentsAsWritten`), the loop's buckets equal the specification buckets of the whole enrollment list. |
| Analytics.SplitByVariant | client/src/pages/Analytics.js:73-79 | With the own-key lookup (the intended half; as written see `LookupAsWritten`), the loop's per-course split equals the course's enrollments of variant A and of variant B. |
| Analytics.CalculateCourseMetrics | client/src/pages/Analytics.js:63-93 | With the own-key lookup (the intended half; as written see `CalculateMetricsAsWritten`), the course record equals its specification: catalog join, exposure count, enrollment count, zero-guarded rate and split by variant. |
| Analytics.CalculateMetrics | client/src/pages/Analytics.js:9-104 | With the own-key lookup (the intended half; as written see `CalculateMetricsAsWritten`), the report equals `MetricsOf(events, enrollments, catalog)`. |
| Analytics.KindCounts | client/src/pages/Analytics.js:44-46 | One more event in a bucket adds one to the exposure, details-click or know-more-click count of its own type only. |
| Analytics.SplitCounts | client/src/pages/Analytics.js:89-92 | One more course enrollment adds one to the A or B split of its own variant only. |
| Analytics.AddEventEffect | client/src/pages/Analytics.js:43-61 | One more event raises, by one, exactly the per-variant and per-course counters whose variant, course and type it has. The enrollment counts stay as they were. |
| Analytics.AddEnrollmentEffect | client/src/pages/Analytics.js:63-93 | One more enrollment raises, by one, exactly the variant, course and course-split enrollment counters it belongs to. The exposure counts stay as they were. |
| Analytics.UntrackedEventIgnored | client/src/pages/Analytics.js:17-23 | An event outside both variants and both courses leaves the whole report unchanged. |
| Analytics.UncountedEventIgnored | client/src/pages/Analytics.js:44-46 | An event whose type is not `exposure`, `view_details_click` or `know_more_click` (a plain `view`, a `home_time_spent`) leaves the whole report unchanged, whatever its variant and course. |
| Analytics.EmptyLogsGiveZeros | client/src/pages/Analytics.js:49-50 | Empty logs give zero counts and zero rates everywhere, including both overall rates. |
| Analytics.MetricsIgnoreOrder | client/src/pages/Analytics.js:9-104 | The report is invariant under any permutation of either log. |
| Analytics.VariantMetricsIgnoreOrder | client/src/pages/Analytics.js:43-61 | The per-variant record depends only on the multisets of its buckets. |
| Analytics.CourseMetricsIgnoreOrder | client/src/pages/Analytics.js:63-93 | The per-course record depends only on the multisets of its buckets. |
| Analytics.CatalogJoin | client/src/pages/Analytics.js:66-85 | The first catalog entry with the course's id supplies rating, price and title, with "Course <id>" for an empty title. A catalog miss gives "Course <id>", 0 and 0. |
| Analytics.QuarterConversionScenario | client/src/pages/Analytics.js:49 | 100 exposures and 25 enrollments, all of variant A, give A a conversion of 25.00 percent and B 0. |
| Analytics.TotalEnrollments | client/src/pages/Analytics.js:140 | Total enrollments are the sum of the two variants' enrollments. |
| Analytics.TotalExposures | client/src/pages/Analytics.js:141 | Total exposures are the sum of the two variants' exposures. |
| Analytics.OverallConversion | client/src/pages/Analytics.js:194 | The overall rate (also shown with one decimal in the indicators) is 0 without exposures, and at most 100 percent when total enrollments do not exceed total exposures. |
| Analytics.TotalsCountBothVariants | client/src/pages/Analytics.js:140-141 | Total enrollments count exactly the enrollments of variant A or B. Total exposures count exactly their exposure events. |
| Analytics.Winner | client/src/pages/Analytics.js:605 | The winner's rate is at least the other's, and A wins only with a strictly higher rate, so ties go to B. |
| Analytics.HighSignificance | client/src/pages/Analytics.js:608 | The significance is high when the two conversion rates, in exact hundredths of a percent, are more than 2 points apart. |
| Analytics.SignificantWinnerLeads | client/src/pages/Analytics.js:605-610 | On rates in exact hundredths, a "High" significance means the winner leads by more than 2 percentage points. |
| Analytics.WinnerLabel | client/src/pages/Analytics.js:605 | The winner line names Variant A with its offer when A wins, and Variant B with its offer otherwise. |
| Analytics.SignificanceLabel | client/src/pages/Analytics.js:607-611 | "High - Implement winning variant" on a high significance, "Low - Continue testing" otherwise. |
| Analytics.LabelsFollowRules | client/src/pages/Analytics.js:605-611 | The winner line starts with "Variant A" exactly when A wins, and the significance line starts with "High" exactly when the significance is high. |
| Analytics.RatingPreference | client/src/pages/Analytics.js:148 | "High Rating" when course "1" has more enrollments than course "2", "Low Rating" otherwise. |
| Analytics.PricePreference | client/src/pages/Analytics.js:149 | "Higher Price" when course "1" has more enrollments than course "2", "Lower Price" otherwise. |
| Analytics.PreferencesFromCourseCounts | client/src/pages/Analytics.js:146-149 | "High Rating" holds exactly when course "1" has more enrollments than course "2", so ties go to "Low Rating". It agrees with "Higher Price". |
| Analytics.BestCourseEnrollments | client/src/pages/Analytics.js:685 | The result is the larger of the two course enrollment counts. |
| Analytics.BestConversionTenths | client/src/pages/Analytics.js:689 | The better of the two variant rates, to the nearest tenth of a percent, halves up. |
| Analytics.BucketEventsAsWritten | client/src/pages/Analytics.js:14-24 | The event loop as written: a lookup on the bucket objects that also sees inherited members, and a TypeError when one of those is pushed onto. |
| Analytics.BucketEnrollmentsAsWritten | client/src/pages/Analytics.js:30-40 | The enrollment loop as written, with the same lookup and the same TypeError. |
| Analytics.CalculateMetricsAsWritten | client/src/pages/Analytics.js:9-104 | `calculateMetrics` as written: the report of the as-written buckets, or the TypeError either loop throws. |
| Analytics.LookupAsWritten | client/src/pages/Analytics.js:18 | The truthiness test `dict[key]` on a bucket object as written: an own key finds its array, a name of `Object.prototype` finds an inherited member, and anything else finds nothing. |
| Analytics.HitsPrototype | client/src/pages/Analytics.js:15-18 | A record's field hits `Object.prototype` when its key, after the `"unknown"` default, is one of the inherited names. |
| Analytics.LookupAsWrittenCases | client/src/pages/Analytics.js:17-23 | On the bucket objects as written, a lookup finds a bucket only for "A"/"B" ("1"/"2"). It finds an inherited non-array member exactly for the names of `Object.prototype`. |
| Analytics.BucketEventsAsWrittenAgrees | client/src/pages/Analytics.js:14-24 | The event loop as written throws exactly when some event's variant or course key is an inherited name. Otherwise it builds the intended buckets. |
| Analytics.BucketEnrollmentsAsWrittenAgrees | client/src/pages/Analytics.js:30-40 | The same for the enrollment loop. |
| Analytics.AsWrittenAgreesOffPrototype | client/src/pages/Analytics.js:9-104 | `calculateMetrics` as written fails exactly when some record has an inherited key. Otherwise its report equals the intended one. |
| Analytics.PrototypeVariantBreaksDashboard | client/src/pages/Analytics.js:17-19 | One exposure with variant "toString" makes the aggregation as written throw. The intended grouping counts it only for its course. |
| Session.ToHex | client/src/utils/abtest.js:15 | `toString(16)` gives hex digits only, and a single digit exactly for values below 16. |
| Session.ByteToHexLength | client/src/utils/abtest.js:13-15 | A byte prints as one hex digit below 16 and as two otherwise. |
| Session.VariantNibble | client/src/utils/abtest.js:14 | `(r & 0x3) \| 0x8` is always 8, 9, 10 or 11. |
| Session.FillAsWritten | client/src/utils/abtest.js:12-16 | The template fill as written: an `x` prints its whole draw with `toString(16)`, a `y` the variant nibble, and every other character stays. |
| Session.Fill | client/src/utils/abtest.js:12-16 | The intended fill, with every `x` one hex digit, keeps the template's length. |
| Session.FillAt | client/src/utils/abtest.js:12-16 | Position by position: an `x` becomes a hex digit, a `y` one of 8, 9, a and b, and every other template character is kept. |
| Session.TemplateLayout | client/src/utils/abtest.js:12 | The template has 36 characters: dashes at 8, 13, 18 and 23, `4` at 14, `y` at 19, `x` elsewhere. |
| Session.UuidShape | client/src/utils/abtest.js:12-16 | An id from the intended fill is 36 characters. Dashes are at 8, 13, 18 and 23, `4` is at 14, position 19 is in "89ab", and hex digits fill all other positions. |
| Session.WideDraws | client/src/utils/abtest.js:13-15 | The number of `x` placeholders whose draw is 16 or more. |
| Session.FillAsWrittenLength | client/src/utils/abtest.js:13-15 | As written, the id is 36 characters plus one for every `x` whose draw is 16 or more. |
| Session.AsWrittenLengthIff | client/src/utils/abtest.js:12-16 | As written, the id has 36 characters exactly when no `x` draw is 16 or more. |
| Session.AsWrittenAgreesOnNibbles | client/src/utils/abtest.js:13 | On the `Math.random() * 16` path every draw is below 16, and the fill as written is the intended one. |
| Session.NibbleDrawsGiveUuid | client/src/utils/abtest.js:12-16 | When every draw is below 16, the fill as written gives a 36-character version-4 UUID string. |
| Session.WideFirstByteOverlong | client/src/utils/abtest.js:13-15 | On the `getRandomValues` path, a first byte of 16 or more already gives an id longer than 36 characters. |
| Session.LocalStorage.GetItem | client/src/utils/abtest.js:6 | The stored value for the key, or null when there is none. |
| Session.LocalStorage.SetItem | client/src/utils/abtest.js:18 | The key is bound to the value, and every other entry stays. |
| Session.GetSessionId | client/src/utils/abtest.js:5-21 | A stored non-empty `sessionId` is returned with nothing written. Otherwise the id from `randomUUID`, or else the template fill as written, is stored under `sessionId` and returned. |
| Session.SessionIdIsStable | client/src/utils/abtest.js:5-21 | Two calls in a row return the same id, which is then stored under `sessionId`. Every other storage entry stays. |

## Left out

- Concurrency: the check-then-insert race between concurrent requests is not modelled (index.js:70-74, 97-107, 135-144). Each handler is one atomic step, so the uniqueness invariants hold only for requests served one at a time.
- The MongoDB client, connection and startup, static file serving, the 500 error handler and `/api/health` are I/O plumbing. The collections are in-memory sequences.
- `cookie.parse` decoding and the rest of the Cookie header are not modelled. The middleware takes the parsed `userId` cookie as an optional string.
- `uuidv4`, `Math.random`, `crypto.randomUUID`, `crypto.getRandomValues` and `new Date()` are foreign calls. They become inputs: a fresh id, a coin in [0, 1), a uuid string, a list of byte draws and integer timestamps.
- Request bodies are modelled with string fields. Falsiness is "absent or empty". A non-string `variant` or `courseId`, or a body that is not an object, is not modelled. `extra` is a small JSON value with JavaScript truthiness, whose numbers are integers (no NaN, no fractions).
- Analytics.RoundedPercent: rounds half up on the exact quotient. `toFixed` rounds the binary double of num / den * 100, which can differ at exact halves. `parseFloat` and the floating-point subtraction of the significance rule are not modelled either.
- Analytics.SignificantWinnerLeads: stated on rates in exact hundredths. The page subtracts two doubles, and 4.03 - 2.03 gives 2.0000000000000004, so a lead of exactly 2.00 points can show "High" there, while the model shows "Low".
- Analytics.HighSignificance: the gap is taken on exact hundredths, not as the page's double subtraction `Math.abs(A - B) > 2`. So 4.03 - 2.03, which is 2.0000000000000004 > 2 in doubles, is "High" on the page but not in the model.
- Analytics.BestConversionTenths: rounds the exact hundredths half up, while `toFixed(1)` rounds the double.
- The course catalog (`../data/courses`) is not part of this model. It is a parameter of the aggregation.
- The chart and React rendering of the dashboard, the storefront pages and components, and the display-only difference `Math.abs(A - B).toFixed(2)` are UI. Only the derived values are modelled.
- Session.GetSessionId: the random draws are a finite list, and a list that runs out reads as zero draws. The real source never runs out.
- Session.GetSessionId: the ReferenceError thrown on the fallback path when no `crypto` global exists at all is not modelled.
- The `fetch` wrappers of abtest.js (`getOrAssignVariant`, `recordEvent`, `readEvents`, `recordEnrollment`, `readEnrollments`) are network I/O. The `sessionId` they send is never read by the server.

## Findings

| source | as written | input that shows it | evidently intended | confidence | as-written member | corrected member |
|---|---|---|---|---|---|---|
| client/src/pages/Analytics.js:17-23 | `if (eventsByVariant[variant])` on an object literal also finds the members inherited from `Object.prototype`. Those are truthy and are not arrays, so `.push` throws a TypeError and the dashboard fails to render. | One stored event with variant `"toString"`, which `POST /api/events` accepts because it only asks for a non-empty variant. | Only the own keys "A", "B" ("1", "2") are buckets, and every other key is skipped. | high; not executed | Analytics.PrototypeVariantBreaksDashboard | Analytics.EventBucketsMembership |
| client/src/utils/abtest.js:13-15 | On the `crypto.getRandomValues` path (browsers with `crypto` but no `randomUUID`, such as pages served over plain HTTP) an `x` prints the whole byte with `toString(16)`, which can be two digits. | A first byte of 0xff makes the id start with "ff" and gives more than 36 characters. | Mask the draw to a nibble (`r & 0xf`), so every `x` is one hex digit and the id is a 36-character UUID. | high; not executed | Session.WideFirstByteOverlong | Session.UuidShape |
