/**
 * The analytics dashboard's aggregation: `calculateMetrics` groups the event
 * and enrollment logs into buckets by variant ("A", "B") and by course ("1",
 * "2"), counts each bucket, and the page derives totals and decision rules
 * from the result. Rates are whole numbers of 10^-d percent (hundredths for
 * the two decimals `toFixed(2)` keeps), with the same zero guard as the page.
 */
module Analytics {
  import opened Wrappers
  import opened Seqs
  import opened Server

  datatype Variant = A | B

  /** `field || "unknown"`: the key a record is bucketed under. */
  function Key(field: string): (k: string)
    ensures k != ""
    ensures field != "" ==> k == field
    ensures field == "" ==> k == "unknown"
  {
    if field == "" then "unknown" else field
  }

  /** The own keys of `{ A: [], B: [] }`. */
  function VariantOfKey(key: string): Option<Variant> {
    if key == "A" then Some(A) else if key == "B" then Some(B) else None
  }

  function EventInVariant(v: Variant): Event -> bool {
    (e: Event) => VariantOfKey(Key(e.variant)) == Some(v)
  }

  function EventInCourse(courseId: string): Event -> bool {
    (e: Event) => Key(e.courseId) == courseId
  }

  function OfType(eventType: string): Event -> bool {
    (e: Event) => e.eventType == eventType
  }

  function EnrollmentInVariant(v: Variant): Enrollment -> bool {
    (n: Enrollment) => VariantOfKey(Key(n.variant)) == Some(v)
  }

  function EnrollmentInCourse(courseId: string): Enrollment -> bool {
    (n: Enrollment) => Key(n.courseId) == courseId
  }

  /** `eventsByVariant.A`, `.B`, `eventsByCourse["1"]`, `["2"]` */
  datatype EventBuckets = EventBuckets(a: seq<Event>, b: seq<Event>, course1: seq<Event>, course2: seq<Event>)

  /** `enrollmentsByVariant.A`, `.B`, `enrollmentsByCourse["1"]`, `["2"]` */
  datatype EnrollmentBuckets =
    EnrollmentBuckets(a: seq<Enrollment>, b: seq<Enrollment>, course1: seq<Enrollment>, course2: seq<Enrollment>)

  /**
   * The grouping of events: a record lands in a variant bucket exactly when its
   * variant is "A" or "B", and in a course bucket exactly when its courseId is
   * "1" or "2". So a "home" event lands in its variant's bucket and in no course
   * bucket, and an event without a variant lands in no variant bucket.
   */
  function EventBucketsOf(events: seq<Event>): EventBuckets {
    EventBuckets(Filter(events, EventInVariant(A)), Filter(events, EventInVariant(B)),
                 Filter(events, EventInCourse("1")), Filter(events, EventInCourse("2")))
  }

  lemma EventBucketsMembership(events: seq<Event>, e: Event)
    ensures var r := EventBucketsOf(events);
      && (e in r.a <==> e in events && e.variant == "A")
      && (e in r.b <==> e in events && e.variant == "B")
      && (e in r.course1 <==> e in events && e.courseId == "1")
      && (e in r.course2 <==> e in events && e.courseId == "2")
  {
    FilterMembership(events, EventInVariant(A), e);
    FilterMembership(events, EventInVariant(B), e);
    FilterMembership(events, EventInCourse("1"), e);
    FilterMembership(events, EventInCourse("2"), e);
  }

  /** The grouping of enrollments, by the same rule as events. */
  function EnrollmentBucketsOf(enrollments: seq<Enrollment>): EnrollmentBuckets {
    EnrollmentBuckets(Filter(enrollments, EnrollmentInVariant(A)), Filter(enrollments, EnrollmentInVariant(B)),
                      Filter(enrollments, EnrollmentInCourse("1")), Filter(enrollments, EnrollmentInCourse("2")))
  }

  lemma EnrollmentBucketsMembership(enrollments: seq<Enrollment>, n: Enrollment)
    ensures var r := EnrollmentBucketsOf(enrollments);
      && (n in r.a <==> n in enrollments && n.variant == "A")
      && (n in r.b <==> n in enrollments && n.variant == "B")
      && (n in r.course1 <==> n in enrollments && n.courseId == "1")
      && (n in r.course2 <==> n in enrollments && n.courseId == "2")
  {
    FilterMembership(enrollments, EnrollmentInVariant(A), n);
    FilterMembership(enrollments, EnrollmentInVariant(B), n);
    FilterMembership(enrollments, EnrollmentInCourse("1"), n);
    FilterMembership(enrollments, EnrollmentInCourse("2"), n);
  }

  /** One more event joins the bucket of its variant and the bucket of its course, if it has them. */
  lemma EventBucketsSnoc(events: seq<Event>, e: Event)
    ensures var r := EventBucketsOf(events);
      EventBucketsOf(events + [e]) == EventBuckets(
        if Key(e.variant) == "A" then r.a + [e] else r.a,
        if Key(e.variant) == "B" then r.b + [e] else r.b,
        if Key(e.courseId) == "1" then r.course1 + [e] else r.course1,
        if Key(e.courseId) == "2" then r.course2 + [e] else r.course2)
  {
    FilterSnoc(events, e, EventInVariant(A));
    FilterSnoc(events, e, EventInVariant(B));
    FilterSnoc(events, e, EventInCourse("1"));
    FilterSnoc(events, e, EventInCourse("2"));
  }

  /** One more enrollment joins the bucket of its variant and the bucket of its course, if it has them. */
  lemma EnrollmentBucketsSnoc(enrollments: seq<Enrollment>, n: Enrollment)
    ensures var r := EnrollmentBucketsOf(enrollments);
      EnrollmentBucketsOf(enrollments + [n]) == EnrollmentBuckets(
        if Key(n.variant) == "A" then r.a + [n] else r.a,
        if Key(n.variant) == "B" then r.b + [n] else r.b,
        if Key(n.courseId) == "1" then r.course1 + [n] else r.course1,
        if Key(n.courseId) == "2" then r.course2 + [n] else r.course2)
  {
    FilterSnoc(enrollments, n, EnrollmentInVariant(A));
    FilterSnoc(enrollments, n, EnrollmentInVariant(B));
    FilterSnoc(enrollments, n, EnrollmentInCourse("1"));
    FilterSnoc(enrollments, n, EnrollmentInCourse("2"));
  }

  /** One more enrollment of a course joins the split of its variant, if it has one. */
  lemma VariantSplitSnoc(courseEnrollments: seq<Enrollment>, n: Enrollment)
    ensures var a, b := Filter(courseEnrollments, EnrollmentInVariant(A)), Filter(courseEnrollments, EnrollmentInVariant(B));
      && Filter(courseEnrollments + [n], EnrollmentInVariant(A)) == (if Key(n.variant) == "A" then a + [n] else a)
      && Filter(courseEnrollments + [n], EnrollmentInVariant(B)) == (if Key(n.variant) == "B" then b + [n] else b)
  {
    FilterSnoc(courseEnrollments, n, EnrollmentInVariant(A));
    FilterSnoc(courseEnrollments, n, EnrollmentInVariant(B));
  }

  /** Reordering the log reorders each bucket and nothing more. */
  lemma EventBucketsPermutation(events: seq<Event>, events': seq<Event>)
    requires multiset(events) == multiset(events')
    ensures var r, r' := EventBucketsOf(events), EventBucketsOf(events');
      && multiset(r.a) == multiset(r'.a) && multiset(r.b) == multiset(r'.b)
      && multiset(r.course1) == multiset(r'.course1) && multiset(r.course2) == multiset(r'.course2)
  {
    FilterPermutation(events, events', EventInVariant(A));
    FilterPermutation(events, events', EventInVariant(B));
    FilterPermutation(events, events', EventInCourse("1"));
    FilterPermutation(events, events', EventInCourse("2"));
  }

  /** Reordering the log reorders each bucket and nothing more. */
  lemma EnrollmentBucketsPermutation(enrollments: seq<Enrollment>, enrollments': seq<Enrollment>)
    requires multiset(enrollments) == multiset(enrollments')
    ensures var r, r' := EnrollmentBucketsOf(enrollments), EnrollmentBucketsOf(enrollments');
      && multiset(r.a) == multiset(r'.a) && multiset(r.b) == multiset(r'.b)
      && multiset(r.course1) == multiset(r'.course1) && multiset(r.course2) == multiset(r'.course2)
  {
    FilterPermutation(enrollments, enrollments', EnrollmentInVariant(A));
    FilterPermutation(enrollments, enrollments', EnrollmentInVariant(B));
    FilterPermutation(enrollments, enrollments', EnrollmentInCourse("1"));
    FilterPermutation(enrollments, enrollments', EnrollmentInCourse("2"));
  }

  // ---------------------------------------------------------------------------
  // Rates

  function Pow10(n: nat): (r: nat)
    ensures r >= 1
  {
    if n == 0 then 1 else 10 * Pow10(n - 1)
  }

  lemma DivBounds(x: nat, d: nat)
    requires d > 0
    ensures (x / d) * d <= x < (x / d) * d + d
  {
  }

  /** One percent in units of 10^-decimals percent, times 100: the factor num / den is scaled by. */
  function Scale(decimals: nat): nat {
    100 * Pow10(decimals)
  }

  /**
   * `den > 0 ? (num / den * 100).toFixed(decimals) : 0`, in units of
   * 10^-decimals percent: zero when there is nothing to divide by, otherwise
   * the nearest such unit to num / den * 100, halves rounded up.
   */
  function RoundedPercent(num: nat, den: nat, decimals: nat): (r: nat)
    ensures den == 0 ==> r == 0
    ensures den > 0 ==> r * (2 * den) <= 2 * (num * Scale(decimals)) + den < r * (2 * den) + 2 * den
  {
    if den == 0 then 0
    else
      var x := 2 * (num * Scale(decimals)) + den;
      DivBounds(x, 2 * den);
      x / (2 * den)
  }

  /** A rate over a part of its own denominator is at most 100 percent. */
  lemma RateAtMostHundredPercent(num: nat, den: nat, decimals: nat)
    requires num <= den
    ensures RoundedPercent(num, den, decimals) <= Scale(decimals)
  {
    if den > 0 {
      RoundedBelowScale(RoundedPercent(num, den, decimals), num, den, Scale(decimals));
    }
  }

  lemma RoundedBelowScale(r: nat, num: nat, den: nat, s: nat)
    requires 0 < den && num <= den
    requires r * (2 * den) <= 2 * (num * s) + den
    ensures r <= s
  {
    MulMonotone(num, den, s);
    assert (s + 1) * (2 * den) == 2 * (den * s) + 2 * den;
    if r >= s + 1 {
      MulMonotone(s + 1, r, 2 * den);
      assert false;
    }
  }

  lemma MulMonotone(x: nat, y: nat, k: nat)
    requires x <= y
    ensures x * k <= y * k
  {
  }

  // ---------------------------------------------------------------------------
  // Per-variant and per-course metrics

  /** `calculateVariantMetrics` */
  datatype VariantMetrics = VariantMetrics(
    exposures: nat, viewDetailsClicks: nat, knowMoreClicks: nat, enrollments: nat,
    conversionRate: nat, clickThroughRate: nat)

  /** The counts are counts of the bucket's records, and both rates are zero when there is no exposure. */
  function VariantMetricsOf(variantEvents: seq<Event>, variantEnrollments: seq<Enrollment>): (r: VariantMetrics)
    ensures r.exposures <= |variantEvents| && r.viewDetailsClicks <= |variantEvents| && r.knowMoreClicks <= |variantEvents|
    ensures r.enrollments == |variantEnrollments|
    ensures r.exposures == 0 ==> r.conversionRate == 0 && r.clickThroughRate == 0
    ensures r.enrollments <= r.exposures ==> r.conversionRate <= Scale(2)
  {
    var exposures := |Filter(variantEvents, OfType("exposure"))|;
    var viewDetailsClicks := |Filter(variantEvents, OfType("view_details_click"))|;
    var knowMoreClicks := |Filter(variantEvents, OfType("know_more_click"))|;
    var enrollments := |variantEnrollments|;
    var m := VariantMetrics(exposures, viewDetailsClicks, knowMoreClicks, enrollments,
                            RoundedPercent(enrollments, exposures, 2), RoundedPercent(viewDetailsClicks, exposures, 2));
    if enrollments <= exposures then RateAtMostHundredPercent(enrollments, exposures, 2); m else m
  }

  /** An entry of the course catalog (the catalog module itself is not part of this model). */
  datatype Course = Course(id: string, title: string, rating: real, price: int)

  function CourseWithId(courseId: string): Course -> bool {
    (c: Course) => c.id == courseId
  }

  /** `calculateCourseMetrics` */
  datatype CourseMetrics = CourseMetrics(
    courseId: string, courseTitle: string, rating: real, price: int,
    exposures: nat, enrollments: nat, conversionRate: nat, enrollmentsA: nat, enrollmentsB: nat)

  /**
   * The course record: its id, the catalog fields, the counts of its records, a
   * zero-guarded rate, and a split by variant that never exceeds its enrollments
   * (records of other variants are dropped).
   */
  function CourseMetricsOf(courseId: string, courseEvents: seq<Event>, courseEnrollments: seq<Enrollment>,
                           catalog: seq<Course>): (r: CourseMetrics)
    ensures r.courseId == courseId
    ensures r.exposures <= |courseEvents| && r.enrollments == |courseEnrollments|
    ensures r.exposures == 0 ==> r.conversionRate == 0
    ensures r.enrollmentsA + r.enrollmentsB <= r.enrollments
  {
    var course := FindFirst(catalog, CourseWithId(courseId));
    var exposures := |Filter(courseEvents, OfType("exposure"))|;
    var enrollments := |courseEnrollments|;
    FilterDisjointSum(courseEnrollments, EnrollmentInVariant(A), EnrollmentInVariant(B), EnrollmentInEither());
    CourseMetrics(
      courseId,
      if course.Some? && course.value.title != "" then course.value.title else "Course " + courseId,
      if course.Some? then course.value.rating else 0.0,
      if course.Some? then course.value.price else 0,
      exposures, enrollments, RoundedPercent(enrollments, exposures, 2),
      |Filter(courseEnrollments, EnrollmentInVariant(A))|, |Filter(courseEnrollments, EnrollmentInVariant(B))|)
  }

  /** The value `calculateMetrics` returns. */
  datatype Report = Report(a: VariantMetrics, b: VariantMetrics, course1: CourseMetrics, course2: CourseMetrics)

  function ReportOf(eb: EventBuckets, nb: EnrollmentBuckets, catalog: seq<Course>): Report {
    Report(VariantMetricsOf(eb.a, nb.a), VariantMetricsOf(eb.b, nb.b),
           CourseMetricsOf("1", eb.course1, nb.course1, catalog),
           CourseMetricsOf("2", eb.course2, nb.course2, catalog))
  }

  /** `calculateMetrics(events, enrollments)` against `catalog`. */
  function MetricsOf(events: seq<Event>, enrollments: seq<Enrollment>, catalog: seq<Course>): Report {
    ReportOf(EventBucketsOf(events), EnrollmentBucketsOf(enrollments), catalog)
  }

  // ---------------------------------------------------------------------------
  // The loops of calculateMetrics

  /** The `events.forEach` that fills the event buckets. */
  method GroupEvents(events: seq<Event>) returns (buckets: EventBuckets)
    ensures buckets == EventBucketsOf(events)
  {
    var a, b, course1, course2 := [], [], [], [];
    var i := 0;
    while i < |events|
      invariant 0 <= i <= |events|
      invariant EventBuckets(a, b, course1, course2) == EventBucketsOf(events[..i])
    {
      var event := events[i];
      var variant := Key(event.variant);
      var courseId := Key(event.courseId);
      if variant == "A" {
        a := a + [event];
      } else if variant == "B" {
        b := b + [event];
      }
      if courseId == "1" {
        course1 := course1 + [event];
      } else if courseId == "2" {
        course2 := course2 + [event];
      }
      assert events[..i + 1] == events[..i] + [event];
      EventBucketsSnoc(events[..i], event);
      i := i + 1;
    }
    assert events[..|events|] == events;
    buckets := EventBuckets(a, b, course1, course2);
  }

  /** The `enrollments.forEach` that fills the enrollment buckets. */
  method GroupEnrollments(enrollments: seq<Enrollment>) returns (buckets: EnrollmentBuckets)
    ensures buckets == EnrollmentBucketsOf(enrollments)
  {
    var a, b, course1, course2 := [], [], [], [];
    var i := 0;
    while i < |enrollments|
      invariant 0 <= i <= |enrollments|
      invariant EnrollmentBuckets(a, b, course1, course2) == EnrollmentBucketsOf(enrollments[..i])
    {
      var enrollment := enrollments[i];
      var variant := Key(enrollment.variant);
      var courseId := Key(enrollment.courseId);
      if variant == "A" {
        a := a + [enrollment];
      } else if variant == "B" {
        b := b + [enrollment];
      }
      if courseId == "1" {
        course1 := course1 + [enrollment];
      } else if courseId == "2" {
        course2 := course2 + [enrollment];
      }
      assert enrollments[..i + 1] == enrollments[..i] + [enrollment];
      EnrollmentBucketsSnoc(enrollments[..i], enrollment);
      i := i + 1;
    }
    assert enrollments[..|enrollments|] == enrollments;
    buckets := EnrollmentBuckets(a, b, course1, course2);
  }

  /** The `courseEnrollments.forEach` that splits one course's enrollments by variant. */
  method SplitByVariant(courseEnrollments: seq<Enrollment>) returns (a: seq<Enrollment>, b: seq<Enrollment>)
    ensures a == Filter(courseEnrollments, EnrollmentInVariant(A))
    ensures b == Filter(courseEnrollments, EnrollmentInVariant(B))
  {
    a, b := [], [];
    var i := 0;
    while i < |courseEnrollments|
      invariant 0 <= i <= |courseEnrollments|
      invariant a == Filter(courseEnrollments[..i], EnrollmentInVariant(A))
      invariant b == Filter(courseEnrollments[..i], EnrollmentInVariant(B))
    {
      var enrollment := courseEnrollments[i];
      var variant := Key(enrollment.variant);
      if variant == "A" {
        a := a + [enrollment];
      } else if variant == "B" {
        b := b + [enrollment];
      }
      assert courseEnrollments[..i + 1] == courseEnrollments[..i] + [enrollment];
      VariantSplitSnoc(courseEnrollments[..i], enrollment);
      i := i + 1;
    }
    assert courseEnrollments[..|courseEnrollments|] == courseEnrollments;
  }

  /** `calculateCourseMetrics(courseId)` over the course's buckets. */
  method CalculateCourseMetrics(courseId: string, courseEvents: seq<Event>, courseEnrollments: seq<Enrollment>,
                                catalog: seq<Course>) returns (m: CourseMetrics)
    ensures m == CourseMetricsOf(courseId, courseEvents, courseEnrollments, catalog)
  {
    var course := FindFirst(catalog, CourseWithId(courseId));
    var exposures := |Filter(courseEvents, OfType("exposure"))|;
    var enrollments := |courseEnrollments|;
    var byA, byB := SplitByVariant(courseEnrollments);
    var title := if course.Some? && course.value.title != "" then course.value.title else "Course " + courseId;
    var rating := if course.Some? then course.value.rating else 0.0;
    var price := if course.Some? then course.value.price else 0;
    m := CourseMetrics(courseId, title, rating, price, exposures, enrollments,
                       RoundedPercent(enrollments, exposures, 2), |byA|, |byB|);
  }

  /** `calculateMetrics(events, enrollments)` */
  method CalculateMetrics(events: seq<Event>, enrollments: seq<Enrollment>, catalog: seq<Course>) returns (r: Report)
    ensures r == MetricsOf(events, enrollments, catalog)
  {
    var eb := GroupEvents(events);
    var nb := GroupEnrollments(enrollments);
    var course1 := CalculateCourseMetrics("1", eb.course1, nb.course1, catalog);
    var course2 := CalculateCourseMetrics("2", eb.course2, nb.course2, catalog);
    r := Report(VariantMetricsOf(eb.a, nb.a), VariantMetricsOf(eb.b, nb.b), course1, course2);
  }

  // ---------------------------------------------------------------------------
  // What the counts mean

  function Count(b: bool): nat {
    if b then 1 else 0
  }

  /** One more event in a bucket adds one to the count of its own type. */
  lemma KindCounts(bucket: seq<Event>, e: Event)
    ensures |Filter(bucket + [e], OfType("exposure"))| == |Filter(bucket, OfType("exposure"))| + Count(e.eventType == "exposure")
    ensures |Filter(bucket + [e], OfType("view_details_click"))| ==
      |Filter(bucket, OfType("view_details_click"))| + Count(e.eventType == "view_details_click")
    ensures |Filter(bucket + [e], OfType("know_more_click"))| ==
      |Filter(bucket, OfType("know_more_click"))| + Count(e.eventType == "know_more_click")
  {
    FilterSnoc(bucket, e, OfType("exposure"));
    FilterSnoc(bucket, e, OfType("view_details_click"));
    FilterSnoc(bucket, e, OfType("know_more_click"));
  }

  /** One more enrollment in a course adds one to the split of its own variant. */
  lemma SplitCounts(courseEnrollments: seq<Enrollment>, n: Enrollment)
    ensures |Filter(courseEnrollments + [n], EnrollmentInVariant(A))| ==
      |Filter(courseEnrollments, EnrollmentInVariant(A))| + Count(n.variant == "A")
    ensures |Filter(courseEnrollments + [n], EnrollmentInVariant(B))| ==
      |Filter(courseEnrollments, EnrollmentInVariant(B))| + Count(n.variant == "B")
  {
    FilterSnoc(courseEnrollments, n, EnrollmentInVariant(A));
    FilterSnoc(courseEnrollments, n, EnrollmentInVariant(B));
  }

  /** One more event changes exactly the counters it belongs to, by one. */
  lemma AddEventEffect(events: seq<Event>, e: Event, enrollments: seq<Enrollment>, catalog: seq<Course>)
    ensures var r, r' := MetricsOf(events, enrollments, catalog), MetricsOf(events + [e], enrollments, catalog);
      && r'.a.exposures == r.a.exposures + Count(e.variant == "A" && e.eventType == "exposure")
      && r'.a.viewDetailsClicks == r.a.viewDetailsClicks + Count(e.variant == "A" && e.eventType == "view_details_click")
      && r'.a.knowMoreClicks == r.a.knowMoreClicks + Count(e.variant == "A" && e.eventType == "know_more_click")
      && r'.b.exposures == r.b.exposures + Count(e.variant == "B" && e.eventType == "exposure")
      && r'.b.viewDetailsClicks == r.b.viewDetailsClicks + Count(e.variant == "B" && e.eventType == "view_details_click")
      && r'.b.knowMoreClicks == r.b.knowMoreClicks + Count(e.variant == "B" && e.eventType == "know_more_click")
      && r'.course1.exposures == r.course1.exposures + Count(e.courseId == "1" && e.eventType == "exposure")
      && r'.course2.exposures == r.course2.exposures + Count(e.courseId == "2" && e.eventType == "exposure")
      && r'.a.enrollments == r.a.enrollments && r'.b.enrollments == r.b.enrollments
      && r'.course1.enrollments == r.course1.enrollments && r'.course2.enrollments == r.course2.enrollments
  {
    var r := EventBucketsOf(events);
    EventBucketsSnoc(events, e);
    KindCounts(r.a, e);
    KindCounts(r.b, e);
    KindCounts(r.course1, e);
    KindCounts(r.course2, e);
  }

  /** One more enrollment changes exactly the enrollment counters it belongs to, by one. */
  lemma AddEnrollmentEffect(events: seq<Event>, enrollments: seq<Enrollment>, n: Enrollment, catalog: seq<Course>)
    ensures var r, r' := MetricsOf(events, enrollments, catalog), MetricsOf(events, enrollments + [n], catalog);
      && r'.a.enrollments == r.a.enrollments + Count(n.variant == "A")
      && r'.b.enrollments == r.b.enrollments + Count(n.variant == "B")
      && r'.course1.enrollments == r.course1.enrollments + Count(n.courseId == "1")
      && r'.course2.enrollments == r.course2.enrollments + Count(n.courseId == "2")
      && r'.course1.enrollmentsA == r.course1.enrollmentsA + Count(n.courseId == "1" && n.variant == "A")
      && r'.course1.enrollmentsB == r.course1.enrollmentsB + Count(n.courseId == "1" && n.variant == "B")
      && r'.course2.enrollmentsA == r.course2.enrollmentsA + Count(n.courseId == "2" && n.variant == "A")
      && r'.course2.enrollmentsB == r.course2.enrollmentsB + Count(n.courseId == "2" && n.variant == "B")
      && r'.a.exposures == r.a.exposures && r'.b.exposures == r.b.exposures
      && r'.course1.exposures == r.course1.exposures && r'.course2.exposures == r.course2.exposures
  {
    var r := EnrollmentBucketsOf(enrollments);
    EnrollmentBucketsSnoc(enrollments, n);
    SplitCounts(r.course1, n);
    SplitCounts(r.course2, n);
  }

  /** An event outside both variants and both courses changes nothing at all. */
  lemma UntrackedEventIgnored(events: seq<Event>, e: Event, enrollments: seq<Enrollment>, catalog: seq<Course>)
    requires e.variant != "A" && e.variant != "B"
    requires e.courseId != "1" && e.courseId != "2"
    ensures MetricsOf(events + [e], enrollments, catalog) == MetricsOf(events, enrollments, catalog)
  {
    EventBucketsSnoc(events, e);
  }

  /**
   * An event of a type the dashboard does not count (a plain `view`, `home_time_spent`,
   * an `enrollment` event) changes nothing at all, whatever its variant and course:
   * this is why the storefront's "home" events leave the report alone.
   */
  lemma UncountedEventIgnored(events: seq<Event>, e: Event, enrollments: seq<Enrollment>, catalog: seq<Course>)
    requires e.eventType != "exposure" && e.eventType != "view_details_click" && e.eventType != "know_more_click"
    ensures MetricsOf(events + [e], enrollments, catalog) == MetricsOf(events, enrollments, catalog)
  {
    var r := EventBucketsOf(events);
    EventBucketsSnoc(events, e);
    KindCounts(r.a, e);
    KindCounts(r.b, e);
    KindCounts(r.course1, e);
    KindCounts(r.course2, e);
  }

  /** Empty logs give zero counts and zero rates, and no division happens. */
  lemma EmptyLogsGiveZeros(catalog: seq<Course>)
    ensures var r := MetricsOf([], [], catalog);
      && r.a == VariantMetrics(0, 0, 0, 0, 0, 0) && r.b == VariantMetrics(0, 0, 0, 0, 0, 0)
      && r.course1.exposures == 0 && r.course1.enrollments == 0 && r.course1.conversionRate == 0
      && r.course1.enrollmentsA == 0 && r.course1.enrollmentsB == 0
      && r.course2.exposures == 0 && r.course2.enrollments == 0 && r.course2.conversionRate == 0
      && r.course2.enrollmentsA == 0 && r.course2.enrollmentsB == 0
      && OverallConversion(r, 2) == 0 && OverallConversion(r, 1) == 0
  {
  }

  /** The report depends only on which records there are, not on their order. */
  lemma MetricsIgnoreOrder(events: seq<Event>, events': seq<Event>, enrollments: seq<Enrollment>,
                           enrollments': seq<Enrollment>, catalog: seq<Course>)
    requires multiset(events) == multiset(events')
    requires multiset(enrollments) == multiset(enrollments')
    ensures MetricsOf(events, enrollments, catalog) == MetricsOf(events', enrollments', catalog)
  {
    var eb, eb' := EventBucketsOf(events), EventBucketsOf(events');
    var nb, nb' := EnrollmentBucketsOf(enrollments), EnrollmentBucketsOf(enrollments');
    EventBucketsPermutation(events, events');
    EnrollmentBucketsPermutation(enrollments, enrollments');
    VariantMetricsIgnoreOrder(eb.a, eb'.a, nb.a, nb'.a);
    VariantMetricsIgnoreOrder(eb.b, eb'.b, nb.b, nb'.b);
    CourseMetricsIgnoreOrder("1", eb.course1, eb'.course1, nb.course1, nb'.course1, catalog);
    CourseMetricsIgnoreOrder("2", eb.course2, eb'.course2, nb.course2, nb'.course2, catalog);
  }

  lemma VariantMetricsIgnoreOrder(ve: seq<Event>, ve': seq<Event>, vn: seq<Enrollment>, vn': seq<Enrollment>)
    requires multiset(ve) == multiset(ve') && multiset(vn) == multiset(vn')
    ensures VariantMetricsOf(ve, vn) == VariantMetricsOf(ve', vn')
  {
    FilterPermutation(ve, ve', OfType("exposure"));
    FilterPermutation(ve, ve', OfType("view_details_click"));
    FilterPermutation(ve, ve', OfType("know_more_click"));
    assert |vn| == |multiset(vn)| == |multiset(vn')| == |vn'|;
  }

  lemma CourseMetricsIgnoreOrder(courseId: string, ce: seq<Event>, ce': seq<Event>, cn: seq<Enrollment>,
                                 cn': seq<Enrollment>, catalog: seq<Course>)
    requires multiset(ce) == multiset(ce') && multiset(cn) == multiset(cn')
    ensures CourseMetricsOf(courseId, ce, cn, catalog) == CourseMetricsOf(courseId, ce', cn', catalog)
  {
    FilterPermutation(ce, ce', OfType("exposure"));
    FilterPermutation(cn, cn', EnrollmentInVariant(A));
    FilterPermutation(cn, cn', EnrollmentInVariant(B));
    assert |cn| == |multiset(cn)| == |multiset(cn')| == |cn'|;
  }

  /** The catalog join: the first entry with the course's id supplies title, rating and price; a miss gives the fallbacks. */
  lemma CatalogJoin(courseId: string, courseEvents: seq<Event>, courseEnrollments: seq<Enrollment>,
                    catalog: seq<Course>, i: nat)
    ensures var m := CourseMetricsOf(courseId, courseEvents, courseEnrollments, catalog);
      && ((forall k :: 0 <= k < |catalog| ==> catalog[k].id != courseId) ==>
            m.courseTitle == "Course " + courseId && m.rating == 0.0 && m.price == 0)
      && (i < |catalog| && catalog[i].id == courseId && (forall k :: 0 <= k < i ==> catalog[k].id != courseId) ==>
            m.courseTitle == (if catalog[i].title != "" then catalog[i].title else "Course " + courseId)
            && m.rating == catalog[i].rating && m.price == catalog[i].price)
  {
    if i < |catalog| && catalog[i].id == courseId && (forall k :: 0 <= k < i ==> catalog[k].id != courseId) {
      var found := FirstIndex(catalog, CourseWithId(courseId));
      assert found == Some(i) by {
        assert found.Some?;
        if found.value < i { assert false; }
        if found.value > i { assert false; }
      }
    }
  }

  /** The scenario of 100 exposures and 25 enrollments, all of variant A: a conversion of 25.00 percent for A, 0 for B. */
  lemma QuarterConversionScenario(events: seq<Event>, enrollments: seq<Enrollment>, catalog: seq<Course>)
    requires |events| == 100 && forall i :: 0 <= i < |events| ==> events[i].variant == "A" && events[i].eventType == "exposure"
    requires |enrollments| == 25 && forall i :: 0 <= i < |enrollments| ==> enrollments[i].variant == "A"
    ensures MetricsOf(events, enrollments, catalog).a.conversionRate == 2500
    ensures MetricsOf(events, enrollments, catalog).b.conversionRate == 0
  {
    FilterAll(events, EventInVariant(A));
    FilterAll(events, OfType("exposure"));
    FilterAll(enrollments, EnrollmentInVariant(A));
    FilterNone(events, EventInVariant(B));
    assert Pow10(2) == 100;
  }

  // ---------------------------------------------------------------------------
  // Page-level totals and decision rules

  function TotalEnrollments(r: Report): nat {
    r.a.enrollments + r.b.enrollments
  }

  function TotalExposures(r: Report): nat {
    r.a.exposures + r.b.exposures
  }

  /** The overall conversion rate, shown with 2 decimals in the summary card and with 1 in the indicators. */
  function OverallConversion(r: Report, decimals: nat): (c: nat)
    ensures TotalExposures(r) == 0 ==> c == 0
    ensures TotalEnrollments(r) <= TotalExposures(r) ==> c <= Scale(decimals)
  {
    var c := RoundedPercent(TotalEnrollments(r), TotalExposures(r), decimals);
    if TotalEnrollments(r) <= TotalExposures(r) then
      RateAtMostHundredPercent(TotalEnrollments(r), TotalExposures(r), decimals); c
    else c
  }

  function ExposureInEither(): Event -> bool {
    (e: Event) => (e.variant == "A" || e.variant == "B") && e.eventType == "exposure"
  }

  function EnrollmentInEither(): Enrollment -> bool {
    (n: Enrollment) => n.variant == "A" || n.variant == "B"
  }

  /** The totals count exactly the records of variant A or B. */
  lemma TotalsCountBothVariants(events: seq<Event>, enrollments: seq<Enrollment>, catalog: seq<Course>)
    ensures TotalEnrollments(MetricsOf(events, enrollments, catalog)) == |Filter(enrollments, EnrollmentInEither())|
    ensures TotalExposures(MetricsOf(events, enrollments, catalog)) == |Filter(events, ExposureInEither())|
  {
    FilterDisjointSum(enrollments, EnrollmentInVariant(A), EnrollmentInVariant(B), EnrollmentInEither());
    var exposureA := (e: Event) => e.variant == "A" && e.eventType == "exposure";
    var exposureB := (e: Event) => e.variant == "B" && e.eventType == "exposure";
    FilterFilter(events, EventInVariant(A), OfType("exposure"), exposureA);
    FilterFilter(events, EventInVariant(B), OfType("exposure"), exposureB);
    FilterDisjointSum(events, exposureA, exposureB, ExposureInEither());
  }

  function RateOf(r: Report, v: Variant): nat {
    if v == A then r.a.conversionRate else r.b.conversionRate
  }

  function Other(v: Variant): Variant {
    if v == A then B else A
  }

  /** The winning variant: the one with the higher conversion rate, B on a tie. */
  function Winner(r: Report): (w: Variant)
    ensures RateOf(r, w) >= RateOf(r, Other(w))
    ensures w == A ==> RateOf(r, A) > RateOf(r, B)
  {
    if r.a.conversionRate > r.b.conversionRate then A else B
  }

  function WinnerLabel(r: Report): string {
    if Winner(r) == A then "Variant A (Free + Certificate Fee)" else "Variant B (50% OFF + Free Certificate)"
  }

  /** `Math.abs(A.conversionRate - B.conversionRate)`, in hundredths of a percent. */
  function RateGap(r: Report): nat {
    if r.a.conversionRate >= r.b.conversionRate then r.a.conversionRate - r.b.conversionRate
    else r.b.conversionRate - r.a.conversionRate
  }

  /** More than 2 percentage points apart. */
  function HighSignificance(r: Report): bool {
    RateGap(r) > 200
  }

  function SignificanceLabel(r: Report): string {
    if HighSignificance(r) then "High - Implement winning variant" else "Low - Continue testing"
  }

  /** The labels the page shows follow the two rules: "Variant A" exactly when A wins, "High" exactly when the gap is significant. */
  lemma LabelsFollowRules(r: Report)
    ensures "Variant A" <= WinnerLabel(r) <==> Winner(r) == A
    ensures "High" <= SignificanceLabel(r) <==> HighSignificance(r)
  {
    var w, h := WinnerLabel(r), SignificanceLabel(r);
    if Winner(r) == B {
      assert w[8] == 'B';
    }
    if !HighSignificance(r) {
      assert h[0] == 'L';
    }
  }

  /** A high significance always comes with a strict winner, ahead by more than 2 points. */
  lemma SignificantWinnerLeads(r: Report)
    requires HighSignificance(r)
    ensures RateOf(r, Winner(r)) > RateOf(r, Other(Winner(r))) + 200
  {
  }

  function RatingPreference(r: Report): string {
    if r.course1.enrollments > r.course2.enrollments then "High Rating" else "Low Rating"
  }

  function PricePreference(r: Report): string {
    if r.course1.enrollments > r.course2.enrollments then "Higher Price" else "Lower Price"
  }

  /** Course "1" is the high-rating, higher-priced course: both preferences come from one comparison, ties included. */
  lemma PreferencesFromCourseCounts(events: seq<Event>, enrollments: seq<Enrollment>, catalog: seq<Course>)
    ensures var r := MetricsOf(events, enrollments, catalog);
      && (RatingPreference(r) == "High Rating" <==>
            |Filter(enrollments, EnrollmentInCourse("1"))| > |Filter(enrollments, EnrollmentInCourse("2"))|)
      && (RatingPreference(r) == "High Rating" <==> PricePreference(r) == "Higher Price")
  {
  }

  /** `Math.max(course1.enrollments, course2.enrollments)` */
  function BestCourseEnrollments(r: Report): (m: nat)
    ensures m >= r.course1.enrollments && m >= r.course2.enrollments
    ensures m == r.course1.enrollments || m == r.course2.enrollments
  {
    if r.course1.enrollments >= r.course2.enrollments then r.course1.enrollments else r.course2.enrollments
  }

  /** `Math.max(A.conversionRate, B.conversionRate).toFixed(1)`, in tenths of a percent, halves rounded up. */
  function BestConversionTenths(r: Report): (t: nat)
    ensures var best := if r.a.conversionRate >= r.b.conversionRate then r.a.conversionRate else r.b.conversionRate;
      10 * t <= best + 5 < 10 * t + 10
  {
    var best := if r.a.conversionRate >= r.b.conversionRate then r.a.conversionRate else r.b.conversionRate;
    (best + 5) / 10
  }

  // ---------------------------------------------------------------------------
  // The bucket lookup as written: `dict[key]` also finds inherited members

  /** Members every object literal inherits from `Object.prototype`; none of them is an array. */
  const PrototypeKeys: set<string> := {
    "constructor", "hasOwnProperty", "isPrototypeOf", "propertyIsEnumerable", "toLocaleString", "toString",
    "valueOf", "__proto__", "__defineGetter__", "__defineSetter__", "__lookupGetter__", "__lookupSetter__"}

  /** What `dict[key]` yields on an object literal with own keys `own`. */
  datatype Lookup = OwnArray | Inherited | Missing

  function LookupAsWritten(key: string, own: set<string>): Lookup {
    if key in own then OwnArray else if key in PrototypeKeys then Inherited else Missing
  }

  const VariantKeys: set<string> := {"A", "B"}
  const CourseKeys: set<string> := {"1", "2"}

  /** The TypeError `.push` throws on an inherited member, abbreviated to "push is not a function". */
  const PushTypeError := "TypeError: push is not a function"

  /**
   * The `events.forEach` as written: `None` when a record's variant or course key
   * is an inherited member, which is truthy, so `.push` is called on it and throws.
   */
  function BucketEventsAsWritten(events: seq<Event>): Option<EventBuckets> {
    if events == [] then Some(EventBuckets([], [], [], []))
    else
      match BucketEventsAsWritten(events[..|events| - 1])
      case None => None
      case Some(bk) =>
        var e := events[|events| - 1];
        var variant, courseId := Key(e.variant), Key(e.courseId);
        var v, c := LookupAsWritten(variant, VariantKeys), LookupAsWritten(courseId, CourseKeys);
        if v == Inherited || c == Inherited then None
        else Some(EventBuckets(
          if v == OwnArray && variant == "A" then bk.a + [e] else bk.a,
          if v == OwnArray && variant == "B" then bk.b + [e] else bk.b,
          if c == OwnArray && courseId == "1" then bk.course1 + [e] else bk.course1,
          if c == OwnArray && courseId == "2" then bk.course2 + [e] else bk.course2))
  }

  /** The `enrollments.forEach` as written, by the same rule. */
  function BucketEnrollmentsAsWritten(enrollments: seq<Enrollment>): Option<EnrollmentBuckets> {
    if enrollments == [] then Some(EnrollmentBuckets([], [], [], []))
    else
      match BucketEnrollmentsAsWritten(enrollments[..|enrollments| - 1])
      case None => None
      case Some(bk) =>
        var n := enrollments[|enrollments| - 1];
        var variant, courseId := Key(n.variant), Key(n.courseId);
        var v, c := LookupAsWritten(variant, VariantKeys), LookupAsWritten(courseId, CourseKeys);
        if v == Inherited || c == Inherited then None
        else Some(EnrollmentBuckets(
          if v == OwnArray && variant == "A" then bk.a + [n] else bk.a,
          if v == OwnArray && variant == "B" then bk.b + [n] else bk.b,
          if c == OwnArray && courseId == "1" then bk.course1 + [n] else bk.course1,
          if c == OwnArray && courseId == "2" then bk.course2 + [n] else bk.course2))
  }

  /** `calculateMetrics` as written: it throws when any record carries an inherited key. */
  function CalculateMetricsAsWritten(events: seq<Event>, enrollments: seq<Enrollment>, catalog: seq<Course>)
    : Result<Report, string>
  {
    match BucketEventsAsWritten(events)
    case None => Failure(PushTypeError)
    case Some(eb) =>
      match BucketEnrollmentsAsWritten(enrollments)
      case None => Failure(PushTypeError)
      case Some(nb) => Success(ReportOf(eb, nb, catalog))
  }

  predicate HitsPrototype(field: string) {
    Key(field) in PrototypeKeys
  }

  /** Neither the variant keys nor the course keys are inherited names, so a lookup is inherited exactly for those names. */
  lemma LookupAsWrittenCases(key: string)
    ensures LookupAsWritten(key, VariantKeys) == Inherited <==> key in PrototypeKeys
    ensures LookupAsWritten(key, CourseKeys) == Inherited <==> key in PrototypeKeys
    ensures LookupAsWritten(key, VariantKeys) == OwnArray <==> key == "A" || key == "B"
    ensures LookupAsWritten(key, CourseKeys) == OwnArray <==> key == "1" || key == "2"
  {
  }

  lemma {:induction false} BucketEventsAsWrittenAgrees(events: seq<Event>)
    ensures BucketEventsAsWritten(events).Some? <==>
      forall i :: 0 <= i < |events| ==> !HitsPrototype(events[i].variant) && !HitsPrototype(events[i].courseId)
    ensures BucketEventsAsWritten(events).Some? ==> BucketEventsAsWritten(events).value == EventBucketsOf(events)
  {
    if events != [] {
      var init, e := events[..|events| - 1], events[|events| - 1];
      assert events == init + [e];
      BucketEventsAsWrittenAgrees(init);
      EventBucketsSnoc(init, e);
      LookupAsWrittenCases(Key(e.variant));
      LookupAsWrittenCases(Key(e.courseId));
    }
  }

  lemma {:induction false} BucketEnrollmentsAsWrittenAgrees(enrollments: seq<Enrollment>)
    ensures BucketEnrollmentsAsWritten(enrollments).Some? <==>
      forall i :: 0 <= i < |enrollments| ==> !HitsPrototype(enrollments[i].variant) && !HitsPrototype(enrollments[i].courseId)
    ensures BucketEnrollmentsAsWritten(enrollments).Some? ==>
      BucketEnrollmentsAsWritten(enrollments).value == EnrollmentBucketsOf(enrollments)
  {
    if enrollments != [] {
      var init, n := enrollments[..|enrollments| - 1], enrollments[|enrollments| - 1];
      assert enrollments == init + [n];
      BucketEnrollmentsAsWrittenAgrees(init);
      EnrollmentBucketsSnoc(init, n);
      LookupAsWrittenCases(Key(n.variant));
      LookupAsWrittenCases(Key(n.courseId));
    }
  }

  /** As written, the aggregation throws exactly when some record has an inherited key, and otherwise agrees with `MetricsOf`. */
  lemma AsWrittenAgreesOffPrototype(events: seq<Event>, enrollments: seq<Enrollment>, catalog: seq<Course>)
    ensures CalculateMetricsAsWritten(events, enrollments, catalog).Success? <==>
      (forall i :: 0 <= i < |events| ==> !HitsPrototype(events[i].variant) && !HitsPrototype(events[i].courseId)) &&
      (forall i :: 0 <= i < |enrollments| ==> !HitsPrototype(enrollments[i].variant) && !HitsPrototype(enrollments[i].courseId))
    ensures CalculateMetricsAsWritten(events, enrollments, catalog).Success? ==>
      CalculateMetricsAsWritten(events, enrollments, catalog).value == MetricsOf(events, enrollments, catalog)
  {
    BucketEventsAsWrittenAgrees(events);
    BucketEnrollmentsAsWrittenAgrees(enrollments);
  }

  /**
   * One event with variant "toString" (accepted by POST /api/events, which only
   * asks for a non-empty variant) makes the dashboard's aggregation throw, while
   * the intended grouping just leaves it out of the variant buckets.
   */
  lemma PrototypeVariantBreaksDashboard(catalog: seq<Course>)
    ensures var e := Event("u1", "toString", "1", "exposure", Null, 0);
      && CalculateMetricsAsWritten([e], [], catalog).Failure?
      && MetricsOf([e], [], catalog).a.exposures == 0
      && MetricsOf([e], [], catalog).b.exposures == 0
      && MetricsOf([e], [], catalog).course1.exposures == 1
  {
    var e := Event("u1", "toString", "1", "exposure", Null, 0);
    assert [] + [e] == [e];
    BucketEventsAsWrittenAgrees([e]);
    assert HitsPrototype(e.variant);
    FilterSnoc([], e, EventInVariant(A));
    FilterSnoc([], e, EventInVariant(B));
    FilterSnoc([], e, EventInCourse("1"));
    FilterSnoc([], e, OfType("exposure"));
  }
}
