/**
 * The Express server of the A/B test: the middleware that gives every visitor a
 * `userId` cookie, and the handlers of `/api/variant`, `/api/events` and
 * `/api/enrollments` over the three append-only collections `users`, `events`
 * and `enrollments`. Each handler is one sequential, atomic step; the uuid,
 * the coin `Math.random()` draws and the clock are inputs.
 */
module Server {
  import opened Wrappers
  import opened Seqs

  /** A JSON value from a request body; `Undefined` is a field the body does not carry. */
  datatype Json =
    | Undefined
    | Null
    | Bool(b: bool)
    | Number(n: int)
    | Str(s: string)
    | Array(items: seq<Json>)
    | Object(fields: seq<(string, Json)>)

  /** JavaScript truthiness of a JSON value: objects and arrays are truthy even when empty. */
  predicate Truthy(j: Json) {
    match j
    case Undefined => false
    case Null => false
    case Bool(b) => b
    case Number(n) => n != 0
    case Str(s) => s != ""
    case Array(_) => true
    case Object(_) => true
  }

  /** A string field of the body passes `!field`: it is present and not empty. */
  predicate Given(field: Option<string>) {
    field.Some? && field.value != ""
  }

  /** A document of `users`: the variant a visitor was assigned. */
  datatype User = User(userId: string, variant: string, createdAt: int)

  /** A document of `events`; `ts` is the insertion time in milliseconds. */
  datatype Event = Event(userId: string, variant: string, courseId: string, eventType: string, extra: Json, ts: int)

  /** A document of `enrollments`. */
  datatype Enrollment = Enrollment(userId: string, variant: string, courseId: string, enrolledAt: int)

  function EventTs(e: Event): int { e.ts }

  function EnrolledAt(n: Enrollment): int { n.enrolledAt }

  // ---------------------------------------------------------------------------
  // Identity middleware

  /** The attributes after the `userId=<id>` pair: site-wide, hidden from scripts, one year (60 * 60 * 24 * 365 seconds). */
  const CookieAttributes := " Path=/; HttpOnly; SameSite=Lax; Max-Age=31536000"

  /** `userId=${userId}; Path=/; HttpOnly; SameSite=Lax; Max-Age=31536000` */
  function SetCookieHeader(userId: string): (h: string)
    ensures |h| == 8 + |userId| + |CookieAttributes|
    ensures h[..7] == "userId=" && h[7..7 + |userId|] == userId
    ensures h[7 + |userId|..] == ";" + CookieAttributes
  {
    "userId=" + userId + ";" + CookieAttributes
  }

  /** The leading `name=value` pair of a Set-Cookie header, which is what a browser sends back. */
  function CookiePair(header: string): string {
    if header == [] || header[0] == ';' then [] else [header[0]] + CookiePair(header[1..])
  }

  /** The `userId` a browser sends back after receiving `header`. */
  function ReturnedUserId(header: string): Option<string> {
    var pair := CookiePair(header);
    if |pair| >= 7 && pair[..7] == "userId=" then Some(pair[7..]) else None
  }

  lemma {:induction false} CookiePairStopsAtSemicolon(a: string, b: string)
    requires ';' !in a
    ensures CookiePair(a + ";" + b) == a
  {
    if a != [] {
      assert (a + ";" + b)[1..] == a[1..] + ";" + b;
      CookiePairStopsAtSemicolon(a[1..], b);
    } else {
      assert (a + ";" + b)[0] == ';';
    }
  }

  /** A cookie issued for an id without `;` (every uuid) comes back as that very id. */
  lemma CookieRoundTrip(userId: string)
    requires ';' !in userId
    ensures ReturnedUserId(SetCookieHeader(userId)) == Some(userId)
  {
    var a := "userId=" + userId;
    var b := CookieAttributes;
    assert ';' !in a by {
      assert forall i :: 0 <= i < 7 ==> a[i] != ';';
      assert forall i :: 7 <= i < |a| ==> a[i] == userId[i - 7];
    }
    CookiePairStopsAtSemicolon(a, b);
    assert a[..7] == "userId=";
    assert a[7..] == userId;
  }

  /**
   * The cookie middleware: a `userId` cookie that is present and not empty is
   * used unchanged; otherwise `freshId` (the uuid drawn for this request) is used
   * and a Set-Cookie header is emitted.
   */
  method ResolveIdentity(cookieUserId: Option<string>, freshId: string) returns (userId: string, setCookie: Option<string>)
    ensures Given(cookieUserId) ==> userId == cookieUserId.value && setCookie == None
    ensures !Given(cookieUserId) ==> userId == freshId && setCookie == Some(SetCookieHeader(freshId))
  {
    setCookie := None;
    if cookieUserId.Some? && cookieUserId.value != "" {
      userId := cookieUserId.value;
    } else {
      userId := freshId;
      setCookie := Some(SetCookieHeader(userId));
    }
  }

  /** Two requests in a row: the second carries the cookie set by the first and keeps its identity. */
  method IdentityIsDurable(cookieUserId: Option<string>, freshId1: string, freshId2: string)
    returns (first: string, second: string, secondSetCookie: Option<string>)
    requires freshId1 != "" && ';' !in freshId1
    ensures first == second && secondSetCookie == None
  {
    var setCookie;
    first, setCookie := ResolveIdentity(cookieUserId, freshId1);
    var cookieBack := cookieUserId;
    if setCookie.Some? {
      CookieRoundTrip(freshId1);
      cookieBack := ReturnedUserId(setCookie.value);
    }
    second, secondSetCookie := ResolveIdentity(cookieBack, freshId2);
  }

  // ---------------------------------------------------------------------------
  // Lookups (the `findOne` queries) and the invariants of the collections

  function UserWithId(userId: string): User -> bool {
    (u: User) => u.userId == userId
  }

  function ExposureOf(userId: string, courseId: string): Event -> bool {
    (e: Event) => e.userId == userId && e.courseId == courseId && e.eventType == "exposure"
  }

  function EnrollmentOf(userId: string, courseId: string): Enrollment -> bool {
    (n: Enrollment) => n.userId == userId && n.courseId == courseId
  }

  /** `users.findOne({ userId })` */
  function FindUser(users: seq<User>, userId: string): (r: Option<User>)
    ensures r.None? <==> forall i :: 0 <= i < |users| ==> users[i].userId != userId
    ensures r.Some? ==> r.value in users && r.value.userId == userId
  {
    FindFirst(users, UserWithId(userId))
  }

  /** The draw `Math.random() < 0.5 ? "A" : "B"` for the coin `coin`. */
  function Draw(coin: real): (v: string)
    ensures v == "A" || v == "B"
    ensures v == "A" <==> coin < 0.5
  {
    if coin < 0.5 then "A" else "B"
  }

  /** At most one `users` document per userId. */
  ghost predicate UsersUnique(users: seq<User>) {
    forall i, j :: 0 <= i < j < |users| ==> users[i].userId != users[j].userId
  }

  /** At most one exposure per (userId, courseId); other event types may repeat. */
  ghost predicate ExposuresUnique(events: seq<Event>) {
    forall i, j :: 0 <= i < j < |events| && events[i].eventType == "exposure" && events[j].eventType == "exposure" ==>
      events[i].userId != events[j].userId || events[i].courseId != events[j].courseId
  }

  /** At most one enrollment per (userId, courseId). */
  ghost predicate EnrollmentsUnique(enrollments: seq<Enrollment>) {
    forall i, j :: 0 <= i < j < |enrollments| ==>
      enrollments[i].userId != enrollments[j].userId || enrollments[i].courseId != enrollments[j].courseId
  }

  lemma AtMostOneUser(users: seq<User>, userId: string)
    requires UsersUnique(users)
    ensures |Filter(users, UserWithId(userId))| <= 1
  {
    AtMostOneMatch(users, UserWithId(userId));
  }

  lemma AtMostOneExposure(events: seq<Event>, userId: string, courseId: string)
    requires ExposuresUnique(events)
    ensures |Filter(events, ExposureOf(userId, courseId))| <= 1
  {
    AtMostOneMatch(events, ExposureOf(userId, courseId));
  }

  lemma AtMostOneEnrollment(enrollments: seq<Enrollment>, userId: string, courseId: string)
    requires EnrollmentsUnique(enrollments)
    ensures |Filter(enrollments, EnrollmentOf(userId, courseId))| <= 1
  {
    AtMostOneMatch(enrollments, EnrollmentOf(userId, courseId));
  }

  /** Appending to `users` never changes the variant found for an id that already has one. */
  lemma AssignmentNeverChanges(users: seq<User>, later: seq<User>, userId: string)
    requires FindUser(users, userId).Some?
    ensures FindUser(users + later, userId) == FindUser(users, userId)
  {
    FindFirstAppend(users, later, UserWithId(userId));
  }

  // ---------------------------------------------------------------------------
  // Replies

  /** `{ userId, variant }` */
  datatype VariantReply = VariantReply(userId: string, variant: string)

  /** `{ ok: true }`, `{ ok: true, skipped: true }`, or status 400 with `{ error }`. */
  datatype EventReply = EventOk(skipped: bool) | EventBadRequest(error: string) {
    function Status(): int { if EventBadRequest? then 400 else 200 }
  }

  /** `{ ok: true, message }`, or status 400 with `{ error }`. */
  datatype EnrollmentReply = EnrollmentOk(message: string) | EnrollmentBadRequest(error: string) {
    function Status(): int { if EnrollmentBadRequest? then 400 else 200 }
  }

  const EventFieldsRequired := "variant, courseId and type are required"
  const EnrollmentFieldsRequired := "variant and courseId are required"
  const AlreadyEnrolled := "Already enrolled"
  const EnrollmentRecorded := "Enrollment recorded"

  /** The stored form of `extra`: `extra || null`. */
  function StoredExtra(extra: Json): (r: Json)
    ensures r != Undefined
    ensures Truthy(r) == Truthy(extra)
    ensures Truthy(extra) ==> r == extra
    ensures !Truthy(extra) ==> r == Null
  {
    if Truthy(extra) then extra else Null
  }

  // ---------------------------------------------------------------------------
  // The store and its handlers

  class Store {
    var users: seq<User>
    var events: seq<Event>
    var enrollments: seq<Enrollment>

    /** The invariants the handlers keep when requests are served one at a time. */
    ghost predicate Valid()
      reads this
    {
      UsersUnique(users) && ExposuresUnique(events) && EnrollmentsUnique(enrollments)
    }

    constructor ()
      ensures Valid()
      ensures users == [] && events == [] && enrollments == []
    {
      users, events, enrollments := [], [], [];
    }

    /**
     * POST /api/variant: the stored variant of `userId`, or on first contact a
     * new `users` document with the variant drawn from `coin`, created at `now`.
     */
    method AssignVariant(userId: string, coin: real, now: int) returns (reply: VariantReply)
      modifies this
      ensures reply.userId == userId
      ensures events == old(events) && enrollments == old(enrollments)
      ensures FindUser(old(users), userId).Some? ==>
        users == old(users) && reply.variant == FindUser(old(users), userId).value.variant
      ensures FindUser(old(users), userId).None? ==>
        users == old(users) + [User(userId, Draw(coin), now)] && reply.variant == Draw(coin)
      ensures old(Valid()) ==> Valid()
    {
      var user := FindUser(users, userId);
      if user.None? {
        var created := User(userId, Draw(coin), now);
        users := users + [created];
        user := Some(created);
      }
      reply := VariantReply(userId, user.value.variant);
    }

    /**
     * POST /api/events: rejects a body without variant, courseId or type;
     * skips an exposure that (userId, courseId) already has, whatever its
     * variant; otherwise appends one event stamped `now`.
     */
    method RecordEvent(userId: string, variant: Option<string>, courseId: Option<string>,
                       eventType: Option<string>, extra: Json, now: int) returns (reply: EventReply)
      modifies this
      ensures users == old(users) && enrollments == old(enrollments)
      ensures reply.Status() == 400 <==> !(Given(variant) && Given(courseId) && Given(eventType))
      ensures !(Given(variant) && Given(courseId) && Given(eventType)) ==>
        reply == EventBadRequest(EventFieldsRequired) && events == old(events)
      ensures Given(variant) && Given(courseId) && Given(eventType) && eventType.value == "exposure"
              && FindFirst(old(events), ExposureOf(userId, courseId.value)).Some? ==>
        reply == EventOk(true) && events == old(events)
      ensures Given(variant) && Given(courseId) && Given(eventType)
              && (eventType.value != "exposure" || FindFirst(old(events), ExposureOf(userId, courseId.value)).None?) ==>
        reply == EventOk(false) &&
        events == old(events) + [Event(userId, variant.value, courseId.value, eventType.value, StoredExtra(extra), now)]
      ensures old(Valid()) ==> Valid()
    {
      if !Given(variant) || !Given(courseId) || !Given(eventType) {
        return EventBadRequest(EventFieldsRequired);
      }
      if eventType.value == "exposure" {
        var found := FindFirst(events, ExposureOf(userId, courseId.value));
        if found.Some? {
          return EventOk(true);
        }
      }
      events := events + [Event(userId, variant.value, courseId.value, eventType.value, StoredExtra(extra), now)];
      reply := EventOk(false);
    }

    /**
     * POST /api/enrollments: rejects a body without variant or courseId;
     * answers "Already enrolled" when (userId, courseId) has an enrollment,
     * whatever its variant; otherwise appends one enrollment stamped `now`.
     */
    method RecordEnrollment(userId: string, variant: Option<string>, courseId: Option<string>, now: int)
      returns (reply: EnrollmentReply)
      modifies this
      ensures users == old(users) && events == old(events)
      ensures reply.Status() == 400 <==> !(Given(variant) && Given(courseId))
      ensures !(Given(variant) && Given(courseId)) ==>
        reply == EnrollmentBadRequest(EnrollmentFieldsRequired) && enrollments == old(enrollments)
      ensures Given(variant) && Given(courseId) && FindFirst(old(enrollments), EnrollmentOf(userId, courseId.value)).Some? ==>
        reply == EnrollmentOk(AlreadyEnrolled) && enrollments == old(enrollments)
      ensures Given(variant) && Given(courseId) && FindFirst(old(enrollments), EnrollmentOf(userId, courseId.value)).None? ==>
        reply == EnrollmentOk(EnrollmentRecorded) &&
        enrollments == old(enrollments) + [Enrollment(userId, variant.value, courseId.value, now)]
      ensures old(Valid()) ==> Valid()
    {
      if !Given(variant) || !Given(courseId) {
        return EnrollmentBadRequest(EnrollmentFieldsRequired);
      }
      var existing := FindFirst(enrollments, EnrollmentOf(userId, courseId.value));
      if existing.Some? {
        return EnrollmentOk(AlreadyEnrolled);
      }
      enrollments := enrollments + [Enrollment(userId, variant.value, courseId.value, now)];
      reply := EnrollmentOk(EnrollmentRecorded);
    }

    /** GET /api/events: every stored event, oldest `ts` first. */
    method ReadEvents() returns (all: seq<Event>)
      ensures multiset(all) == multiset(events)
      ensures SortedBy(all, EventTs)
    {
      all := SortBy(events, EventTs);
    }

    /** GET /api/enrollments: every stored enrollment, oldest `enrolledAt` first. */
    method ReadEnrollments() returns (all: seq<Enrollment>)
      ensures multiset(all) == multiset(enrollments)
      ensures SortedBy(all, EnrolledAt)
    {
      all := SortBy(enrollments, EnrolledAt);
    }
  }

  // ---------------------------------------------------------------------------
  // Callers: what two requests in a row can rely on

  /** Asking twice for a variant gives the same answer, and only the first call may write. */
  method AssignTwice(store: Store, userId: string, coin1: real, coin2: real, now1: int, now2: int)
    returns (first: VariantReply, second: VariantReply)
    modifies store
    ensures first.variant == second.variant
    ensures |store.users| <= |old(store.users)| + 1
    ensures FindUser(old(store.users), userId).Some? ==> store.users == old(store.users)
  {
    first := store.AssignVariant(userId, coin1, now1);
    ghost var afterFirst := store.users;
    assert FindUser(afterFirst, userId).Some? by {
      if FindUser(old(store.users), userId).Some? {
        assert afterFirst == old(store.users);
      } else {
        assert afterFirst[|afterFirst| - 1] == User(userId, Draw(coin1), now1);
      }
    }
    second := store.AssignVariant(userId, coin2, now2);
  }

  /** Two identical exposures: the second is skipped and the store holds one exposure for the pair. */
  method ExposeTwice(store: Store, userId: string, variant: string, courseId: string, now1: int, now2: int)
    returns (first: EventReply, second: EventReply)
    requires variant != "" && courseId != ""
    requires store.Valid()
    modifies store
    ensures second == EventOk(true)
    ensures store.Valid()
    ensures |Filter(store.events, ExposureOf(userId, courseId))| == 1
  {
    first := store.RecordEvent(userId, Some(variant), Some(courseId), Some("exposure"), Undefined, now1);
    assert FindFirst(store.events, ExposureOf(userId, courseId)).Some? by {
      if FindFirst(old(store.events), ExposureOf(userId, courseId)).None? {
        assert ExposureOf(userId, courseId)(store.events[|store.events| - 1]);
      }
    }
    second := store.RecordEvent(userId, Some(variant), Some(courseId), Some("exposure"), Undefined, now2);
    AtMostOneExposure(store.events, userId, courseId);
    var x := FindFirst(store.events, ExposureOf(userId, courseId)).value;
    FilterMembership(store.events, ExposureOf(userId, courseId), x);
  }

  /** Two identical enrollments: the second answers "Already enrolled" and the store holds one record for the pair. */
  method EnrollTwice(store: Store, userId: string, variant: string, courseId: string, now1: int, now2: int)
    returns (first: EnrollmentReply, second: EnrollmentReply)
    requires variant != "" && courseId != ""
    requires store.Valid()
    modifies store
    ensures second == EnrollmentOk(AlreadyEnrolled)
    ensures store.Valid()
    ensures |Filter(store.enrollments, EnrollmentOf(userId, courseId))| == 1
  {
    first := store.RecordEnrollment(userId, Some(variant), Some(courseId), now1);
    assert FindFirst(store.enrollments, EnrollmentOf(userId, courseId)).Some? by {
      if FindFirst(old(store.enrollments), EnrollmentOf(userId, courseId)).None? {
        assert EnrollmentOf(userId, courseId)(store.enrollments[|store.enrollments| - 1]);
      }
    }
    second := store.RecordEnrollment(userId, Some(variant), Some(courseId), now2);
    AtMostOneEnrollment(store.enrollments, userId, courseId);
    var x := FindFirst(store.enrollments, EnrollmentOf(userId, courseId)).value;
    FilterMembership(store.enrollments, EnrollmentOf(userId, courseId), x);
  }
}
