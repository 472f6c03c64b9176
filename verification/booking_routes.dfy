/** The two booking-creation endpoints outside the webhook: the direct one,
    which records a PENDING booking for a known lead id, and the manual one,
    which books the most recent lead with an email. */
module BookingRoutes {
  import opened Wrappers
  import opened Text
  import opened Store
  import CalWebhook

  /** The direct booking request; a missing field is `None`. */
  datatype BookingForm = BookingForm(
    leadId: Option<Id>,
    providerId: Option<string>,
    startTime: Option<string>,
    endTime: Option<string>,
    beeSlug: Option<string>)

  datatype Issue = Issue(path: string, message: string)

  datatype Reply = BookingCreated(booking: Booking) | ValidationError(issues: seq<Issue>) | CreateFailed {
    function Code(): int {
      match this
      case BookingCreated(_) => 200
      case ValidationError(_) => 400
      case CreateFailed => 500
    }
  }

  /** An optional datetime field: absent, or a string the validator
      `isDatetime` accepts. */
  function DatetimeIssues(path: string, value: Option<string>, isDatetime: string -> bool): (r: seq<Issue>)
    ensures r == [] <==> value.None? || isDatetime(value.value)
    ensures |r| <= 1 && forall k :: 0 <= k < |r| ==> r[k].path == path
  {
    if value.Some? && !isDatetime(value.value) then [Issue(path, "Invalid datetime")] else []
  }

  /** The schema: a lead id is required, the times must be datetimes when
      given, and the provider id and slug are free. */
  function Validate(f: BookingForm, isDatetime: string -> bool): (issues: seq<Issue>)
    ensures issues == [] <==>
              && f.leadId.Some?
              && (f.startTime.None? || isDatetime(f.startTime.value))
              && (f.endTime.None? || isDatetime(f.endTime.value))
    ensures forall k :: 0 <= k < |issues| ==> issues[k].path in {"leadId", "startTime", "endTime"}
  {
    (if f.leadId.None? then [Issue("leadId", "Required")] else [])
    + DatetimeIssues("startTime", f.startTime, isDatetime)
    + DatetimeIssues("endTime", f.endTime, isDatetime)
  }

  /** `POST /api/booking`. `instant` converts an accepted datetime string.
      A lead id that names no lead makes the insert fail on the booking's
      reference to its lead, and nothing is written. */
  function CreateBooking(st: Store, f: BookingForm, isDatetime: string -> bool,
                         instant: string -> Instant): (r: Step<Reply>)
    ensures r.reply.ValidationError? <==> Validate(f, isDatetime) != []
    ensures r.reply.ValidationError? ==> r.reply.issues == Validate(f, isDatetime)
    ensures !r.reply.BookingCreated? ==> r.st == st
    ensures r.reply.CreateFailed? <==>
              Validate(f, isDatetime) == [] && LeadIndex(st.leads, f.leadId.value).None?
    ensures r.reply.BookingCreated? ==>
      var i := LeadIndex(st.leads, f.leadId.value).value;
      var b := r.reply.booking;
      // exactly one PENDING booking is appended, with no duplicate check on the provider id
      && r.st.bookings == st.bookings + [b]
      && r.st.nextId == st.nextId + 1
      && b.id == st.nextId
      && b.leadId == f.leadId.value
      && b.status == Pending
      && b.providerId == f.providerId
      && b.startTime == (if f.startTime.Some? then Some(instant(f.startTime.value)) else None)
      && b.endTime == (if f.endTime.Some? then Some(instant(f.endTime.value)) else None)
      // an unknown slug leaves the booking without a product rather than failing
      && (b.beeId.Some? <==> Filled(f.beeSlug) && BeeBySlug(st.bees, f.beeSlug.value).Some?)
      && (b.beeId.Some? ==> b.beeId.value == BeeBySlug(st.bees, f.beeSlug.value).value.id)
      // the referenced lead becomes BOOKED, and no other lead changes
      && |r.st.leads| == |st.leads|
      && r.st.leads[i] == st.leads[i].(status := Booked)
      && (forall j :: 0 <= j < |st.leads| && j != i ==> r.st.leads[j] == st.leads[j])
      && r.st == st.(leads := r.st.leads, bookings := r.st.bookings, nextId := r.st.nextId)
    ensures WellFormed(st) ==> WellFormed(r.st)
  {
    var issues := Validate(f, isDatetime);
    if issues != [] then Step(ValidationError(issues), st)
    else
      match LeadIndex(st.leads, f.leadId.value)
      case None => Step(CreateFailed, st)
      case Some(i) =>
        var bee := if Filled(f.beeSlug) then BeeBySlug(st.bees, f.beeSlug.value) else None;
        var b := Booking(
          id := st.nextId,
          leadId := f.leadId.value,
          providerId := f.providerId,
          status := Pending,
          startTime := if f.startTime.Some? then Some(instant(f.startTime.value)) else None,
          endTime := if f.endTime.Some? then Some(instant(f.endTime.value)) else None,
          beeId := if bee.Some? then Some(bee.value.id) else None);
        Step(BookingCreated(b), SetLeadStatus(AddBooking(st, b), i, Booked))
  }

  /** Unlike the webhook, the direct route adds a booking even when one with
      the same provider id already exists. */
  lemma DirectRouteDuplicatesProviderId(st: Store, f: BookingForm, isDatetime: string -> bool,
                                        instant: string -> Instant)
    requires f.providerId.Some?
    requires CreateBooking(st, f, isDatetime, instant).reply.BookingCreated?
    ensures CalWebhook.BookingsWithProvider(CreateBooking(st, f, isDatetime, instant).st.bookings, f.providerId.value)
            == CalWebhook.BookingsWithProvider(st.bookings, f.providerId.value) + 1
  {
    var r := CreateBooking(st, f, isDatetime, instant);
    CalWebhook.BookingsWithProviderAppend(st.bookings, r.reply.booking, f.providerId.value);
  }

  /** One day in milliseconds: the manual booking starts a day from now. */
  const DAY_MS: nat := 24 * 60 * 60 * 1000

  datatype ManualReply =
    | ManualBooked(bookingId: Id, leadId: Id, leadName: string, beeName: string,
                   status: BookingStatus, startTime: Instant)
    | EmailRequired
    | NoLeadWithEmail
  {
    function Code(): int {
      match this
      case ManualBooked(_, _, _, _, _, _) => 200
      case EmailRequired => 400
      case NoLeadWithEmail => 404
    }
  }

  /** The synthesised provider id of a manual booking: "manual_" followed by
      the decimal digits of the current instant. */
  function ManualProviderId(now: nat): (r: string)
    ensures StartsWith(r, "manual_")
    ensures |r| > |"manual_"|
    ensures forall i :: |"manual_"| <= i < |r| ==> IsDigit(r[i])
    ensures DecimalValue(r[|"manual_"|..]) == now
  {
    assert ("manual_" + NatToDecimal(now))[|"manual_"|..] == NatToDecimal(now);
    "manual_" + NatToDecimal(now)
  }

  /** Manual bookings made at different instants get different provider ids. */
  lemma ManualProviderIdsDistinct(now: nat, later: nat)
    requires now != later
    ensures ManualProviderId(now) != ManualProviderId(later)
  {
    assert ManualProviderId(now)[|"manual_"|..] != ManualProviderId(later)[|"manual_"|..];
  }

  /** The name of the lead's product as the reply shows it: "None" when the
      lead has no product or its name is empty. */
  function BeeName(bees: seq<Bee>, l: Lead): (r: string)
    ensures r != ""
    ensures r != "None" ==> l.beeId.Some? && exists j :: 0 <= j < |bees| && bees[j].id == l.beeId.value && bees[j].name == r
    ensures l.beeId.None? ==> r == "None"
    ensures var b := BeeById(bees, l.beeId); b.Some? && b.value.name != "" ==> r == b.value.name
    ensures BeeById(bees, l.beeId).None? ==> r == "None"
  {
    var bee := BeeById(bees, l.beeId);
    if bee.Some? && bee.value.name != "" then bee.value.name else "None"
  }

  /** `POST /api/manual-booking`. */
  function CreateManualBooking(st: Store, email: Option<string>, now: nat): (r: Step<ManualReply>)
    ensures !Filled(email) <==> r.reply == EmailRequired
    ensures Filled(email) && LatestWithEmail(st.leads, email.value).None? <==> r.reply == NoLeadWithEmail
    ensures !r.reply.ManualBooked? ==> r.st == st
    ensures r.reply.ManualBooked? ==>
      var i := LatestWithEmail(st.leads, email.value).value;
      var l := st.leads[i];
      // the most recent lead with that email gets one CONFIRMED booking, a day from now
      && r.st.nextId == st.nextId + 1
      && |r.st.bookings| == |st.bookings| + 1
      && r.st.bookings[..|st.bookings|] == st.bookings
      && r.st.bookings[|st.bookings|]
         == Booking(st.nextId, l.id, Some(ManualProviderId(now)), Confirmed, Some(now + DAY_MS), None, l.beeId)
      && r.reply == ManualBooked(st.nextId, l.id, l.firstName + " " + l.lastName, BeeName(st.bees, l),
                                 Confirmed, now + DAY_MS)
      // that lead becomes BOOKED, and no other lead changes
      && |r.st.leads| == |st.leads|
      && r.st.leads[i] == l.(status := Booked)
      && (forall j :: 0 <= j < |st.leads| && j != i ==> r.st.leads[j] == st.leads[j])
      && r.st == st.(leads := r.st.leads, bookings := r.st.bookings, nextId := r.st.nextId)
    ensures WellFormed(st) ==> WellFormed(r.st)
  {
    if !Filled(email) then Step(EmailRequired, st)
    else
      match LatestWithEmail(st.leads, email.value)
      case None => Step(NoLeadWithEmail, st)
      case Some(i) =>
        var l := st.leads[i];
        var b := Booking(
          id := st.nextId,
          leadId := l.id,
          providerId := Some(ManualProviderId(now)),
          status := Confirmed,
          startTime := Some(now + DAY_MS),
          endTime := None,
          beeId := l.beeId);
        Step(ManualBooked(b.id, l.id, l.firstName + " " + l.lastName, BeeName(st.bees, l), b.status, now + DAY_MS),
             SetLeadStatus(AddBooking(st, b), i, Booked))
  }
}
