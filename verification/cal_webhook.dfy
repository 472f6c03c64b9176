/** The calendar-provider webhook: a booking state machine keyed by the
    provider's booking uid, with a fallback that books the most recent lead
    whose email is the first attendee's. */
module CalWebhook {
  import opened Wrappers
  import opened Text
  import opened Store

  const BOOKING_CREATED := "BOOKING_CREATED"
  const BOOKING_CANCELLED := "BOOKING_CANCELLED"
  const BOOKING_RESCHEDULED := "BOOKING_RESCHEDULED"

  datatype Attendee = Attendee(email: Option<string>)

  /** The fields of the provider's payload the handler reads. A start or end
      time that is absent or empty is `None`. */
  datatype Payload = Payload(
    uid: Option<string>,
    attendees: seq<Attendee>,
    startTime: Option<Instant>,
    endTime: Option<Instant>)

  datatype Event = Event(triggerEvent: string, payload: Option<Payload>)

  datatype Reply = Received | InvalidPayload {
    function Code(): int {
      if Received? then 200 else 400
    }
  }

  /** `payload?.uid` is truthy. */
  predicate HasUid(e: Event) {
    e.payload.Some? && Filled(e.payload.value.uid)
  }

  function Uid(e: Event): string
    requires HasUid(e)
  {
    e.payload.value.uid.value
  }

  /** `payload.attendees?.[0]?.email`, when truthy. Only the first attendee
      is consulted. */
  function FirstAttendeeEmail(p: Payload): (r: Option<string>)
    ensures r.Some? ==> |p.attendees| > 0 && r == p.attendees[0].email && r.value != ""
    ensures r.None? ==> |p.attendees| == 0 || !Filled(p.attendees[0].email)
  {
    if |p.attendees| > 0 && Filled(p.attendees[0].email) then p.attendees[0].email else None
  }

  /** A time column under an update whose value is `undefined` when not
      supplied: the column keeps its value unless a new one is given. */
  function Overwrite(current: Option<Instant>, supplied: Option<Instant>): (r: Option<Instant>)
    ensures supplied.Some? ==> r == supplied
    ensures supplied.None? ==> r == current
  {
    if supplied.Some? then supplied else current
  }

  /** The update the `switch` over the trigger applies to a matched booking. */
  function ApplyEvent(b: Booking, trigger: string, p: Payload): (b': Booking)
    ensures b'.id == b.id && b'.leadId == b.leadId && b'.providerId == b.providerId && b'.beeId == b.beeId
    ensures trigger == BOOKING_CREATED ==>
      b'.status == Confirmed && b'.startTime == Overwrite(b.startTime, p.startTime)
      && b'.endTime == Overwrite(b.endTime, p.endTime)
    ensures trigger == BOOKING_CANCELLED ==>
      b'.status == Cancelled && b'.startTime == b.startTime && b'.endTime == b.endTime
    ensures trigger == BOOKING_RESCHEDULED ==>
      b'.status == Rescheduled && b'.startTime == Overwrite(b.startTime, p.startTime)
      && b'.endTime == Overwrite(b.endTime, p.endTime)
    ensures trigger !in {BOOKING_CREATED, BOOKING_CANCELLED, BOOKING_RESCHEDULED} ==> b' == b
  {
    if trigger == BOOKING_CREATED then
      b.(status := Confirmed, startTime := Overwrite(b.startTime, p.startTime),
         endTime := Overwrite(b.endTime, p.endTime))
    else if trigger == BOOKING_CANCELLED then
      b.(status := Cancelled)
    else if trigger == BOOKING_RESCHEDULED then
      b.(status := Rescheduled, startTime := Overwrite(b.startTime, p.startTime),
         endTime := Overwrite(b.endTime, p.endTime))
    else b
  }

  /** The lead the fallback books: the most recent lead whose email is the
      first attendee's, if there is one. */
  function FallbackLead(st: Store, p: Payload): (r: Option<nat>)
    ensures r.Some? ==> r.value < |st.leads| && FirstAttendeeEmail(p).Some?
                        && st.leads[r.value].email == FirstAttendeeEmail(p).value
    ensures r.None? <==> FirstAttendeeEmail(p).None? ||
                         forall j :: 0 <= j < |st.leads| ==> st.leads[j].email != FirstAttendeeEmail(p).value
  {
    match FirstAttendeeEmail(p)
    case None => None
    case Some(email) => LatestWithEmail(st.leads, email)
  }

  /** `POST /api/webhooks/cal`. The code has no short-circuit for a PING
      event: every event without a uid is rejected. */
  function Handle(st: Store, e: Event): (r: Step<Reply>)
    // a missing uid is rejected, whatever the trigger, and changes nothing
    ensures r.reply == InvalidPayload <==> !HasUid(e)
    ensures !HasUid(e) ==> r.st == st
    // only the lead and booking tables (and the id counter) can change
    ensures r.st == st.(leads := r.st.leads, bookings := r.st.bookings, nextId := r.st.nextId)
    ensures WellFormed(st) ==> WellFormed(r.st)
    // a matched booking gets the trigger's update; no lead and no other booking changes
    ensures HasUid(e) && BookingWithProvider(st.bookings, Uid(e)).Some? ==>
      var k := BookingWithProvider(st.bookings, Uid(e)).value;
      && r.st.leads == st.leads
      && r.st.nextId == st.nextId
      && |r.st.bookings| == |st.bookings|
      && r.st.bookings[k] == ApplyEvent(st.bookings[k], e.triggerEvent, e.payload.value)
      && (forall j :: 0 <= j < |st.bookings| && j != k ==> r.st.bookings[j] == st.bookings[j])
    // unmatched, with no attendee email or no lead for it: nothing changes
    ensures (HasUid(e) && BookingWithProvider(st.bookings, Uid(e)).None?
             && FallbackLead(st, e.payload.value).None?) ==> r.st == st
    // unmatched with a lead: exactly one booking is appended for that lead, and it becomes BOOKED
    ensures (HasUid(e) && BookingWithProvider(st.bookings, Uid(e)).None?
             && FallbackLead(st, e.payload.value).Some?) ==>
      var i := FallbackLead(st, e.payload.value).value;
      && |r.st.bookings| == |st.bookings| + 1
      && r.st.bookings[..|st.bookings|] == st.bookings
      && var b := r.st.bookings[|st.bookings|];
      && b.id == st.nextId
      && b.leadId == st.leads[i].id
      && b.providerId == Some(Uid(e))
      && (b.status == Confirmed <==> e.triggerEvent == BOOKING_CREATED)
      && (b.status != Confirmed ==> b.status == Pending)
      && b.startTime == e.payload.value.startTime
      && b.endTime == e.payload.value.endTime
      && b.beeId == None
      && |r.st.leads| == |st.leads|
      && r.st.leads[i].status == Booked
      && r.st.leads[i] == st.leads[i].(status := Booked)
      && (forall j :: 0 <= j < |st.leads| && j != i ==> r.st.leads[j] == st.leads[j])
  {
    if !HasUid(e) then Step(InvalidPayload, st)
    else
      var p := e.payload.value;
      var uid := p.uid.value;
      match BookingWithProvider(st.bookings, uid)
      case Some(k) =>
        Step(Received, st.(bookings := st.bookings[k := ApplyEvent(st.bookings[k], e.triggerEvent, p)]))
      case None =>
        match FallbackLead(st, p)
        case None => Step(Received, st)
        case Some(i) =>
          var b := Booking(
            id := st.nextId,
            leadId := st.leads[i].id,
            providerId := Some(uid),
            status := if e.triggerEvent == BOOKING_CREATED then Confirmed else Pending,
            startTime := p.startTime,
            endTime := p.endTime,
            beeId := None);
          Step(Received, SetLeadStatus(AddBooking(st, b), i, Booked))
  }

  /** The rows whose provider id is `uid`. */
  function BookingsWithProvider(bookings: seq<Booking>, uid: string): (r: nat)
    ensures r <= |bookings|
    ensures r == 0 <==> BookingWithProvider(bookings, uid).None?
  {
    if |bookings| == 0 then 0
    else
      (if bookings[0].providerId == Some(uid) then 1 else 0) + BookingsWithProvider(bookings[1..], uid)
  }

  lemma {:induction false} BookingsWithProviderAppend(bookings: seq<Booking>, b: Booking, uid: string)
    ensures BookingsWithProvider(bookings + [b], uid)
            == BookingsWithProvider(bookings, uid) + (if b.providerId == Some(uid) then 1 else 0)
  {
    if |bookings| == 0 {
      assert bookings + [b] == [b];
    } else {
      assert (bookings + [b])[1..] == bookings[1..] + [b];
      BookingsWithProviderAppend(bookings[1..], b, uid);
    }
  }

  lemma {:induction false} BookingsWithProviderUpdate(bookings: seq<Booking>, k: nat, b: Booking, uid: string)
    requires k < |bookings| && b.providerId == bookings[k].providerId
    ensures BookingsWithProvider(bookings[k := b], uid) == BookingsWithProvider(bookings, uid)
  {
    if k > 0 {
      assert bookings[k := b][1..] == bookings[1..][k - 1 := b];
      BookingsWithProviderUpdate(bookings[1..], k - 1, b, uid);
    }
  }

  /** A delivery never leaves more than one booking with the event's uid
      when there was at most one before, and a replay of the same event adds
      no booking at all. */
  lemma DeliveryKeepsProviderIdUnique(st: Store, e: Event)
    requires HasUid(e)
    requires BookingsWithProvider(st.bookings, Uid(e)) <= 1
    ensures BookingsWithProvider(Handle(st, e).st.bookings, Uid(e)) == 1 ||
            Handle(st, e).st == st
  {
    var uid := Uid(e);
    var p := e.payload.value;
    match BookingWithProvider(st.bookings, uid)
    case Some(k) =>
      BookingsWithProviderUpdate(st.bookings, k, ApplyEvent(st.bookings[k], e.triggerEvent, p), uid);
    case None =>
      if FallbackLead(st, p).Some? {
        var r := Handle(st, e).st;
        assert r.bookings == st.bookings + [r.bookings[|st.bookings|]];
        BookingsWithProviderAppend(st.bookings, r.bookings[|st.bookings|], uid);
      }
  }

  /** Replaying an event creates no second booking with its provider id and
      touches no lead: the second delivery finds the booking the first one
      matched or created. */
  lemma ReplayAddsNoBooking(st: Store, e: Event)
    ensures var once := Handle(st, e).st;
            var twice := Handle(once, e).st;
            && |twice.bookings| == |once.bookings|
            && twice.leads == once.leads
            && twice.nextId == once.nextId
  {
    var once := Handle(st, e).st;
    if HasUid(e) && BookingWithProvider(st.bookings, Uid(e)).None? && FallbackLead(st, e.payload.value).Some? {
      var n := |st.bookings|;
      assert once.bookings[n].providerId == Some(Uid(e));
      assert BookingWithProvider(once.bookings, Uid(e)).Some?;
    }
  }

  /** A replay leaves the store exactly as the first delivery did, except
      after an unmatched cancellation or reschedule: the fallback then
      creates a PENDING booking, and only the replay moves it to CANCELLED or
      RESCHEDULED. */
  lemma ReplayIsIdempotent(st: Store, e: Event)
    requires !HasUid(e)
             || BookingWithProvider(st.bookings, Uid(e)).Some?
             || e.triggerEvent !in {BOOKING_CANCELLED, BOOKING_RESCHEDULED}
    ensures Handle(Handle(st, e).st, e) == Handle(st, e)
  {
    var once := Handle(st, e).st;
    if HasUid(e) {
      var p := e.payload.value;
      match BookingWithProvider(st.bookings, Uid(e))
      case Some(k) =>
        assert BookingWithProvider(once.bookings, Uid(e)) == Some(k) by {
          assert forall j :: 0 <= j < |st.bookings| ==> once.bookings[j].providerId == st.bookings[j].providerId;
        }
        assert once.bookings[k := ApplyEvent(once.bookings[k], e.triggerEvent, p)] == once.bookings;
      case None =>
        if FallbackLead(st, p).Some? {
          var n := |st.bookings|;
          assert BookingWithProvider(once.bookings, Uid(e)) == Some(n) by {
            assert once.bookings[..n] == st.bookings;
            assert forall j :: 0 <= j < n ==> once.bookings[j] == st.bookings[j];
          }
          assert once.bookings[n := ApplyEvent(once.bookings[n], e.triggerEvent, p)] == once.bookings;
        }
    }
  }

  /** The exception above, on a concrete store: an unmatched cancellation
      for a known attendee books the lead with a PENDING booking, and its
      replay cancels that booking. */
  lemma UnmatchedCancellationReplayDiffers()
    ensures var lead := Lead(0, "Jo", "Lee", "jo@x.com", None, None, None, None, None, None, None,
                             New, None, 0);
            var st := Store([lead], [], [], [], [], [], [], 1);
            var e := Event(BOOKING_CANCELLED, Some(Payload(Some("u1"), [Attendee(Some("jo@x.com"))], None, None)));
            && Handle(st, e).st.bookings[0].status == Pending
            && Handle(Handle(st, e).st, e).st.bookings[0].status == Cancelled
  {
  }
}
