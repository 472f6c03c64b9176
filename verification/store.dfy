/** The relational store the route handlers read and write, as one immutable
    value. Each table is a sequence in insertion order; row ids are naturals
    handed out by a single counter, standing in for the database's generated
    identifiers; times are milliseconds since the epoch. */
module Store {
  import opened Wrappers
  import opened Queries

  type Id = nat
  type Instant = int

  /** Lead status. NEW and BOOKED are the values the handlers read and write;
      the schema's other values are carried opaquely. */
  datatype LeadStatus = New | Booked | OtherStatus(name: string)

  datatype BookingStatus = Pending | Confirmed | Cancelled | Rescheduled

  datatype Lead = Lead(
    id: Id,
    firstName: string,
    lastName: string,
    email: string,
    company: Option<string>,
    notes: Option<string>,
    beeId: Option<Id>,
    utmSource: Option<string>,
    utmMedium: Option<string>,
    utmCampaign: Option<string>,
    referrer: Option<string>,
    status: LeadStatus,
    reminderSentAt: Option<Instant>,
    createdAt: Instant)

  datatype Booking = Booking(
    id: Id,
    leadId: Id,
    providerId: Option<string>,
    status: BookingStatus,
    startTime: Option<Instant>,
    endTime: Option<Instant>,
    beeId: Option<Id>)

  /** A product ("Bee"). */
  datatype Bee = Bee(
    id: Id,
    slug: string,
    name: string,
    isActive: bool,
    sortOrder: int,
    updatedAt: Instant)

  datatype Testimonial = Testimonial(
    id: Id,
    beeId: Option<Id>,
    author: string,
    quote: string,
    createdAt: Instant)

  datatype MockLead = MockLead(name: string, company: string, title: string)

  datatype MockAnalytics = MockAnalytics(replies: int, meetings: int, openRate: int, replyRate: int)

  /** The validated content of a sales-outreach ABM page. */
  datatype AbmPageData = AbmPageData(
    linkedinIdentifier: string,
    linkedinUrl: string,
    firstName: string,
    lastName: string,
    title: Option<string>,
    company: string,
    targetMarket: string,
    targetLocation: string,
    mockCompanies: seq<string>,
    mockLeads: seq<MockLead>,
    mockAnalytics: MockAnalytics,
    heroMessage: Option<string>,
    benefitPoints: seq<string>,
    isActive: bool)

  datatype AbmPage = AbmPage(id: Id, data: AbmPageData, createdAt: Instant)

  /** A marina-industry ABM page. */
  datatype MarinaPage = MarinaPage(
    id: Id,
    linkedinIdentifier: string,
    linkedinUrl: string,
    firstName: string,
    lastName: string,
    title: Option<string>,
    company: string,
    heroMessage: Option<string>,
    isActive: bool,
    createdAt: Instant)

  /** One row of the boat-fund ledger; the amount is in pence. */
  datatype Contribution = Contribution(id: Id, amount: int, description: string, createdAt: Instant)

  datatype Store = Store(
    leads: seq<Lead>,
    bookings: seq<Booking>,
    bees: seq<Bee>,
    testimonials: seq<Testimonial>,
    abmPages: seq<AbmPage>,
    marinaPages: seq<MarinaPage>,
    contributions: seq<Contribution>,
    nextId: nat)

  /** What a route handler returns: its reply and the store after the call. */
  datatype Step<+R> = Step(reply: R, st: Store)

  /** Lead and booking ids are distinct and were all handed out before
      `nextId`, so an update addressed by id touches one row. */
  predicate WellFormed(st: Store) {
    && (forall i :: 0 <= i < |st.leads| ==> st.leads[i].id < st.nextId)
    && (forall i, j :: 0 <= i < j < |st.leads| ==> st.leads[i].id != st.leads[j].id)
    && (forall i :: 0 <= i < |st.bookings| ==> st.bookings[i].id < st.nextId)
    && (forall i, j :: 0 <= i < j < |st.bookings| ==> st.bookings[i].id != st.bookings[j].id)
  }

  /** `findFirst({ where: { email }, orderBy: { createdAt: 'desc' } })`: the
      position of the most recently created lead with that email. The
      database leaves equal timestamps unordered; the model resolves a tie
      in favour of the row inserted later. */
  function LatestWithEmail(leads: seq<Lead>, email: string): (r: Option<nat>)
    ensures r.None? <==> forall j :: 0 <= j < |leads| ==> leads[j].email != email
    ensures r.Some? ==> r.value < |leads| && leads[r.value].email == email
    ensures r.Some? ==> forall j :: 0 <= j < |leads| && leads[j].email == email ==>
                          leads[j].createdAt <= leads[r.value].createdAt
    ensures r.Some? ==> forall j :: r.value < j < |leads| && leads[j].email == email ==>
                          leads[j].createdAt < leads[r.value].createdAt
    decreases |leads|
  {
    if |leads| == 0 then None
    else
      var k := |leads| - 1;
      var best := LatestWithEmail(leads[..k], email);
      if leads[k].email == email && (best.None? || leads[best.value].createdAt <= leads[k].createdAt)
      then Some(k)
      else best
  }

  /** `findUnique({ where: { id } })` on leads. */
  function LeadIndex(leads: seq<Lead>, id: Id): (r: Option<nat>)
    ensures r.Some? ==> r.value < |leads| && leads[r.value].id == id
    ensures r.None? <==> forall j :: 0 <= j < |leads| ==> leads[j].id != id
  {
    FirstIndex(leads, (l: Lead) => l.id == id)
  }

  /** `findFirst({ where: { providerId } })` on bookings, in insertion order. */
  function BookingWithProvider(bookings: seq<Booking>, uid: string): (r: Option<nat>)
    ensures r.Some? ==> r.value < |bookings| && bookings[r.value].providerId == Some(uid)
    ensures r.Some? ==> forall j :: 0 <= j < r.value ==> bookings[j].providerId != Some(uid)
    ensures r.None? <==> forall j :: 0 <= j < |bookings| ==> bookings[j].providerId != Some(uid)
  {
    FirstIndex(bookings, (b: Booking) => b.providerId == Some(uid))
  }

  /** `bee.findUnique({ where: { slug } })`. */
  function BeeBySlug(bees: seq<Bee>, slug: string): (r: Option<Bee>)
    ensures r.Some? ==> r.value in bees && r.value.slug == slug
    ensures r.None? <==> forall j :: 0 <= j < |bees| ==> bees[j].slug != slug
  {
    match FirstIndex(bees, (b: Bee) => b.slug == slug)
    case None => None
    case Some(k) => Some(bees[k])
  }

  /** The product a record refers to, if the reference is set and resolves. */
  function BeeById(bees: seq<Bee>, id: Option<Id>): (r: Option<Bee>)
    ensures r.Some? ==> id.Some? && r.value in bees && r.value.id == id.value
    ensures r.None? <==> id.None? || forall j :: 0 <= j < |bees| ==> bees[j].id != id.value
  {
    if id.None? then None
    else match FirstIndex(bees, (b: Bee) => b.id == id.value)
      case None => None
      case Some(k) => Some(bees[k])
  }

  /** Sets the status of the lead at position `i`; nothing else changes. */
  function SetLeadStatus(st: Store, i: nat, status: LeadStatus): (st': Store)
    requires i < |st.leads|
    ensures |st'.leads| == |st.leads|
    ensures st'.leads[i] == st.leads[i].(status := status)
    ensures forall j :: 0 <= j < |st.leads| && j != i ==> st'.leads[j] == st.leads[j]
    ensures st' == st.(leads := st'.leads)
    ensures WellFormed(st) ==> WellFormed(st')
  {
    st.(leads := st.leads[i := st.leads[i].(status := status)])
  }

  /** Appends a booking under a fresh id. */
  function AddBooking(st: Store, b: Booking): (st': Store)
    requires b.id == st.nextId
    ensures st'.bookings == st.bookings + [b]
    ensures st'.nextId == st.nextId + 1
    ensures st' == st.(bookings := st'.bookings, nextId := st'.nextId)
    ensures WellFormed(st) ==> WellFormed(st')
  {
    st.(bookings := st.bookings + [b], nextId := st.nextId + 1)
  }
}
