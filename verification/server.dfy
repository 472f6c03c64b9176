/** The server as a whole: the requests that write to the store, applied one
    after another. It states what holds of every store the server can reach,
    whatever the requests in between: leads are only ever appended, each
    keeps its id and creation instant, and a reminder stamp once set is never
    cleared or changed. */
module Server {
  import opened Wrappers
  import opened Store
  import CalWebhook
  import LeadIntake
  import BookingRoutes
  import Reminders
  import AbmPages
  import AbmMarinas
  import BoatFund

  /** A request to one of the writing routes, with its oracles. */
  datatype Request =
    | CalEvent(event: CalWebhook.Event)
    | PostLead(leadForm: LeadIntake.LeadForm, isEmail: string -> bool, notified: bool)
    | PostBooking(bookingForm: BookingRoutes.BookingForm, isDatetime: string -> bool,
                  instant: string -> Instant)
    | PostManualBooking(email: Option<string>)
    | ReminderJob(cfg: Reminders.JobConfig, authorization: Option<string>, send: Lead -> bool)
    | PostTestReminder(email: Option<string>, send: Lead -> bool)
    | PostAbmPage(body: AbmPages.Body, isUrl: string -> bool)
    | PostMarinaPage(marinaForm: AbmMarinas.MarinaForm)
    | PostContribution(contribution: BoatFund.FundPost)

  /** A request and the instant it is handled at. */
  datatype Call = Call(request: Request, now: nat)

  /** The store after one request. */
  function Apply(st: Store, c: Call): Store {
    match c.request
    case CalEvent(e) => CalWebhook.Handle(st, e).st
    case PostLead(f, isEmail, notified) => LeadIntake.Submit(st, f, c.now, isEmail, notified).st
    case PostBooking(f, isDatetime, instant) => BookingRoutes.CreateBooking(st, f, isDatetime, instant).st
    case PostManualBooking(email) => BookingRoutes.CreateManualBooking(st, email, c.now).st
    case ReminderJob(cfg, authorization, send) => Reminders.RunJob(st, cfg, authorization, c.now, send).st
    case PostTestReminder(email, send) => Reminders.SendTestReminder(st, email, c.now, send).st
    case PostAbmPage(body, isUrl) => AbmPages.Create(st, body, isUrl, c.now).st
    case PostMarinaPage(f) => AbmMarinas.Create(st, f, c.now).st
    case PostContribution(req) => BoatFund.Post(st, req, c.now).st
  }

  /** The store after a sequence of requests, handled in order. */
  function Run(st: Store, calls: seq<Call>): Store
    decreases |calls|
  {
    if |calls| == 0 then st else Run(Apply(st, calls[0]), calls[1..])
  }

  /** How the leads table may change: leads are only appended, each keeps
      its id and creation instant, and a set reminder stamp stays as it is. */
  predicate LeadsKept(before: seq<Lead>, after: seq<Lead>) {
    && |before| <= |after|
    && forall i :: 0 <= i < |before| ==>
         && after[i].id == before[i].id
         && after[i].createdAt == before[i].createdAt
         && (before[i].reminderSentAt.Some? ==> after[i].reminderSentAt == before[i].reminderSentAt)
  }

  lemma LeadsKeptTransitive(a: seq<Lead>, b: seq<Lead>, c: seq<Lead>)
    requires LeadsKept(a, b) && LeadsKept(b, c)
    ensures LeadsKept(a, c)
  {
  }

  /** The job stamps only leads it selected, and it selects only unstamped
      ones. */
  lemma RunJobKeepsLeads(st: Store, cfg: Reminders.JobConfig, authorization: Option<string>, now: Instant,
                         send: Lead -> bool)
    ensures LeadsKept(st.leads, Reminders.RunJob(st, cfg, authorization, now, send).st.leads)
  {
    var r := Reminders.RunJob(st, cfg, authorization, now, send);
    if r.reply.Completed? {
      var batch := Reminders.Batch(st.leads, Reminders.Cutoff(now, cfg.delayMinutes));
      forall i | 0 <= i < |st.leads|
        ensures r.st.leads[i].id == st.leads[i].id && r.st.leads[i].createdAt == st.leads[i].createdAt
        ensures st.leads[i].reminderSentAt.Some? ==> r.st.leads[i].reminderSentAt == st.leads[i].reminderSentAt
      {
        if i in batch && send(st.leads[i]) {
          assert st.leads[i].reminderSentAt.None?;
        }
      }
    }
  }

  lemma HandleKeepsLeads(st: Store, e: CalWebhook.Event)
    ensures LeadsKept(st.leads, CalWebhook.Handle(st, e).st.leads)
  {
    var r := CalWebhook.Handle(st, e);
    assert |r.st.leads| == |st.leads|;
  }

  lemma SubmitKeepsLeads(st: Store, f: LeadIntake.LeadForm, now: Instant, isEmail: string -> bool, notified: bool)
    ensures LeadsKept(st.leads, LeadIntake.Submit(st, f, now, isEmail, notified).st.leads)
  {
    var r := LeadIntake.Submit(st, f, now, isEmail, notified);
    if r.reply.Created? {
      assert forall i :: 0 <= i < |st.leads| ==> r.st.leads[i] == r.st.leads[..|st.leads|][i];
    }
  }

  lemma CreateBookingKeepsLeads(st: Store, f: BookingRoutes.BookingForm, isDatetime: string -> bool,
                                instant: string -> Instant)
    ensures LeadsKept(st.leads, BookingRoutes.CreateBooking(st, f, isDatetime, instant).st.leads)
  {
  }

  lemma ManualBookingKeepsLeads(st: Store, email: Option<string>, now: nat)
    ensures LeadsKept(st.leads, BookingRoutes.CreateManualBooking(st, email, now).st.leads)
  {
    var r := BookingRoutes.CreateManualBooking(st, email, now);
    if r.reply.ManualBooked? {
      assert |r.st.leads| == |st.leads|;
    }
  }

  lemma TestReminderKeepsLeads(st: Store, email: Option<string>, now: Instant, send: Lead -> bool)
    ensures LeadsKept(st.leads, Reminders.SendTestReminder(st, email, now, send).st.leads)
  {
    var r := Reminders.SendTestReminder(st, email, now, send);
    if r.reply.ReminderSent? {
      var i := LatestWithEmail(st.leads, email.value).value;
      assert st.leads[i].reminderSentAt.None?;
      assert r.st.leads == st.leads[i := Reminders.Reminded(st.leads[i], now)];
    }
  }

  lemma AbmPageKeepsLeads(st: Store, body: AbmPages.Body, isUrl: string -> bool, now: Instant)
    ensures LeadsKept(st.leads, AbmPages.Create(st, body, isUrl, now).st.leads)
  {
    assert AbmPages.Create(st, body, isUrl, now).st.leads == st.leads;
  }

  lemma MarinaPageKeepsLeads(st: Store, f: AbmMarinas.MarinaForm, now: Instant)
    ensures LeadsKept(st.leads, AbmMarinas.Create(st, f, now).st.leads)
  {
    assert AbmMarinas.Create(st, f, now).st.leads == st.leads;
  }

  lemma ContributionKeepsLeads(st: Store, req: BoatFund.FundPost, now: Instant)
    ensures LeadsKept(st.leads, BoatFund.Post(st, req, now).st.leads)
  {
    assert BoatFund.Post(st, req, now).st.leads == st.leads;
  }

  /** Every writing route keeps the leads table in the sense of `LeadsKept`. */
  lemma ApplyKeepsLeads(st: Store, c: Call)
    ensures LeadsKept(st.leads, Apply(st, c).leads)
  {
    var after := Apply(st, c);
    match c.request
    case CalEvent(e) =>
      assert after == CalWebhook.Handle(st, e).st;
      HandleKeepsLeads(st, e);
    case PostLead(f, isEmail, notified) =>
      assert after == LeadIntake.Submit(st, f, c.now, isEmail, notified).st;
      SubmitKeepsLeads(st, f, c.now, isEmail, notified);
    case PostBooking(f, isDatetime, instant) =>
      assert after == BookingRoutes.CreateBooking(st, f, isDatetime, instant).st;
      CreateBookingKeepsLeads(st, f, isDatetime, instant);
    case PostManualBooking(email) =>
      assert after == BookingRoutes.CreateManualBooking(st, email, c.now).st;
      ManualBookingKeepsLeads(st, email, c.now);
    case ReminderJob(cfg, authorization, send) =>
      assert after == Reminders.RunJob(st, cfg, authorization, c.now, send).st;
      RunJobKeepsLeads(st, cfg, authorization, c.now, send);
    case PostTestReminder(email, send) =>
      assert after == Reminders.SendTestReminder(st, email, c.now, send).st;
      TestReminderKeepsLeads(st, email, c.now, send);
    case PostAbmPage(body, isUrl) =>
      assert after == AbmPages.Create(st, body, isUrl, c.now).st;
      AbmPageKeepsLeads(st, body, isUrl, c.now);
    case PostMarinaPage(f) =>
      assert after == AbmMarinas.Create(st, f, c.now).st;
      MarinaPageKeepsLeads(st, f, c.now);
    case PostContribution(req) =>
      assert after == BoatFund.Post(st, req, c.now).st;
      ContributionKeepsLeads(st, req, c.now);
  }

  /** Any sequence of requests keeps the leads table. */
  lemma {:induction false} RunKeepsLeads(st: Store, calls: seq<Call>)
    ensures LeadsKept(st.leads, Run(st, calls).leads)
    decreases |calls|
  {
    if |calls| > 0 {
      var next := Apply(st, calls[0]);
      ApplyKeepsLeads(st, calls[0]);
      RunKeepsLeads(next, calls[1..]);
      LeadsKeptTransitive(st.leads, next.leads, Run(next, calls[1..]).leads);
    }
  }

  /** A lead whose reminder went out in a job run keeps that stamp and is
      never selected by the job again, whatever requests follow and whenever
      and with whatever delay the job runs next. */
  lemma RemindedNeverReselected(st: Store, cfg: Reminders.JobConfig, authorization: Option<string>,
                                now: Instant, send: Lead -> bool, i: nat,
                                calls: seq<Call>, later: Instant, delay: nat)
    requires Reminders.Authorized(cfg, authorization)
    requires i in Reminders.Batch(st.leads, Reminders.Cutoff(now, cfg.delayMinutes))
    requires send(st.leads[i])
    ensures var after := Run(Reminders.RunJob(st, cfg, authorization, now, send).st, calls);
            && i < |after.leads|
            && after.leads[i].reminderSentAt == Some(now)
            && i !in Reminders.Batch(after.leads, Reminders.Cutoff(later, delay))
  {
    var once := Reminders.RunJob(st, cfg, authorization, now, send).st;
    assert once.leads[i].reminderSentAt == Some(now);
    RunKeepsLeads(once, calls);
  }

  /** A lead whose send failed is retried: it is due at every later job run
      with the same delay for as long as it is still NEW and unstamped,
      whatever requests come in between. */
  lemma FailedLeadStaysDue(st: Store, cfg: Reminders.JobConfig, authorization: Option<string>,
                           now: Instant, send: Lead -> bool, i: nat,
                           calls: seq<Call>, later: Instant)
    requires Reminders.Authorized(cfg, authorization)
    requires i in Reminders.Batch(st.leads, Reminders.Cutoff(now, cfg.delayMinutes))
    requires !send(st.leads[i])
    requires now <= later
    ensures Reminders.RunJob(st, cfg, authorization, now, send).st.leads[i] == st.leads[i]
    ensures var after := Run(Reminders.RunJob(st, cfg, authorization, now, send).st, calls);
            && i < |after.leads|
            && (after.leads[i].status == New && after.leads[i].reminderSentAt.None? <==>
                Reminders.Due(after.leads[i], Reminders.Cutoff(later, cfg.delayMinutes)))
  {
    var once := Reminders.RunJob(st, cfg, authorization, now, send).st;
    assert once.leads[i] == st.leads[i];
    RunKeepsLeads(once, calls);
  }

  /** A lead reminded by hand keeps that stamp and is never selected by the
      job, whatever requests follow. */
  lemma ManualReminderExcludesFromJob(st: Store, email: Option<string>, now: Instant, send: Lead -> bool,
                                      calls: seq<Call>, later: Instant, delay: nat)
    requires Reminders.SendTestReminder(st, email, now, send).reply.ReminderSent?
    ensures var after := Run(Reminders.SendTestReminder(st, email, now, send).st, calls);
            var i := LatestWithEmail(st.leads, email.value).value;
            && i < |after.leads|
            && after.leads[i].reminderSentAt == Some(now)
            && i !in Reminders.Batch(after.leads, Reminders.Cutoff(later, delay))
  {
    var once := Reminders.SendTestReminder(st, email, now, send).st;
    var i := LatestWithEmail(st.leads, email.value).value;
    assert once.leads == st.leads[i := Reminders.Reminded(st.leads[i], now)];
    assert once.leads[i].reminderSentAt == Some(now);
    RunKeepsLeads(once, calls);
  }
}
