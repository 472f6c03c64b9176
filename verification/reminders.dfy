/** Reminder emails to leads that have not booked: the scheduled batch job
    and the manual single-lead trigger. Sending an email is an oracle
    `send: Lead -> bool` standing for the email helper, which answers false
    when email delivery is not configured or the provider fails. */
module Reminders {
  import opened Wrappers
  import opened Text
  import opened Queries
  import opened Store

  /** `take: 50` in the job's query. */
  const BATCH_LIMIT: nat := 50
  const MS_PER_MINUTE: nat := 60000

  /** The configuration the job reads: the shared secret (absent or empty
      when not configured) and the reminder delay in minutes. */
  datatype JobConfig = JobConfig(cronSecret: Option<string>, delayMinutes: nat)

  datatype JobReply = Unauthorized | Completed(total: nat, sent: nat, failed: nat) {
    function Code(): int {
      if Unauthorized? then 401 else 200
    }
  }

  /** The bearer-secret gate: open when no secret is configured, otherwise the
      header must be exactly "Bearer " followed by the secret. */
  predicate Authorized(cfg: JobConfig, authorization: Option<string>) {
    !Filled(cfg.cronSecret) || authorization == Some("Bearer " + cfg.cronSecret.value)
  }

  /** Leads created at or before this instant are old enough to remind. */
  function Cutoff(now: Instant, delayMinutes: nat): (c: Instant)
    ensures c <= now
    ensures delayMinutes > 0 ==> c < now
  {
    now - delayMinutes * MS_PER_MINUTE
  }

  /** The job's filter: still NEW, never reminded, created by the cutoff. */
  predicate Due(l: Lead, cutoff: Instant) {
    l.status == New && l.reminderSentAt.None? && l.createdAt <= cutoff
  }

  /** A lead after a successful reminder. */
  function Reminded(l: Lead, now: Instant): (l': Lead)
    ensures l'.reminderSentAt == Some(now)
    ensures l' == l.(reminderSentAt := l'.reminderSentAt)
  {
    l.(reminderSentAt := Some(now))
  }

  /** Positions of all due leads, in store order. */
  function DueIndices(leads: seq<Lead>, cutoff: Instant): (r: seq<nat>)
    ensures forall k :: 0 <= k < |r| ==> r[k] < |leads| && Due(leads[r[k]], cutoff)
    ensures forall i :: 0 <= i < |leads| && Due(leads[i], cutoff) ==> i in r
    ensures forall a, b :: 0 <= a < b < |r| ==> r[a] < r[b]
    decreases |leads|
  {
    if |leads| == 0 then []
    else
      var k := |leads| - 1;
      var earlier := DueIndices(leads[..k], cutoff);
      if Due(leads[k], cutoff) then earlier + [k] else earlier
  }

  /** The leads one run selects: the first fifty due leads. The query has no
      ordering, so the model takes them in store order. */
  function Batch(leads: seq<Lead>, cutoff: Instant): (r: seq<nat>)
    ensures |r| <= BATCH_LIMIT
    ensures forall k :: 0 <= k < |r| ==> r[k] < |leads| && Due(leads[r[k]], cutoff)
    ensures forall a, b :: 0 <= a < b < |r| ==> r[a] < r[b]
    ensures |r| < BATCH_LIMIT ==> forall i :: 0 <= i < |leads| && Due(leads[i], cutoff) ==> i in r
  {
    Take(DueIndices(leads, cutoff), BATCH_LIMIT)
  }

  /** The leads after the send loop: each selected lead whose send
      succeeded is stamped with `now`, in batch order. */
  function MarkReminded(leads: seq<Lead>, batch: seq<nat>, send: Lead -> bool, now: Instant): (r: seq<Lead>)
    requires forall k :: 0 <= k < |batch| ==> batch[k] < |leads|
    ensures |r| == |leads|
    decreases |batch|
  {
    if |batch| == 0 then leads
    else
      var n := |batch| - 1;
      var prev := MarkReminded(leads, batch[..n], send, now);
      var k := batch[n];
      if send(leads[k]) then prev[k := Reminded(leads[k], now)] else prev
  }

  /** What the stamping amounts to: a lead is stamped exactly when it was
      selected and its send succeeded; every other lead is as it was. */
  lemma {:induction false} MarkRemindedPointwise(leads: seq<Lead>, batch: seq<nat>, send: Lead -> bool, now: Instant)
    requires forall k :: 0 <= k < |batch| ==> batch[k] < |leads|
    ensures forall i :: 0 <= i < |leads| ==>
              MarkReminded(leads, batch, send, now)[i]
              == if i in batch && send(leads[i]) then Reminded(leads[i], now) else leads[i]
    decreases |batch|
  {
    if |batch| > 0 {
      var n := |batch| - 1;
      MarkRemindedPointwise(leads, batch[..n], send, now);
      assert forall i :: i in batch <==> i in batch[..n] || i == batch[n] by {
        assert batch == batch[..n] + [batch[n]];
      }
    }
  }

  /** The number of selected leads whose send succeeded. */
  function SentCount(leads: seq<Lead>, batch: seq<nat>, send: Lead -> bool): (n: nat)
    requires forall k :: 0 <= k < |batch| ==> batch[k] < |leads|
    ensures n <= |batch|
    ensures n == |batch| <==> forall k :: 0 <= k < |batch| ==> send(leads[batch[k]])
    ensures n == 0 <==> forall k :: 0 <= k < |batch| ==> !send(leads[batch[k]])
    decreases |batch|
  {
    if |batch| == 0 then 0
    else
      var n := |batch| - 1;
      assert forall k :: 0 <= k < n ==> batch[..n][k] == batch[k];
      SentCount(leads, batch[..n], send) + (if send(leads[batch[n]]) then 1 else 0)
  }

  /** `GET /api/cron/send-reminders`. */
  function RunJob(st: Store, cfg: JobConfig, authorization: Option<string>, now: Instant,
                  send: Lead -> bool): (r: Step<JobReply>)
    // the gate: a wrong or missing header, when a secret is set, does nothing
    ensures r.reply.Unauthorized? <==> !Authorized(cfg, authorization)
    ensures r.reply.Unauthorized? ==> r.st == st
    // only reminder stamps change
    ensures r.st == st.(leads := r.st.leads)
    ensures |r.st.leads| == |st.leads|
    ensures r.reply.Completed? ==>
      var cutoff := Cutoff(now, cfg.delayMinutes);
      var batch := Batch(st.leads, cutoff);
      // accounting
      && r.reply.total == |batch| <= BATCH_LIMIT
      && r.reply.sent + r.reply.failed == r.reply.total
      && r.reply.sent == SentCount(st.leads, batch, send)
      // a lead is stamped exactly when it was selected and its send succeeded
      && (forall i :: 0 <= i < |st.leads| ==>
            r.st.leads[i] == if i in batch && send(st.leads[i]) then Reminded(st.leads[i], now)
                             else st.leads[i])
      // every selected lead was due, and below the ceiling every due lead is selected
      && (forall i :: i in batch ==> i < |st.leads| && Due(st.leads[i], cutoff))
      && (r.reply.total < BATCH_LIMIT ==>
            forall i :: 0 <= i < |st.leads| && Due(st.leads[i], cutoff) ==> i in batch)
  {
    if !Authorized(cfg, authorization) then Step(Unauthorized, st)
    else
      var batch := Batch(st.leads, Cutoff(now, cfg.delayMinutes));
      var sent := SentCount(st.leads, batch, send);
      MarkRemindedPointwise(st.leads, batch, send, now);
      Step(Completed(|batch|, sent, |batch| - sent),
           st.(leads := MarkReminded(st.leads, batch, send, now)))
  }

  lemma {:induction false} DueIndicesPrefix(leads: seq<Lead>, i: nat, cutoff: Instant)
    requires i <= |leads|
    ensures DueIndices(leads[..i], cutoff) <= DueIndices(leads, cutoff)
    decreases |leads| - i
  {
    if i < |leads| {
      DueIndicesPrefix(leads, i + 1, cutoff);
      assert leads[..i + 1][..i] == leads[..i];
    } else {
      assert leads[..i] == leads;
    }
  }

  /** The job's query as a scan: due leads in store order, stopping at the
      ceiling. */
  method SelectBatch(leads: seq<Lead>, cutoff: Instant) returns (batch: seq<nat>)
    ensures batch == Batch(leads, cutoff)
  {
    batch := [];
    var i := 0;
    while i < |leads| && |batch| < BATCH_LIMIT
      invariant 0 <= i <= |leads|
      invariant batch == DueIndices(leads[..i], cutoff)
      invariant |batch| <= BATCH_LIMIT
    {
      assert leads[..i + 1][..i] == leads[..i];
      if Due(leads[i], cutoff) {
        batch := batch + [i];
      }
      i := i + 1;
    }
    DueIndicesPrefix(leads, i, cutoff);
    if i == |leads| {
      assert leads[..i] == leads;
    }
  }

  /** One more attempt extends the stamping and the count by that lead. */
  lemma SendStep(leads: seq<Lead>, batch: seq<nat>, j: nat, send: Lead -> bool, now: Instant)
    requires forall k :: 0 <= k < |batch| ==> batch[k] < |leads|
    requires j < |batch|
    ensures MarkReminded(leads, batch[..j + 1], send, now)
            == var prev := MarkReminded(leads, batch[..j], send, now);
               if send(leads[batch[j]]) then prev[batch[j] := Reminded(leads[batch[j]], now)] else prev
    ensures SentCount(leads, batch[..j + 1], send)
            == SentCount(leads, batch[..j], send) + if send(leads[batch[j]]) then 1 else 0
  {
    var next := batch[..j + 1];
    assert next[..j] == batch[..j];
  }

  /** The job's send loop: one attempt per selected lead, stamping the lead
      on success and counting successes and failures. */
  method SendBatch(leads: seq<Lead>, batch: seq<nat>, send: Lead -> bool, now: Instant)
    returns (leads': seq<Lead>, sent: nat, failed: nat)
    requires forall k :: 0 <= k < |batch| ==> batch[k] < |leads|
    ensures leads' == MarkReminded(leads, batch, send, now)
    ensures sent == SentCount(leads, batch, send)
    ensures sent + failed == |batch|
  {
    leads' := leads;
    sent, failed := 0, 0;
    var j := 0;
    while j < |batch|
      invariant 0 <= j <= |batch|
      invariant leads' == MarkReminded(leads, batch[..j], send, now)
      invariant sent == SentCount(leads, batch[..j], send)
      invariant sent + failed == j
    {
      SendStep(leads, batch, j, send, now);
      var lead := leads[batch[j]];
      if send(lead) {
        leads' := leads'[batch[j] := Reminded(lead, now)];
        sent := sent + 1;
      } else {
        failed := failed + 1;
      }
      j := j + 1;
    }
    assert batch[..j] == batch;
  }

  /** The job as the handler runs it: the gate, the query, the send loop. */
  method RunJobLoop(st: Store, cfg: JobConfig, authorization: Option<string>, now: Instant,
                    send: Lead -> bool) returns (r: Step<JobReply>)
    ensures r == RunJob(st, cfg, authorization, now, send)
  {
    if !Authorized(cfg, authorization) {
      assert RunJob(st, cfg, authorization, now, send) == Step(Unauthorized, st);
      return Step(Unauthorized, st);
    }
    var batch := SelectBatch(st.leads, Cutoff(now, cfg.delayMinutes));
    var leads, sent, failed := SendBatch(st.leads, batch, send, now);
    r := Step(Completed(|batch|, sent, failed), st.(leads := leads));
    RunJobCompleted(st, cfg, authorization, now, send, batch, sent, leads);
  }

  /** An authorized run, spelled out through its selection, stamping and count. */
  lemma RunJobCompleted(st: Store, cfg: JobConfig, authorization: Option<string>, now: Instant,
                        send: Lead -> bool, batch: seq<nat>, sent: nat, leads: seq<Lead>)
    requires Authorized(cfg, authorization)
    requires batch == Batch(st.leads, Cutoff(now, cfg.delayMinutes))
    requires sent == SentCount(st.leads, batch, send)
    requires leads == MarkReminded(st.leads, batch, send, now)
    ensures RunJob(st, cfg, authorization, now, send)
            == Step(Completed(|batch|, sent, |batch| - sent), st.(leads := leads))
  {
    var r := RunJob(st, cfg, authorization, now, send);
    assert r.reply == Completed(|batch|, sent, |batch| - sent);
    assert r.st.leads == leads;
    assert r.st == st.(leads := leads);
  }

  /** The job changes no lead id, so well-formedness is kept. */
  lemma RunJobKeepsWellFormed(st: Store, cfg: JobConfig, authorization: Option<string>, now: Instant,
                              send: Lead -> bool)
    requires WellFormed(st)
    ensures WellFormed(RunJob(st, cfg, authorization, now, send).st)
  {
    var r := RunJob(st, cfg, authorization, now, send);
    assert forall i :: 0 <= i < |st.leads| ==> r.st.leads[i].id == st.leads[i].id;
  }

  /** When every send succeeds and the backlog fits in one batch, an
      immediate second run selects and sends nothing. */
  lemma SecondRunSendsNothing(st: Store, cfg: JobConfig, authorization: Option<string>, now: Instant,
                              send: Lead -> bool)
    requires Authorized(cfg, authorization)
    requires |DueIndices(st.leads, Cutoff(now, cfg.delayMinutes))| < BATCH_LIMIT
    requires forall l :: send(l)
    ensures RunJob(RunJob(st, cfg, authorization, now, send).st, cfg, authorization, now, send).reply
            == Completed(0, 0, 0)
  {
    var cutoff := Cutoff(now, cfg.delayMinutes);
    var once := RunJob(st, cfg, authorization, now, send).st;
    var due := DueIndices(st.leads, cutoff);
    assert Batch(st.leads, cutoff) == due;
    forall i | 0 <= i < |once.leads|
      ensures !Due(once.leads[i], cutoff)
    {
      if Due(st.leads[i], cutoff) {
        assert i in due;
      }
    }
  }

  datatype ManualReply =
    | EmailRequired
    | NoLeadWithEmail
    | AlreadySent(sentAt: Instant)
    | NotEligible(status: LeadStatus)
    | ReminderSent(leadId: Id)
    | SendFailed
  {
    function Code(): int {
      match this
      case EmailRequired => 400
      case NoLeadWithEmail => 404
      case AlreadySent(_) => 200
      case NotEligible(_) => 200
      case ReminderSent(_) => 200
      case SendFailed => 500
    }
  }

  /** `POST /api/test-reminder`: remind the most recent lead with the given
      email now. Unlike the job, no age cutoff is applied. */
  function SendTestReminder(st: Store, email: Option<string>, now: Instant, send: Lead -> bool): (r: Step<ManualReply>)
    // only a successful send changes the store, and then only the one stamp
    ensures r.st == st.(leads := r.st.leads)
    ensures !r.reply.ReminderSent? ==> r.st == st
    ensures !Filled(email) <==> r.reply == EmailRequired
    ensures Filled(email) && LatestWithEmail(st.leads, email.value).None? <==> r.reply == NoLeadWithEmail
    ensures Filled(email) && LatestWithEmail(st.leads, email.value).Some? ==>
      var i := LatestWithEmail(st.leads, email.value).value;
      var l := st.leads[i];
      && (l.reminderSentAt.Some? ==> r.reply == AlreadySent(l.reminderSentAt.value))
      && (l.reminderSentAt.None? && l.status != New ==> r.reply == NotEligible(l.status))
      && (l.reminderSentAt.None? && l.status == New && send(l) ==>
            r.reply == ReminderSent(l.id) && r.st.leads == st.leads[i := Reminded(l, now)])
      && (l.reminderSentAt.None? && l.status == New && !send(l) ==> r.reply == SendFailed)
    ensures WellFormed(st) ==> WellFormed(r.st)
  {
    if !Filled(email) then Step(EmailRequired, st)
    else
      match LatestWithEmail(st.leads, email.value)
      case None => Step(NoLeadWithEmail, st)
      case Some(i) =>
        var l := st.leads[i];
        if l.reminderSentAt.Some? then Step(AlreadySent(l.reminderSentAt.value), st)
        else if l.status != New then Step(NotEligible(l.status), st)
        else if send(l) then Step(ReminderSent(l.id), st.(leads := st.leads[i := Reminded(l, now)]))
        else Step(SendFailed, st)
  }

  /** The manual trigger reminds a lead the job would still consider too
      young: a lead created this instant, with a one-minute delay. */
  lemma ManualReminderIgnoresAge()
    ensures var lead := Lead(0, "Jo", "Lee", "jo@x.com", None, None, None, None, None, None, None,
                             New, None, 1000);
            var st := Store([lead], [], [], [], [], [], [], 1);
            var send := (l: Lead) => true;
            && RunJob(st, JobConfig(None, 1), None, 1000, send).reply == Completed(0, 0, 0)
            && SendTestReminder(st, Some("jo@x.com"), 1000, send).reply == ReminderSent(0)
  {
    var lead := Lead(0, "Jo", "Lee", "jo@x.com", None, None, None, None, None, None, None,
                     New, None, 1000);
    var st := Store([lead], [], [], [], [], [], [], 1);
  }
}
