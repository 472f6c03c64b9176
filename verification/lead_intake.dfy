/** The lead-capture endpoint: validation of the submission, a permissive
    product lookup, creation of a NEW lead, and the prefill data handed to
    the scheduling page. */
module LeadIntake {
  import opened Wrappers
  import opened Text
  import opened Store

  /** The submission as received; a field that is missing or null is `None`. */
  datatype LeadForm = LeadForm(
    firstName: Option<string>,
    lastName: Option<string>,
    email: Option<string>,
    company: Option<string>,
    notes: Option<string>,
    beeSlug: Option<string>,
    utmSource: Option<string>,
    utmMedium: Option<string>,
    utmCampaign: Option<string>,
    referrer: Option<string>)

  /** One schema violation: the offending field and its message. */
  datatype Issue = Issue(path: string, message: string)

  datatype CalPrefill = CalPrefill(name: string, email: string, notes: string)

  datatype Reply = Created(leadId: Id, calPrefill: CalPrefill) | ValidationError(issues: seq<Issue>) {
    function Code(): int {
      if Created? then 200 else 400
    }
  }

  /** A string field with a minimum length of one: a missing field reports
      "Required", an empty one the field's own message. */
  function RequiredText(path: string, value: Option<string>, emptyMessage: string): (r: seq<Issue>)
    ensures r == [] <==> Filled(value)
    ensures |r| <= 1 && forall k :: 0 <= k < |r| ==> r[k].path == path
    ensures value.None? ==> r == [Issue(path, "Required")]
    ensures value == Some("") ==> r == [Issue(path, emptyMessage)]
  {
    if value.None? then [Issue(path, "Required")]
    else if value.value == "" then [Issue(path, emptyMessage)]
    else []
  }

  /** The schema check: every violated field is reported, in field order.
      Email syntax is the validator `isEmail`. */
  function Validate(f: LeadForm, isEmail: string -> bool): (issues: seq<Issue>)
    ensures issues == [] <==> Filled(f.firstName) && Filled(f.lastName) && f.email.Some? && isEmail(f.email.value)
    ensures forall k :: 0 <= k < |issues| ==> issues[k].path in {"firstName", "lastName", "email"}
    ensures |issues| <= 3
    ensures !Filled(f.firstName) ==> |issues| > 0 && issues[0].path == "firstName"
  {
    RequiredText("firstName", f.firstName, "First name is required")
    + RequiredText("lastName", f.lastName, "Last name is required")
    + (if f.email.None? then [Issue("email", "Required")]
       else if !isEmail(f.email.value) then [Issue("email", "Invalid email address")]
       else [])
  }

  /** The product a submission names, when its slug is truthy and matches. */
  function ChosenBee(st: Store, f: LeadForm): (r: Option<Bee>)
    ensures r.Some? ==> Filled(f.beeSlug) && r.value in st.bees && r.value.slug == f.beeSlug.value
    ensures r.None? <==> !Filled(f.beeSlug) || forall j :: 0 <= j < |st.bees| ==> st.bees[j].slug != f.beeSlug.value
  {
    if Filled(f.beeSlug) then BeeBySlug(st.bees, f.beeSlug.value) else None
  }

  /** The candidate lines of the scheduling notes, each only when present. */
  function PrefillItems(company: Option<string>, beeName: Option<string>, notes: Option<string>): seq<string>
  {
    (if company.Some? then ["Company: " + company.value] else [])
    + (if beeName.Some? then ["Interested in: " + beeName.value] else [])
    + (if Filled(notes) then [notes.value] else [])
  }

  /** The scheduling notes: the company, the product of interest and the
      free-text notes, joined by line breaks. */
  function PrefillNotes(company: Option<string>, beeName: Option<string>, notes: Option<string>): string
  {
    JoinLines(PrefillItems(company, beeName, notes))
  }

  /** The notes are empty exactly when nothing is present, start with the
      first present item, and list the items in the fixed order. */
  lemma PrefillNotesShape(company: Option<string>, beeName: Option<string>, notes: Option<string>)
    ensures PrefillNotes(company, beeName, notes) == "" <==> company.None? && beeName.None? && !Filled(notes)
    ensures company.Some? ==> StartsWith(PrefillNotes(company, beeName, notes), "Company: " + company.value)
    ensures company.None? && beeName.Some? ==>
              StartsWith(PrefillNotes(company, beeName, notes), "Interested in: " + beeName.value)
    ensures company.None? && beeName.None? && Filled(notes) ==> PrefillNotes(company, beeName, notes) == notes.value
    ensures company.Some? && beeName.Some? && Filled(notes) ==>
              PrefillNotes(company, beeName, notes)
              == "Company: " + company.value + "\nInterested in: " + beeName.value + "\n" + notes.value
  {
    var items := PrefillItems(company, beeName, notes);
    JoinLinesEmpty(items);
    if |items| > 1 {
      assert JoinLines(items) == items[0] + "\n" + JoinLines(items[1..]);
    }
    if company.Some? && beeName.Some? && Filled(notes) {
      assert items[1..] == ["Interested in: " + beeName.value, notes.value];
      assert JoinLines(items[1..]) == "Interested in: " + beeName.value + "\n" + notes.value;
    }
  }

  /** `POST /api/lead`. `notified` is the outcome of the best-effort
      notification email; the handler swallows its failure. */
  function Submit(st: Store, f: LeadForm, now: Instant, isEmail: string -> bool, notified: bool): (r: Step<Reply>)
    // an invalid submission is reported with every issue and creates nothing
    ensures r.reply.ValidationError? <==> Validate(f, isEmail) != []
    ensures r.reply.ValidationError? ==> r.reply.issues == Validate(f, isEmail) && r.st == st
    // otherwise exactly one lead is appended and its id returned
    ensures r.reply.Created? ==>
      && r.st == st.(leads := r.st.leads, nextId := st.nextId + 1)
      && |r.st.leads| == |st.leads| + 1
      && r.st.leads[..|st.leads|] == st.leads
      && var l := r.st.leads[|st.leads|];
      && l.id == r.reply.leadId == st.nextId
      && l.firstName == f.firstName.value && l.lastName == f.lastName.value && l.email == f.email.value
      && l.status == New && l.reminderSentAt == None && l.createdAt == now
      // empty optional strings are stored as absent
      && l.company == OrAbsent(f.company) && l.notes == OrAbsent(f.notes)
      && l.utmSource == OrAbsent(f.utmSource) && l.utmMedium == OrAbsent(f.utmMedium)
      && l.utmCampaign == OrAbsent(f.utmCampaign) && l.referrer == OrAbsent(f.referrer)
      // a slug that matches no product still creates the lead, without a product
      && (l.beeId.Some? <==> ChosenBee(st, f).Some?)
      && (l.beeId.Some? ==> l.beeId.value == ChosenBee(st, f).value.id)
      && r.reply.calPrefill.name == f.firstName.value + " " + f.lastName.value
      && r.reply.calPrefill.email == f.email.value
      && r.reply.calPrefill.notes
         == PrefillNotes(l.company, if ChosenBee(st, f).Some? then Some(ChosenBee(st, f).value.name) else None, l.notes)
    ensures WellFormed(st) ==> WellFormed(r.st)
  {
    var issues := Validate(f, isEmail);
    if issues != [] then Step(ValidationError(issues), st)
    else
      var bee := ChosenBee(st, f);
      var lead := Lead(
        id := st.nextId,
        firstName := f.firstName.value,
        lastName := f.lastName.value,
        email := f.email.value,
        company := OrAbsent(f.company),
        notes := OrAbsent(f.notes),
        beeId := if bee.Some? then Some(bee.value.id) else None,
        utmSource := OrAbsent(f.utmSource),
        utmMedium := OrAbsent(f.utmMedium),
        utmCampaign := OrAbsent(f.utmCampaign),
        referrer := OrAbsent(f.referrer),
        status := New,
        reminderSentAt := None,
        createdAt := now);
      var prefill := CalPrefill(
        lead.firstName + " " + lead.lastName,
        lead.email,
        PrefillNotes(lead.company, if bee.Some? then Some(bee.value.name) else None, lead.notes));
      Step(Created(lead.id, prefill), st.(leads := st.leads + [lead], nextId := st.nextId + 1))
  }

  /** Whether the notification email went out changes neither the reply
      nor the store. */
  lemma NotificationDoesNotMatter(st: Store, f: LeadForm, now: Instant, isEmail: string -> bool)
    ensures Submit(st, f, now, isEmail, true) == Submit(st, f, now, isEmail, false)
  {
  }

  /** A newly created lead is the one a later lookup by its email finds,
      provided no existing lead with that email is newer. */
  lemma NewLeadIsLatestForEmail(st: Store, f: LeadForm, now: Instant, isEmail: string -> bool, notified: bool)
    requires Submit(st, f, now, isEmail, notified).reply.Created?
    requires forall j :: 0 <= j < |st.leads| ==> st.leads[j].createdAt <= now
    ensures LatestWithEmail(Submit(st, f, now, isEmail, notified).st.leads, f.email.value) == Some(|st.leads|)
  {
    var leads := Submit(st, f, now, isEmail, notified).st.leads;
    assert leads[..|st.leads|] == st.leads;
  }
}
