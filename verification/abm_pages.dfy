/** Creation of a sales-outreach ABM page: a schema check over the JSON
    body, a uniqueness check on the LinkedIn identifier, then the insert. */
module AbmPages {
  import opened Wrappers
  import opened Store

  /** A JSON value. Numbers are integers in this model. */
  datatype Json =
    | JNull
    | JBool(flag: bool)
    | JNum(num: int)
    | JStr(str: string)
    | JArr(items: seq<Json>)
    | JObj(fields: map<string, Json>)

  /** A request body: the value under each key the schema names, `None` when
      the key is missing. Other keys are stripped by the schema and are not
      represented. */
  datatype Body = Body(
    linkedinIdentifier: Option<Json>,
    linkedinUrl: Option<Json>,
    firstName: Option<Json>,
    lastName: Option<Json>,
    title: Option<Json>,
    company: Option<Json>,
    targetMarket: Option<Json>,
    targetLocation: Option<Json>,
    mockCompanies: Option<Json>,
    mockLeads: Option<Json>,
    mockAnalytics: Option<Json>,
    heroMessage: Option<Json>,
    benefitPoints: Option<Json>,
    isActive: Option<Json>)

  /** The shapes the schema asks of its fields. */
  datatype Kind = NonEmptyText | UrlText | NullableText | TextList | LeadList | AnalyticsObject | Flag

  predicate IsTextList(j: Json) {
    j.JArr? && forall k :: 0 <= k < |j.items| ==> j.items[k].JStr?
  }

  predicate IsTextField(fields: map<string, Json>, key: string) {
    key in fields && fields[key].JStr?
  }

  predicate IsNumField(fields: map<string, Json>, key: string) {
    key in fields && fields[key].JNum?
  }

  /** `{ name, company, title }`, all strings. */
  predicate IsMockLead(j: Json) {
    j.JObj? && IsTextField(j.fields, "name") && IsTextField(j.fields, "company") && IsTextField(j.fields, "title")
  }

  predicate IsLeadList(j: Json) {
    j.JArr? && forall k :: 0 <= k < |j.items| ==> IsMockLead(j.items[k])
  }

  /** `{ replies, meetings, openRate, replyRate }`, all numbers. */
  predicate IsAnalytics(j: Json) {
    && j.JObj?
    && IsNumField(j.fields, "replies") && IsNumField(j.fields, "meetings")
    && IsNumField(j.fields, "openRate") && IsNumField(j.fields, "replyRate")
  }

  /** Whether a field's value has the shape `kind`; URL syntax is the
      validator `isUrl`. A nullable field must still be present. */
  predicate FieldOk(v: Option<Json>, kind: Kind, isUrl: string -> bool) {
    v.Some? &&
    var j := v.value;
    match kind
    case NonEmptyText => j.JStr? && j.str != ""
    case UrlText => j.JStr? && isUrl(j.str)
    case NullableText => j.JNull? || j.JStr?
    case TextList => IsTextList(j)
    case LeadList => IsLeadList(j)
    case AnalyticsObject => IsAnalytics(j)
    case Flag => j.JBool?
  }

  function Check(key: string, v: Option<Json>, kind: Kind, isUrl: string -> bool): (r: seq<string>)
    ensures r == [] <==> FieldOk(v, kind, isUrl)
    ensures r == [] || r == [key]
  {
    if FieldOk(v, kind, isUrl) then [] else [key]
  }

  /** The page schema, field by field. */
  predicate Valid(body: Body, isUrl: string -> bool) {
    && FieldOk(body.linkedinIdentifier, NonEmptyText, isUrl)
    && FieldOk(body.linkedinUrl, UrlText, isUrl)
    && FieldOk(body.firstName, NonEmptyText, isUrl)
    && FieldOk(body.lastName, NonEmptyText, isUrl)
    && FieldOk(body.title, NullableText, isUrl)
    && FieldOk(body.company, NonEmptyText, isUrl)
    && FieldOk(body.targetMarket, NonEmptyText, isUrl)
    && FieldOk(body.targetLocation, NonEmptyText, isUrl)
    && FieldOk(body.mockCompanies, TextList, isUrl)
    && FieldOk(body.mockLeads, LeadList, isUrl)
    && FieldOk(body.mockAnalytics, AnalyticsObject, isUrl)
    && FieldOk(body.heroMessage, NullableText, isUrl)
    && FieldOk(body.benefitPoints, TextList, isUrl)
    && FieldOk(body.isActive, Flag, isUrl)
  }

  /** The names of the fields that violate the schema, in schema order. */
  function Validate(body: Body, isUrl: string -> bool): (issues: seq<string>)
    ensures issues == [] <==> Valid(body, isUrl)
    ensures |issues| <= 14
  {
    Check("linkedinIdentifier", body.linkedinIdentifier, NonEmptyText, isUrl)
    + Check("linkedinUrl", body.linkedinUrl, UrlText, isUrl)
    + Check("firstName", body.firstName, NonEmptyText, isUrl)
    + Check("lastName", body.lastName, NonEmptyText, isUrl)
    + Check("title", body.title, NullableText, isUrl)
    + Check("company", body.company, NonEmptyText, isUrl)
    + Check("targetMarket", body.targetMarket, NonEmptyText, isUrl)
    + Check("targetLocation", body.targetLocation, NonEmptyText, isUrl)
    + Check("mockCompanies", body.mockCompanies, TextList, isUrl)
    + Check("mockLeads", body.mockLeads, LeadList, isUrl)
    + Check("mockAnalytics", body.mockAnalytics, AnalyticsObject, isUrl)
    + Check("heroMessage", body.heroMessage, NullableText, isUrl)
    + Check("benefitPoints", body.benefitPoints, TextList, isUrl)
    + Check("isActive", body.isActive, Flag, isUrl)
  }

  function TextsOf(j: Json): seq<string>
    requires IsTextList(j)
  {
    seq(|j.items|, k requires 0 <= k < |j.items| => j.items[k].str)
  }

  function MockLeadOf(j: Json): MockLead
    requires IsMockLead(j)
  {
    MockLead(j.fields["name"].str, j.fields["company"].str, j.fields["title"].str)
  }

  function MockLeadsOf(j: Json): seq<MockLead>
    requires IsLeadList(j)
  {
    seq(|j.items|, k requires 0 <= k < |j.items| => MockLeadOf(j.items[k]))
  }

  function NullableOf(j: Json): Option<string>
    requires j.JNull? || j.JStr?
  {
    if j.JStr? then Some(j.str) else None
  }

  /** The validated data of a body that passes the schema; keys outside the
      schema are dropped. */
  function Parse(body: Body, isUrl: string -> bool): AbmPageData
    requires Valid(body, isUrl)
  {
    var a := body.mockAnalytics.value.fields;
    AbmPageData(
      linkedinIdentifier := body.linkedinIdentifier.value.str,
      linkedinUrl := body.linkedinUrl.value.str,
      firstName := body.firstName.value.str,
      lastName := body.lastName.value.str,
      title := NullableOf(body.title.value),
      company := body.company.value.str,
      targetMarket := body.targetMarket.value.str,
      targetLocation := body.targetLocation.value.str,
      mockCompanies := TextsOf(body.mockCompanies.value),
      mockLeads := MockLeadsOf(body.mockLeads.value),
      mockAnalytics := MockAnalytics(a["replies"].num, a["meetings"].num, a["openRate"].num, a["replyRate"].num),
      heroMessage := NullableOf(body.heroMessage.value),
      benefitPoints := TextsOf(body.benefitPoints.value),
      isActive := body.isActive.value.flag)
  }

  function TextsJson(s: seq<string>): (j: Json)
    ensures IsTextList(j) && |j.items| == |s|
  {
    JArr(seq(|s|, k requires 0 <= k < |s| => JStr(s[k])))
  }

  function MockLeadJson(m: MockLead): (j: Json)
    ensures IsMockLead(j)
  {
    JObj(map["name" := JStr(m.name), "company" := JStr(m.company), "title" := JStr(m.title)])
  }

  function NullableJson(o: Option<string>): (j: Json)
    ensures j.JNull? || j.JStr?
  {
    if o.Some? then JStr(o.value) else JNull
  }

  /** The JSON body that carries `d`, as the admin form sends it. */
  function ToBody(d: AbmPageData): Body {
    Body(
      linkedinIdentifier := Some(JStr(d.linkedinIdentifier)),
      linkedinUrl := Some(JStr(d.linkedinUrl)),
      firstName := Some(JStr(d.firstName)),
      lastName := Some(JStr(d.lastName)),
      title := Some(NullableJson(d.title)),
      company := Some(JStr(d.company)),
      targetMarket := Some(JStr(d.targetMarket)),
      targetLocation := Some(JStr(d.targetLocation)),
      mockCompanies := Some(TextsJson(d.mockCompanies)),
      mockLeads := Some(JArr(seq(|d.mockLeads|, k requires 0 <= k < |d.mockLeads| => MockLeadJson(d.mockLeads[k])))),
      mockAnalytics := Some(JObj(map[
        "replies" := JNum(d.mockAnalytics.replies),
        "meetings" := JNum(d.mockAnalytics.meetings),
        "openRate" := JNum(d.mockAnalytics.openRate),
        "replyRate" := JNum(d.mockAnalytics.replyRate)])),
      heroMessage := Some(NullableJson(d.heroMessage)),
      benefitPoints := Some(TextsJson(d.benefitPoints)),
      isActive := Some(JBool(d.isActive)))
  }

  /** The constraints the schema puts on the data itself. */
  predicate Acceptable(d: AbmPageData, isUrl: string -> bool) {
    && d.linkedinIdentifier != "" && isUrl(d.linkedinUrl)
    && d.firstName != "" && d.lastName != "" && d.company != ""
    && d.targetMarket != "" && d.targetLocation != ""
  }

  /** Encoding then validating loses nothing: acceptable data passes the
      schema and parses back to itself, and unacceptable data is refused. */
  lemma {:induction false} BodyRoundTrip(d: AbmPageData, isUrl: string -> bool)
    ensures Valid(ToBody(d), isUrl) <==> Acceptable(d, isUrl)
    ensures Acceptable(d, isUrl) ==> Parse(ToBody(d), isUrl) == d
  {
    var b := ToBody(d);
    var leads := b.mockLeads.value;
    assert IsLeadList(leads) by {
      forall k | 0 <= k < |leads.items|
        ensures IsMockLead(leads.items[k])
      {
        assert leads.items[k] == MockLeadJson(d.mockLeads[k]);
      }
    }
    if Acceptable(d, isUrl) {
      var p := Parse(b, isUrl);
      assert p.mockCompanies == d.mockCompanies;
      assert p.benefitPoints == d.benefitPoints;
      assert p.mockLeads == d.mockLeads by {
        assert |p.mockLeads| == |d.mockLeads|;
        forall k | 0 <= k < |d.mockLeads|
          ensures p.mockLeads[k] == d.mockLeads[k]
        {
          assert leads.items[k] == MockLeadJson(d.mockLeads[k]);
        }
      }
      assert p.title == d.title;
      assert p.heroMessage == d.heroMessage;
    }
  }

  datatype Reply = PageCreated(page: AbmPage) | ValidationError(issues: seq<string>) | IdentifierTaken {
    function Code(): int {
      match this
      case PageCreated(_) => 201
      case ValidationError(_) => 400
      case IdentifierTaken => 400
    }
  }

  /** No two pages share a LinkedIn identifier. */
  predicate IdentifiersUnique(pages: seq<AbmPage>) {
    forall i, j :: 0 <= i < j < |pages| ==> pages[i].data.linkedinIdentifier != pages[j].data.linkedinIdentifier
  }

  predicate IdentifierUsed(pages: seq<AbmPage>, identifier: string) {
    exists i :: 0 <= i < |pages| && pages[i].data.linkedinIdentifier == identifier
  }

  /** `POST /api/abm-pages`. */
  function Create(st: Store, body: Body, isUrl: string -> bool, now: Instant): (r: Step<Reply>)
    ensures r.reply.ValidationError? <==> !Valid(body, isUrl)
    ensures r.reply.ValidationError? ==> r.reply.issues == Validate(body, isUrl)
    ensures r.reply.IdentifierTaken? <==>
              Valid(body, isUrl) && IdentifierUsed(st.abmPages, body.linkedinIdentifier.value.str)
    ensures !r.reply.PageCreated? ==> r.st == st
    ensures r.reply.PageCreated? ==>
      && r.st == st.(abmPages := st.abmPages + [r.reply.page], nextId := st.nextId + 1)
      && r.reply.page == AbmPage(st.nextId, Parse(body, isUrl), now)
      && !IdentifierUsed(st.abmPages, r.reply.page.data.linkedinIdentifier)
    // in sequential use the identifier stays unique
    ensures IdentifiersUnique(st.abmPages) ==> IdentifiersUnique(r.st.abmPages)
    ensures WellFormed(st) ==> WellFormed(r.st)
  {
    if !Valid(body, isUrl) then Step(ValidationError(Validate(body, isUrl)), st)
    else
      var data := Parse(body, isUrl);
      if IdentifierUsed(st.abmPages, data.linkedinIdentifier) then Step(IdentifierTaken, st)
      else
        var page := AbmPage(st.nextId, data, now);
        Step(PageCreated(page), st.(abmPages := st.abmPages + [page], nextId := st.nextId + 1))
  }

  /** Creating two pages with the same identifier: the second is refused. */
  lemma SecondPageWithSameIdentifierRefused(st: Store, body1: Body, body2: Body, isUrl: string -> bool,
                                            now1: Instant, now2: Instant)
    requires Create(st, body1, isUrl, now1).reply.PageCreated?
    requires Valid(body2, isUrl)
    requires body2.linkedinIdentifier.value == body1.linkedinIdentifier.value
    ensures Create(Create(st, body1, isUrl, now1).st, body2, isUrl, now2).reply == IdentifierTaken
  {
    var st1 := Create(st, body1, isUrl, now1).st;
    var k := |st.abmPages|;
    assert st1.abmPages[k].data.linkedinIdentifier == body2.linkedinIdentifier.value.str;
  }
}
