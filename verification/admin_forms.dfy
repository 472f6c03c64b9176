/** The client-side logic of the two admin forms: filling the identifier in
    from the LinkedIn address, building the request body, and choosing
    between creating and updating. */
module AdminForms {
  import opened Wrappers
  import opened Store
  import LinkedIn
  import AbmPages
  import AbmMarinas

  datatype Method = Post | Put

  datatype Request = Request(verb: Method, url: string)

  /** The sales-outreach page form. The list and object fields are edited as
      JSON text. */
  datatype PageForm = PageForm(
    linkedinIdentifier: string,
    linkedinUrl: string,
    firstName: string,
    lastName: string,
    title: string,
    company: string,
    targetMarket: string,
    targetLocation: string,
    mockCompanies: string,
    mockLeads: string,
    mockAnalytics: string,
    heroMessage: string,
    benefitPoints: string,
    isActive: bool)

  /** The "generate" button: when the address is non-empty and holds a
      profile path, the identifier becomes the profile name. */
  function GenerateIdentifier(f: PageForm): (r: PageForm)
    // only the identifier can change
    ensures r == f.(linkedinIdentifier := r.linkedinIdentifier)
    ensures f.linkedinUrl == "" ==> r == f
    ensures LinkedIn.Extract(f.linkedinUrl).None? ==> r == f
    ensures LinkedIn.Extract(f.linkedinUrl).Some? ==> r.linkedinIdentifier == LinkedIn.Extract(f.linkedinUrl).value
    ensures r != f ==> r.linkedinIdentifier != "" && forall k :: 0 <= k < |r.linkedinIdentifier| ==> r.linkedinIdentifier[k] != '/'
  {
    if f.linkedinUrl != "" then
      match LinkedIn.Extract(f.linkedinUrl)
      case Some(id) => f.(linkedinIdentifier := id)
      case None => f
    else f
  }

  /** Pressing the button twice does what pressing it once does. */
  lemma GenerateIdentifierIdempotent(f: PageForm)
    ensures GenerateIdentifier(GenerateIdentifier(f)) == GenerateIdentifier(f)
  {
  }

  /** An empty text becomes null. */
  function NullIfEmpty(s: string): (j: AbmPages.Json)
    ensures j.JNull? <==> s == ""
    ensures j.JStr? ==> j.str == s
  {
    if s != "" then AbmPages.JStr(s) else AbmPages.JNull
  }

  /** The body the form submits, or `None` when one of the JSON fields does
      not parse (the form then shows the error and sends nothing). `parse`
      is the JSON parser. */
  function Payload(f: PageForm, parse: string -> Option<AbmPages.Json>): (r: Option<AbmPages.Body>)
    ensures r.None? <==>
              parse(f.mockCompanies).None? || parse(f.mockLeads).None?
              || parse(f.mockAnalytics).None? || parse(f.benefitPoints).None?
    ensures r.Some? ==> r.value.title == Some(NullIfEmpty(f.title))
    ensures r.Some? ==> r.value.heroMessage == Some(NullIfEmpty(f.heroMessage))
    ensures r.Some? ==> r.value.linkedinIdentifier == Some(AbmPages.JStr(f.linkedinIdentifier))
    ensures r.Some? ==> r.value.isActive == Some(AbmPages.JBool(f.isActive))
  {
    var companies := parse(f.mockCompanies);
    var leads := parse(f.mockLeads);
    var analytics := parse(f.mockAnalytics);
    var benefits := parse(f.benefitPoints);
    if companies.None? || leads.None? || analytics.None? || benefits.None? then None
    else Some(AbmPages.Body(
      linkedinIdentifier := Some(AbmPages.JStr(f.linkedinIdentifier)),
      linkedinUrl := Some(AbmPages.JStr(f.linkedinUrl)),
      firstName := Some(AbmPages.JStr(f.firstName)),
      lastName := Some(AbmPages.JStr(f.lastName)),
      title := Some(NullIfEmpty(f.title)),
      company := Some(AbmPages.JStr(f.company)),
      targetMarket := Some(AbmPages.JStr(f.targetMarket)),
      targetLocation := Some(AbmPages.JStr(f.targetLocation)),
      mockCompanies := companies,
      mockLeads := leads,
      mockAnalytics := analytics,
      heroMessage := Some(NullIfEmpty(f.heroMessage)),
      benefitPoints := benefits,
      isActive := Some(AbmPages.JBool(f.isActive))))
  }

  /** A body the form builds passes the schema exactly when the required
      texts are filled, the address is a URL and the JSON fields have the
      expected shapes; an empty title or hero message then reaches the store
      as null. */
  lemma PayloadMeetsSchema(f: PageForm, parse: string -> Option<AbmPages.Json>, isUrl: string -> bool)
    requires Payload(f, parse).Some?
    ensures AbmPages.Valid(Payload(f, parse).value, isUrl) <==>
              && f.linkedinIdentifier != "" && isUrl(f.linkedinUrl)
              && f.firstName != "" && f.lastName != "" && f.company != ""
              && f.targetMarket != "" && f.targetLocation != ""
              && AbmPages.IsTextList(parse(f.mockCompanies).value)
              && AbmPages.IsLeadList(parse(f.mockLeads).value)
              && AbmPages.IsAnalytics(parse(f.mockAnalytics).value)
              && AbmPages.IsTextList(parse(f.benefitPoints).value)
    ensures AbmPages.Valid(Payload(f, parse).value, isUrl) ==>
              var d := AbmPages.Parse(Payload(f, parse).value, isUrl);
              && d.title == (if f.title == "" then None else Some(f.title))
              && d.heroMessage == (if f.heroMessage == "" then None else Some(f.heroMessage))
              && d.linkedinIdentifier == f.linkedinIdentifier && d.isActive == f.isActive
  {
  }

  /** Where the page form sends its body: an update of the page being
      edited, or a create. */
  function PageTarget(editing: Option<string>): (r: Request)
    ensures r.verb == Put <==> editing.Some?
    ensures editing.Some? ==> r.url == "/api/abm-pages/" + editing.value
    ensures editing.None? ==> r.url == "/api/abm-pages"
  {
    match editing
    case Some(id) => Request(Put, "/api/abm-pages/" + id)
    case None => Request(Post, "/api/abm-pages")
  }

  /** The marina page form. `id` is present when it was opened on an
      existing page. */
  datatype MarinaForm = MarinaForm(
    id: Option<string>,
    linkedinIdentifier: string,
    linkedinUrl: string,
    firstName: string,
    lastName: string,
    title: string,
    company: string,
    heroMessage: string,
    isActive: bool)

  /** The form a new marina page starts from. */
  const EMPTY_MARINA: MarinaForm := MarinaForm(None, "", "", "", "", "", "", "", true)

  /** The "auto-fill" button: a profile path in the address sets the
      identifier; there is no separate check for an empty address. */
  function AutoFill(f: MarinaForm): (r: MarinaForm)
    ensures r == f.(linkedinIdentifier := r.linkedinIdentifier)
    ensures LinkedIn.Extract(f.linkedinUrl).None? ==> r == f
    ensures LinkedIn.Extract(f.linkedinUrl).Some? ==> r.linkedinIdentifier == LinkedIn.Extract(f.linkedinUrl).value
    ensures r != f ==> r.linkedinIdentifier != "" && forall k :: 0 <= k < |r.linkedinIdentifier| ==> r.linkedinIdentifier[k] != '/'
  {
    match LinkedIn.Extract(f.linkedinUrl)
    case Some(id) => f.(linkedinIdentifier := id)
    case None => f
  }

  /** The two forms extract the same identifier from the same address,
      although only one of them tests for an empty address first. */
  lemma FormsAgreeOnIdentifier(p: PageForm, m: MarinaForm)
    requires p.linkedinUrl == m.linkedinUrl && p.linkedinIdentifier == m.linkedinIdentifier
    ensures GenerateIdentifier(p).linkedinIdentifier == AutoFill(m).linkedinIdentifier
  {
    if p.linkedinUrl == "" {
      assert !LinkedIn.MatchesAt(m.linkedinUrl, 0);
    }
  }

  /** Where the marina form sends its body. In edit mode without an id the
      address carries the text "undefined", as string interpolation of a
      missing value does. */
  function MarinaTarget(isEdit: bool, id: Option<string>): (r: Request)
    ensures r.verb == Put <==> isEdit
    ensures isEdit && id.Some? ==> r.url == "/api/abm-marinas/" + id.value
    ensures isEdit && id.None? ==> r.url == "/api/abm-marinas/undefined"
    ensures !isEdit ==> r.url == "/api/abm-marinas"
  {
    if isEdit then Request(Put, "/api/abm-marinas/" + (if id.Some? then id.value else "undefined"))
    else Request(Post, "/api/abm-marinas")
  }

  /** The body the marina form posts: every field as it stands. */
  function MarinaBody(f: MarinaForm): AbmMarinas.MarinaForm {
    AbmMarinas.MarinaForm(
      Some(f.linkedinIdentifier), Some(f.linkedinUrl), Some(f.firstName), Some(f.lastName),
      Some(f.title), Some(f.company), Some(f.heroMessage), Some(f.isActive))
  }

  /** Creating from the marina form: refused when a required field is empty,
      otherwise the page stores null for an empty title or hero message and
      keeps the form's active flag. */
  lemma MarinaFormCreates(st: Store, f: MarinaForm, now: Instant)
    ensures var r := AbmMarinas.Create(st, MarinaBody(f), now);
            && (r.reply.MissingFields? <==>
                 f.linkedinIdentifier == "" || f.linkedinUrl == "" || f.firstName == ""
                 || f.lastName == "" || f.company == "")
            && (r.reply.PageCreated? ==>
                 && r.reply.page.title == (if f.title == "" then None else Some(f.title))
                 && r.reply.page.heroMessage == (if f.heroMessage == "" then None else Some(f.heroMessage))
                 && r.reply.page.isActive == f.isActive)
  {
  }

  /** Submitting the untouched new-page form is refused. */
  lemma EmptyMarinaFormRefused(st: Store, now: Instant)
    ensures AbmMarinas.Create(st, MarinaBody(EMPTY_MARINA), now).reply.MissingFields?
  {
  }
}
