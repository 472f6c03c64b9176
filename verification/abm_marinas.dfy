/** The marina-industry ABM pages: creation with a required-field check,
    defaults and the store's unique identifier, and the newest-first listing. */
module AbmMarinas {
  import opened Wrappers
  import opened Text
  import opened Queries
  import opened Store

  /** The create request; a field that is missing or null is `None`. */
  datatype MarinaForm = MarinaForm(
    linkedinIdentifier: Option<string>,
    linkedinUrl: Option<string>,
    firstName: Option<string>,
    lastName: Option<string>,
    title: Option<string>,
    company: Option<string>,
    heroMessage: Option<string>,
    isActive: Option<bool>)

  datatype Reply = PageCreated(page: MarinaPage) | MissingFields | CreateFailed {
    function Code(): int {
      match this
      case PageCreated(_) => 201
      case MissingFields => 400
      case CreateFailed => 500
    }
  }

  /** The five fields that must be truthy. */
  predicate HasRequiredFields(f: MarinaForm) {
    && Filled(f.linkedinIdentifier) && Filled(f.linkedinUrl)
    && Filled(f.firstName) && Filled(f.lastName) && Filled(f.company)
  }

  /** No two marina pages share a LinkedIn identifier: the column is unique
      in the store, as its lookups by identifier rely on. */
  predicate IdentifiersUnique(pages: seq<MarinaPage>) {
    forall i, j :: 0 <= i < j < |pages| ==> pages[i].linkedinIdentifier != pages[j].linkedinIdentifier
  }

  predicate IdentifierUsed(pages: seq<MarinaPage>, identifier: string) {
    exists i :: 0 <= i < |pages| && pages[i].linkedinIdentifier == identifier
  }

  /** `POST /api/abm-marinas`. The handler does not look for an existing page
      with the identifier; the store's uniqueness constraint rejects the
      insert instead, and the handler's catch answers 500. */
  function Create(st: Store, f: MarinaForm, now: Instant): (r: Step<Reply>)
    ensures r.reply.MissingFields? <==> !HasRequiredFields(f)
    ensures r.reply.CreateFailed? <==>
              HasRequiredFields(f) && IdentifierUsed(st.marinaPages, f.linkedinIdentifier.value)
    ensures !r.reply.PageCreated? ==> r.st == st
    ensures r.reply.PageCreated? ==>
      var p := r.reply.page;
      && r.st == st.(marinaPages := st.marinaPages + [p], nextId := st.nextId + 1)
      && p.id == st.nextId && p.createdAt == now
      && Some(p.linkedinIdentifier) == f.linkedinIdentifier && Some(p.linkedinUrl) == f.linkedinUrl
      && Some(p.firstName) == f.firstName && Some(p.lastName) == f.lastName && Some(p.company) == f.company
      // empty title and hero message are stored as null
      && (p.title.None? <==> !Filled(f.title)) && (p.title.Some? ==> p.title == f.title)
      && (p.heroMessage.None? <==> !Filled(f.heroMessage)) && (p.heroMessage.Some? ==> p.heroMessage == f.heroMessage)
      // active unless explicitly false
      && (p.isActive <==> f.isActive != Some(false))
    ensures IdentifiersUnique(st.marinaPages) ==> IdentifiersUnique(r.st.marinaPages)
    ensures WellFormed(st) ==> WellFormed(r.st)
  {
    if !HasRequiredFields(f) then Step(MissingFields, st)
    else if IdentifierUsed(st.marinaPages, f.linkedinIdentifier.value) then Step(CreateFailed, st)
    else
      var page := MarinaPage(
        id := st.nextId,
        linkedinIdentifier := f.linkedinIdentifier.value,
        linkedinUrl := f.linkedinUrl.value,
        firstName := f.firstName.value,
        lastName := f.lastName.value,
        title := OrAbsent(f.title),
        company := f.company.value,
        heroMessage := OrAbsent(f.heroMessage),
        isActive := f.isActive.GetOr(true),
        createdAt := now);
      Step(PageCreated(page), st.(marinaPages := st.marinaPages + [page], nextId := st.nextId + 1))
  }

  /** Creating two marina pages with the same identifier: the second fails
      and leaves the store as the first left it. */
  lemma SecondPageWithSameIdentifierFails(st: Store, f1: MarinaForm, f2: MarinaForm, now1: Instant, now2: Instant)
    requires Create(st, f1, now1).reply.PageCreated?
    requires HasRequiredFields(f2) && f2.linkedinIdentifier == f1.linkedinIdentifier
    ensures Create(Create(st, f1, now1).st, f2, now2) == Step(CreateFailed, Create(st, f1, now1).st)
  {
    var st1 := Create(st, f1, now1).st;
    var k := |st.marinaPages|;
    assert st1.marinaPages[k].linkedinIdentifier == f2.linkedinIdentifier.value;
  }

  /** `GET /api/abm-marinas`: every page, newest first. */
  function List(st: Store): (r: seq<MarinaPage>)
    ensures multiset(r) == multiset(st.marinaPages)
    ensures forall i, j :: 0 <= i < j < |r| ==> r[i].createdAt >= r[j].createdAt
  {
    var byAge := Sort(st.marinaPages, (p: MarinaPage) => -p.createdAt);
    assert forall i, j :: 0 <= i < j < |byAge| ==> -byAge[i].createdAt <= -byAge[j].createdAt;
    byAge
  }
}
