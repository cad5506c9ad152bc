/** The link router: paginated listing, the public slug lookup, and the
    create, update and delete routes. Each route first resolves the session
    (except the lookup), then asks the link store and reports its answer.
    The projection `returnLink` the routes apply to stored links is a
    parameter: its definition is not part of this model. */
module Links {
  import opened Common

  /** A stored link: its id, public slug, target URL and the id of the
      account that created it. */
  datatype Link = Link(id: string, slug: string, destination: string, author: string)

  /** What the listing store answers: the page's links and its other
      fields (pagination metadata). */
  datatype Page<L> = Page(links: seq<L>, meta: map<string, Json>)

  /** The calls these routes make: resolving the session, then the link store. */
  datatype LinkCall =
    | SessionCall
    | ListCall(pagesize: int, page: string, sort: string)
    | GetCall(slug: string)
    | CreateCall(author: string, slug: string, destination: string)
    | UpdateCall(id: string, slug: string, destination: string)
    | RemoveCall(id: string)

  const MaxPageSize := 100
  const PageLimit := "Pagesize limit is 100 items"
  const NotFound := "invalid link"
  const ListInternal := "Internal Server Error when listing links"
  const GetInternal := "Internal Server Error when getting link"
  const CreateInternal := "Internal Server Error when creating link"
  const UpdateInternal := "Internal Server Error when updating link"
  const RemoveInternal := "Internal Server Error when deleting link"

  /** The listing's success: the store's page with every link replaced by
      its projection, in the same order, and the page's other fields kept. */
  predicate ListedAs(r: Response, p: Page<Link>, returnLink: Link -> Json) {
    && r.Envelope? && Delivers(r, r.result)
    && r.result.Some? && r.result.value.JObj?
    && r.result.value.fields.Keys == p.meta.Keys + {"links"}
    && (forall k :: k in p.meta && k != "links" ==> r.result.value.fields[k] == p.meta[k])
    && r.result.value.fields["links"].JArr?
    && |r.result.value.fields["links"].items| == |p.links|
    && (forall i :: 0 <= i < |p.links| ==>
          r.result.value.fields["links"].items[i] == returnLink(p.links[i]))
  }

  /** GET /link/list. The session is resolved first and its failure sent
      as bare text; the page size is bounded before the store is asked;
      the projected links are then built in a loop, in the same order, and
      replace the page's `links` field. */
  method ListLinks(session: Outcome<Account>, pagesize: int, page: string, sort: string,
                   listed: Awaited<Page<Link>>, returnLink: Link -> Json) returns (h: Handled<LinkCall>)
    ensures 1 <= |h.calls| <= 2 && h.calls[0] == SessionCall
    ensures session.Err? ==> ReportsText(h.response, session.error, ListInternal)
    ensures session.Throws? ==> Refuses(h.response, 500, ListInternal)
    ensures session.Ok? && pagesize > MaxPageSize ==> Refuses(h.response, 400, PageLimit)
    // the store is asked only with a session and an admissible page size
    ensures |h.calls| == 2 <==> session.Ok? && pagesize <= MaxPageSize
    ensures |h.calls| == 2 ==> h.calls[1] == ListCall(pagesize, page, sort)
    ensures |h.calls| == 2 && listed.Threw? ==> Refuses(h.response, 500, ListInternal)
    ensures |h.calls| == 2 && listed.Value? ==> ListedAs(h.response, listed.value, returnLink)
    ensures WellFormed(h.response)
  {
    if session.Err? {
      return Handled([SessionCall], ErrorText(session.error, ListInternal));
    }
    if session.Throws? {
      return Handled([SessionCall], Failed(500, ListInternal));
    }
    if pagesize > MaxPageSize {
      return Handled([SessionCall], Failed(400, PageLimit));
    }
    var calls := [SessionCall, ListCall(pagesize, page, sort)];
    if listed.Threw? {
      return Handled(calls, Failed(500, ListInternal));
    }
    var data := listed.value;
    var links: seq<Json> := [];
    var i := 0;
    while i < |data.links|
      invariant 0 <= i <= |data.links|
      invariant |links| == i
      invariant forall j :: 0 <= j < i ==> links[j] == returnLink(data.links[j])
    {
      links := links + [returnLink(data.links[i])];
      i := i + 1;
    }
    h := Handled(calls, Succeeded(Some(JObj(data.meta["links" := JArr(links)]))));
  }

  /** GET /link?slug=…: public; a found link shows its destination only. */
  function GetBySlug(slug: string, found: Awaited<Option<Link>>): (h: Handled<LinkCall>)
    // no session is resolved
    ensures h.calls == [GetCall(slug)]
    ensures found.Value? && found.value.Some? ==>
      Delivers(h.response, Some(JObj(map["destination" := JStr(found.value.value.destination)])))
    ensures found == Value(None) ==> Refuses(h.response, 404, NotFound)
    ensures found.Threw? ==> Refuses(h.response, 500, GetInternal)
  {
    var response :=
      match found
      case Value(Some(link)) => Succeeded(Some(JObj(map["destination" := JStr(link.destination)])))
      case Value(None) => Failed(404, NotFound)
      case Threw => Failed(500, GetInternal);
    Handled([GetCall(slug)], response)
  }

  /** The response of a route whose session could not be resolved: the
      session's error as bare text, or the route's fixed 500 message when
      the session threw or its code cannot be written. */
  function SessionFailure(session: Outcome<Account>, internal: string): Response
    requires !session.Ok?
  {
    if session.Err? then ErrorText(session.error, internal) else Failed(500, internal)
  }

  /** POST /link: the link is created with the session's account as author. */
  function CreateLink(session: Outcome<Account>, slug: string, destination: string,
                      outcome: Outcome<Link>, returnLink: Link -> Json): (h: Handled<LinkCall>)
    ensures session.Err? ==> h.calls == [SessionCall] && ReportsText(h.response, session.error, CreateInternal)
    ensures session.Throws? ==> h.calls == [SessionCall] && Refuses(h.response, 500, CreateInternal)
    ensures session.Ok? ==> h.calls == [SessionCall, CreateCall(session.data.id, slug, destination)]
    ensures session.Ok? && outcome.Ok? ==> Delivers(h.response, Some(returnLink(outcome.data)))
    ensures session.Ok? && outcome.Err? ==> Reports(h.response, outcome.error, CreateInternal)
    ensures session.Ok? && outcome.Throws? ==> Refuses(h.response, 500, CreateInternal)
  {
    if !session.Ok? then
      Handled([SessionCall], SessionFailure(session, CreateInternal))
    else
      var response :=
        match outcome
        case Err(e) => ErrorEnvelope(e, false, CreateInternal)
        case Ok(link) => Succeeded(Some(returnLink(link)))
        case Throws => Failed(500, CreateInternal);
      Handled([SessionCall, CreateCall(session.data.id, slug, destination)], response)
  }

  /** PATCH /link: any resolved session may update any link by id. */
  function UpdateLink(session: Outcome<Account>, id: string, slug: string, destination: string,
                      outcome: Outcome<Link>, returnLink: Link -> Json): (h: Handled<LinkCall>)
    ensures session.Err? ==> h.calls == [SessionCall] && ReportsText(h.response, session.error, UpdateInternal)
    ensures session.Throws? ==> h.calls == [SessionCall] && Refuses(h.response, 500, UpdateInternal)
    ensures session.Ok? ==> h.calls == [SessionCall, UpdateCall(id, slug, destination)]
    ensures session.Ok? && outcome.Ok? ==> Delivers(h.response, Some(returnLink(outcome.data)))
    ensures session.Ok? && outcome.Err? ==> Reports(h.response, outcome.error, UpdateInternal)
    ensures session.Ok? && outcome.Throws? ==> Refuses(h.response, 500, UpdateInternal)
  {
    if !session.Ok? then
      Handled([SessionCall], SessionFailure(session, UpdateInternal))
    else
      var response :=
        match outcome
        case Err(e) => ErrorEnvelope(e, false, UpdateInternal)
        case Ok(link) => Succeeded(Some(returnLink(link)))
        case Throws => Failed(500, UpdateInternal);
      Handled([SessionCall, UpdateCall(id, slug, destination)], response)
  }

  /** DELETE /link: any resolved session may delete any link by id; success
      carries no result. */
  function RemoveLink(session: Outcome<Account>, id: string, outcome: Outcome<Json>): (h: Handled<LinkCall>)
    ensures session.Err? ==> h.calls == [SessionCall] && ReportsText(h.response, session.error, RemoveInternal)
    ensures session.Throws? ==> h.calls == [SessionCall] && Refuses(h.response, 500, RemoveInternal)
    ensures session.Ok? ==> h.calls == [SessionCall, RemoveCall(id)]
    ensures session.Ok? && outcome.Ok? ==> Delivers(h.response, None)
    ensures session.Ok? && outcome.Err? ==> Reports(h.response, outcome.error, RemoveInternal)
    ensures session.Ok? && outcome.Throws? ==> Refuses(h.response, 500, RemoveInternal)
  {
    if !session.Ok? then
      Handled([SessionCall], SessionFailure(session, RemoveInternal))
    else
      var response :=
        match outcome
        case Err(e) => ErrorEnvelope(e, false, RemoveInternal)
        case Ok(_) => Succeeded(None)
        case Throws => Failed(500, RemoveInternal);
      Handled([SessionCall, RemoveCall(id)], response)
  }

  // Properties relating several requests.

  /** The lookup's answer depends on a found link only through its
      destination: id, slug and author never reach the client. */
  lemma LookupRevealsOnlyDestination(slug: string, l1: Link, l2: Link)
    requires l1.destination == l2.destination
    ensures GetBySlug(slug, Value(Some(l1))) == GetBySlug(slug, Value(Some(l2)))
  {
  }

  /** Update and delete do not look at who is asking: any two resolved
      accounts make the same store calls and get the same response. */
  lemma NoOwnershipCheck(a1: Account, a2: Account, id: string, slug: string, destination: string,
                         updated: Outcome<Link>, removed: Outcome<Json>, returnLink: Link -> Json)
    ensures UpdateLink(Ok(a1), id, slug, destination, updated, returnLink)
      == UpdateLink(Ok(a2), id, slug, destination, updated, returnLink)
    ensures RemoveLink(Ok(a1), id, removed) == RemoveLink(Ok(a2), id, removed)
  {
  }

  /** Creating links on behalf of two accounts differs only in the author
      handed to the store. */
  lemma CreateDependsOnAccountOnlyThroughId(a1: Account, a2: Account, slug: string, destination: string,
                                            outcome: Outcome<Link>, returnLink: Link -> Json)
    requires a1.id == a2.id
    ensures CreateLink(Ok(a1), slug, destination, outcome, returnLink)
      == CreateLink(Ok(a2), slug, destination, outcome, returnLink)
  {
  }

  /** Every link route except the listing (whose method states it) writes
      a well-formed envelope or a bare-text session error. */
  lemma LinkResponsesWellFormed(session: Outcome<Account>, slug: string, destination: string, id: string,
                                found: Awaited<Option<Link>>, linked: Outcome<Link>, removed: Outcome<Json>,
                                returnLink: Link -> Json)
    ensures WellFormed(GetBySlug(slug, found).response)
    ensures WellFormed(CreateLink(session, slug, destination, linked, returnLink).response)
    ensures WellFormed(UpdateLink(session, id, slug, destination, linked, returnLink).response)
    ensures WellFormed(RemoveLink(session, id, removed).response)
  {
  }
}
