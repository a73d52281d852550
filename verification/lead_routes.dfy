/** The lead-retrieval endpoints of `BE/api/routes.py`: `search_leads`,
    `scrape_leads_apollo`, `scrape_leads_yellowpages` and
    `search_leads_hybrid`. Each source is an outcome handed in as a value:
    the structured API's as an `ApiOutcome`, the scrapers' through a
    `scrape` function from the call made to the rows it returned or the text
    of the exception it raised. `ids(n)` is the n-th generated lead id and
    `today` the current date. */
module LeadRoutes {
  import opened Wrappers
  import opened Text
  import opened Http
  import opened Schemas
  import opened DataTransformer
  import opened ApolloClient

  /** `settings.MAX_PAGE_SIZE`, the page size both API searches request. */
  const MaxPageSize: int := 50

  const ApiKeyNotConfigured: string :=
    "Apollo API Key Not Configured. Please Set APOLLO_API_KEY Environment Variable."
  const NothingToReturn: string :=
    "Apollo API Not Configured & " + "Scraping Disabled. Please Set " + "APOLLO_API_KEY or Enable Scraping."
  const SearchFailedPrefix: string := "Error searching leads: "
  const ApolloScrapeFailedPrefix: string := "Error scraping Apollo leads: "
  const YellowPagesScrapeFailedPrefix: string := "Error Scraping Yellow Pages Leads: "
  const BothFailedPrefix: string := "Both API and Scraping Failed: "

  /** The decoded search response; either list may be missing. */
  datatype ApolloResponse = ApolloResponse(
    organizations: Option<seq<Organization>> := None,
    people: Option<seq<Person>> := None)

  // ---------------------------------------------------------------------------
  // Grouping people by organization

  /** `person.organization_id` is truthy and equal to `orgId`. */
  predicate WorksAt(p: Person, orgId: string) {
    orgId != "" && p.organizationId == Some(orgId)
  }

  /** The people of `orgId`, in list order. */
  function PeopleOf(people: seq<Person>, orgId: string): seq<Person> {
    if |people| == 0 then []
    else PeopleOf(people[..|people| - 1], orgId)
         + (if WorksAt(people[|people| - 1], orgId) then [people[|people| - 1]] else [])
  }

  /** The `org_people_map` loop: each person with a truthy organization id is
      appended to that id's list; the others are skipped. */
  function GroupPeopleByOrganization(people: seq<Person>): map<string, seq<Person>> {
    if |people| == 0 then map[]
    else
      var groups := GroupPeopleByOrganization(people[..|people| - 1]);
      var p := people[|people| - 1];
      if Truthy(p.organizationId) then
        var k := p.organizationId.value;
        groups[k := (if k in groups then groups[k] else []) + [p]]
      else groups
  }

  /** Some person of the list works at `orgId`. */
  predicate Employs(people: seq<Person>, orgId: string) {
    exists i :: 0 <= i < |people| && WorksAt(people[i], orgId)
  }

  lemma EmploysSnoc(init: seq<Person>, p: Person, orgId: string)
    ensures Employs(init + [p], orgId) <==> Employs(init, orgId) || WorksAt(p, orgId)
  {
    var s := init + [p];
    if Employs(s, orgId) {
      var i :| 0 <= i < |s| && WorksAt(s[i], orgId);
      if i < |init| {
        assert WorksAt(init[i], orgId);
      }
    }
    if Employs(init, orgId) {
      var i :| 0 <= i < |init| && WorksAt(init[i], orgId);
      assert WorksAt(s[i], orgId);
    }
    if WorksAt(p, orgId) {
      assert WorksAt(s[|init|], orgId);
    }
  }

  /** An organization has people exactly when someone in the list works there. */
  lemma {:induction false} PeopleOfEmpty(people: seq<Person>, orgId: string)
    ensures PeopleOf(people, orgId) == [] <==> !Employs(people, orgId)
    decreases |people|
  {
    if |people| > 0 {
      var init := people[..|people| - 1];
      PeopleOfEmpty(init, orgId);
      assert people == init + [people[|people| - 1]];
      EmploysSnoc(init, people[|people| - 1], orgId);
    }
  }

  /** The map's keys are exactly the truthy organization ids that occur, and
      each key holds that organization's people in list order. */
  lemma {:induction false} GroupingSpec(people: seq<Person>)
    ensures forall k :: k in GroupPeopleByOrganization(people) <==> Employs(people, k)
    ensures forall k :: k in GroupPeopleByOrganization(people) ==>
      GroupPeopleByOrganization(people)[k] == PeopleOf(people, k)
    decreases |people|
  {
    if |people| > 0 {
      var init := people[..|people| - 1];
      var p := people[|people| - 1];
      GroupingSpec(init);
      assert people == init + [p];
      forall k
        ensures k in GroupPeopleByOrganization(people) <==> Employs(people, k)
        ensures k in GroupPeopleByOrganization(people) ==>
          GroupPeopleByOrganization(people)[k] == PeopleOf(people, k)
      {
        EmploysSnoc(init, p, k);
        PeopleOfEmpty(init, k);
      }
    }
  }

  /** The first person of `orgId` in list order, if any. */
  function FirstPersonOf(people: seq<Person>, orgId: string): (r: Option<Person>)
    ensures r.None? <==> forall i :: 0 <= i < |people| ==> !WorksAt(people[i], orgId)
    ensures r.Some? ==> exists i :: (0 <= i < |people| && people[i] == r.value && WorksAt(people[i], orgId)
      && forall j :: 0 <= j < i ==> !WorksAt(people[j], orgId))
  {
    if |people| == 0 then None
    else if WorksAt(people[0], orgId) then Some(people[0])
    else
      var r := FirstPersonOf(people[1..], orgId);
      assert forall i :: 1 <= i < |people| ==> people[i] == people[1..][i - 1];
      r
  }

  /** The head of `PeopleOf` is the earliest person of the organization. */
  lemma {:induction false} PeopleOfHead(people: seq<Person>, orgId: string)
    ensures PeopleOf(people, orgId) == [] <==> FirstPersonOf(people, orgId).None?
    ensures PeopleOf(people, orgId) != [] ==> PeopleOf(people, orgId)[0] == FirstPersonOf(people, orgId).value
    decreases |people|
  {
    if |people| > 0 {
      var init := people[..|people| - 1];
      var last := people[|people| - 1];
      PeopleOfHead(init, orgId);
      var f := FirstPersonOf(people, orgId);
      var g := FirstPersonOf(init, orgId);
      if g.Some? {
        var i :| 0 <= i < |init| && init[i] == g.value && WorksAt(init[i], orgId)
          && forall j :: 0 <= j < i ==> !WorksAt(init[j], orgId);
        assert people[i] == init[i];
        FirstIsUnique(people, orgId, i);
      } else if WorksAt(last, orgId) {
        assert forall j :: 0 <= j < |init| ==> people[j] == init[j];
        FirstIsUnique(people, orgId, |people| - 1);
      } else {
        assert forall j :: 0 <= j < |init| ==> people[j] == init[j];
      }
    }
  }

  /** The earliest matching index determines `FirstPersonOf`. */
  lemma FirstIsUnique(people: seq<Person>, orgId: string, i: nat)
    requires i < |people| && WorksAt(people[i], orgId)
    requires forall j :: 0 <= j < i ==> !WorksAt(people[j], orgId)
    ensures FirstPersonOf(people, orgId) == Some(people[i])
  {
    var f := FirstPersonOf(people, orgId);
    var k :| 0 <= k < |people| && people[k] == f.value && WorksAt(people[k], orgId)
      && forall j :: 0 <= j < k ==> !WorksAt(people[j], orgId);
    assert !(k < i) && !(i < k);
  }

  /** `org_people_map.get(company_id, [{}])`, then its first entry (or the
      empty person for an empty list). */
  function PrimaryPerson(groups: map<string, seq<Person>>, companyId: Option<string>): Person {
    if companyId.Some? && companyId.value in groups && groups[companyId.value] != [] then groups[companyId.value][0]
    else Person()
  }

  /** The primary contact of a company is the first person in the response
      whose truthy organization id equals the company id, or the empty
      person when there is none (a missing or empty company id included). */
  lemma PrimaryPersonIsFirst(people: seq<Person>, companyId: Option<string>)
    ensures PrimaryPerson(GroupPeopleByOrganization(people), companyId)
         == if companyId.Some? then FirstPersonOf(people, companyId.value).GetOr(Person()) else Person()
  {
    GroupingSpec(people);
    if companyId.Some? {
      PeopleOfHead(people, companyId.value);
      PeopleOfEmpty(people, companyId.value);
    }
  }

  // ---------------------------------------------------------------------------
  // Building leads from an API response

  /** The company loop: one lead per organization in response order, the
      n-th lead built taking id `ids(offset + n)`. */
  function BuildLeads(orgs: seq<Organization>, groups: map<string, seq<Person>>, ids: nat -> string,
                      offset: nat, today: string): (leads: seq<Lead>)
    ensures |leads| == |orgs|
  {
    seq(|orgs|, i requires 0 <= i < |orgs| =>
      TransformApolloDataToLead(CompanyData(orgs[i], PrimaryPerson(groups, orgs[i].id)), ids(offset + i), today))
  }

  function LeadsFromResponse(resp: ApolloResponse, ids: nat -> string, offset: nat, today: string): seq<Lead> {
    BuildLeads(resp.organizations.GetOr([]), GroupPeopleByOrganization(resp.people.GetOr([])), ids, offset, today)
  }

  /** Each organization of the response yields exactly one lead, in order,
      normalized together with the first person of that organization. */
  lemma LeadsFromResponseSpec(resp: ApolloResponse, ids: nat -> string, offset: nat, today: string)
    ensures var orgs := resp.organizations.GetOr([]);
      var leads := LeadsFromResponse(resp, ids, offset, today);
      && |leads| == |orgs|
      && forall i :: 0 <= i < |orgs| ==>
        leads[i] == TransformApolloDataToLead(
          CompanyData(orgs[i],
                      if orgs[i].id.Some? then FirstPersonOf(resp.people.GetOr([]), orgs[i].id.value).GetOr(Person())
                      else Person()),
          ids(offset + i), today)
  {
    var orgs := resp.organizations.GetOr([]);
    forall i | 0 <= i < |orgs|
      ensures PrimaryPerson(GroupPeopleByOrganization(resp.people.GetOr([])), orgs[i].id)
           == if orgs[i].id.Some? then FirstPersonOf(resp.people.GetOr([]), orgs[i].id.value).GetOr(Person())
              else Person()
    {
      PrimaryPersonIsFirst(resp.people.GetOr([]), orgs[i].id);
    }
  }

  // ---------------------------------------------------------------------------
  // The structured-API step

  /** What the API step of a search came to: no client configured; the
      client raised (with the text of the exception); a response whose
      organizations were all normalized; or a response whose normalization
      raised at organization `failedAt`, after the earlier ones had become
      leads (a record with a present-but-null field, which the data model
      does not otherwise represent, is such a case). */
  datatype ApiOutcome =
    | NoClient
    | Raised(cause: string)
    | Answered(response: ApolloResponse)
    | BuildRaised(response: ApolloResponse, failedAt: nat, cause: string)

  /** The API step as the routes run it: the configured client searches with
      the request's industry and location, page 1 and the maximum page
      size. */
  function CallApi(client: Option<Client>, send: Request -> Upstream<ApolloResponse>,
                   request: SearchRequest): (outcome: ApiOutcome)
    ensures outcome.NoClient? <==> client.None?
    ensures !outcome.BuildRaised?
    ensures client.Some? ==>
      var reply := send(SearchRequestFor(client.value, request.industry, request.location, 1, MaxPageSize));
      && (outcome.Answered? <==> reply.Responded?)
      && (reply.Responded? ==> outcome.response == reply.body)
  {
    match client
    case None => NoClient
    case Some(c) =>
      match SearchCompanies(c, send, request.industry, request.location, 1, MaxPageSize)
      case Success(resp) => Answered(resp)
      case Failure(e) => ApiOutcome.Raised(e.Text())
  }

  /** The leads the API step appended before it finished or raised. */
  function ApiLeads(outcome: ApiOutcome, ids: nat -> string, today: string): (leads: seq<Lead>) {
    match outcome
    case Answered(resp) => LeadsFromResponse(resp, ids, 0, today)
    case BuildRaised(resp, failedAt, _) =>
      var orgs := resp.organizations.GetOr([]);
      var n := if failedAt < |orgs| then failedAt else |orgs|;
      BuildLeads(orgs[..n], GroupPeopleByOrganization(resp.people.GetOr([])), ids, 0, today)
    case _ => []
  }

  /** The partial leads of a raised build are the first leads a complete
      build would have produced. */
  lemma ApiLeadsPrefix(outcome: ApiOutcome, ids: nat -> string, today: string)
    requires outcome.BuildRaised?
    ensures var full := LeadsFromResponse(outcome.response, ids, 0, today);
      var part := ApiLeads(outcome, ids, today);
      |part| <= |full| && part == full[..|part|]
  {
  }

  /** `search_leads`. */
  function SearchLeads(outcome: ApiOutcome, ids: nat -> string, today: string): (r: Result<SearchResponse, HttpError>)
    ensures r.Failure? ==> r.error.status == 500
    ensures r.Failure? <==> !outcome.Answered?
    ensures outcome.NoClient? ==> r.error.detail == ApiKeyNotConfigured
    ensures outcome.Raised? || outcome.BuildRaised? ==> r.error.detail == SearchFailedPrefix + outcome.cause
    ensures r.Success? ==> r.value.leads == LeadsFromResponse(outcome.response, ids, 0, today)
    ensures r.Success? ==> r.value.total == |r.value.leads| == |outcome.response.organizations.GetOr([])|
  {
    match outcome
    case NoClient => Failure(HttpError(500, ApiKeyNotConfigured))
    case Raised(cause) => Failure(HttpError(500, SearchFailedPrefix + cause))
    case BuildRaised(_, _, cause) => Failure(HttpError(500, SearchFailedPrefix + cause))
    case Answered(resp) =>
      var leads := LeadsFromResponse(resp, ids, 0, today);
      Success(SearchResponse(leads, |leads|))
  }

  /** An exception from the client reaches the caller as a 500 whose detail
      embeds the client's own status and detail. */
  lemma SearchLeadsRewrapsClientError(client: Client, send: Request -> Upstream<ApolloResponse>,
                                      request: SearchRequest, ids: nat -> string, today: string)
    requires send(SearchRequestFor(client, request.industry, request.location, 1, MaxPageSize)).StatusError?
    ensures var u := send(SearchRequestFor(client, request.industry, request.location, 1, MaxPageSize));
      SearchLeads(CallApi(Some(client), send, request), ids, today)
        == Failure(HttpError(500, SearchFailedPrefix + ExceptionText(HttpError(u.status, "Apollo API error: " + u.text))))
  {
  }

  // ---------------------------------------------------------------------------
  // Scraped rows

  /** A scraped company record; every key may be missing. */
  datatype ScrapedRow = ScrapedRow(
    company: Option<string> := None,
    industry: Option<string> := None,
    location: Option<string> := None,
    website: Option<string> := None,
    linkedinUrl: Option<string> := None,
    contactPhone: Option<string> := None)

  /** `location.split(",")[0].strip()` when the location is truthy, else "". */
  function ScrapedCity(location: Option<string>): string {
    if Truthy(location) then Strip(Split(location.value, ",")[0], Whitespace) else ""
  }

  /** `location.split(",")[1].strip()` when the location holds a comma, else "". */
  function ScrapedRegion(location: Option<string>): string {
    var loc := location.GetOr("");
    if Contains(loc, ",") then
      SplitFirstTwo(loc, ",");
      Strip(Split(loc, ",")[1], Whitespace)
    else ""
  }

  lemma CommaHeadUnique()
    ensures HeadUnique(",")
  {
  }

  /** A missing location gives two empty parts; a comma-free one is all
      city, trimmed. */
  lemma ScrapedLocationFree(a: string)
    requires a != "" && !Contains(a, ",")
    ensures ScrapedCity(Some(a)) == Strip(a, Whitespace) && ScrapedRegion(Some(a)) == ""
    ensures ScrapedCity(None) == "" && ScrapedRegion(None) == ""
  {
    SplitFree(a, ",");
  }

  /** A location whose first two comma-separated fields are `a` and `b`
      yields them, trimmed, as city and region. */
  lemma ScrapedLocationFields(loc: string, a: string, b: string)
    requires loc != "" && Contains(loc, ",")
    requires |Split(loc, ",")| >= 2 && Split(loc, ",")[0] == a && Split(loc, ",")[1] == b
    ensures ScrapedCity(Some(loc)) == Strip(a, Whitespace)
    ensures ScrapedRegion(Some(loc)) == Strip(b, Whitespace)
  {
  }

  /** "a,b" with comma-free `a` and `b` splits into `a` and `b`, each trimmed. */
  lemma ScrapedLocationPair(a: string, b: string)
    requires !Contains(a, ",") && !Contains(b, ",")
    ensures ScrapedCity(Some(a + "," + b)) == Strip(a, Whitespace)
    ensures ScrapedRegion(Some(a + "," + b)) == Strip(b, Whitespace)
  {
    CommaHeadUnique();
    SplitPairInverse(a, b, "", ",");
    ContainsInfix(a, ",", b);
    ScrapedLocationFields(a + "," + b, a, b);
  }

  /** Anything after a second comma is dropped. */
  lemma ScrapedLocationTriple(a: string, b: string, rest: string)
    requires !Contains(a, ",") && !Contains(b, ",")
    ensures ScrapedCity(Some(a + "," + b + "," + rest)) == Strip(a, Whitespace)
    ensures ScrapedRegion(Some(a + "," + b + "," + rest)) == Strip(b, Whitespace)
  {
    CommaHeadUnique();
    SplitTwoFields(a, b, rest, ",");
    ScrapedLocationFields(a + "," + b + "," + rest, a, b);
  }

  /** The pseudo-organization a scraped row is reshaped into. The API-style
      scrapers copy the row's LinkedIn URL; the Yellow Pages endpoint always
      writes "N/A". */
  function ScrapedOrganization(row: ScrapedRow, keepLinkedin: bool): Organization {
    Organization(
      name := Some(row.company.GetOr("Unknown Company")),
      industry := Some(row.industry.GetOr("Unknown")),
      city := Some(ScrapedCity(row.location)),
      state := Some(ScrapedRegion(row.location)),
      websiteUrl := Some(row.website.GetOr("N/A")),
      linkedinUrl := Some(if keepLinkedin then row.linkedinUrl.GetOr("N/A") else "N/A"),
      estimatedNumEmployees := Some(0))
  }

  const ScrapedContactName: string := "Contact not available"

  /** A scraped row as a lead. With `phoneHandling` the row's phone is the
      placeholder person's email, and a phone other than "N/A" then
      overwrites the contact. */
  function ScrapedLead(row: ScrapedRow, keepLinkedin: bool, phoneHandling: bool, id: string, today: string): Lead {
    var person := Person(name := Some(ScrapedContactName),
                         email := Some(if phoneHandling then row.contactPhone.GetOr("") else ""));
    var lead := TransformApolloDataToLead(CompanyData(ScrapedOrganization(row, keepLinkedin), person), id, today);
    if phoneHandling && row.contactPhone.GetOr("N/A") != "N/A" then lead.(contact := Some("Phone: " + row.contactPhone.value))
    else lead
  }

  /** Scraped leads always show "Unknown" employees and priority "Low"; their
      location is the trimmed city and region formatted as for the API. */
  lemma ScrapedLeadFields(row: ScrapedRow, keepLinkedin: bool, phoneHandling: bool, id: string, today: string)
    ensures ScrapedLead(row, keepLinkedin, phoneHandling, id, today).id == id
    ensures ScrapedLead(row, keepLinkedin, phoneHandling, id, today).lastUpdated == Some(today)
    ensures ScrapedLead(row, keepLinkedin, phoneHandling, id, today).employees == Some("Unknown")
    ensures ScrapedLead(row, keepLinkedin, phoneHandling, id, today).priority == Some("Low")
    ensures ScrapedLead(row, keepLinkedin, phoneHandling, id, today).company == row.company.GetOr("Unknown Company")
    ensures ScrapedLead(row, keepLinkedin, phoneHandling, id, today).industry == row.industry.GetOr("Unknown")
    ensures ScrapedLead(row, keepLinkedin, phoneHandling, id, today).location
         == FormatLocation(ScrapedCity(row.location), ScrapedRegion(row.location))
    ensures ScrapedLead(row, keepLinkedin, phoneHandling, id, today).linkedinUrl
         == Some(if keepLinkedin then row.linkedinUrl.GetOr("N/A") else "N/A")
  {
  }

  /** The contact of a scraped lead: "Phone: {phone}" when phone handling is
      on and the phone is present and not "N/A" (an empty phone included);
      "Contact not available (N/A)" when the phone is exactly "N/A", since it
      was first used as the placeholder's email; otherwise
      "Contact not available". */
  lemma ScrapedLeadContact(row: ScrapedRow, keepLinkedin: bool, phoneHandling: bool, id: string, today: string)
    ensures var contact := ScrapedLead(row, keepLinkedin, phoneHandling, id, today).contact;
      && (phoneHandling && row.contactPhone.Some? && row.contactPhone.value != "N/A" ==>
            contact == Some("Phone: " + row.contactPhone.value))
      && (phoneHandling && row.contactPhone == Some("N/A") ==> contact == Some("Contact not available (N/A)"))
      && (!phoneHandling || row.contactPhone.None? ==> contact == Some(ScrapedContactName))
  {
    assert ScrapedContactName + " (" + "N/A" + ")" == "Contact not available (N/A)";
  }

  /** The scraped rows as leads, in order, the n-th taking id `ids(offset + n)`. */
  function ScrapedLeads(rows: seq<ScrapedRow>, keepLinkedin: bool, phoneHandling: bool, ids: nat -> string,
                        offset: nat, today: string): (leads: seq<Lead>)
    ensures |leads| == |rows|
    ensures forall i :: 0 <= i < |rows| ==>
      leads[i] == ScrapedLead(rows[i], keepLinkedin, phoneHandling, ids(offset + i), today)
  {
    seq(|rows|, i requires 0 <= i < |rows| => ScrapedLead(rows[i], keepLinkedin, phoneHandling, ids(offset + i), today))
  }

  // ---------------------------------------------------------------------------
  // Scraping endpoints

  /** A call to one of the scrapers. */
  datatype ScrapeCall =
    | ScrapeApollo(industry: string, location: string, maxPages: int)
    | ScrapeYellowPages(industry: string, location: string)

  type Scraper = ScrapeCall -> Result<seq<ScrapedRow>, string>

  /** `scrape_leads_apollo`; the page bound is enforced by query validation
      before the handler runs. */
  function ScrapeLeadsApollo(request: SearchRequest, maxPages: int, scrape: Scraper, ids: nat -> string,
                             today: string): (r: Result<SearchResponse, HttpError>)
    requires 1 <= maxPages <= 5
    ensures var out := scrape(ScrapeApollo(request.industry, request.location, maxPages));
      && (r.Failure? <==> out.Failure?)
      && (out.Failure? ==> r.error == HttpError(500, ApolloScrapeFailedPrefix + out.error))
      && (out.Success? ==> r.value.leads == ScrapedLeads(out.value, true, false, ids, 0, today)
                           && r.value.total == |out.value|)
  {
    match scrape(ScrapeApollo(request.industry, request.location, maxPages))
    case Failure(e) => Failure(HttpError(500, ApolloScrapeFailedPrefix + e))
    case Success(rows) =>
      var leads := ScrapedLeads(rows, true, false, ids, 0, today);
      Success(SearchResponse(leads, |leads|))
  }

  /** `scrape_leads_yellowpages`. */
  function ScrapeLeadsYellowPages(request: SearchRequest, scrape: Scraper, ids: nat -> string,
                                  today: string): (r: Result<SearchResponse, HttpError>)
    ensures var out := scrape(ScrapeYellowPages(request.industry, request.location));
      && (r.Failure? <==> out.Failure?)
      && (out.Failure? ==> r.error == HttpError(500, YellowPagesScrapeFailedPrefix + out.error))
      && (out.Success? ==> r.value.leads == ScrapedLeads(out.value, false, true, ids, 0, today)
                           && r.value.total == |out.value|)
  {
    match scrape(ScrapeYellowPages(request.industry, request.location))
    case Failure(e) => Failure(HttpError(500, YellowPagesScrapeFailedPrefix + e))
    case Success(rows) =>
      var leads := ScrapedLeads(rows, false, true, ids, 0, today);
      Success(SearchResponse(leads, |leads|))
  }

  // ---------------------------------------------------------------------------
  // Hybrid search

  /** The scraper the hybrid search calls, if any. */
  function HybridScrapeCall(outcome: ApiOutcome, useScraping: bool, scrapeSource: string, maxScrapePages: int,
                            request: SearchRequest): Option<ScrapeCall> {
    if !outcome.Answered? && useScraping then
      if scrapeSource == "apollo" then Some(ScrapeApollo(request.industry, request.location, maxScrapePages))
      else Some(ScrapeYellowPages(request.industry, request.location))
    else None
  }

  /** The final check: nothing gathered and no API success is an error. */
  function Finish(leads: seq<Lead>, apiSuccess: bool): Result<SearchResponse, HttpError> {
    if leads == [] && !apiSuccess then Failure(HttpError(500, NothingToReturn))
    else Success(SearchResponse(leads, |leads|))
  }

  /** `search_leads_hybrid`; the page bound is enforced by query
      validation. */
  function SearchLeadsHybrid(request: SearchRequest, outcome: ApiOutcome, useScraping: bool, scrapeSource: string,
                             maxScrapePages: int, scrape: Scraper, ids: nat -> string,
                             today: string): (r: Result<SearchResponse, HttpError>)
    requires 1 <= maxScrapePages <= 3
    ensures r.Failure? ==> r.error.status == 500
    ensures r.Success? ==> r.value.total == |r.value.leads|
  {
    var apiLeads := ApiLeads(outcome, ids, today);
    match HybridScrapeCall(outcome, useScraping, scrapeSource, maxScrapePages, request)
    case None => Finish(apiLeads, outcome.Answered?)
    case Some(call) =>
      match scrape(call)
      case Failure(e) =>
        if apiLeads == [] then Failure(HttpError(500, BothFailedPrefix + e)) else Finish(apiLeads, false)
      case Success(rows) =>
        Finish(apiLeads + ScrapedLeads(rows, true, scrapeSource == "yellowpages", ids, |apiLeads|, today), false)
  }

  /** Scraping runs exactly when the API step did not succeed and scraping is
      enabled; exactly "apollo" picks the Apollo scraper (with the requested
      page bound) and any other source Yellow Pages. */
  lemma HybridScrapePolicy(request: SearchRequest, outcome: ApiOutcome, useScraping: bool, scrapeSource: string,
                           maxScrapePages: int)
    ensures var call := HybridScrapeCall(outcome, useScraping, scrapeSource, maxScrapePages, request);
      && (call.Some? <==> !outcome.Answered? && useScraping)
      && (call.Some? ==> (call.value.ScrapeApollo? <==> scrapeSource == "apollo"))
      && (call.Some? && call.value.ScrapeApollo? ==> call.value.maxPages == maxScrapePages)
      && (call.Some? ==> call.value.industry == request.industry && call.value.location == request.location)
  {
  }

  /** When no scraper is called, the scraper cannot influence the result. */
  lemma HybridIgnoresUnusedScraper(request: SearchRequest, outcome: ApiOutcome, useScraping: bool,
                                   scrapeSource: string, maxScrapePages: int, s1: Scraper, s2: Scraper,
                                   ids: nat -> string, today: string)
    requires 1 <= maxScrapePages <= 3
    requires outcome.Answered? || !useScraping
    ensures SearchLeadsHybrid(request, outcome, useScraping, scrapeSource, maxScrapePages, s1, ids, today)
         == SearchLeadsHybrid(request, outcome, useScraping, scrapeSource, maxScrapePages, s2, ids, today)
  {
  }

  /** An API success returns its leads as they are, even none. */
  lemma HybridApiSuccess(request: SearchRequest, resp: ApolloResponse, useScraping: bool, scrapeSource: string,
                         maxScrapePages: int, scrape: Scraper, ids: nat -> string, today: string)
    requires 1 <= maxScrapePages <= 3
    ensures SearchLeadsHybrid(request, Answered(resp), useScraping, scrapeSource, maxScrapePages, scrape, ids, today)
         == Success(SearchResponse(LeadsFromResponse(resp, ids, 0, today),
                                   |resp.organizations.GetOr([])|))
  {
  }

  /** The two error outcomes. "Both API and Scraping Failed" happens exactly
      when the scraper was called, raised, and the API step had left no
      leads. The "Not Configured & Scraping Disabled" error happens exactly
      when the API step did not succeed, left no leads, and either no
      scraper was called or it returned no rows. */
  lemma HybridErrors(request: SearchRequest, outcome: ApiOutcome, useScraping: bool, scrapeSource: string,
                     maxScrapePages: int, scrape: Scraper, ids: nat -> string, today: string)
    requires 1 <= maxScrapePages <= 3
    ensures var r := SearchLeadsHybrid(request, outcome, useScraping, scrapeSource, maxScrapePages, scrape, ids, today);
      var call := HybridScrapeCall(outcome, useScraping, scrapeSource, maxScrapePages, request);
      (call.Some? && scrape(call.value).Failure? && ApiLeads(outcome, ids, today) == []) <==>
        (r.Failure? && r.error.detail != NothingToReturn)
    ensures var r := SearchLeadsHybrid(request, outcome, useScraping, scrapeSource, maxScrapePages, scrape, ids, today);
      var call := HybridScrapeCall(outcome, useScraping, scrapeSource, maxScrapePages, request);
      call.Some? && scrape(call.value).Failure? && ApiLeads(outcome, ids, today) == [] ==>
        r == Failure(HttpError(500, BothFailedPrefix + scrape(call.value).error))
    ensures var r := SearchLeadsHybrid(request, outcome, useScraping, scrapeSource, maxScrapePages, scrape, ids, today);
      var call := HybridScrapeCall(outcome, useScraping, scrapeSource, maxScrapePages, request);
      r == Failure(HttpError(500, NothingToReturn)) <==>
        (!outcome.Answered? && ApiLeads(outcome, ids, today) == []
         && (call.None? || (scrape(call.value).Success? && scrape(call.value).value == [])))
  {
    var call := HybridScrapeCall(outcome, useScraping, scrapeSource, maxScrapePages, request);
    var apiLeads := ApiLeads(outcome, ids, today);
    if call.Some? {
      var out := scrape(call.value);
      if out.Failure? {
        BothFailedDiffers(out.error);
      } else {
        var scraped := ScrapedLeads(out.value, true, scrapeSource == "yellowpages", ids, |apiLeads|, today);
        assert |apiLeads + scraped| == |apiLeads| + |out.value|;
      }
    }
  }

  lemma BothFailedDiffers(e: string)
    ensures BothFailedPrefix + e != NothingToReturn
  {
    assert (BothFailedPrefix + e)[0] == 'B';
    assert NothingToReturn[0] == 'A';
  }

  /** A successful hybrid search lists the API step's leads first, in order,
      then the scraped ones; when the scraper raises after the API step left
      leads, exactly those leads are returned. */
  lemma HybridKeepsApiLeads(request: SearchRequest, outcome: ApiOutcome, useScraping: bool, scrapeSource: string,
                            maxScrapePages: int, scrape: Scraper, ids: nat -> string, today: string)
    requires 1 <= maxScrapePages <= 3
    ensures var r := SearchLeadsHybrid(request, outcome, useScraping, scrapeSource, maxScrapePages, scrape, ids, today);
      var apiLeads := ApiLeads(outcome, ids, today);
      var call := HybridScrapeCall(outcome, useScraping, scrapeSource, maxScrapePages, request);
      && (r.Success? ==> |apiLeads| <= |r.value.leads| && r.value.leads[..|apiLeads|] == apiLeads)
      && (call.Some? && scrape(call.value).Failure? && apiLeads != [] ==> r == Success(SearchResponse(apiLeads, |apiLeads|)))
      && (call.Some? && scrape(call.value).Success? && r.Success? ==>
            r.value.leads[|apiLeads|..] == ScrapedLeads(scrape(call.value).value, true, scrapeSource == "yellowpages", ids, |apiLeads|, today))
  {
    var call := HybridScrapeCall(outcome, useScraping, scrapeSource, maxScrapePages, request);
    if call.Some? && scrape(call.value).Success? {
      var apiLeads := ApiLeads(outcome, ids, today);
      var scraped := ScrapedLeads(scrape(call.value).value, true, scrapeSource == "yellowpages", ids, |apiLeads|, today);
      assert (apiLeads + scraped)[..|apiLeads|] == apiLeads;
      assert (apiLeads + scraped)[|apiLeads|..] == scraped;
    }
  }
}
