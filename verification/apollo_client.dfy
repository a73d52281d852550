/** The structured-API client of `BE/services/apollo_client.py`: how a search
    is shaped into a request, and how transport outcomes become exceptions.
    The HTTP exchange itself is a parameter `send` that maps the request to
    one of the outcomes `httpx` can produce. */
module ApolloClient {
  import opened Wrappers
  import opened Text
  import opened Http

  const ApolloApiUrl: string := "https://api.apollo.io/v1"

  /** The separator the client splits a location on. */
  const LocationSeparator: string := ", "

  /** The fixed employee-range filter sent with every search. */
  const EmployeeRanges: seq<string> := [
    "1,10", "11,50", "51,200", "201,500",
    "501,1000", "1001,5000", "5001,10000", "10001+"
  ]

  datatype Client = Client(apiKey: string, baseUrl: string := ApolloApiUrl)

  /** The module-level `apollo_client`: built only when a key is configured. */
  function ClientFor(apiKey: string): (c: Option<Client>)
    ensures c.None? <==> apiKey == ""
    ensures c.Some? ==> c.value == Client(apiKey, ApolloApiUrl)
  {
    if apiKey != "" then Some(Client(apiKey)) else None
  }

  // ---------------------------------------------------------------------------
  // Request shaping

  /** `location.split(", ")`: the city is the first part, the region the
      second when there is one; later parts are dropped. */
  function SplitLocation(location: string): (cityRegion: (string, string)) {
    var parts := Split(location, LocationSeparator);
    (parts[0], if |parts| > 1 then parts[1] else "")
  }

  /** The `organization_locations` filter: "city, region", or the city alone
      when the region is empty. */
  function OrganizationLocations(location: string): (locs: seq<string>) {
    var (city, region) := SplitLocation(location);
    if region != "" then [city + LocationSeparator + region] else [city]
  }

  datatype SearchPayload = SearchPayload(
    keywords: string,
    organizationLocations: seq<string>,
    page: int,
    perPage: int,
    employeeRanges: seq<string>)

  datatype Request = Request(url: string, headers: seq<(string, string)>, payload: SearchPayload)

  function SearchRequestFor(client: Client, industry: string, location: string, page: int, perPage: int): Request {
    Request(
      client.baseUrl + "/organizations/search",
      [("Cache-Control", "no-cache"), ("Content-Type", "application/json"), ("X-Api-Key", client.apiKey)],
      SearchPayload(industry, OrganizationLocations(location), page, perPage, EmployeeRanges))
  }

  lemma SeparatorFirstCharUnique()
    ensures HeadUnique(LocationSeparator)
  {
  }

  /** Neither part contains the separator; with no separator the city is the
      whole location; otherwise "city, region" is where the location starts,
      and it is either all of it or followed by another separator. */
  lemma SplitLocationSpec(location: string)
    ensures var (city, region) := SplitLocation(location);
      && !Contains(city, LocationSeparator) && !Contains(region, LocationSeparator)
      && (!Contains(location, LocationSeparator) ==> city == location && region == "")
      && (Contains(location, LocationSeparator) ==>
            location == city + LocationSeparator + region
            || IsPrefix(city + LocationSeparator + region + LocationSeparator, location))
  {
    SplitPartsAvoidSeparator(location, LocationSeparator);
    SplitFirstTwo(location, LocationSeparator);
  }

  /** Splitting undoes "city, region": the parts come back, whatever follows
      a further separator is discarded, and a bare city stays whole. */
  lemma SplitLocationInverse(city: string, region: string, rest: string)
    requires !Contains(city, LocationSeparator) && !Contains(region, LocationSeparator)
    ensures SplitLocation(city) == (city, "")
    ensures SplitLocation(city + LocationSeparator + region) == (city, region)
    ensures SplitLocation(city + LocationSeparator + region + LocationSeparator + rest) == (city, region)
  {
    SeparatorFirstCharUnique();
    SplitFree(city, LocationSeparator);
    SplitPairInverse(city, region, rest, LocationSeparator);
    var parts := Split(city + LocationSeparator + region + LocationSeparator + rest, LocationSeparator);
    assert parts[0] == parts[..2][0] && parts[1] == parts[..2][1];
  }

  /** The filter always holds exactly one entry, which is a prefix of the
      location; a location without the separator passes through unchanged. */
  lemma OrganizationLocationsPrefix(location: string)
    ensures |OrganizationLocations(location)| == 1
    ensures IsPrefix(OrganizationLocations(location)[0], location)
    ensures !Contains(location, LocationSeparator) ==> OrganizationLocations(location) == [location]
  {
    SplitLocationSpec(location);
    var (c, r) := SplitLocation(location);
    var pair := c + LocationSeparator + r;
    if Contains(location, LocationSeparator) && location != pair {
      assert location[..|pair|] == (pair + LocationSeparator)[..|pair|];
    }
    assert |c| <= |location| && location[..|c|] == c by {
      if Contains(location, LocationSeparator) {
        assert location[..|pair|] == pair;
        assert pair[..|c|] == c;
      }
    }
  }

  /** "city, region" with a non-empty region passes through unchanged, and
      any third part is dropped. */
  lemma OrganizationLocationsPair(city: string, region: string, rest: string)
    requires !Contains(city, LocationSeparator) && !Contains(region, LocationSeparator)
    requires region != ""
    ensures OrganizationLocations(city + LocationSeparator + region) == [city + LocationSeparator + region]
    ensures OrganizationLocations(city + LocationSeparator + region + LocationSeparator + rest)
         == [city + LocationSeparator + region]
  {
    SplitLocationInverse(city, region, rest);
  }

  /** The request goes to the search endpoint with the client's key and the
      caller's keywords and paging, and always carries the 8 employee
      ranges. */
  lemma SearchRequestShape(client: Client, industry: string, location: string, page: int, perPage: int)
    ensures var req := SearchRequestFor(client, industry, location, page, perPage);
      && req.url == client.baseUrl + "/organizations/search"
      && ("X-Api-Key", client.apiKey) in req.headers
      && req.payload.keywords == industry
      && req.payload.page == page && req.payload.perPage == perPage
      && req.payload.organizationLocations == OrganizationLocations(location)
      && |req.payload.employeeRanges| == 8
      && req.payload.employeeRanges[0] == "1,10" && req.payload.employeeRanges[7] == "10001+"
  {
  }

  // ---------------------------------------------------------------------------
  // Error mapping

  /** What the transport can produce: a decoded body, a non-success status
      (`HTTPStatusError`), a request failure (`RequestError`), or a body that
      does not decode, whose exception escapes unchanged. */
  datatype Upstream<T> =
    | Responded(body: T)
    | StatusError(status: nat, text: string)
    | RequestFailed(message: string)
    | UndecodableBody(message: string)

  /** An exception leaving `search_companies`: an `HTTPException`, or any
      other exception with its `str()` text. */
  datatype ClientError = Raised(error: HttpError) | Other(message: string) {
    /** `str(e)`. */
    function Text(): string {
      match this
      case Raised(e) => ExceptionText(e)
      case Other(m) => m
    }
  }

  function MapUpstream<T>(u: Upstream<T>): (r: Result<T, ClientError>)
    ensures r.Success? <==> u.Responded?
    ensures u.Responded? ==> r.value == u.body
  {
    match u
    case Responded(body) => Success(body)
    case StatusError(status, text) => Failure(Raised(HttpError(status, "Apollo API error: " + text)))
    case RequestFailed(message) => Failure(Raised(HttpError(500, "Request error: " + message)))
    case UndecodableBody(message) => Failure(Other(message))
  }

  /** `search_companies`: shape the request, hand it to `send`, map the
      outcome. */
  function SearchCompanies<T>(client: Client, send: Request -> Upstream<T>, industry: string, location: string,
                              page: int := 1, perPage: int := 25): (r: Result<T, ClientError>)
  {
    MapUpstream(send(SearchRequestFor(client, industry, location, page, perPage)))
  }

  /** An upstream status error keeps its status and gets the "Apollo API
      error: " prefix; a request error becomes a 500 with the "Request error: "
      prefix; only an undecodable body escapes as something other than an
      `HTTPException`. */
  lemma ErrorMapping<T>(client: Client, send: Request -> Upstream<T>, industry: string, location: string,
                        page: int, perPage: int)
    ensures var u := send(SearchRequestFor(client, industry, location, page, perPage));
      var r := SearchCompanies(client, send, industry, location, page, perPage);
      && (u.Responded? <==> r.Success?)
      && (u.StatusError? ==> r == Failure(Raised(HttpError(u.status, "Apollo API error: " + u.text))))
      && (u.RequestFailed? ==> r == Failure(Raised(HttpError(500, "Request error: " + u.message))))
      && (r.Failure? && r.error.Other? <==> u.UndecodableBody?)
  {
  }
}
