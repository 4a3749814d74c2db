/** `RecipesService`: building the endpoint URL and the guard chain of `fetchValue`. */
module Service {
  import opened Wrappers
  import opened Json
  import opened Models
  import opened Extensions

  /** `NetworkErrors`. */
  datatype NetworkErrors = FailedToDecode | InvalidHttpResponse | InvalidURL

  /** An error thrown by the transport itself, passed on to the caller as it is. */
  datatype TransportError = TransportError(code: int)

  /** What `fetchRecipes` and `fetchRecipeDetails` can throw. */
  datatype FetchError = Network(error: NetworkErrors) | Transport(cause: TransportError)

  // ----- Endpoint URLs ---------------------------------------------------------------------

  /** `RecipesService.Paths`. */
  datatype Paths = Recipes | LookupRecipeDetails

  /** The page name of each path; the two paths have different pages. */
  function RawValue(path: Paths): (r: string)
    ensures r == "filter" || r == "lookup"
    ensures r == "filter" <==> path == Recipes
  {
    match path
    case Recipes => "filter"
    case LookupRecipeDetails => "lookup"
  }

  const Scheme := "https"
  const Host := "www.themealdb.com"
  const PathPrefix := "/api/json/v1/1/"
  const PathSuffix := ".php"

  datatype QueryItem = QueryItem(name: string, value: Option<string>)

  /** The `URLComponents` fields the service sets; `path` is empty until it is set. */
  datatype URLComponents = URLComponents(scheme: Option<string>, host: Option<string>, path: string,
                                         queryItems: Option<seq<QueryItem>>)

  /** A URL as the record of its parts, not as percent-encoded text. */
  datatype URL = URL(scheme: Option<string>, host: Option<string>, path: string, queryItems: Option<seq<QueryItem>>)

  /** `URLComponents.url`: the URL the components describe, or nil when the library rejects
      them. Which components it rejects is not modelled, so either outcome is possible. */
  method ComponentsURL(components: URLComponents) returns (url: Option<URL>)
    ensures url.Some? ==> url.value == URL(components.scheme, components.host, components.path, components.queryItems)
  {
    var formed: bool :| true;
    if formed {
      url := Some(URL(components.scheme, components.host, components.path, components.queryItems));
    } else {
      url := None;
    }
  }

  /** The endpoint for `path` and `query`: https, the service's host, the path's `.php` page
      under `/api/json/v1/1/`, and one query item, `c` for the category filter and `i` for
      the lookup by id, carrying the query as it is. */
  ghost predicate IsEndpoint(url: URL, path: Paths, query: Option<string>)
  {
    && url.scheme == Some("https")
    && url.host == Some("www.themealdb.com")
    && url.path == "/api/json/v1/1/" + RawValue(path) + ".php"
    && url.queryItems == Some([QueryItem(if path == Recipes then "c" else "i", query)])
  }

  /** `constructURL(with:query:)`. */
  method ConstructURL(path: Paths, query: Option<string>) returns (url: Option<URL>)
    ensures url.Some? ==> IsEndpoint(url.value, path, query)
  {
    var components := URLComponents(None, None, "", None);
    components := components.(scheme := Some(Scheme));
    components := components.(host := Some(Host));
    components := components.(path := PathPrefix + RawValue(path) + PathSuffix);
    match path {
      case Recipes =>
        components := components.(queryItems := Some([QueryItem("c", query)]));
      case LookupRecipeDetails =>
        components := components.(queryItems := Some([QueryItem("i", query)]));
    }
    url := ComponentsURL(components);
  }

  /** An endpoint URL tells which request it is for: the two paths differ, and the query is
      carried unchanged. */
  lemma EndpointDeterminesRequest(url: URL, p1: Paths, q1: Option<string>, p2: Paths, q2: Option<string>)
    requires IsEndpoint(url, p1, q1) && IsEndpoint(url, p2, q2)
    ensures p1 == p2 && q1 == q2
  {
    var page := url.path[|PathPrefix|..|url.path| - |PathSuffix|];
    assert page == RawValue(p1) && page == RawValue(p2);
    assert RawValue(Recipes)[0] != RawValue(LookupRecipeDetails)[0];
    assert url.queryItems.value[0].value == q1;
  }

  // ----- Transport -------------------------------------------------------------------------

  datatype URLResponse = NonHttpResponse | HttpResponse(http: HTTPURLResponse)

  /** What `getData(from:)` gives back: a thrown error, or a body and a response. */
  datatype TransportResult = TransportFailure(error: TransportError) | Received(data: Payload, response: URLResponse)

  /** The network session: a fixed answer for each URL, and the list of URLs asked so far. */
  class NetworkSession {
    const respond: URL -> TransportResult
    var requests: seq<URL>

    constructor(respond: URL -> TransportResult)
      ensures this.respond == respond && requests == []
    {
      this.respond := respond;
      requests := [];
    }

    /** `getData(from:)`. */
    method GetData(url: URL) returns (result: TransportResult)
      modifies this
      ensures requests == old(requests) + [url]
      ensures result == respond(url)
    {
      requests := requests + [url];
      result := respond(url);
    }
  }

  // ----- Decoding a body -------------------------------------------------------------------

  /** The `T` that `fetchValue` is asked to decode. */
  datatype ResponseType = DessertRecipesResponseType | RecipeDetailsResponseType

  datatype DecodedValue = RecipesValue(recipes: DessertRecipesResponse) | DetailsValue(details: RecipeDetailsResponse)

  /** `decoded` is what `try? JSONDecoder().decode(T.self, from: data)` can give: nil unless the
      body is JSON that decodes as `T`. */
  ghost predicate DecodesAs(typ: ResponseType, data: Payload, decoded: Option<DecodedValue>)
  {
    match typ
    case DessertRecipesResponseType =>
      decoded == if data.Json? && DecodeDessertRecipesResponse(data.value).Some?
                 then Some(RecipesValue(DecodeDessertRecipesResponse(data.value).value)) else None
    case RecipeDetailsResponseType =>
      && (decoded.Some? <==> data.Json? && CanDecodeDetailsResponse(data.value))
      && (decoded.Some? ==> decoded.value.DetailsValue? && DecodesTo(MealsArray(data.value).value[0], decoded.value.details.details))
  }

  method Decode(typ: ResponseType, data: Payload) returns (decoded: Option<DecodedValue>)
    ensures DecodesAs(typ, data, decoded)
  {
    if data.NotJson? {
      return None;
    }
    match typ {
      case DessertRecipesResponseType =>
        var response := DecodeDessertRecipesResponse(data.value);
        decoded := if response.Some? then Some(RecipesValue(response.value)) else None;
      case RecipeDetailsResponseType =>
        var response := DecodeRecipeDetailsResponse(data.value);
        decoded := if response.Some? then Some(DetailsValue(response.value)) else None;
    }
  }

  /** `response as? HTTPURLResponse` followed by `isHttpResponseValid`: a response that is not
      HTTP is never valid, and an HTTP one is valid exactly when its status is 200...299. */
  predicate IsValidHttpResponse(response: URLResponse)
    ensures IsValidHttpResponse(response) ==> response.HttpResponse?
    ensures response.HttpResponse? ==> (IsValidHttpResponse(response) <==> 200 <= response.http.statusCode <= 299)
  {
    response.HttpResponse? && IsHttpResponseValid(response.http)
  }

  /** The guard chain of `fetchValue`: a transport error is passed on unchanged; then a
      response that is not HTTP, or whose status is not 2xx, is `invalidHttpResponse`
      whatever the body; only then is the body decoded, and a body that does not decode is
      `failedToDecode`. */
  ghost predicate ObeysGuards(t: TransportResult, typ: ResponseType, r: Result<DecodedValue, FetchError>)
  {
    match t
    case TransportFailure(e) => r == Failure(Transport(e))
    case Received(data, response) =>
      if !IsValidHttpResponse(response) then r == Failure(Network(InvalidHttpResponse))
      else
        exists decoded :: DecodesAs(typ, data, decoded) &&
          r == if decoded.Some? then Success(decoded.value) else Failure(Network(FailedToDecode))
  }

  /** The one result the guards allow for a summary list, since summary decoding has a single
      outcome. */
  lemma RecipesGuardsDetermineResult(t: TransportResult, r1: Result<DecodedValue, FetchError>, r2: Result<DecodedValue, FetchError>)
    requires ObeysGuards(t, DessertRecipesResponseType, r1) && ObeysGuards(t, DessertRecipesResponseType, r2)
    ensures r1 == r2
  {
    if t.Received? && IsValidHttpResponse(t.response) {
      var d1 :| DecodesAs(DessertRecipesResponseType, t.data, d1) &&
        r1 == if d1.Some? then Success(d1.value) else Failure(Network(FailedToDecode));
      var d2 :| DecodesAs(DessertRecipesResponseType, t.data, d2) &&
        r2 == if d2.Some? then Success(d2.value) else Failure(Network(FailedToDecode));
    }
  }

  /** Which error comes out says which guard stopped the chain; `invalidURL` never comes out
      of it. */
  lemma GuardErrors(t: TransportResult, typ: ResponseType, r: Result<DecodedValue, FetchError>)
    requires ObeysGuards(t, typ, r) && r.Failure?
    ensures r.error.Transport? <==> t.TransportFailure?
    ensures r.error == Network(InvalidHttpResponse) <==> t.Received? && !IsValidHttpResponse(t.response)
    ensures r.error == Network(FailedToDecode) <==> t.Received? && IsValidHttpResponse(t.response)
    ensures r.error != Network(InvalidURL)
  {
  }

  /** `RecipesService`. */
  class RecipesService {
    const urlSession: NetworkSession

    constructor(urlSession: NetworkSession)
      ensures this.urlSession == urlSession
    {
      this.urlSession := urlSession;
    }

    /** `fetchValue(from:with:)`. */
    method FetchValue(url: URL, typ: ResponseType) returns (r: Result<DecodedValue, FetchError>)
      modifies urlSession
      ensures urlSession.requests == old(urlSession.requests) + [url]
      ensures ObeysGuards(urlSession.respond(url), typ, r)
    {
      var t := urlSession.GetData(url);
      match t {
        case TransportFailure(e) =>
          r := Failure(Transport(e));
        case Received(data, response) =>
          if !IsValidHttpResponse(response) {
            return Failure(Network(InvalidHttpResponse));
          }
          var decoded := Decode(typ, data);
          r := if decoded.Some? then Success(decoded.value) else Failure(Network(FailedToDecode));
      }
    }

    /** `fetchRecipes()`: the dessert category, always. `requested` is the URL asked for, if
        one was built. */
    method FetchRecipes() returns (r: Result<DessertRecipesResponse, FetchError>, ghost requested: Option<URL>)
      modifies urlSession
      ensures requested.None? ==> r == Failure(Network(InvalidURL)) && urlSession.requests == old(urlSession.requests)
      ensures requested.Some? ==>
        && IsEndpoint(requested.value, Recipes, Some("Dessert"))
        && urlSession.requests == old(urlSession.requests) + [requested.value]
        && ObeysGuards(urlSession.respond(requested.value), DessertRecipesResponseType, AsDecoded(r))
    {
      var url := ConstructURL(Recipes, Some("Dessert"));
      requested := url;
      if url.None? {
        return Failure(Network(InvalidURL)), requested;
      }
      var value := FetchValue(url.value, DessertRecipesResponseType);
      r := if value.Success? then Success(value.value.recipes) else Failure(value.error);
    }

    /** `fetchRecipeDetails(with:)`: the id is passed on unchanged, and the result is the
        envelope's first element. */
    method FetchRecipeDetails(id: string) returns (r: Result<RecipeDetails, FetchError>, ghost requested: Option<URL>)
      modifies urlSession
      ensures requested.None? ==> r == Failure(Network(InvalidURL)) && urlSession.requests == old(urlSession.requests)
      ensures requested.Some? ==>
        && IsEndpoint(requested.value, LookupRecipeDetails, Some(id))
        && urlSession.requests == old(urlSession.requests) + [requested.value]
        && ObeysGuards(urlSession.respond(requested.value), RecipeDetailsResponseType, DetailsAsDecoded(r))
    {
      var url := ConstructURL(LookupRecipeDetails, Some(id));
      requested := url;
      if url.None? {
        return Failure(Network(InvalidURL)), requested;
      }
      var value := FetchValue(url.value, RecipeDetailsResponseType);
      r := if value.Success? then Success(value.value.details.details) else Failure(value.error);
    }
  }

  function AsDecoded(r: Result<DessertRecipesResponse, FetchError>): Result<DecodedValue, FetchError>
  {
    if r.Success? then Success(RecipesValue(r.value)) else Failure(r.error)
  }

  function DetailsAsDecoded(r: Result<RecipeDetails, FetchError>): Result<DecodedValue, FetchError>
  {
    if r.Success? then Success(DetailsValue(RecipeDetailsResponse(r.value))) else Failure(r.error)
  }
}
