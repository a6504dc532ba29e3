/**
  The transport client: how a request's URL and headers are built. The HTTP
  call itself is not modelled; a reply is an input of the operation that sends
  the request.
*/
module ApiClient {
  import opened Common

  type Headers = map<string, string>

  const ContentType := "Content-Type"

  /** `get_headers()`: the headers every request carries. */
  const DefaultHeaders: Headers := map[ContentType := "application/json"]

  datatype Verb = GET | POST | PUT

  /** What a sync operation hands to the transport: verb, path and JSON body. */
  datatype Request<B> = Request(verb: Verb, path: string, body: B)

  /** The call `requests.request` would receive. */
  datatype HttpCall<B> = HttpCall(verb: Verb, url: string, json: B, headers: Headers)

  // Paths of the remote API (the path table of the integration model)
  const TestPath := "/test"
  const GetProductsPath := "/products?limit=0"
  const GetUsersPath := "/users?limit=0"
  const UpdateCartPath := "/carts"
  const AddCartPath := "/carts/add"
  const UpdateProductPath := "/products"
  const AddProductPath := "/products/add"

  /** `DUMMY_JSON_PATHS["get_user_carts"] % user_id`. */
  function UserCartsPath(userRemoteId: int): string {
    "/users/" + IntToString(userRemoteId) + "/carts?limit=0"
  }

  /**
    `_get_base_url`: drop one trailing '/' so that the paths, which start with
    '/', can be appended. An empty URL makes `base_url[-1]` raise, hence the
    precondition (callers that may meet one test for it first).
  */
  function BaseUrl(url: string): (r: string)
    requires |url| > 0
    ensures url[|url| - 1] == '/' ==> r + "/" == url
    ensures url[|url| - 1] != '/' ==> r == url
  {
    if url[|url| - 1] == '/' then url[..|url| - 1] else url
  }

  /** `get_request_url`: the stripped base URL followed by the path verbatim. */
  function RequestUrl(baseUrl: string, path: string): (r: string)
    requires |baseUrl| > 0
    ensures |r| == |BaseUrl(baseUrl)| + |path|
    ensures r[..|BaseUrl(baseUrl)|] == BaseUrl(baseUrl) && r[|BaseUrl(baseUrl)|..] == path
  {
    BaseUrl(baseUrl) + path
  }

  /** A base URL configured with or without its trailing '/' reaches the same endpoint. */
  lemma TrailingSlashIrrelevant(baseUrl: string, path: string)
    requires |baseUrl| > 0 && baseUrl[|baseUrl| - 1] != '/'
    ensures RequestUrl(baseUrl + "/", path) == RequestUrl(baseUrl, path)
  {
    assert (baseUrl + "/")[..|baseUrl|] == baseUrl;
  }

  /**
    `{**get_headers(), **add_headers}` with `add_headers=None` read as `{}`:
    the caller's headers win and every other default is kept.
  */
  function MergeHeaders(addHeaders: Option<Headers>): (h: Headers)
    ensures h.Keys == DefaultHeaders.Keys + addHeaders.GetOr(map[]).Keys
    ensures forall k :: k in addHeaders.GetOr(map[]) ==> h[k] == addHeaders.GetOr(map[])[k]
    ensures forall k :: k in DefaultHeaders && k !in addHeaders.GetOr(map[]) ==> h[k] == DefaultHeaders[k]
    ensures ContentType in h
    ensures ContentType !in addHeaders.GetOr(map[]) ==> h[ContentType] == "application/json"
  {
    var add := if addHeaders.None? then map[] else addHeaders.value;
    DefaultHeaders + add
  }

  /** Passing no extra headers is the same as passing an empty map. */
  lemma NoHeadersIsEmptyHeaders()
    ensures MergeHeaders(None) == MergeHeaders(Some(map[])) == DefaultHeaders
  {
  }

  /** `perform_request` up to the transport: the URL and merged headers of the call. */
  function PrepareCall<B>(baseUrl: string, req: Request<B>, addHeaders: Option<Headers>): HttpCall<B>
    requires |baseUrl| > 0
  {
    HttpCall(req.verb, RequestUrl(baseUrl, req.path), req.body, MergeHeaders(addHeaders))
  }
}
