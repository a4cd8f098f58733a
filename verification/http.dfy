/**
 * The controller's surroundings, reduced to values: the requests it sends, the
 * calls it makes (recorded in a log), the backend API and the JSON library as
 * oracles, the session, and the action results it hands to the framework.
 */
module Http {
  import opened Wrappers
  import opened Guids
  import opened Dtos
  import opened ProductPayload
  import opened ErrorMessages

  datatype Request =
    | Get(path: string)
    | Post(path: string, form: seq<Part>)
    | Put(path: string, form: seq<Part>)

  datatype HttpResponse = HttpResponse(status: int, body: string) {
    /** `IsSuccessStatusCode`: a status in 200..299. */
    predicate IsSuccessStatusCode() {
      200 <= status <= 299
    }
  }

  /** One observable step against the outside world, in the order it happens. */
  datatype Call =
    | CreateClient(name: string)     // `_httpClientFactory.CreateClient(name)`
    | Send(request: Request)         // `GetAsync` / `PostAsync` / `PutAsync`
    | GetFromJson(path: string)      // `GetFromJsonAsync<List<...>>(path)`

  const ClientName := "ApiClient"

  /**
   * The backend API: a response for each request, and the list that
   * `GetFromJsonAsync` yields for a path (None when the body is the JSON null).
   */
  datatype Backend = Backend(
    respond: Request -> HttpResponse,
    getList: string -> Option<seq<NamedRecord>>)

  /** `JsonConvert.DeserializeObject` at the three types the controller asks for. */
  datatype JsonReader = JsonReader(
    errorResponse: string -> Deserialized<ErrorResponse>,
    productList: string -> Deserialized<seq<ProductDto>>,
    product: string -> Deserialized<ProductDto>)

  /** What an action sees besides its arguments: the session store, the backend and the JSON library. */
  datatype Env = Env(session: map<string, string>, backend: Backend, json: JsonReader)

  const TokenKey := "JWToken"

  /** `HttpContext.Session.GetString("JWToken")`. */
  function SessionToken(session: map<string, string>): (token: Option<string>)
    ensures token.Some? <==> TokenKey in session
    ensures token.Some? ==> token.value == session[TokenKey]
  {
    if TokenKey in session then Some(session[TokenKey]) else None
  }

  /** `$"product/{id}"`. */
  function ProductPath(id: Guid): string {
    "product/" + GuidToString(id)
  }

  /** The model a view is rendered with. */
  datatype ViewModel =
    | NoModel                                   // `View()`
    | ProductList(products: Option<seq<ProductDto>>)
    | ProductDetail(product: Option<ProductDto>)
    | CreateForm(create: CreateProductRequest)
    | EditForm(update: UpdateProductRequest)

  /** `IActionResult`, plus the case of an exception escaping the action. */
  datatype ActionResult =
    | RedirectToAction(actionName: string, controllerName: Option<string>)
    | View(model: ViewModel)
    | NotFound
    | Unhandled

  const LoginRedirect := RedirectToAction("Login", Some("MVCAuth"))
  const IndexRedirect := RedirectToAction("Index", None)
}
