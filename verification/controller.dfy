/**
 * The admin `ProductsController`: one instance serves one request. Its state is
 * what the actions change in place (TempData, the model-state errors, the two
 * ViewBag dropdown lists) and, as a ghost, the log of calls it has made to the
 * client factory and the backend. Each action is proved to take exactly the
 * `Step` its specification function describes.
 */
module AdminProducts {
  import opened Wrappers
  import opened DotNetText
  import opened Guids
  import opened Dtos
  import opened ErrorMessages
  import opened Dropdowns
  import opened ProductValidation
  import opened ProductPayload
  import opened Http
  import opened ProductActions

  class ProductsController {
    const env: Env
    var tempData: map<string, string>
    var modelErrors: seq<ModelError>
    var viewBagCategories: Option<seq<SelectListItem>>
    var viewBagBrands: Option<seq<SelectListItem>>
    ghost var log: seq<Call>

    /** A controller for one request; `tempData` holds the notices the previous request left. */
    constructor (env: Env, tempData: map<string, string>)
      ensures this.env == env && log == []
      ensures this.tempData == tempData && modelErrors == []
      ensures viewBagCategories == None && viewBagBrands == None
    {
      this.env := env;
      this.tempData := tempData;
      modelErrors := [];
      viewBagCategories := None;
      viewBagBrands := None;
      log := [];
    }

    /** The new state is the old one after step `s`: its calls, notices, errors and dropdowns. */
    twostate predicate Took(s: Step)
      reads this
    {
      && log == old(log) + s.calls
      && tempData == Record(old(tempData), s.notices)
      && modelErrors == old(modelErrors) + s.errors
      && if s.reloadsDropdowns then
           && viewBagCategories == ToSelectList(env.backend.getList("category"))
           && viewBagBrands == ToSelectList(env.backend.getList("brand"))
         else
           viewBagCategories == old(viewBagCategories) && viewBagBrands == old(viewBagBrands)
    }

    /** `_httpClientFactory.CreateClient("ApiClient")`. */
    method CreateClient()
      modifies this`log
      ensures log == old(log) + [Call.CreateClient(ClientName)]
    {
      log := log + [Call.CreateClient(ClientName)];
    }

    /** One request to the backend and its response. */
    method Send(request: Request) returns (response: HttpResponse)
      modifies this`log
      ensures response == env.backend.respond(request)
      ensures log == old(log) + [Call.Send(request)]
    {
      response := env.backend.respond(request);
      log := log + [Call.Send(request)];
    }

    /** `GetFromJsonAsync<List<T>>(path)`. */
    method GetFromJson(path: string) returns (records: Option<seq<NamedRecord>>)
      modifies this`log
      ensures records == env.backend.getList(path)
      ensures log == old(log) + [Call.GetFromJson(path)]
    {
      records := env.backend.getList(path);
      log := log + [Call.GetFromJson(path)];
    }

    /** `LoadDropdownsAsync`: categories, then brands, each projected into the ViewBag. */
    method LoadDropdowns()
      modifies this`log, this`viewBagCategories, this`viewBagBrands
      ensures log == old(log) + DropdownCalls
      ensures viewBagCategories == ToSelectList(env.backend.getList("category"))
      ensures viewBagBrands == ToSelectList(env.backend.getList("brand"))
    {
      CreateClient();
      var categories := GetFromJson("category");
      var brands := GetFromJson("brand");
      viewBagCategories := ToSelectList(categories);
      viewBagBrands := ToSelectList(brands);
    }

    /** Shows `form` again: sets the notices, adds the errors (`ModelState.AddModelError`), reloads the dropdowns. */
    method ShowForm(form: ViewModel, notices: seq<Notice>, errors: seq<ModelError>) returns (result: ActionResult)
      requires form.NoModel? || form.CreateForm? || form.EditForm?
      requires |notices| <= 1
      modifies this
      ensures result == ProductActions.Rerender(form, [], notices, errors).result
      ensures Took(ProductActions.Rerender(form, [], notices, errors))
    {
      modelErrors := modelErrors + errors;
      if notices != [] {
        tempData := tempData[notices[0].key := notices[0].message];
      }
      LoadDropdowns();
      assert [] + DropdownCalls == DropdownCalls;
      return View(form);
    }

    /** The common tail of both POST actions: send the write and report its outcome. */
    method Write(write: Request, form: ViewModel, failedPrefix: string, succeeded: string)
      returns (result: ActionResult)
      requires form.CreateForm? || form.EditForm?
      modifies this
      ensures result == WriteStep(env, write, form, failedPrefix, succeeded).result
      ensures Took(WriteStep(env, write, form, failedPrefix, succeeded))
    {
      CreateClient();
      var response := Send(write);
      if !response.IsSuccessStatusCode() {
        var error := response.body;
        tempData := tempData["Error" := failedPrefix + ExtractMessage(error, env.json.errorResponse)];
        LoadDropdowns();
        return View(form);
      }
      tempData := tempData["Success" := succeeded];
      return IndexRedirect;
    }

    method Index() returns (result: ActionResult)
      modifies this
      ensures result == IndexStep(env).result && Took(IndexStep(env))
    {
      var token := SessionToken(env.session);
      if IsNullOrEmpty(token) {
        return LoginRedirect;
      }
      CreateClient();
      var response := Send(Get("product"));
      if !response.IsSuccessStatusCode() {
        return View(ProductList(Some([])));
      }
      match env.json.productList(response.body) {
        case Threw => result := Unhandled;
        case Null => result := View(ProductList(None));
        case Parsed(products) => result := View(ProductList(Some(products)));
      }
    }

    method Details(id: Guid) returns (result: ActionResult)
      modifies this
      ensures result == DetailsStep(env, id).result && Took(DetailsStep(env, id))
    {
      var token := SessionToken(env.session);
      if IsNullOrEmpty(token) {
        return LoginRedirect;
      }
      CreateClient();
      var response := Send(Get(ProductPath(id)));
      if !response.IsSuccessStatusCode() {
        return NotFound;
      }
      match env.json.product(response.body) {
        case Threw => result := Unhandled;
        case Null => result := View(ProductDetail(None));
        case Parsed(product) => result := View(ProductDetail(Some(product)));
      }
    }

    /** `Create()` (GET). */
    method ShowCreateForm() returns (result: ActionResult)
      modifies this
      ensures result == ShowCreateFormStep(env).result && Took(ShowCreateFormStep(env))
    {
      var token := SessionToken(env.session);
      if IsNullOrEmpty(token) {
        return LoginRedirect;
      }
      result := ShowForm(NoModel, [], []);
    }

    /** `Create(request)` (POST); `modelStateIsValid` is what model binding decided. */
    method Create(modelStateIsValid: bool, request: CreateProductRequest) returns (result: ActionResult)
      modifies this
      ensures result == CreateStep(env, modelStateIsValid, request).result
      ensures Took(CreateStep(env, modelStateIsValid, request))
    {
      var token := SessionToken(env.session);
      if IsNullOrEmpty(token) {
        return LoginRedirect;
      }
      if !modelStateIsValid {
        result := ShowForm(CreateForm(request), [], []);
        return;
      }
      var violation := FirstViolation(request);
      if violation.Some? {
        result := ShowForm(CreateForm(request), [], [ModelError("", Message(violation.value))]);
        return;
      }
      var form := BuildForm(request);
      result := Write(Post("product", form), CreateForm(request), CreateFailedPrefix, CreatedMessage);
    }

    /** `Edit(id)` (GET). */
    method ShowEditForm(id: Guid) returns (result: ActionResult)
      modifies this
      ensures result == ShowEditFormStep(env, id).result && Took(ShowEditFormStep(env, id))
    {
      var token := SessionToken(env.session);
      if IsNullOrEmpty(token) {
        return LoginRedirect;
      }
      CreateClient();
      var response := Send(Get(ProductPath(id)));
      if !response.IsSuccessStatusCode() {
        tempData := tempData["Error" := NotFoundPrefix + response.body];
        return IndexRedirect;
      }
      match env.json.product(response.body) {
        case Parsed(product) =>
          var updateRequest := ToUpdateRequest(product);
          LoadDropdowns();
          result := View(EditForm(updateRequest));
        case _ =>
          result := Unhandled;
      }
    }

    /** `Edit(id, request)` (POST): the write goes to the route's `id`. */
    method Edit(id: Guid, modelStateIsValid: bool, request: UpdateProductRequest) returns (result: ActionResult)
      modifies this
      ensures result == EditStep(env, id, modelStateIsValid, request).result
      ensures Took(EditStep(env, id, modelStateIsValid, request))
    {
      var token := SessionToken(env.session);
      if IsNullOrEmpty(token) {
        return LoginRedirect;
      }
      if !modelStateIsValid {
        result := ShowForm(EditForm(request), [Notice("Error", InvalidDataMessage)], []);
        return;
      }
      var violation := FirstViolation(request.fields);
      if violation.Some? {
        result := ShowForm(EditForm(request), [], [ModelError("", Message(violation.value))]);
        return;
      }
      var form := BuildForm(request.fields);
      result := Write(Put(ProductPath(id), form), EditForm(request), UpdateFailedPrefix, UpdatedMessage);
    }
  }
}
