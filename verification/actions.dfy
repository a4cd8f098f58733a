/**
 * Each action of the admin products controller as a value: the `Step` it takes
 * from a given environment and input, that is, its result, the calls it makes in
 * order, the TempData notices it writes, the model errors it adds and whether it
 * reloads the dropdowns. The controller class is proved to take exactly these
 * steps; the lemmas here state what the steps guarantee.
 */
module ProductActions {
  import opened Wrappers
  import opened DotNetText
  import opened Guids
  import opened Dtos
  import opened ErrorMessages
  import opened Dropdowns
  import opened ProductValidation
  import opened ProductPayload
  import opened Http

  /** A write `TempData[key] = message`. */
  datatype Notice = Notice(key: string, message: string)

  /** `ModelState.AddModelError(key, message)`. */
  datatype ModelError = ModelError(key: string, message: string)

  datatype Step = Step(
    result: ActionResult,
    calls: seq<Call>,
    notices: seq<Notice>,
    errors: seq<ModelError>,
    reloadsDropdowns: bool)

  const CreateFailedPrefix := "Thêm sản phẩm thất bại: "
  const CreatedMessage := "Thêm sản phẩm thành công!"
  const NotFoundPrefix := "Không tìm thấy sản phẩm: "
  const InvalidDataMessage := "Dữ liệu không hợp lệ. Vui lòng kiểm tra lại!"
  const UpdateFailedPrefix := "Cập nhật sản phẩm thất bại: "
  const UpdatedMessage := "Cập nhật sản phẩm thành công!"

  /** `LoadDropdownsAsync`: a client, then categories, then brands. */
  const DropdownCalls: seq<Call> := [CreateClient(ClientName), GetFromJson("category"), GetFromJson("brand")]

  /** The redirect to the login page, before anything else happens. */
  const LoginStep := Step(LoginRedirect, [], [], [], false)

  /** TempData after the writes of `notices`, in order. */
  function Record(tempData: map<string, string>, notices: seq<Notice>): (after: map<string, string>)
    ensures notices == [] ==> after == tempData
    ensures |notices| == 1 ==> after == tempData[notices[0].key := notices[0].message]
    decreases notices
  {
    if notices == [] then tempData
    else Record(tempData[notices[0].key := notices[0].message], notices[1..])
  }

  /** The session holds a token that `string.IsNullOrEmpty` does not reject. */
  predicate Authenticated(env: Env) {
    !IsNullOrEmpty(SessionToken(env.session))
  }

  /** No call sends a POST or a PUT. */
  predicate NoWrite(calls: seq<Call>) {
    forall i :: 0 <= i < |calls| ==> !(calls[i].Send? && !calls[i].request.Get?)
  }

  /** A page that shows an editable form: `View()` of Create or a create/edit request. */
  predicate IsFormView(result: ActionResult) {
    result.View? && (result.model.NoModel? || result.model.CreateForm? || result.model.EditForm?)
  }

  /** Dropdowns are reloaded, as the last calls, exactly when a form is shown. */
  predicate ReloadsIffForm(s: Step) {
    && (s.reloadsDropdowns <==> IsFormView(s.result))
    && (s.reloadsDropdowns ==> |s.calls| >= 3 && s.calls[|s.calls| - 3..] == DropdownCalls)
  }

  /** What every action keeps: the gate decides first, and dropdowns accompany exactly the forms. */
  predicate Keeps(env: Env, s: Step) {
    Gated(env, s) && ReloadsIffForm(s)
  }

  /** The gate decides the first step: login without a token, never login with one. */
  predicate Gated(env: Env, s: Step) {
    && (!Authenticated(env) ==> s == LoginStep)
    && (Authenticated(env) ==> s.result != LoginRedirect)
  }

  /** Sending one request on a fresh client. */
  function Exchange(request: Request): seq<Call> {
    [CreateClient(ClientName), Send(request)]
  }

  /** A form re-render: the model, any notices and errors, and reloaded dropdowns after `before`. */
  function Rerender(model: ViewModel, before: seq<Call>, notices: seq<Notice>, errors: seq<ModelError>): (s: Step)
    requires model.NoModel? || model.CreateForm? || model.EditForm?
    ensures ReloadsIffForm(s) && s.result != LoginRedirect
  {
    Step(View(model), before + DropdownCalls, notices, errors, true)
  }

  /**
   * What Create and Edit do once every check has passed: send the write, then
   * either set the error notice from the body's message and show the form
   * again, or set the success notice and redirect to Index.
   */
  function WriteStep(env: Env, write: Request, form: ViewModel, failedPrefix: string, succeeded: string): Step
    requires form.CreateForm? || form.EditForm?
  {
    var response := env.backend.respond(write);
    if !response.IsSuccessStatusCode() then
      var notice := Notice("Error", failedPrefix + ExtractMessage(response.body, env.json.errorResponse));
      Rerender(form, Exchange(write), [notice], [])
    else Step(IndexRedirect, Exchange(write), [Notice("Success", succeeded)], [], false)
  }

  /** `Index()`: the product list; an empty list when the backend refuses. */
  function IndexStep(env: Env): Step {
    if !Authenticated(env) then LoginStep
    else
      var request := Get("product");
      var response := env.backend.respond(request);
      var calls := Exchange(request);
      if !response.IsSuccessStatusCode() then Step(View(ProductList(Some([]))), calls, [], [], false)
      else match env.json.productList(response.body)
        case Threw => Step(Unhandled, calls, [], [], false)
        case Null => Step(View(ProductList(None)), calls, [], [], false)
        case Parsed(products) => Step(View(ProductList(Some(products))), calls, [], [], false)
  }

  /** `Details(id)`: one product; NotFound when the backend refuses. */
  function DetailsStep(env: Env, id: Guid): Step {
    if !Authenticated(env) then LoginStep
    else
      var request := Get(ProductPath(id));
      var response := env.backend.respond(request);
      var calls := Exchange(request);
      if !response.IsSuccessStatusCode() then Step(NotFound, calls, [], [], false)
      else match env.json.product(response.body)
        case Threw => Step(Unhandled, calls, [], [], false)
        case Null => Step(View(ProductDetail(None)), calls, [], [], false)
        case Parsed(product) => Step(View(ProductDetail(Some(product))), calls, [], [], false)
  }

  /** `Create()`: the empty form with its dropdowns. */
  function ShowCreateFormStep(env: Env): Step {
    if !Authenticated(env) then LoginStep
    else Rerender(NoModel, [], [], [])
  }

  /** `Create(request)`: validate, POST the form, report the outcome. */
  function CreateStep(env: Env, modelStateIsValid: bool, request: CreateProductRequest): Step {
    if !Authenticated(env) then LoginStep
    else if !modelStateIsValid then Rerender(CreateForm(request), [], [], [])
    else match FirstViolation(request)
      case Some(rule) => Rerender(CreateForm(request), [], [], [ModelError("", Message(rule))])
      case None => WriteStep(env, Post("product", BuildForm(request)), CreateForm(request),
                             CreateFailedPrefix, CreatedMessage)
  }

  /** `Edit(id)`: fetch the product and pre-fill the edit form. */
  function ShowEditFormStep(env: Env, id: Guid): Step {
    if !Authenticated(env) then LoginStep
    else
      var request := Get(ProductPath(id));
      var response := env.backend.respond(request);
      var calls := Exchange(request);
      if !response.IsSuccessStatusCode() then
        Step(IndexRedirect, calls, [Notice("Error", NotFoundPrefix + response.body)], [], false)
      else match env.json.product(response.body)
        case Parsed(product) => Rerender(EditForm(ToUpdateRequest(product)), calls, [], [])
        // a throwing parse, or a null product dereferenced for its `Id`
        case _ => Step(Unhandled, calls, [], [], false)
  }

  /** `Edit(id, request)`: validate, PUT the form to the route's id, report the outcome. */
  function EditStep(env: Env, id: Guid, modelStateIsValid: bool, request: UpdateProductRequest): Step {
    if !Authenticated(env) then LoginStep
    else if !modelStateIsValid then
      Rerender(EditForm(request), [], [Notice("Error", InvalidDataMessage)], [])
    else match FirstViolation(request.fields)
      case Some(rule) => Rerender(EditForm(request), [], [], [ModelError("", Message(rule))])
      case None => WriteStep(env, Put(ProductPath(id), BuildForm(request.fields)), EditForm(request),
                             UpdateFailedPrefix, UpdatedMessage)
  }

  // ---------------------------------------------------------------------------
  // The shape every action keeps

  lemma {:induction false} NoWriteConcat(a: seq<Call>, b: seq<Call>)
    ensures NoWrite(a + b) <==> NoWrite(a) && NoWrite(b)
  {
    if NoWrite(a + b) {
      forall i | 0 <= i < |a| ensures !(a[i].Send? && !a[i].request.Get?) {
        assert a[i] == (a + b)[i];
      }
      forall i | 0 <= i < |b| ensures !(b[i].Send? && !b[i].request.Get?) {
        assert b[i] == (a + b)[|a| + i];
      }
    } else if NoWrite(a) && NoWrite(b) {
      forall i | 0 <= i < |a + b| ensures !((a + b)[i].Send? && !(a + b)[i].request.Get?) {
        if i < |a| {
          assert (a + b)[i] == a[i];
        } else {
          assert (a + b)[i] == b[i - |a|];
        }
      }
    }
  }

  /** Loading the dropdowns only reads. */
  lemma DropdownsOnlyRead()
    ensures NoWrite(DropdownCalls)
  {
  }

  /**
   * The per-action lemmas below state that each action keeps the shape (`Keeps`):
   * the gate decides first, a form view always comes with both dropdowns freshly
   * loaded as the last calls and no other result reloads them; and only a
   * submission that passed the gate, the model binder and every field rule sends
   * a write.
   */
  lemma IndexKeeps(env: Env)
    ensures Keeps(env, IndexStep(env)) && NoWrite(IndexStep(env).calls)
  {
  }

  lemma DetailsKeeps(env: Env, id: Guid)
    ensures var s := DetailsStep(env, id); Keeps(env, s) && NoWrite(s.calls)
  {
  }

  lemma ShowCreateFormKeeps(env: Env)
    ensures var s := ShowCreateFormStep(env); Keeps(env, s) && NoWrite(s.calls)
  {
    DropdownsOnlyRead();
    assert [] + DropdownCalls == DropdownCalls;
  }

  lemma CreateKeeps(env: Env, modelStateIsValid: bool, request: CreateProductRequest)
    ensures var s := CreateStep(env, modelStateIsValid, request);
      && Keeps(env, s)
      && (!NoWrite(s.calls) ==> Authenticated(env) && modelStateIsValid && FirstViolation(request).None?)
  {
    DropdownsOnlyRead();
    assert [] + DropdownCalls == DropdownCalls;
  }

  lemma ShowEditFormKeeps(env: Env, id: Guid)
    ensures var s := ShowEditFormStep(env, id); Keeps(env, s) && NoWrite(s.calls)
  {
    if Authenticated(env) {
      var calls := Exchange(Get(ProductPath(id)));
      DropdownsOnlyRead();
      NoWriteConcat(calls, DropdownCalls);
    }
  }

  lemma EditKeeps(env: Env, id: Guid, modelStateIsValid: bool, request: UpdateProductRequest)
    ensures var s := EditStep(env, id, modelStateIsValid, request);
      && Keeps(env, s)
      && (!NoWrite(s.calls) ==> Authenticated(env) && modelStateIsValid && FirstViolation(request.fields).None?)
  {
    DropdownsOnlyRead();
    assert [] + DropdownCalls == DropdownCalls;
  }

  // ---------------------------------------------------------------------------
  // Authentication gate

  /** The gate passes any non-empty token, whitespace-only ones included. */
  lemma AuthenticatedIffNonEmptyToken(env: Env)
    ensures Authenticated(env) <==> TokenKey in env.session && env.session[TokenKey] != ""
  {
  }

  /**
   * Without a token every action redirects to the login page having created no
   * client, sent no request, written no notice or error and loaded no dropdowns.
   */
  lemma UnauthenticatedShortCircuits(env: Env, id: Guid, modelStateIsValid: bool,
                                     create: CreateProductRequest, update: UpdateProductRequest)
    requires !Authenticated(env)
    ensures IndexStep(env) == LoginStep && DetailsStep(env, id) == LoginStep
    ensures ShowCreateFormStep(env) == LoginStep && CreateStep(env, modelStateIsValid, create) == LoginStep
    ensures ShowEditFormStep(env, id) == LoginStep && EditStep(env, id, modelStateIsValid, update) == LoginStep
  {
  }

  // ---------------------------------------------------------------------------
  // Validation

  /**
   * A submission the model binder rejects, or one that fails a field rule,
   * re-renders the submitted request with the dropdowns and sends no write.
   * A failing rule adds exactly its own message; a binder rejection adds none.
   */
  lemma CreateRejectionSendsNothing(env: Env, modelStateIsValid: bool, request: CreateProductRequest)
    requires Authenticated(env)
    requires !modelStateIsValid || FirstViolation(request).Some?
    ensures var s := CreateStep(env, modelStateIsValid, request);
      && s.result == View(CreateForm(request)) && s.calls == DropdownCalls && NoWrite(s.calls)
      && s.notices == []
      && s.errors == (if modelStateIsValid then [ModelError("", Message(FirstViolation(request).value))] else [])
  {
    var errors := if modelStateIsValid then [ModelError("", Message(FirstViolation(request).value))] else [];
    assert CreateStep(env, modelStateIsValid, request) == Rerender(CreateForm(request), [], [], errors);
    assert [] + DropdownCalls == DropdownCalls;
    DropdownsOnlyRead();
  }

  /** As for Create, except that a binder rejection also sets the "invalid data" error notice. */
  lemma EditRejectionSendsNothing(env: Env, id: Guid, modelStateIsValid: bool, request: UpdateProductRequest)
    requires Authenticated(env)
    requires !modelStateIsValid || FirstViolation(request.fields).Some?
    ensures var s := EditStep(env, id, modelStateIsValid, request);
      && s.result == View(EditForm(request)) && s.calls == DropdownCalls && NoWrite(s.calls)
      && s.notices == (if modelStateIsValid then [] else [Notice("Error", InvalidDataMessage)])
      && s.errors == (if modelStateIsValid then [ModelError("", Message(FirstViolation(request.fields).value))] else [])
  {
    var notices := if modelStateIsValid then [] else [Notice("Error", InvalidDataMessage)];
    var errors := if modelStateIsValid then [ModelError("", Message(FirstViolation(request.fields).value))] else [];
    assert EditStep(env, id, modelStateIsValid, request) == Rerender(EditForm(request), [], notices, errors);
    assert [] + DropdownCalls == DropdownCalls;
    DropdownsOnlyRead();
  }

  /** A blank name is the error reported, whatever the other fields hold. */
  lemma BlankNameIsReported(env: Env, create: CreateProductRequest, id: Guid, update: UpdateProductRequest)
    requires Authenticated(env)
    requires IsNullOrWhiteSpace(create.name) && IsNullOrWhiteSpace(update.fields.name)
    ensures CreateStep(env, true, create).errors == [ModelError("", Message(NameRequired))]
    ensures EditStep(env, id, true, update).errors == [ModelError("", Message(NameRequired))]
  {
  }

  // ---------------------------------------------------------------------------
  // Write outcomes

  /**
   * A valid Create POSTs the five-part form to "product". On failure it sets the
   * error notice from the body's message and re-renders the submitted request;
   * on success it sets the success notice and redirects to Index.
   */
  lemma CreateWriteOutcome(env: Env, request: CreateProductRequest)
    requires Authenticated(env) && FirstViolation(request).None?
    ensures var s := CreateStep(env, true, request);
      var post := Post("product", BuildForm(request));
      var response := env.backend.respond(post);
      && s.calls[..2] == [CreateClient(ClientName), Send(post)]
      && s.errors == []
      && (!response.IsSuccessStatusCode() ==>
            && s.notices == [Notice("Error", CreateFailedPrefix + ExtractMessage(response.body, env.json.errorResponse))]
            && s.result == View(CreateForm(request)) && s.reloadsDropdowns)
      && (response.IsSuccessStatusCode() ==>
            s.notices == [Notice("Success", CreatedMessage)] && s.result == IndexRedirect && s.calls == Exchange(post))
  {
  }

  /** A valid Edit PUTs the form to the product path of the route id, whatever `request.id` holds. */
  lemma EditWriteOutcome(env: Env, id: Guid, request: UpdateProductRequest)
    requires Authenticated(env) && FirstViolation(request.fields).None?
    ensures var s := EditStep(env, id, true, request);
      var put := Put("product/" + GuidToString(id), BuildForm(request.fields));
      var response := env.backend.respond(put);
      && s.calls[..2] == [CreateClient(ClientName), Send(put)]
      && s.errors == []
      && (!response.IsSuccessStatusCode() ==>
            && s.notices == [Notice("Error", UpdateFailedPrefix + ExtractMessage(response.body, env.json.errorResponse))]
            && s.result == View(EditForm(request)) && s.reloadsDropdowns)
      && (response.IsSuccessStatusCode() ==>
            s.notices == [Notice("Success", UpdatedMessage)] && s.result == IndexRedirect && s.calls == Exchange(put))
  {
  }

  // ---------------------------------------------------------------------------
  // Reads

  /**
   * Edit's GET: a refused fetch sets the error notice from the raw body (not
   * the extracted message) and redirects to Index without dropdowns; a fetched
   * product fills the form field for field.
   */
  lemma ShowEditFormOutcome(env: Env, id: Guid)
    requires Authenticated(env)
    ensures var s := ShowEditFormStep(env, id);
      var response := env.backend.respond(Get(ProductPath(id)));
      && (!response.IsSuccessStatusCode() ==>
            s.result == IndexRedirect && s.notices == [Notice("Error", NotFoundPrefix + response.body)]
            && !s.reloadsDropdowns)
      && (response.IsSuccessStatusCode() && env.json.product(response.body).Parsed? ==>
            s.result == View(EditForm(ToUpdateRequest(env.json.product(response.body).value)))
            && s.notices == [] && s.reloadsDropdowns)
  {
  }

  /** Index shows an empty list, and Details NotFound, when the backend refuses. */
  lemma ReadFailureOutcomes(env: Env, id: Guid)
    requires Authenticated(env)
    ensures !env.backend.respond(Get("product")).IsSuccessStatusCode() ==>
              IndexStep(env).result == View(ProductList(Some([])))
    ensures !env.backend.respond(Get(ProductPath(id))).IsSuccessStatusCode() ==>
              DetailsStep(env, id).result == NotFound
  {
  }

  /** Index and Details set no TempData notice, add no model error and leave the dropdowns as they were. */
  lemma ReadsLeaveNoTrace(env: Env, id: Guid)
    ensures IndexStep(env).notices == [] && IndexStep(env).errors == [] && !IndexStep(env).reloadsDropdowns
    ensures DetailsStep(env, id).notices == [] && DetailsStep(env, id).errors == []
    ensures !DetailsStep(env, id).reloadsDropdowns
  {
  }
}
