# Admin products controller, modelled in Dafny

This project models the admin `ProductsController` of the StyleZone MVC site.
The controller is the back-office page set for products: it lists them, shows
one, and creates and edits them by calling the shop's backend API.
The model covers the decision layer under the HTTP plumbing:

- the session gate on `JWToken` that opens every action;
- the four ordered field rules that Create and Edit run before any write;
- the five-part multipart form that carries a product to the backend;
- `ExtractMessage`, which turns a backend error body into the message shown;
- the projection of categories and brands into dropdown items;
- and, for each of the six actions, what it returns, which calls it makes in
  which order, which TempData notices and model errors it sets, and whether it
  reloads the dropdowns.

The backend API, the session store and the JSON library are inputs (`Env`):
the backend is a function from request to response, and `DeserializeObject`
is a function from body to `Threw | Null | Parsed(value)`.
Each action is written twice:

- as a pure `Step` function in `ProductActions`;
- as a method of the class `AdminProducts.ProductsController`. The class holds
  `tempData`, `modelErrors`, the two ViewBag lists and a ghost log of calls.

Every method is proved to take exactly the step its function describes
(`Took`). The lemmas state what the steps guarantee.

Modules, in dependency order: `Wrappers`, `DotNetText` (the .NET string helpers
and `Int32.ToString`), `Guids` (`Guid`, `Guid.Empty`, the "D" text format),
`Dtos`, `ErrorMessages`, `Dropdowns`, `ProductValidation`, `ProductPayload`,
`Http`, `ProductActions`, `AdminProducts`.

Behaviours of the code worth noting:

- the fallback message is "Có lỗi xảy ra.";
- a whitespace-only description longer than 500 characters is accepted, because
  the length rule only applies to a description that is not blank;
- a refused fetch in Edit's GET sets a notice made of a fixed prefix and the raw
  response body, not the extracted message;
- any non-empty token passes the session gate, a whitespace-only one included;
- the 500 limit on descriptions counts UTF-16 code units, so a character outside
  the Basic Multilingual Plane counts twice.

## Model

| member | source | states |
|---|---|---|
| DotNetText.Utf16Length | MVC/Areas/Admin/Controllers/ProductsController.cs:120 | `Description.Length` in UTF-16 code units: between the character count and twice it |
| DotNetText.BmpLength | MVC/Areas/Admin/Controllers/ProductsController.cs:120 | for text of Basic Multilingual Plane characters, `Length` is the character count |
| DotNetText.SupplementaryLength | MVC/Areas/Admin/Controllers/ProductsController.cs:120 | for text of supplementary characters, `Length` is twice the character count |
| DotNetText.Int32RoundTrip | MVC/Areas/Admin/Controllers/ProductsController.cs:147 | the decimal text sent for `Gender` reads back as the enum's integer value, for every 32-bit value, negatives included |
| Guids.GuidTextRoundTrip | MVC/Areas/Admin/Controllers/ProductsController.cs:148-149 | the "D" text of every GUID reads back as that GUID |
| Guids.GuidToStringInjective | MVC/Areas/Admin/Controllers/ProductsController.cs:47 | distinct GUIDs have distinct texts, so distinct records get distinct dropdown values |
| Dtos.ToUpdateRequest | MVC/Areas/Admin/Controllers/ProductsController.cs:183-191 | the edit request copies Id, Name, Description, Gender, CategoryId and BrandId from the product unchanged |
| ErrorMessages.ExtractMessage | MVC/Areas/Admin/Controllers/ProductsController.cs:26-37 | total: the parsed non-null `message`; the fallback when parsing throws, yields null, or yields a null `message` |
| ErrorMessages.ExtractMessageSource | MVC/Areas/Admin/Controllers/ProductsController.cs:30-31 | any message other than the fallback is exactly the `message` parsed from the body |
| Dropdowns.ToSelectItems | MVC/Areas/Admin/Controllers/ProductsController.cs:45-49 | one item per record, in order, with value = the record's GUID text and text = its name |
| Dropdowns.ToSelectList | MVC/Areas/Admin/Controllers/ProductsController.cs:45-55 | a null list stays null and a list is projected item by item |
| Dropdowns.SelectedValueIsRecordId | MVC/Areas/Admin/Controllers/ProductsController.cs:47 | the value of the i-th item reads back as the id of the i-th record |
| ProductValidation.FirstViolation | MVC/Areas/Admin/Controllers/ProductsController.cs:113-139 | None exactly when no rule fails; otherwise a rule that fails, and every rule ahead of it passes |
| ProductValidation.BlankNameReportedFirst | MVC/Areas/Admin/Controllers/ProductsController.cs:113-118 | a null or whitespace name is the rule reported, whatever the other fields hold |
| ProductValidation.CategoryReportedBeforeBrand | MVC/Areas/Admin/Controllers/ProductsController.cs:127-139 | with name and description valid, a nil category is reported ahead of a nil brand |
| ProductValidation.DescriptionBoundaries | MVC/Areas/Admin/Controllers/ProductsController.cs:120 | `Length` exactly 500 passes, blank text of any length passes, null passes, and non-blank text whose `Length` exceeds 500 fails |
| ProductValidation.SupplementaryCharactersCountTwice | MVC/Areas/Admin/Controllers/ProductsController.cs:120 | 251 or more supplementary characters (emoji, say) are over the limit, since each is two code units |
| ProductPayload.BuildForm | MVC/Areas/Admin/Controllers/ProductsController.cs:143-150 | exactly the parts Name, Description, Gender, CategoryId, BrandId in order; null name or description sent as "" |
| ProductPayload.FormRoundTrip | MVC/Areas/Admin/Controllers/ProductsController.cs:143-150 | reading the form back gives the request's fields, with a null name or description turned into "" and nothing else lost |
| Http.SessionToken | MVC/Areas/Admin/Controllers/ProductsController.cs:59 | the token is present exactly when the session holds `JWToken`, and is its value |
| ProductActions.Record | MVC/Areas/Admin/Controllers/ProductsController.cs:157 | no notice leaves TempData as it was; one notice sets its key to its message |
| ProductActions.Rerender | MVC/Areas/Admin/Controllers/ProductsController.cs:108-109 | a form re-render ends with the dropdown calls and never redirects to login |
| ProductActions.DropdownsOnlyRead | MVC/Areas/Admin/Controllers/ProductsController.cs:39-43 | loading the dropdowns sends no write |
| ProductActions.IndexKeeps | MVC/Areas/Admin/Controllers/ProductsController.cs:57-72 | Index is gated, never reloads dropdowns and sends no write |
| ProductActions.DetailsKeeps | MVC/Areas/Admin/Controllers/ProductsController.cs:75-90 | Details is gated, never reloads dropdowns and sends no write |
| ProductActions.ShowCreateFormKeeps | MVC/Areas/Admin/Controllers/ProductsController.cs:91-97 | the empty Create form is gated, comes with freshly loaded dropdowns and sends no write |
| ProductActions.CreateKeeps | MVC/Areas/Admin/Controllers/ProductsController.cs:101-164 | Create is gated, reloads dropdowns exactly when it shows the form, and POSTs only when signed in, the binder accepted and every rule passed |
| ProductActions.ShowEditFormKeeps | MVC/Areas/Admin/Controllers/ProductsController.cs:166-195 | Edit's GET is gated, reloads dropdowns exactly when it shows the form and sends no write |
| ProductActions.EditKeeps | MVC/Areas/Admin/Controllers/ProductsController.cs:199-263 | Edit's POST is gated, reloads dropdowns exactly when it shows the form, and PUTs only when signed in, the binder accepted and every rule passed |
| ProductActions.AuthenticatedIffNonEmptyToken | MVC/Areas/Admin/Controllers/ProductsController.cs:59-60 | the gate passes exactly when `JWToken` is present and not "", so a whitespace-only token passes |
| ProductActions.UnauthenticatedShortCircuits | MVC/Areas/Admin/Controllers/ProductsController.cs:59-61 | without a token all six actions redirect to Login/MVCAuth having made no call, set no notice or error and loaded no dropdowns |
| ProductActions.CreateRejectionSendsNothing | MVC/Areas/Admin/Controllers/ProductsController.cs:106-139 | a binder rejection or a failed rule re-renders the submitted request after the dropdown calls only; a failed rule adds exactly its own message, a binder rejection none |
| ProductActions.EditRejectionSendsNothing | MVC/Areas/Admin/Controllers/ProductsController.cs:204-238 | as for Create, except that a binder rejection also sets the "invalid data" Error notice |
| ProductActions.BlankNameIsReported | MVC/Areas/Admin/Controllers/ProductsController.cs:212-217 | a blank name makes both POST actions add exactly the name-required error |
| ProductActions.CreateWriteOutcome | MVC/Areas/Admin/Controllers/ProductsController.cs:141-163 | a valid Create POSTs the form to "product"; failure sets Error to the prefix plus the extracted message and re-renders with dropdowns; success sets Success and redirects to Index |
| ProductActions.EditWriteOutcome | MVC/Areas/Admin/Controllers/ProductsController.cs:240-262 | a valid Edit PUTs the form to "product/" + the route id; failure and success as for Create with the update messages |
| ProductActions.ShowEditFormOutcome | MVC/Areas/Admin/Controllers/ProductsController.cs:171-194 | a refused fetch sets Error to the prefix plus the raw body and redirects to Index without dropdowns; a parsed product fills the form and loads the dropdowns |
| ProductActions.ReadFailureOutcomes | MVC/Areas/Admin/Controllers/ProductsController.cs:63-84 | a refused fetch makes Index show an empty list and Details return NotFound |
| ProductActions.ReadsLeaveNoTrace | MVC/Areas/Admin/Controllers/ProductsController.cs:57-90 | Index and Details set no notice, add no error and load no dropdowns |
| AdminProducts.ProductsController.constructor | MVC/Areas/Admin/Controllers/ProductsController.cs:16-19 | a controller for one request: TempData as the previous request left it, no model errors, no dropdowns, no calls yet |
| AdminProducts.ProductsController.CreateClient | MVC/Areas/Admin/Controllers/ProductsController.cs:41 | logs the creation of the "ApiClient" client |
| AdminProducts.ProductsController.Send | MVC/Areas/Admin/Controllers/ProductsController.cs:63 | returns the backend's response to the request and logs the request |
| AdminProducts.ProductsController.GetFromJson | MVC/Areas/Admin/Controllers/ProductsController.cs:42-43 | returns the backend's list for the path and logs the fetch |
| AdminProducts.ProductsController.LoadDropdowns | MVC/Areas/Admin/Controllers/ProductsController.cs:39-56 | a client, then categories, then brands; both ViewBag lists become the projections of what was fetched |
| AdminProducts.ProductsController.ShowForm | MVC/Areas/Admin/Controllers/ProductsController.cs:113-117 | sets the notice, appends the errors as `ModelState.AddModelError` does, reloads the dropdowns and shows the form again |
| AdminProducts.ProductsController.Write | MVC/Areas/Admin/Controllers/ProductsController.cs:152-163 | sends the write and takes the failure or success step of `WriteStep` |
| AdminProducts.ProductsController.Index | MVC/Areas/Admin/Controllers/ProductsController.cs:57-72 | returns and does exactly what `IndexStep` says |
| AdminProducts.ProductsController.Details | MVC/Areas/Admin/Controllers/ProductsController.cs:75-90 | returns and does exactly what `DetailsStep` says |
| AdminProducts.ProductsController.ShowCreateForm | MVC/Areas/Admin/Controllers/ProductsController.cs:91-97 | returns and does exactly what `ShowCreateFormStep` says |
| AdminProducts.ProductsController.Create | MVC/Areas/Admin/Controllers/ProductsController.cs:101-164 | returns and does exactly what `CreateStep` says |
| AdminProducts.ProductsController.ShowEditForm | MVC/Areas/Admin/Controllers/ProductsController.cs:166-195 | returns and does exactly what `ShowEditFormStep` says |
| AdminProducts.ProductsController.Edit | MVC/Areas/Admin/Controllers/ProductsController.cs:199-263 | returns and does exactly what `EditStep` says |

## Left out

- HTTP transport: `IHttpClientFactory`, `GetAsync`, `PostAsync` and `PutAsync` are one oracle from request to (status, body). Their order is kept in the ghost call log; their timing and network failures are not modelled.
- A refused category or brand fetch makes `GetFromJsonAsync` throw. It is not modelled: the backend's `getList` only yields a list or null.
- JSON deserialization by Newtonsoft is an input, `Threw | Null | Parsed(value)`, for each of the three types read. Which bodies parse is not modelled.
- An exception that escapes an action is the single result `Unhandled`. This covers unparseable JSON in Index, Details and Edit's GET, and the null product dereferenced in Edit's GET.
- `ModelState.IsValid` is a boolean input; model binding and its own errors are not modelled.
- Anti-forgery validation, Razor views and the rendering of `SelectListItem`s are not modelled.
- `async`/`await` is modelled as plain sequential calls; there is no concurrency.
- `ProductDto`, `CategoryDto` and `BrandDto` keep only the fields the controller reads.
- `Guid.ToString()` is modelled in its default "D" format, lower-case. `Int32.ToString()` is modelled with a plain leading "-" and no culture.
- Strings are sequences of Unicode scalar values, so a string holding an unpaired surrogate, which .NET allows, cannot be written in the model.
- ProductActions.Record: TempData is a `map<string, string>` whose keys are compared exactly. ASP.NET Core compares TempData keys ignoring case (`StringComparer.OrdinalIgnoreCase`), so an incoming entry such as "error" is overwritten by a write to "Error" there but kept beside it here. TempData values are strings only here, where .NET stores objects. The same holds for `AdminProducts.ProductsController.Took` and the controller's `tempData` field.
- AdminProducts.ProductsController.ShowForm: requires at most one notice, since no action sets more than one TempData key on a re-render.
