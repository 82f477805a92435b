# Orders client: verified model of its controllers and services

This project models the sequential core of an Angular client for sales
orders. It covers four pieces:

- **Order editor** (`OrderForm`). The validators the form is declared with, the
  construction of a product row, and a component over a `seq<Row>` that adds,
  removes and rebuilds rows. It submits the form as a create or an update.
- **Login and session** (`Login`, `Auth`). The session store is one browser
  storage slot (`auth_token`) plus a "current user" subject. The login screen
  is a state machine: credentials, then an optional second-factor challenge,
  then a stored token.
- **Order list** (`OrderList`, `FilterPipeline`). The filter fields, the
  loading and error flags, and two filter streams. Each stream is
  `debounceTime(400)` followed by `distinctUntilChanged()`.
- **Order service** (`OrderService`). The query parameters of the list call,
  the URLs of the id operations, and the message `handleError` builds.

Shared pieces:

- `Models` holds the records (`Order`, `Product`, the form's `Row`, the
  submitted `OrderPayload`).
- `JsText` holds the JavaScript string behaviour the code relies on: `String(n)`
  of an integer, the pattern `^[1-9][0-9]*$`, `length` in UTF-16 code units,
  and `trim()`.

How the model works:

- A backend call is modelled by the `Request` a method returns. Its outcome is
  a separate handler method that receives the response or the error.
- Navigation is returned as its target.
- A debounce timer firing is an explicit "settled" event.
- Each stateful component is a class whose fields are the source's fields. Its
  methods state the whole new state: every field they change, and that every
  other field stays as it was.

In a few places the code does less than a client of this kind is usually
expected to do. The model follows the code:

- The code has no unwrapping of a `{member: [...]}` envelope.
- It has no price-at-purchase field and no per-request sequence numbers.
- A successful second-factor verification does not discard `tempToken` or
  reset `twoFactorRequired`.
- `logout()` does not touch the login screen's pending challenge.
- After logout, authorized calls send the header `Bearer null`. The header is
  not omitted.

## Model

| member | source | states |
|---|---|---|
| JsText.Digits | src/app/services/order.service.ts:51 | the decimal rendering of a number has at least one character, all digits, and starts with '0' only for zero |
| JsText.DigitsRoundTrip | src/app/services/order.service.ts:51 | reading the rendered digits back gives the number |
| JsText.NumberTextInjective | src/app/services/order.service.ts:28 | different integers render as different text |
| JsText.DigitsInjective | src/app/services/order.service.ts:28 | different numbers have different digits |
| JsText.NumberText | src/app/services/order.service.ts:28 | `String(n)` of an integer: a "-" before the digits of a negative number; see `DigitsRoundTrip`, `NumberTextInjective` and `PositiveIntegerPattern` |
| JsText.PositiveIntegerPattern | src/app/components/order-form/order-form.component.ts:112 | an integer's text matches `^[1-9][0-9]*$` iff the integer is at least 1 |
| JsText.Utf16Length | src/app/components/order-form/order-form.component.ts:72 | JavaScript's `length`: between the number of characters and twice that, zero only for the empty string, the character count when no character is above U+FFFF and twice it when all are |
| JsText.AstralCharactersCountTwice | src/app/components/order-form/order-form.component.ts:72 | two characters above U+FFFF are four code units long |
| JsText.Utf16LengthOfCharacter | src/app/components/order-form/order-form.component.ts:72 | one character is one code unit, or two above U+FFFF |
| JsText.Utf16LengthAppend | src/app/components/order-form/order-form.component.ts:72 | the length of a concatenation is the sum of the lengths; with the one-character case this fixes the length of every string |
| JsText.LeadingSpaces | src/app/services/order.service.ts:21 | the counted prefix is all whitespace and the next character is not |
| JsText.TrailingSpaces | src/app/services/order.service.ts:21 | the counted suffix is all whitespace and the character before it is not |
| JsText.SpacesDoNotOverlap | src/app/services/order.service.ts:21-22 | in a string that is not all whitespace, the leading and trailing whitespace do not overlap |
| JsText.Trim | src/app/services/order.service.ts:21-23 | the trimmed term is empty iff the term is all whitespace; otherwise it starts and ends with non-whitespace |
| JsText.TrimIsMiddle | src/app/services/order.service.ts:22 | trimming keeps a contiguous middle part and removes only whitespace around it |
| JsText.TrimIdempotent | src/app/services/order.service.ts:22 | trimming twice equals trimming once |
| OrderService.DateParam | src/app/services/order.service.ts:18-20 | `date` is present iff the date filter is a non-empty string, with the value unchanged |
| OrderService.SearchParam | src/app/services/order.service.ts:21-23 | `search` is present iff the trimmed term is non-empty, with the trimmed term as its value |
| OrderService.ParamsShape | src/app/services/order.service.ts:16-24 | at most the two parameters; `date` comes before `search`; no arguments give no parameters |
| OrderService.OrdersParams | src/app/services/order.service.ts:17-23 | the query parameters of the list call; their meaning is stated by `DateParam`, `SearchParam` and `ParamsShape` |
| OrderService.GetOrders | src/app/services/order.service.ts:16-24 | a GET of `/api/orders` with those parameters and no body |
| OrderService.GetOrderById | src/app/services/order.service.ts:27-30 | a GET of `OrderUrl(id)`; see `IdOperationsTargetOrderUrl` |
| OrderService.CreateOrder | src/app/services/order.service.ts:32-34 | a POST of the payload to `/api/orders` |
| OrderService.UpdateOrder | src/app/services/order.service.ts:36-39 | a PUT of the payload to `OrderUrl(id)` |
| OrderService.DeleteOrder | src/app/services/order.service.ts:41-44 | a DELETE of `OrderUrl(id)` |
| OrderService.IdText | src/app/services/order.service.ts:28 | `${id}` of a string or numeric id, through `NumberText` for numbers |
| OrderService.OrderUrl | src/app/services/order.service.ts:37 | `${apiUrl}/${id}`; see `IdOperationsTargetOrderUrl` and `OrderUrlInjective` |
| OrderService.Details | src/app/services/order.service.ts:54 | `message || title || JSON`; proved equal to `FirstTruthy` by `DetailsIsFirstTruthy` |
| OrderService.ErrorMessage | src/app/services/order.service.ts:47-56 | the message `handleError` builds; its shape is stated by `ClientErrorMessage` and `ServerErrorMessage` |
| OrderService.IdOperationsTargetOrderUrl | src/app/services/order.service.ts:27-44 | get, update and delete all target `/api/orders/` followed by the id's text, and the id's text can be read back from that URL |
| OrderService.OrderUrlInjective | src/app/services/order.service.ts:27-44 | two ids of the same kind with the same URL are equal |
| OrderService.FirstTruthy | src/app/services/order.service.ts:54 | the result is the first truthy candidate, and it is the fallback exactly when no candidate is truthy |
| OrderService.DetailsIsFirstTruthy | src/app/services/order.service.ts:52-55 | the details are the first truthy of `message` and `title`, else the JSON rendering |
| OrderService.HandleError | src/app/services/order.service.ts:46-59 | every failure becomes an error carrying the built message, never a value |
| OrderService.ClientErrorMessage | src/app/services/order.service.ts:48-49 | a client-side event gives "Errore del client: " followed by its message |
| OrderService.ServerErrorMessage | src/app/services/order.service.ts:50-56 | a server failure starts with the status and the transport message; "\nDettagli: " and the details follow iff the body is an object |
| Auth.SetTokenThenGet | src/app/services/auth.service.ts:39-50 | after `setToken(t)` the token reads back as t and the subject holds `{token: t}`; without storage nothing changes |
| Auth.SetTokenIdempotent | src/app/services/auth.service.ts:39-42 | storing the same token twice leaves the same state as storing it once |
| Auth.LogoutClears | src/app/services/auth.service.ts:52-58 | after logout no token is read, the subject is null, the session is not authenticated and the header is literally "Bearer null" |
| Auth.AuthenticatedIff | src/app/services/auth.service.ts:80-82 | authenticated iff storage exists and holds a non-empty token |
| Auth.InitialSubject | src/app/services/auth.service.ts:12-19 | the subject starts as `{token}` iff a non-empty token is readable, and otherwise stays null |
| Auth.HeadersCarryToken | src/app/services/auth.service.ts:72-78 | the authorization header is "Bearer " followed by the token, or by "null" when there is none |
| Auth.TokenOf | src/app/services/auth.service.ts:44-50 | `getToken()`: the stored token, none without storage; see `SetTokenThenGet` and `LogoutClears` |
| Auth.Authenticated | src/app/services/auth.service.ts:80-82 | `!!getToken()`; characterised by `AuthenticatedIff` |
| Auth.HeadersOf | src/app/services/auth.service.ts:72-78 | the headers of authorized calls; see `HeadersCarryToken` |
| Auth.Initial | src/app/services/auth.service.ts:14-19 | the session the constructor builds; see `InitialSubject` |
| Auth.SetTokenNext | src/app/services/auth.service.ts:39-42 | the session after `setToken`; see `SetTokenThenGet` and `SetTokenIdempotent` |
| Auth.LogoutNext | src/app/services/auth.service.ts:52-56 | the session after `logout`; see `LogoutClears` |
| Auth.LoginCall | src/app/services/auth.service.ts:25-27 | a POST of the credentials to `http://localhost/api/login` |
| Auth.VerifyLogin2faCall | src/app/services/auth.service.ts:29-30 | a POST of the temporary token and the code to `http://localhost/api/2fa/login` |
| Auth.AuthService.GetToken | src/app/services/auth.service.ts:44-50 | the service's `getToken()`, read from its fields through `TokenOf` |
| Auth.AuthService.IsAuthenticated | src/app/services/auth.service.ts:80-82 | the service's `isAuthenticated()`, through `Authenticated` |
| Auth.AuthService.GetHeaders | src/app/services/auth.service.ts:72-78 | the service's `getHeaders()`, through `HeadersOf` |
| Auth.AuthService.constructor | src/app/services/auth.service.ts:14-19 | the new service is in the initial session state for the storage it finds |
| Auth.AuthService.SetToken | src/app/services/auth.service.ts:39-42 | storage and subject both take the token; when there is no storage the write throws and nothing changes |
| Auth.AuthService.Logout | src/app/services/auth.service.ts:52-58 | clears the slot when storage exists, always nulls the subject, and navigates to /login |
| Auth.AuthService.OnVerifyLogin2fa | src/app/services/auth.service.ts:29-37 | the service stores a token only when the response carries a truthy one |
| Login.ErrorText | src/app/components/login/login.component.ts:74-76 | the error text is the backend's message if truthy, else the fallback; with no error body the handler throws |
| Login.LoginComponent.constructor | src/app/components/login/login.component.ts:54-61 | the screen starts with empty fields, no challenge and an empty temporary token |
| Login.LoginComponent.LoginRequest | src/app/components/login/login.component.ts:63-64 | login posts the entered email and password to the `/login` endpoint |
| Login.LoginComponent.OnLoginResponse | src/app/components/login/login.component.ts:65-73 | a challenge is tested first: it sets `twoFactorRequired` and `tempToken` and leaves the session alone even when a token is also present; otherwise a token is stored and leads to /profile; with neither, nothing changes |
| Login.LoginComponent.OnLoginError | src/app/components/login/login.component.ts:74-76 | the message or 'Login failed' is shown; the challenge state and the fields stay |
| Login.LoginComponent.Verify2faRequest | src/app/components/login/login.component.ts:81 | the stored `tempToken` is sent with the entered code to the `/2fa/login` endpoint |
| Login.LoginComponent.OnVerify2faResponse | src/app/components/login/login.component.ts:81-87 | a truthy token ends up stored, with the same state as one store, and leads to /profile; the challenge state is not reset |
| Login.LoginComponent.OnVerify2faError | src/app/components/login/login.component.ts:88-90 | the message or 'Verification failed' is shown; `tempToken` and `twoFactorRequired` stay |
| Login.TwoFactorLogin | src/app/components/login/login.component.ts:63-92 | a challenged login leaves a fresh session unauthenticated; the verification with a token authenticates it; logout ends it |
| FilterPipeline.Feed | src/app/components/order-list/order-list.component.ts:39 | a new value replaces the pending one and keeps the last value let through |
| FilterPipeline.Settle | src/app/components/order-list/order-list.component.ts:40 | a settled value is let through iff it differs from the last value let through; it then becomes that last value |
| FilterPipeline.Debounce | src/app/components/order-list/order-list.component.ts:39 | `debounceTime(400)` on timed events: the values followed by at least 400 ms of silence or by nothing; see `BurstCollapses` |
| FilterPipeline.Distinct | src/app/components/order-list/order-list.component.ts:40 | `distinctUntilChanged()` after a given last value; see `DistinctNeverRepeats`, `DistinctKeepsOrder` and `DistinctEndsOnLastValue` |
| FilterPipeline.Drive | src/app/components/order-list/order-list.component.ts:38-50 | the stream machine run over timed events; proved equal to `Distinct` after `Debounce` by `DriveMatchesSpec` |
| FilterPipeline.DriveMatchesSpec | src/app/components/order-list/order-list.component.ts:38-50 | the stream machine fed timed events emits exactly the distinct values of the debounced events |
| FilterPipeline.BurstCollapses | src/app/components/order-list/order-list.component.ts:39 | events less than 400 ms apart debounce to the last of them |
| FilterPipeline.BurstTriggersAtMostOnce | src/app/components/order-list/order-list.component.ts:38-42 | a burst triggers one query with its last value, or none when that equals the previous value |
| FilterPipeline.DistinctNeverRepeats | src/app/components/order-list/order-list.component.ts:40 | no output equals the one before it, nor the value let through before the run |
| FilterPipeline.DistinctKeepsOrder | src/app/components/order-list/order-list.component.ts:40 | the output is a subsequence of the input: input values only, in their input order, and no more of them |
| FilterPipeline.DistinctEndsOnLastValue | src/app/components/order-list/order-list.component.ts:40 | when the input stops, the last value let through is the last input value, so the latest term is never lost |
| FilterPipeline.RepeatAfterClear | src/app/components/order-list/order-list.component.ts:91-95 | after a reset, a burst ending in a non-empty value triggers exactly that value |
| FilterPipeline.RepeatAfterClearAsWritten | src/app/components/order-list/order-list.component.ts:91-95 | a stream left untouched by clearing swallows a burst that ends in the value it let through before |
| OrderList.LoadingError | src/app/components/order-list/order-list.component.ts:97-101 | the message is "Errore: " followed by the error's message, or by the console hint when that is empty |
| OrderList.OrderListComponent.constructor | src/app/components/order-list/order-list.component.ts:23-31 | no orders, not loading, no error, empty filters, idle streams |
| OrderList.OrderListComponent.LoadInitialOrders | src/app/components/order-list/order-list.component.ts:57-66 | sets loading, clears the error, issues an unfiltered query, changes nothing else |
| OrderList.OrderListComponent.NgOnInit | src/app/components/order-list/order-list.component.ts:35-51 | start-up issues the unfiltered load |
| OrderList.OrderListComponent.ApplyFilters | src/app/components/order-list/order-list.component.ts:80-89 | sets loading, clears the error, queries with the current date and search fields |
| OrderList.OrderListComponent.OnSearchTermChanged | src/app/components/order-list/order-list.component.ts:68-72 | the search field takes the value, which then enters its stream |
| OrderList.OrderListComponent.OnDateChanged | src/app/components/order-list/order-list.component.ts:74-78 | the date field takes the value, which then enters its stream |
| OrderList.OrderListComponent.OnSearchSettled | src/app/components/order-list/order-list.component.ts:38-43 | a settled search value applies the filters unless it equals the previous one, which changes nothing else |
| OrderList.OrderListComponent.OnDateSettled | src/app/components/order-list/order-list.component.ts:44-50 | the same for the date stream |
| OrderList.OrderListComponent.ClearFilters | src/app/components/order-list/order-list.component.ts:91-95 | both fields become empty and an unfiltered query is issued; both streams are reset as well (see Findings) |
| OrderList.OrderListComponent.OnOrdersLoaded | src/app/components/order-list/order-list.component.ts:62 | the response replaces the orders and loading ends |
| OrderList.OrderListComponent.HandleLoadingError | src/app/components/order-list/order-list.component.ts:97-101 | the error message is set, loading ends, and the orders are kept |
| OrderList.OrderListComponent.DeleteOrder | src/app/components/order-list/order-list.component.ts:111-114 | nothing happens unless confirmed; if confirmed, loading starts and the order's delete is issued |
| OrderList.OrderListComponent.OnDeleteSuccess | src/app/components/order-list/order-list.component.ts:116 | a completed delete re-queries with the current filters |
| OrderList.OrderListComponent.OnDeleteError | src/app/components/order-list/order-list.component.ts:117-120 | "Errore eliminazione: " followed by the message is shown and loading ends |
| OrderForm.QuantityValidIff | src/app/components/order-form/order-form.component.ts:112 | a quantity passes required, min(1) and the pattern iff it is present and at least 1 |
| OrderForm.QuantityValid | src/app/components/order-form/order-form.component.ts:112 | `required`, `min(1)` and the pattern tested against the number's text; see `QuantityValidIff` |
| OrderForm.PriceValid | src/app/components/order-form/order-form.component.ts:113 | `required` and `min(0.01)` |
| OrderForm.CustomerNameValidIff | src/app/components/order-form/order-form.component.ts:72 | a customer name passes required and minLength(3) iff it is at least 3 UTF-16 code units long |
| OrderForm.CustomerNameValid | src/app/components/order-form/order-form.component.ts:72 | `required` and `minLength(3)` in UTF-16 code units; see `CustomerNameValidIff` |
| OrderForm.TwoEmojiNamePasses | src/app/components/order-form/order-form.component.ts:72 | a name of two emoji is fewer than 3 characters but passes, because `length` counts code units |
| OrderForm.FormValidIff | src/app/components/order-form/order-form.component.ts:70-76 | with the products check corrected (Finding 1), the form is valid iff it has an order number, a customer name of 3 or more code units, a date, and at least one row, every row having a name, a quantity of at least 1 and a price of at least 0.01 |
| OrderForm.FormValid | src/app/components/order-form/order-form.component.ts:70-76 | the corrected validity of Finding 1: the declared validators plus at least one row; see `FormValidIff` |
| OrderForm.ZeroRowsPassAsWritten | src/app/components/order-form/order-form.component.ts:76 | as declared, the validators accept a form with no rows |
| OrderForm.FormValidAsWritten | src/app/components/order-form/order-form.component.ts:70-76 | validity as the validators are declared, products checked only by `minLength(1)`; see `ZeroRowsPassAsWritten` |
| OrderForm.RowValid | src/app/components/order-form/order-form.component.ts:109-112 | the row validators; see `DefaultRow`, `RowFromProductValidIff` and `RowRoundTrip` |
| OrderForm.NewRow | src/app/components/order-form/order-form.component.ts:107-114 | `newProductGroup(product)` with its `||` fallbacks; see `DefaultRow`, `RowFromProductValidIff` and `RowRoundTrip` |
| OrderForm.DefaultRow | src/app/components/order-form/order-form.component.ts:107-114 | the empty row is '' / '' / 1 / 0.01 and fails validation only for its missing name |
| OrderForm.RowRoundTrip | src/app/components/order-form/order-form.component.ts:107-114 | a valid row sent verbatim on submit and returned as a product is rebuilt as the same row |
| OrderForm.RowFromProductValidIff | src/app/components/order-form/order-form.component.ts:107-114 | a row from a product is valid iff the product has a name, a quantity that is 0 or at least 1, and a price that is 0 or at least 0.01 |
| OrderForm.SubmitError | src/app/components/order-form/order-form.component.ts:163-168 | the message names the operation by mode and falls back to the console hint |
| OrderForm.OrderFormComponent.constructor | src/app/components/order-form/order-form.component.ts:26-31 | create mode, no id, not loading or submitting, no error, title 'Nuovo Ordine' |
| OrderForm.OrderFormComponent.InitForm | src/app/components/order-form/order-form.component.ts:69-78 | empty fields, today's date, status Pending, no rows |
| OrderForm.OrderFormComponent.AddProduct | src/app/components/order-form/order-form.component.ts:117-119 | exactly one new row is appended; existing rows and everything else stay |
| OrderForm.OrderFormComponent.RemoveProduct | src/app/components/order-form/order-form.component.ts:121-127 | with more than one row, exactly row i is removed and the others keep their order; with one row, nothing changes and the user is alerted; the count never drops below 1 |
| OrderForm.OrderFormComponent.LoadOrderForEditing | src/app/components/order-form/order-form.component.ts:80-82 | loading starts and the order is fetched by id |
| OrderForm.OrderFormComponent.OnRouteParams | src/app/components/order-form/order-form.component.ts:50-62 | a route id gives edit mode, that id, the title "Modifica Ordine #id" and a fetch; no id gives create mode and one more empty row |
| OrderForm.OrderFormComponent.NgOnInit | src/app/components/order-form/order-form.component.ts:46-63 | the whole new state: the form is reset for today; edit mode sets the id, the title and loading, fetches the order and has no rows; create mode has exactly one empty row |
| OrderForm.OrderFormComponent.OnOrderLoaded | src/app/components/order-form/order-form.component.ts:83-95 | the fields take the order's values; the rows are the order's products through `newProductGroup`, same length and order; loading ends |
| OrderForm.OrderFormComponent.OnOrderLoadError | src/app/components/order-form/order-form.component.ts:96-99 | the load error message is set and loading ends |
| OrderForm.OrderFormComponent.OnSubmit | src/app/components/order-form/order-form.component.ts:129-152 | an invalid form only gets the error message: no call, `isSubmitting` unchanged; a valid one sends the rows verbatim without id or total, as an update iff editing with an id, otherwise as a create; in the corrected behaviour of Finding 1 a form with no rows sends nothing |
| OrderForm.OrderFormComponent.OnSaveSuccess | src/app/components/order-form/order-form.component.ts:155-158 | submitting ends and the saved order's page is the target |
| OrderForm.OrderFormComponent.OnSaveError | src/app/components/order-form/order-form.component.ts:159-168 | the mode-named error message is set and submitting ends |
| OrderForm.OrderFormComponent.CancelTarget | src/app/components/order-form/order-form.component.ts:170-176 | cancel returns to the edited order when editing with an id, else to the list |

## Findings

| source | as written | input that shows it | evidently intended | confidence | as-written member | corrected member |
|---|---|---|---|---|---|---|
| src/app/components/order-form/order-form.component.ts:76 | The only check on the products array is `Validators.minLength(1)`, and Angular's `minLength` does not validate empty values. | Edit an order whose backend `products` is `[]` and whose other fields are valid. `onSubmit` sends an update with no products. | Submission needs at least one product row. The comment says "Almeno un prodotto", and the error text asks to add a product. | medium (rests on Angular's documented `minLength` behaviour), not executed | OrderForm.ZeroRowsPassAsWritten | OrderForm.FormValidIff |
| src/app/components/order-list/order-list.component.ts:91-95 | `clearFilters` empties the fields but not the memory of `distinctUntilChanged`. | Type "abc" and wait; the query runs. Clear the filters, type "abc" again and wait. No query runs: the list stays unfiltered while `searchTerm` is "abc". | Clearing resets both streams, so the next value is compared with the cleared one. | high, not executed | FilterPipeline.RepeatAfterClearAsWritten | FilterPipeline.RepeatAfterClear |

The rest of the model uses the corrected behaviour:

- `OrderFormComponent.OnSubmit` checks `FormValid`.
- `OrderListComponent.ClearFilters` sets both streams to `Cleared`.

## Left out

- HTTP transport, rxjs subscriptions and scheduling: each call is a returned `Request`, and its outcome is a handler method.
- Wall-clock timers: debouncing is modelled on event timestamps and an explicit settle event. A gap of exactly 400 ms counts as settled.
- Races between in-flight list requests, and teardown (`ngOnDestroy`, unsubscribing): the code has no sequence numbers or cancellation.
- UI effects: `alert` is the `alerted` result. `confirm` is a boolean input. `router.navigate` is a returned target. `window.scrollTo`, `console.error`, `markAllAsTouched` and the templates are not modelled.
- `viewOrderDetails` and `editOrder` in the order list, which only navigate.
- Dates: `new Date(...).toISOString()` is a function parameter (`isoDay`, `isoInstant`). Its timezone behaviour and the `RangeError` it throws on an invalid date are not modelled.
- `JSON.stringify` of an error body is an opaque string in `ObjectBody`.
- Prices are `real` and quantities `int`. Fractional quantities, NaN, and the exponent notation `String()` uses at 1e21 and above are not modelled.
- Strings are sequences of code points; the one length the core compares (the customer name's) is counted in UTF-16 code units by `JsText.Utf16Length`. Lone surrogates cannot occur in a Dafny string and are not modelled.
- The `availableStatuses` list, which only the template reads, is template data and is not modelled; the `Status` datatype lists the same five states.
- Identifiers are strings or integers (`Id`); non-integer numeric ids are not modelled.
- `removeProduct` with a negative index (Angular counts it from the end) is not modelled; indices are `nat`.
- Error fields of types other than string (a numeric `message`, say) are not modelled. Truthiness is "present and non-empty".
- `register`, `setup2fa`, `enable2fa`, `disable2fa`: one-call wrappers or bare POSTs.
- The order detail component, the navbar subscription, the routes and the application config: fetch-and-display or framework wiring.
- A throw inside a `next` callback (from `setToken` with no storage) is modelled only as the callback stopping there.
- `OrderList.OrderListComponent.ClearFilters`: also resets the streams, which the source does not do (see Findings).
- `OrderForm.OrderFormComponent.OnSubmit`: also refuses a form with no rows, which the source lets through (see Findings).
