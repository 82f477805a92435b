/** The order editor (src/app/components/order-form/order-form.component.ts):
    the validators the form is built with, the construction of a product row,
    and the component that grows and shrinks the row collection, loads an
    order into it and submits it as a create or an update. The validators
    follow Angular's: `required` rejects null and the empty string, and
    `minLength` leaves empty values (length 0) unchecked and measures a
    string in UTF-16 code units. */
module OrderForm {
  import opened Models
  import JsText
  import OrderService

  const MinPrice: real := 0.01
  const MinCustomerNameLength: nat := 3

  predicate Required(s: string) {
    s != ""
  }

  /** `Validators.minLength(n)` on an array: empty values are not validated. */
  predicate MinLength<T>(s: seq<T>, n: nat) {
    |s| == 0 || |s| >= n
  }

  /** `Validators.minLength(n)` on a string, whose `length` counts UTF-16
      code units. */
  predicate MinLengthText(s: string, n: nat) {
    JsText.Utf16Length(s) == 0 || JsText.Utf16Length(s) >= n
  }

  /** `required`, `min(1)` and `pattern("^[1-9][0-9]*$")`; the pattern is
      tested against the number's text. */
  predicate QuantityValid(q: Option<int>) {
    q.Some? && q.value >= 1 && JsText.MatchesPositiveInteger(JsText.NumberText(q.value))
  }

  /** `required` and `min(0.01)`. */
  predicate PriceValid(p: Option<real>) {
    p.Some? && p.value >= MinPrice
  }

  predicate RowValid(r: Row) {
    Required(r.name) && QuantityValid(r.quantity) && PriceValid(r.price)
  }

  predicate RowsValid(rows: seq<Row>) {
    forall i :: 0 <= i < |rows| ==> RowValid(rows[i])
  }

  /** `required` and `minLength(3)`. */
  predicate CustomerNameValid(c: string) {
    Required(c) && MinLengthText(c, MinCustomerNameLength)
  }

  /** The form's validity as the validators are declared: the products
      array has only `minLength(1)`, which an empty array passes. */
  predicate FormValidAsWritten(orderNumber: string, customerName: string, orderDate: string, rows: seq<Row>) {
    Required(orderNumber) && CustomerNameValid(customerName) && Required(orderDate)
    && MinLength(rows, 1) && RowsValid(rows)
  }

  /** The form's validity with the products check the error message asks
      for: at least one product row. */
  predicate FormValid(orderNumber: string, customerName: string, orderDate: string, rows: seq<Row>) {
    FormValidAsWritten(orderNumber, customerName, orderDate, rows) && |rows| >= 1
  }

  /** The quantity pattern adds nothing to `min(1)` for whole numbers. */
  lemma QuantityValidIff(q: Option<int>)
    ensures QuantityValid(q) <==> q.Some? && q.value >= 1
  {
    if q.Some? {
      JsText.PositiveIntegerPattern(q.value);
    }
  }

  /** A customer name is accepted exactly when it is at least three UTF-16
      code units long: `required` covers the empty name `minLength` lets
      through. */
  lemma CustomerNameValidIff(c: string)
    ensures CustomerNameValid(c) <==> JsText.Utf16Length(c) >= MinCustomerNameLength
  {
  }

  /** A name of two emoji, two characters but four code units, passes. */
  lemma TwoEmojiNamePasses()
    ensures |"\U{1F600}\U{1F600}"| < MinCustomerNameLength
    ensures CustomerNameValid("\U{1F600}\U{1F600}")
  {
    JsText.AstralCharactersCountTwice();
  }

  /** With the products check corrected, the form is accepted exactly when
      it has an order number, a customer name of at least three code units,
      a date and at least one row, every row having a name, a quantity of at
      least 1 and a price of at least 0.01. */
  lemma FormValidIff(orderNumber: string, customerName: string, orderDate: string, rows: seq<Row>)
    ensures FormValid(orderNumber, customerName, orderDate, rows) <==>
      orderNumber != "" && JsText.Utf16Length(customerName) >= MinCustomerNameLength
      && orderDate != "" && |rows| >= 1
      && forall i :: 0 <= i < |rows| ==>
           rows[i].name != "" && rows[i].quantity.Some? && rows[i].quantity.value >= 1
           && rows[i].price.Some? && rows[i].price.value >= MinPrice
  {
    forall i | 0 <= i < |rows| {
      QuantityValidIff(rows[i].quantity);
    }
  }

  /** As declared, the validators accept an order with no product rows at
      all, whereas the intended validity rejects it. */
  lemma ZeroRowsPassAsWritten(orderNumber: string, customerName: string, orderDate: string)
    requires orderNumber != "" && JsText.Utf16Length(customerName) >= MinCustomerNameLength && orderDate != ""
    ensures FormValidAsWritten(orderNumber, customerName, orderDate, [])
    ensures !FormValid(orderNumber, customerName, orderDate, [])
  {
  }

  /** `newProductGroup(product)`: each field falls back through `||`, so a
      source quantity of 0 or price of 0 is replaced as well. */
  function NewRow(product: Option<Product>): Row {
    match product
    case None => Row("", "", Some(1), Some(MinPrice))
    case Some(p) =>
      Row(p.name,
          if Truthy(p.description) then p.description.value else "",
          Some(if p.quantity != 0 then p.quantity else 1),
          Some(if p.price != 0.0 then p.price else MinPrice))
  }

  /** The empty row has no name, quantity 1 and price 0.01; it fails
      validation until a name is entered. */
  lemma DefaultRow()
    ensures NewRow(None) == Row("", "", Some(1), Some(0.01))
    ensures !RowValid(NewRow(None))
    ensures QuantityValid(NewRow(None).quantity) && PriceValid(NewRow(None).price)
  {
    QuantityValidIff(Some(1));
  }

  /** A valid row survives the trip through the backend: sent verbatim on
      submit and returned as a product, it is rebuilt as the same row when
      the order is loaded again. */
  lemma RowRoundTrip(r: Row, id: Id)
    requires RowValid(r)
    ensures NewRow(Some(Product(id, r.name, Some(r.description), r.price.value, r.quantity.value))) == r
  {
  }

  /** A row built from a product is valid exactly when the product has a
      name, a quantity that is 0 or at least 1, and a price that is 0 or at
      least 0.01. */
  lemma RowFromProductValidIff(p: Product)
    ensures RowValid(NewRow(Some(p))) <==>
      p.name != "" && (p.quantity == 0 || p.quantity >= 1) && (p.price == 0.0 || p.price >= MinPrice)
  {
    QuantityValidIff(NewRow(Some(p)).quantity);
  }

  const CreateTitle: string := "Crea Nuovo Ordine"
  const InitialTitle: string := "Nuovo Ordine"
  const InvalidFormMessage: string :=
    "Form incompleto o con errori. Controlla i campi e aggiungi almeno un prodotto."
  const LoadErrorPrefix: string := "Errore caricamento ordine: "
  const ConsoleDetails: string := "Dettagli nella console."

  function EditTitle(id: string): string {
    "Modifica Ordine #" + id
  }

  /** The message a failed save shows; the operation is named after the
      mode, and an empty error message is replaced by the console hint. */
  function SubmitError(isEditMode: bool, message: string): (m: string)
    ensures var head := if isEditMode then "Errore aggiornamento: " else "Errore creazione: ";
      var tail := if message != "" then message else ConsoleDetails;
      |m| == |head| + |tail| && m[..|head|] == head && m[|head|..] == tail
  {
    "Errore " + (if isEditMode then "aggiornamento" else "creazione") + ": "
    + (if message != "" then message else ConsoleDetails)
  }

  /** All the component's state, for stating what a handler leaves alone. */
  datatype FormState = FormState(
    orderNumber: string,
    customerName: string,
    orderDate: string,
    description: Option<string>,
    status: Status,
    rows: seq<Row>,
    isEditMode: bool,
    orderId: Option<string>,
    isLoading: bool,
    isSubmitting: bool,
    errorMessage: Option<string>,
    pageTitle: string)

  class OrderFormComponent {
    var orderNumber: string
    var customerName: string
    var orderDate: string
    var description: Option<string>
    var status: Status
    var rows: seq<Row>
    var isEditMode: bool
    var orderId: Option<string>
    var isLoading: bool
    var isSubmitting: bool
    var errorMessage: Option<string>
    var pageTitle: string

    function State(): FormState
      reads this
    {
      FormState(orderNumber, customerName, orderDate, description, status, rows,
                isEditMode, orderId, isLoading, isSubmitting, errorMessage, pageTitle)
    }

    predicate IsValid()
      reads this
    {
      FormValid(orderNumber, customerName, orderDate, rows)
    }

    /** The component before `ngOnInit` has built its form. */
    constructor ()
      ensures State() == FormState("", "", "", Some(""), Pending, [], false, None, false, false, None, InitialTitle)
    {
      orderNumber, customerName, orderDate, description, status, rows := "", "", "", Some(""), Pending, [];
      isEditMode, orderId, isLoading, isSubmitting := false, None, false, false;
      errorMessage, pageTitle := None, InitialTitle;
    }

    /** `initForm()`; `today` is the current date as `YYYY-MM-DD`. */
    method InitForm(today: string)
      modifies this
      ensures State() == old(State()).(orderNumber := "", customerName := "", orderDate := today,
                                       description := Some(""), status := Pending, rows := [])
    {
      orderNumber, customerName, orderDate, description, status, rows := "", "", today, Some(""), Pending, [];
    }

    /** `addProduct(product)`: one new row at the end. */
    method AddProduct(product: Option<Product>)
      modifies this
      ensures State() == old(State()).(rows := old(rows) + [NewRow(product)])
    {
      rows := rows + [NewRow(product)];
    }

    /** `removeProduct(index)`: only while more than one row remains, else
        the user is alerted. An index past the end removes nothing. */
    method RemoveProduct(index: nat) returns (alerted: bool)
      modifies this
      ensures alerted <==> |old(rows)| <= 1
      ensures alerted || index >= |old(rows)| ==> State() == old(State())
      ensures !alerted && index < |old(rows)| ==>
        State() == old(State()).(rows := old(rows)[..index] + old(rows)[index + 1..])
      ensures |old(rows)| >= 1 ==> |rows| >= 1
    {
      if |rows| > 1 {
        alerted := false;
        if index < |rows| {
          rows := rows[..index] + rows[index + 1..];
        }
      } else {
        alerted := true;
      }
    }

    /** `loadOrderForEditing(id)` issues the fetch. */
    method LoadOrderForEditing(id: Id) returns (req: OrderService.Request)
      modifies this
      ensures State() == old(State()).(isLoading := true)
      ensures req == OrderService.GetOrderById(id)
    {
      isLoading := true;
      req := OrderService.GetOrderById(id);
    }

    /** The route's parameters arrive: an id selects edit mode and loads the
        order; none selects create mode and adds an empty row. */
    method OnRouteParams(idFromRoute: Option<string>) returns (req: Option<OrderService.Request>)
      modifies this
      ensures Truthy(idFromRoute) ==>
        State() == old(State()).(isEditMode := true, orderId := idFromRoute,
                                 pageTitle := EditTitle(idFromRoute.value), isLoading := true)
        && req == Some(OrderService.GetOrderById(StrId(idFromRoute.value)))
      ensures !Truthy(idFromRoute) ==>
        State() == old(State()).(isEditMode := false, pageTitle := CreateTitle,
                                 rows := old(rows) + [NewRow(None)])
        && req == None
    {
      if Truthy(idFromRoute) {
        isEditMode := true;
        orderId := idFromRoute;
        pageTitle := EditTitle(idFromRoute.value);
        var r := LoadOrderForEditing(StrId(idFromRoute.value));
        req := Some(r);
      } else {
        isEditMode := false;
        pageTitle := CreateTitle;
        AddProduct(None);
        req := None;
      }
    }

    /** `ngOnInit()`: the form is rebuilt for today. Edit mode waits for the
        order with no rows; create mode has exactly one empty row. */
    method NgOnInit(today: string, idFromRoute: Option<string>) returns (req: Option<OrderService.Request>)
      modifies this
      ensures Truthy(idFromRoute) ==>
        State() == old(State()).(orderNumber := "", customerName := "", orderDate := today,
                                 description := Some(""), status := Pending, rows := [],
                                 isEditMode := true, orderId := idFromRoute,
                                 pageTitle := EditTitle(idFromRoute.value), isLoading := true)
        && req == Some(OrderService.GetOrderById(StrId(idFromRoute.value)))
      ensures !Truthy(idFromRoute) ==>
        State() == old(State()).(orderNumber := "", customerName := "", orderDate := today,
                                 description := Some(""), status := Pending, rows := [NewRow(None)],
                                 isEditMode := false, pageTitle := CreateTitle)
        && req == None
    {
      InitForm(today);
      req := OnRouteParams(idFromRoute);
    }

    /** The fetched order fills the form: its date, if any, goes through
        `isoDay` (the date-only ISO rendering), and the rows are rebuilt from
        its products, one per product, in order. */
    method OnOrderLoaded(order: Order, isoDay: string -> string)
      modifies this
      ensures State() == old(State()).(
        orderNumber := order.orderNumber, customerName := order.customerName,
        orderDate := if order.orderDate != "" then isoDay(order.orderDate) else "",
        description := order.description, status := order.status,
        rows := rows, isLoading := false)
      ensures |rows| == |order.products|
      ensures forall i :: 0 <= i < |rows| ==> rows[i] == NewRow(Some(order.products[i]))
    {
      orderNumber := order.orderNumber;
      customerName := order.customerName;
      orderDate := if order.orderDate != "" then isoDay(order.orderDate) else "";
      description := order.description;
      status := order.status;
      var rebuilt: seq<Row> := [];
      for i := 0 to |order.products|
        invariant |rebuilt| == i
        invariant forall k :: 0 <= k < i ==> rebuilt[k] == NewRow(Some(order.products[k]))
      {
        rebuilt := rebuilt + [NewRow(Some(order.products[i]))];
      }
      rows := rebuilt;
      isLoading := false;
    }

    method OnOrderLoadError(message: string)
      modifies this
      ensures State() == old(State()).(errorMessage := Some(LoadErrorPrefix + message), isLoading := false)
    {
      errorMessage := Some(LoadErrorPrefix + message);
      isLoading := false;
    }

    /** `onSubmit()`. An invalid form only gets the error message and no
        call. A valid one is sent with its rows verbatim, its date through
        `isoInstant` (the full ISO rendering), as an update when editing an
        order with an id and as a create otherwise. A form without rows is
        refused. */
    method OnSubmit(isoInstant: string -> string) returns (call: Option<OrderService.Request>)
      modifies this
      ensures !old(IsValid()) ==>
        State() == old(State()).(errorMessage := Some(InvalidFormMessage)) && call == None
      ensures old(IsValid()) ==>
        State() == old(State()).(isSubmitting := true, errorMessage := None)
        && var payload := OrderPayload(orderNumber, customerName, isoInstant(orderDate),
                                       description, rows, status);
        call == Some(if isEditMode && Truthy(orderId)
                     then OrderService.UpdateOrder(StrId(orderId.value), payload)
                     else OrderService.CreateOrder(payload))
      ensures |old(rows)| == 0 ==> call == None
    {
      if !IsValid() {
        errorMessage := Some(InvalidFormMessage);
        return None;
      }
      isSubmitting := true;
      errorMessage := None;
      var payload := OrderPayload(orderNumber, customerName, isoInstant(orderDate), description, rows, status);
      if isEditMode && Truthy(orderId) {
        call := Some(OrderService.UpdateOrder(StrId(orderId.value), payload));
      } else {
        call := Some(OrderService.CreateOrder(payload));
      }
    }

    /** A saved order leads to its detail page. */
    method OnSaveSuccess(saved: Id) returns (navigateTo: seq<string>)
      modifies this
      ensures State() == old(State()).(isSubmitting := false)
      ensures navigateTo == ["/orders", OrderService.IdText(saved)]
    {
      isSubmitting := false;
      navigateTo := ["/orders", OrderService.IdText(saved)];
    }

    method OnSaveError(message: string)
      modifies this
      ensures State() == old(State()).(errorMessage := Some(SubmitError(old(isEditMode), message)),
                                       isSubmitting := false)
    {
      errorMessage := Some(SubmitError(isEditMode, message));
      isSubmitting := false;
    }

    /** `cancel()`: back to the order being edited, or to the list. */
    function CancelTarget(): (path: seq<string>)
      reads this
      ensures isEditMode && Truthy(orderId) ==> path == ["/orders", orderId.value]
      ensures !(isEditMode && Truthy(orderId)) ==> path == ["/orders"]
    {
      if isEditMode && Truthy(orderId) then ["/orders", orderId.value] else ["/orders"]
    }
  }
}
