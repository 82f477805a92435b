/** The order list controller (src/app/components/order-list/order-list.component.ts):
    the current filter fields, the loading and error flags, and the two
    debounced, de-duplicated filter streams. A backend call is modelled by
    the request a handler issues, and its outcome by the handler the
    response or error reaches. */
module OrderList {
  import opened Models
  import OrderService
  import opened FilterPipeline

  const ConsoleDetails: string := "Dettagli nella console."
  const LoadingErrorPrefix: string := "Errore: "
  const DeleteErrorPrefix: string := "Errore eliminazione: "

  /** All the component's state, for stating what a handler leaves alone. */
  datatype ListState = ListState(
    orders: seq<Order>,
    isLoading: bool,
    errorMessage: Option<string>,
    filterDate: string,
    searchTerm: string,
    searchTerms: Stream,
    dateChanges: Stream)

  /** The message a failed load shows: `err.message`, or the console hint
      when that is empty. */
  function LoadingError(message: string): (m: string)
    ensures |LoadingErrorPrefix| <= |m| && m[..|LoadingErrorPrefix|] == LoadingErrorPrefix
    ensures message != "" ==> m[|LoadingErrorPrefix|..] == message
    ensures message == "" ==> m[|LoadingErrorPrefix|..] == ConsoleDetails
  {
    LoadingErrorPrefix + (if message != "" then message else ConsoleDetails)
  }

  class OrderListComponent {
    var orders: seq<Order>
    var isLoading: bool
    var errorMessage: Option<string>
    var filterDate: string
    var searchTerm: string
    var searchTerms: Stream
    var dateChanges: Stream

    function State(): ListState
      reads this
    {
      ListState(orders, isLoading, errorMessage, filterDate, searchTerm, searchTerms, dateChanges)
    }

    constructor ()
      ensures State() == ListState([], false, None, "", "", Idle, Idle)
    {
      orders, isLoading, errorMessage := [], false, None;
      filterDate, searchTerm := "", "";
      searchTerms, dateChanges := Idle, Idle;
    }

    /** The unfiltered load issued on start-up and by `clearFilters`. */
    method LoadInitialOrders() returns (req: OrderService.Request)
      modifies this
      ensures State() == old(State()).(isLoading := true, errorMessage := None)
      ensures req == OrderService.GetOrders(None, None) && req.params == []
    {
      isLoading := true;
      errorMessage := None;
      req := OrderService.GetOrders(None, None);
    }

    /** Start-up: the initial load; the streams start idle. */
    method NgOnInit() returns (req: OrderService.Request)
      modifies this
      ensures State() == old(State()).(isLoading := true, errorMessage := None)
      ensures req == OrderService.GetOrders(None, None)
    {
      req := LoadInitialOrders();
    }

    /** The query from the current filter fields, whatever triggered it. */
    method ApplyFilters() returns (req: OrderService.Request)
      modifies this
      ensures State() == old(State()).(isLoading := true, errorMessage := None)
      ensures req == OrderService.GetOrders(Some(filterDate), Some(searchTerm))
    {
      isLoading := true;
      errorMessage := None;
      req := OrderService.GetOrders(Some(filterDate), Some(searchTerm));
    }

    /** A keystroke in the search box: the field takes the value before the
        value enters its stream. */
    method OnSearchTermChanged(term: string)
      modifies this
      ensures State() == old(State()).(searchTerm := term, searchTerms := Feed(old(searchTerms), term))
    {
      searchTerm := term;
      searchTerms := Feed(searchTerms, term);
    }

    /** A change of the date input, likewise. */
    method OnDateChanged(dateValue: string)
      modifies this
      ensures State() == old(State()).(filterDate := dateValue, dateChanges := Feed(old(dateChanges), dateValue))
    {
      filterDate := dateValue;
      dateChanges := Feed(dateChanges, dateValue);
    }

    /** The search stream's quiet period elapses. A settled value equal to
        the previous one triggers nothing; any other applies the filters. */
    method OnSearchSettled() returns (req: Option<OrderService.Request>)
      modifies this
      ensures var r := Settle(old(searchTerms));
        searchTerms == r.stream
        && (r.emitted.Some? ==>
              State() == old(State()).(isLoading := true, errorMessage := None, searchTerms := r.stream)
              && req == Some(OrderService.GetOrders(Some(filterDate), Some(searchTerm))))
        && (r.emitted.None? ==> State() == old(State()).(searchTerms := r.stream) && req == None)
    {
      var r := Settle(searchTerms);
      searchTerms := r.stream;
      req := None;
      if r.emitted.Some? {
        var q := ApplyFilters();
        req := Some(q);
      }
    }

    /** The date stream's quiet period elapses, likewise. */
    method OnDateSettled() returns (req: Option<OrderService.Request>)
      modifies this
      ensures var r := Settle(old(dateChanges));
        dateChanges == r.stream
        && (r.emitted.Some? ==>
              State() == old(State()).(isLoading := true, errorMessage := None, dateChanges := r.stream)
              && req == Some(OrderService.GetOrders(Some(filterDate), Some(searchTerm))))
        && (r.emitted.None? ==> State() == old(State()).(dateChanges := r.stream) && req == None)
    {
      var r := Settle(dateChanges);
      dateChanges := r.stream;
      req := None;
      if r.emitted.Some? {
        var q := ApplyFilters();
        req := Some(q);
      }
    }

    /** Both filters become empty and an unfiltered load is issued at once.
        Both streams are reset too, so that a later value equal to one let
        through before the clearing is not swallowed. */
    method ClearFilters() returns (req: OrderService.Request)
      modifies this
      ensures State() == old(State()).(filterDate := "", searchTerm := "", isLoading := true,
                                       errorMessage := None, searchTerms := Cleared, dateChanges := Cleared)
      ensures req == OrderService.GetOrders(None, None) && req.params == []
    {
      filterDate := "";
      searchTerm := "";
      searchTerms, dateChanges := Cleared, Cleared;
      req := LoadInitialOrders();
    }

    /** A list response replaces the orders. */
    method OnOrdersLoaded(data: seq<Order>)
      modifies this
      ensures State() == old(State()).(orders := data, isLoading := false)
    {
      orders := data;
      isLoading := false;
    }

    /** A failed load keeps the orders it had. */
    method HandleLoadingError(message: string)
      modifies this
      ensures State() == old(State()).(errorMessage := Some(LoadingError(message)), isLoading := false)
    {
      errorMessage := Some(LoadingError(message));
      isLoading := false;
    }

    /** Deleting asks for confirmation first; declined, nothing happens. */
    method DeleteOrder(id: Id, confirmed: bool) returns (req: Option<OrderService.Request>)
      modifies this
      ensures !confirmed ==> State() == old(State()) && req == None
      ensures confirmed ==> State() == old(State()).(isLoading := true)
                            && req == Some(OrderService.DeleteOrder(id))
    {
      req := None;
      if confirmed {
        isLoading := true;
        req := Some(OrderService.DeleteOrder(id));
      }
    }

    /** A completed delete reloads the list with the current filters. */
    method OnDeleteSuccess() returns (req: OrderService.Request)
      modifies this
      ensures State() == old(State()).(isLoading := true, errorMessage := None)
      ensures req == OrderService.GetOrders(Some(filterDate), Some(searchTerm))
    {
      isLoading := false;
      req := ApplyFilters();
    }

    method OnDeleteError(message: string)
      modifies this
      ensures State() == old(State()).(errorMessage := Some(DeleteErrorPrefix + message), isLoading := false)
    {
      errorMessage := Some(DeleteErrorPrefix + message);
      isLoading := false;
    }
  }
}
