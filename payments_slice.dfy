/** The payments store: list, pagination, selection, statistics and the loading/error
    flags, updated by three plain actions and by the pending / fulfilled / rejected
    steps of four asynchronous requests.

    `Reduce` is the reducer as a function on store snapshots; `PaymentsStore` holds the
    same state in fields that its methods assign in place, each method proved to
    perform exactly the `Reduce` step of its action. */
module PaymentsSlice {
  import opened Wrappers
  import opened PaymentTypes
  import opened ComponentsTypes

  /** What a failed request threw: an HTTP client error (with the server's
      `responseMessage`, if any, and its own message), another `Error`, or a value
      that is not an `Error` at all. */
  datatype Thrown =
    | AxiosFailure(responseMessage: Option<string>, message: string)
    | PlainError(message: string)
    | NotAnError

  const GENERIC_MESSAGE: string := "Se ha producido un error"
  const UNEXPECTED_MESSAGE: string := "Se ha producido un error inesperado"

  /** `handleError`: the message a rejected request stores. */
  function HandleError(error: Thrown): (r: string)
    ensures error.AxiosFailure? ==>
              r == (if error.responseMessage.Some? && error.responseMessage.value != "" then error.responseMessage.value
                    else if error.message != "" then error.message
                    else GENERIC_MESSAGE)
    ensures error.PlainError? ==> r == error.message
    ensures error.NotAnError? ==> r == UNEXPECTED_MESSAGE
    ensures !error.PlainError? ==> r != ""
  {
    match error
    case AxiosFailure(responseMessage, message) => OrElse(responseMessage, OrElse(Some(message), GENERIC_MESSAGE))
    case PlainError(message) => message
    case NotAnError => UNEXPECTED_MESSAGE
  }

  /** A snapshot of the store. */
  datatype StoreData = StoreData(
    payments: seq<PaymentRow>,
    loading: bool,
    selectedPayment: Option<PaymentRow>,
    error: Option<string>,
    totalElements: int,
    totalPages: int,
    currentPage: int,
    pageSize: int,
    totalPayments: map<string, int>)

  /** `initialState`. */
  const INITIAL_STATE: StoreData := StoreData([], false, None, None, 0, 0, 0, 10, map[])

  /** The four asynchronous requests. */
  datatype Thunk = SearchPayments | CountPaymentsForStats | CancelPaymentAndRefresh | GetPaymentForDetails

  /** What the cancel-and-refresh request resolves with. A body with a result page
      (`RefreshedPage`) is shown like a search result. The body the cancel endpoint
      returns (`CancelledRecord`: the cancelled payment, with no `data.page`) makes the
      reducer read a page of `undefined` and throw, so that step never reaches the store. */
  datatype CancelPayload = RefreshedPage(d: SearchData) | CancelledRecord

  /** Everything the reducer handles. A fulfilled step carries the request's payload,
      which may be missing; a rejected step carries what the request threw, whose
      `HandleError` message is the rejection payload. */
  datatype Action =
    | ClearSelectedPayment
    | SetPage(page: int)
    | SetPageSize(size: int)
    | Pending(thunk: Thunk)
    | Rejected(thunk: Thunk, thrown: Thrown)
    | SearchFulfilled(result: Option<SearchData>)
    | CountFulfilled(stats: Option<map<string, int>>)
    | CancelFulfilled(response: Option<CancelPayload>)
    | DetailsFulfilled(payment: Option<PaymentRow>)

  /** The two snapshots agree on everything except `loading` and `error`. */
  predicate SameData(s: StoreData, t: StoreData) {
    && t.payments == s.payments
    && t.selectedPayment == s.selectedPayment
    && t.totalElements == s.totalElements
    && t.totalPages == s.totalPages
    && t.currentPage == s.currentPage
    && t.pageSize == s.pageSize
    && t.totalPayments == s.totalPayments
  }

  /** `t` shows page `d` of a search result and keeps the selection and statistics of `s`. */
  predicate ShowsPage(s: StoreData, t: StoreData, d: SearchData) {
    && t.payments == d.content
    && t.totalElements == d.page.totalElements
    && t.totalPages == d.page.totalPages
    && t.currentPage == d.page.number
    && t.pageSize == d.page.size
    && t.selectedPayment == s.selectedPayment
    && t.totalPayments == s.totalPayments
  }

  /** The step whose reducer throws: a cancel success carrying the cancelled record. */
  predicate ReducerThrows(a: Action) {
    a.CancelFulfilled? && a.response.Some? && a.response.value.CancelledRecord?
  }

  /** The reducer. */
  function Reduce(s: StoreData, a: Action): (t: StoreData)
    // plain setters change exactly their own field
    ensures a.ClearSelectedPayment? ==> t == s.(selectedPayment := None)
    ensures a.SetPage? ==> t.currentPage == a.page && t == s.(currentPage := t.currentPage)
    ensures a.SetPageSize? ==> t.pageSize == a.size && t == s.(pageSize := t.pageSize)
    // every request starts by raising `loading` and clearing the error
    ensures a.Pending? ==> t.loading && t.error == None && SameData(s, t)
    // every failure lowers `loading` and stores the handled message
    ensures a.Rejected? ==> !t.loading && t.error == Some(HandleError(a.thrown)) && SameData(s, t)
    // every success whose reducer completes lowers `loading` and leaves the error as it was
    ensures (a.SearchFulfilled? || a.CountFulfilled? || a.CancelFulfilled? || a.DetailsFulfilled?) && !ReducerThrows(a) ==>
              !t.loading && t.error == s.error
    // a search or a cancel-and-refresh success shows the returned page; without a payload nothing else changes
    ensures a.SearchFulfilled? ==>
              if a.result.Some? then ShowsPage(s, t, a.result.value) else SameData(s, t)
    ensures a.CancelFulfilled? && a.response.None? ==> SameData(s, t)
    ensures a.CancelFulfilled? && a.response.Some? && a.response.value.RefreshedPage? ==> ShowsPage(s, t, a.response.value.d)
    // the throwing step leaves the whole store, `loading` included, as it was
    ensures ReducerThrows(a) ==> t == s
    ensures a.CountFulfilled? ==>
              t.totalPayments == (if a.stats.Some? then a.stats.value else s.totalPayments) &&
              t == s.(loading := false, totalPayments := t.totalPayments)
    ensures a.DetailsFulfilled? ==>
              t.selectedPayment == (if a.payment.Some? then a.payment else s.selectedPayment) &&
              t == s.(loading := false, selectedPayment := t.selectedPayment)
  {
    match a
    case ClearSelectedPayment => s.(selectedPayment := None)
    case SetPage(page) => s.(currentPage := page)
    case SetPageSize(size) => s.(pageSize := size)
    case Pending(_) => s.(loading := true, error := None)
    case Rejected(_, thrown) => s.(loading := false, error := Some(HandleError(thrown)))
    case SearchFulfilled(result) => FulfilledWithPage(s, result)
    case CancelFulfilled(response) =>
      (match response
       case None => FulfilledWithPage(s, None)
       case Some(RefreshedPage(d)) => FulfilledWithPage(s, Some(d))
       case Some(CancelledRecord) => s)
    case CountFulfilled(stats) =>
      if stats.Some? then s.(loading := false, totalPayments := stats.value) else s.(loading := false)
    case DetailsFulfilled(payment) =>
      if payment.Some? then s.(loading := false, selectedPayment := payment) else s.(loading := false)
  }

  /** The shared body of the search and cancel-and-refresh success cases. */
  function FulfilledWithPage(s: StoreData, result: Option<SearchData>): StoreData {
    match result
    case None => s.(loading := false)
    case Some(d) =>
      s.(loading := false, payments := d.content, totalElements := d.page.totalElements,
         totalPages := d.page.totalPages, currentPage := d.page.number, pageSize := d.page.size)
  }

  /** The store after a sequence of actions, applied first to last. */
  function ReduceAll(s: StoreData, actions: seq<Action>): StoreData
    decreases |actions|
  {
    if actions == [] then s else ReduceAll(Reduce(s, actions[0]), actions[1..])
  }

  /** The spinner and the error message are never due at once: while a request is
      loading, no error is stored. */
  predicate NoErrorWhileLoading(s: StoreData) {
    s.loading ==> s.error == None
  }

  /** Every sequence of actions from a state without an error-while-loading keeps it, so
      every state reachable from `INITIAL_STATE` has it. */
  lemma {:induction false} NoErrorWhileLoadingReachable(s: StoreData, actions: seq<Action>)
    requires NoErrorWhileLoading(s)
    ensures NoErrorWhileLoading(ReduceAll(s, actions))
    decreases |actions|
  {
    if actions != [] {
      NoErrorWhileLoadingReachable(Reduce(s, actions[0]), actions[1..]);
    }
  }

  /** The initial state has no error while loading (it is not loading at all). */
  lemma InitialStateIsQuiet()
    ensures NoErrorWhileLoading(INITIAL_STATE)
    ensures INITIAL_STATE.payments == [] && !INITIAL_STATE.loading && INITIAL_STATE.error == None
    ensures INITIAL_STATE.selectedPayment == None && INITIAL_STATE.totalElements == 0 && INITIAL_STATE.totalPages == 0
    ensures INITIAL_STATE.currentPage == 0 && INITIAL_STATE.pageSize == 10
  {
  }

  /** A step that delivers a result page: the only way the listed payments can change. */
  predicate DeliversPage(a: Action) {
    (a.SearchFulfilled? && a.result.Some?) ||
    (a.CancelFulfilled? && a.response.Some? && a.response.value.RefreshedPage?)
  }

  /** Without a delivered page, no sequence of actions changes the list or its total. */
  lemma {:induction false} ListChangesOnlyThroughPages(s: StoreData, actions: seq<Action>)
    requires forall i :: 0 <= i < |actions| ==> !DeliversPage(actions[i])
    ensures ReduceAll(s, actions).payments == s.payments
    ensures ReduceAll(s, actions).totalElements == s.totalElements
    decreases |actions|
  {
    if actions != [] {
      assert !DeliversPage(actions[0]);
      ListChangesOnlyThroughPages(Reduce(s, actions[0]), actions[1..]);
    }
  }

  /** A step that ends a request: a rejection, or a success whose reducer completes. */
  predicate EndsRequest(a: Action) {
    a.Rejected? || a.SearchFulfilled? || a.CountFulfilled? || a.DetailsFulfilled? ||
    (a.CancelFulfilled? && !ReducerThrows(a))
  }

  /** While loading, only a step that ends a request lowers `loading`: once a cancel
      success has thrown, the spinner stays until another request ends. */
  lemma {:induction false} LoadingEndsOnlyWithAnOutcome(s: StoreData, actions: seq<Action>)
    requires s.loading
    requires forall i :: 0 <= i < |actions| ==> !EndsRequest(actions[i])
    ensures ReduceAll(s, actions).loading
    decreases |actions|
  {
    if actions != [] {
      assert !EndsRequest(actions[0]);
      LoadingEndsOnlyWithAnOutcome(Reduce(s, actions[0]), actions[1..]);
    }
  }

  /** A cancellation answered with the cancelled record: the request starts, its success
      is lost, and the store stays loading with the old list. */
  lemma CancelledRecordLeavesSpinner(s: StoreData)
    ensures var t := ReduceAll(s, [Pending(CancelPaymentAndRefresh), CancelFulfilled(Some(CancelledRecord))]);
            t.loading && t.error == None && SameData(s, t)
  {
    var t1 := Reduce(s, Pending(CancelPaymentAndRefresh));
    assert ReduceAll(s, [Pending(CancelPaymentAndRefresh), CancelFulfilled(Some(CancelledRecord))])
        == ReduceAll(t1, [CancelFulfilled(Some(CancelledRecord))]);
  }

  /** A request that starts and then succeeds without a payload leaves the store as it
      was, except that no error remains. */
  lemma PendingThenEmptySuccess(s: StoreData, k: Thunk)
    requires !s.loading
    ensures
      var empty := match k
        case SearchPayments => SearchFulfilled(None)
        case CountPaymentsForStats => CountFulfilled(None)
        case CancelPaymentAndRefresh => CancelFulfilled(None)
        case GetPaymentForDetails => DetailsFulfilled(None);
      Reduce(Reduce(s, Pending(k)), empty) == s.(error := None)
  {
  }

  /** The query the search request sends: the filters plus the store's current page and
      page size. */
  function SearchRequest(s: StoreData, filters: Filters): (q: Filters)
    ensures q.page == Some(s.currentPage) && q.paginate == Some(s.pageSize)
    ensures q.status == filters.status
    ensures forall field :: DateOf(q, field) == DateOf(filters, field)
  {
    filters.(page := Some(s.currentPage), paginate := Some(s.pageSize))
  }

  /** The store, with its state in fields that each action assigns in place. */
  class PaymentsStore {
    var payments: seq<PaymentRow>
    var loading: bool
    var selectedPayment: Option<PaymentRow>
    var error: Option<string>
    var totalElements: int
    var totalPages: int
    var currentPage: int
    var pageSize: int
    var totalPayments: map<string, int>

    function Snapshot(): StoreData
      reads this
    {
      StoreData(payments, loading, selectedPayment, error, totalElements, totalPages, currentPage, pageSize, totalPayments)
    }

    ghost predicate Valid()
      reads this
    {
      NoErrorWhileLoading(Snapshot())
    }

    constructor ()
      ensures Snapshot() == INITIAL_STATE && Valid()
    {
      payments := [];
      loading := false;
      selectedPayment := None;
      error := None;
      totalElements := 0;
      totalPages := 0;
      currentPage := 0;
      pageSize := 10;
      totalPayments := map[];
    }

    method ClearSelectedPayment()
      requires Valid()
      modifies this
      ensures Valid() && Snapshot() == Reduce(old(Snapshot()), Action.ClearSelectedPayment)
    {
      selectedPayment := None;
    }

    method SetPage(page: int)
      requires Valid()
      modifies this
      ensures Valid() && Snapshot() == Reduce(old(Snapshot()), Action.SetPage(page))
    {
      currentPage := page;
    }

    method SetPageSize(size: int)
      requires Valid()
      modifies this
      ensures Valid() && Snapshot() == Reduce(old(Snapshot()), Action.SetPageSize(size))
    {
      pageSize := size;
    }

    /** The pending step, the same for all four requests. */
    method Pending(thunk: Thunk)
      requires Valid()
      modifies this
      ensures Valid() && Snapshot() == Reduce(old(Snapshot()), Action.Pending(thunk))
    {
      loading := true;
      error := None;
    }

    /** The rejected step, the same for all four requests. */
    method Rejected(thunk: Thunk, thrown: Thrown)
      requires Valid()
      modifies this
      ensures Valid() && Snapshot() == Reduce(old(Snapshot()), Action.Rejected(thunk, thrown))
    {
      loading := false;
      error := Some(HandleError(thrown));
    }

    method SearchFulfilled(result: Option<SearchData>)
      requires Valid()
      modifies this
      ensures Valid() && Snapshot() == Reduce(old(Snapshot()), Action.SearchFulfilled(result))
    {
      loading := false;
      if result.Some? {
        ShowPage(result.value);
      }
    }

    /** The cancel-and-refresh success; with the cancelled record the reducer throws
        before any assignment lands, so nothing changes. */
    method CancelFulfilled(response: Option<CancelPayload>)
      requires Valid()
      modifies this
      ensures Valid() && Snapshot() == Reduce(old(Snapshot()), Action.CancelFulfilled(response))
    {
      if response.Some? && response.value.CancelledRecord? {
        return;
      }
      loading := false;
      if response.Some? {
        ShowPage(response.value.d);
      }
    }

    method CountFulfilled(stats: Option<map<string, int>>)
      requires Valid()
      modifies this
      ensures Valid() && Snapshot() == Reduce(old(Snapshot()), Action.CountFulfilled(stats))
    {
      loading := false;
      if stats.Some? {
        totalPayments := stats.value;
      }
    }

    method DetailsFulfilled(payment: Option<PaymentRow>)
      requires Valid()
      modifies this
      ensures Valid() && Snapshot() == Reduce(old(Snapshot()), Action.DetailsFulfilled(payment))
    {
      loading := false;
      if payment.Some? {
        selectedPayment := payment;
      }
    }

    /** Copies a result page into the list and pagination fields. */
    method ShowPage(d: SearchData)
      modifies this
      ensures Snapshot() == old(Snapshot()).(payments := d.content, totalElements := d.page.totalElements,
                                             totalPages := d.page.totalPages, currentPage := d.page.number,
                                             pageSize := d.page.size)
    {
      payments := d.content;
      totalElements := d.page.totalElements;
      totalPages := d.page.totalPages;
      currentPage := d.page.number;
      pageSize := d.page.size;
    }
  }
}
