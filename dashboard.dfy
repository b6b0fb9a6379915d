/** The dashboard page: its filter record, when a search may run, how a filter change is
    stored, the cancel request it builds, the export rows, and the page's handlers wired to
    the payments store. */
module Dashboard {
  import opened Wrappers
  import opened Dates
  import opened PaymentTypes
  import opened ComponentsTypes
  import PaymentFilters
  import Slice = PaymentsSlice
  import ChipStatus
  import Fields

  /** The page's initial `filters`: no dates, no status, no paging. */
  const INITIAL_FILTERS: Filters := Filters(None, None, None, None, "", None, None)

  /** `hasValidFilters`: a status is chosen and at least one range has both ends. */
  predicate HasValidFilters(f: Filters) {
    var hasValidDateRange := (f.startCreationDate.Some? && f.endCreationDate.Some?) ||
                             (f.startPaymentDate.Some? && f.endPaymentDate.Some?);
    var hasValidStatus := f.status != "";
    hasValidDateRange && hasValidStatus
  }

  /** The initial filters do not search; whenever the page may search, some range the
      panel marks required is complete. */
  lemma SearchNeedsACompleteRequiredRange(f: Filters)
    ensures !HasValidFilters(INITIAL_FILTERS)
    ensures HasValidFilters(f) ==>
              (PaymentFilters.IsCreationDateRangeRequired(f) && f.startCreationDate.Some? && f.endCreationDate.Some?) ||
              (PaymentFilters.IsPaymentDateRangeRequired(f) && f.startPaymentDate.Some? && f.endPaymentDate.Some?)
  {
  }

  /** The page and the panel use different rules: a complete creation range with a status
      lets the search run even though a half-filled payment range is marked "Campo
      requerido" by the panel. */
  lemma SearchRunsBesideAMissingRequiredDate(d: DateTime)
    ensures var f := Filters(Some(d), Some(d), Some(d), None, CREATED, None, None);
            HasValidFilters(f) && PaymentFilters.IsPaymentDateRangeRequired(f) && f.endPaymentDate.None?
  {
  }

  /** A change the filter panel reports through `onFilterChange`. */
  datatype FilterChange = DateChange(field: DateField, value: Option<DateTime>) | StatusChange(status: string)

  predicate IsEnd(field: DateField) {
    field == EndCreationDate || field == EndPaymentDate
  }

  /** The value `handleFilterChange` stores: a set end date is moved to 23:59:00.000 of the
      same day; anything else is stored as given. */
  function NormaliseDate(field: DateField, value: Option<DateTime>): (r: Option<DateTime>)
    ensures r.None? <==> value.None?
    ensures IsEnd(field) && value.Some? ==> r.value.day == value.value.day && r.value.time == END_OF_DAY
    ensures !IsEnd(field) ==> r == value
  {
    if IsEnd(field) && value.Some? then Some(EndOfDay(value.value)) else value
  }

  /** Normalising twice is normalising once. */
  lemma NormaliseDateIdempotent(field: DateField, value: Option<DateTime>)
    ensures NormaliseDate(field, NormaliseDate(field, value)) == NormaliseDate(field, value)
  {
    if IsEnd(field) && value.Some? {
      EndOfDayIdempotent(value.value);
    }
  }

  /** The `setFilters` updater of `handleFilterChange`: only the changed key moves. */
  function ApplyFilterChange(f: Filters, c: FilterChange): (r: Filters)
    ensures c.DateChange? ==> DateOf(r, c.field) == NormaliseDate(c.field, c.value)
    ensures c.DateChange? ==> forall g :: g != c.field ==> DateOf(r, g) == DateOf(f, g)
    ensures c.DateChange? ==> r.status == f.status
    ensures c.StatusChange? ==> r.status == c.status && forall g :: DateOf(r, g) == DateOf(f, g)
    ensures r.page == f.page && r.paginate == f.paginate
  {
    match c
    case DateChange(field, value) => WithDate(f, field, NormaliseDate(field, value))
    case StatusChange(status) => f.(status := status)
  }

  /** Repeating a filter change changes nothing more. */
  lemma ApplyFilterChangeIdempotent(f: Filters, c: FilterChange)
    ensures ApplyFilterChange(ApplyFilterChange(f, c), c) == ApplyFilterChange(f, c)
  {
    if c.DateChange? {
      NormaliseDateIdempotent(c.field, c.value);
    }
  }

  /** The cancel request `handleCancelSubmit` dispatches: the form's values with `status`
      set to "03", and the page's current filters. */
  datatype CancelRequest = CancelRequest(body: map<string, Fields.FormValue>, filters: Filters)

  function CancelRequestFor(data: map<string, Fields.FormValue>, filters: Filters): (r: CancelRequest)
    ensures r.body.Keys == data.Keys + {"status"}
    ensures r.body["status"] == Fields.TextValue(CANCELED)
    ensures forall k :: k in data && k != "status" ==> r.body[k] == data[k]
    ensures r.filters == filters
  {
    CancelRequest(data["status" := Fields.TextValue(CANCELED)], filters)
  }

  /** One spreadsheet row of `handleExportExcel`. */
  datatype ExportRow = ExportRow(
    id: int,
    amount: real,
    reference: string,
    description: string,
    dueDate: string,
    status: string,
    cancelDescription: string,
    externalId: string)

  const NOT_AVAILABLE: string := "N/A"

  /** The exported status: the `STATUS_MAP` label of a known code, else the raw code. */
  function ExportStatus(code: string): (r: string)
    ensures code in STATUS_MAP ==> r == STATUS_MAP[code]
    ensures code !in STATUS_MAP ==> r == code
  {
    OrElse(StatusLabel(code), code)
  }

  /** The spreadsheet and the status chip name every code alike. */
  lemma ExportStatusMatchesChip(code: string)
    ensures ExportStatus(code) == ChipStatus.GetStatusDetails(code).text
  {
    if code in STATUS_CODES {
      ChipStatus.ChipLabelsMatchStatusMap(code);
    }
  }

  function ExportRowOf(row: PaymentRow): (r: ExportRow)
    ensures r.id == row.paymentId && r.amount == row.amount && r.reference == row.reference
    ensures r.description == row.description && r.dueDate == row.dueDate && r.externalId == row.externalId
    ensures r.status == ExportStatus(row.status)
    ensures r.cancelDescription == (if row.cancelDescription == "" then NOT_AVAILABLE else row.cancelDescription)
  {
    ExportRow(row.paymentId, row.amount, row.reference, row.description, row.dueDate,
              ExportStatus(row.status), OrElse(Some(row.cancelDescription), NOT_AVAILABLE), row.externalId)
  }

  /** `payments.map(...)`: one export row per payment, in the same order. */
  function ExportRows(payments: seq<PaymentRow>): (r: seq<ExportRow>)
    ensures |r| == |payments|
    ensures forall i :: 0 <= i < |payments| ==> r[i] == ExportRowOf(payments[i])
  {
    seq(|payments|, i requires 0 <= i < |payments| => ExportRowOf(payments[i]))
  }

  /** The export button and the search box are enabled only when the store holds results. */
  predicate ExportEnabled(s: Slice.StoreData) {
    s.totalElements != 0
  }

  /** Exporting stays disabled from the start until some step delivers a result page. */
  lemma ExportDisabledUntilAPageArrives(actions: seq<Slice.Action>)
    requires forall i :: 0 <= i < |actions| ==> !Slice.DeliversPage(actions[i])
    ensures !ExportEnabled(Slice.ReduceAll(Slice.INITIAL_STATE, actions))
  {
    Slice.ListChangesOnlyThroughPages(Slice.INITIAL_STATE, actions);
  }

  /** The store after `handleFilterChange` and its effect: `setPage(0)`, then the search's
      pending step when a search starts. */
  function AfterFilterChange(s: Slice.StoreData, searched: bool): (t: Slice.StoreData)
    ensures t.currentPage == 0 && t.pageSize == s.pageSize && t.payments == s.payments
    ensures searched ==> t == s.(currentPage := 0, loading := true, error := None)
    ensures !searched ==> t == s.(currentPage := 0)
  {
    var paged := Slice.Reduce(s, Slice.SetPage(0));
    if searched then Slice.Reduce(paged, Slice.Pending(Slice.SearchPayments)) else paged
  }

  /** The page: its own `filters` and cancel-form flag, the store it dispatches to, and
      the filter panel it renders. While the store is loading the page draws only a
      spinner, and with an error only the error text, so the panel is unmounted; it is
      mounted afresh, with no range messages, when the page is drawn again. The model
      mounts that fresh panel as soon as a request starts. */
  class DashboardPage {
    var filters: Filters
    var cancelFormOpen: bool
    const store: Slice.PaymentsStore
    var panel: PaymentFilters.FilterPanel

    ghost predicate Valid()
      reads this, store, panel
    {
      store.Valid() && panel.Valid()
    }

    /** The page draws its panel, table and forms, not the spinner or the error text. The
        error text replaces them only for a truthy message, so an empty one keeps them. */
    predicate PanelShown()
      reads this, store
    {
      !store.loading && (store.error.None? || store.error.value == "")
    }

    constructor ()
      ensures Valid() && fresh(store) && fresh(panel)
      ensures filters == INITIAL_FILTERS && !cancelFormOpen
      ensures store.Snapshot() == Slice.INITIAL_STATE && PanelShown()
      ensures panel.NoMessages()
    {
      filters := INITIAL_FILTERS;
      cancelFormOpen := false;
      store := new Slice.PaymentsStore();
      panel := new PaymentFilters.FilterPanel();
    }

    /** `handleFilterChange`: stores the (normalised) value and dispatches `setPage(0)`. */
    method HandleFilterChange(c: FilterChange)
      requires Valid()
      modifies this, store
      ensures Valid()
      ensures filters == ApplyFilterChange(old(filters), c) && cancelFormOpen == old(cancelFormOpen)
      ensures store.Snapshot() == Slice.Reduce(old(store.Snapshot()), Slice.SetPage(0))
      ensures panel == old(panel)
    {
      filters := ApplyFilterChange(filters, c);
      store.SetPage(0);
    }

    /** The effect that runs when `filters` changes: with valid filters it dispatches
        `searchPayments`, whose request carries the store's page and page size, and the
        spinner replaces the panel; otherwise it dispatches nothing. */
    method SearchEffect() returns (query: Option<Filters>)
      requires Valid()
      modifies this, store
      ensures Valid()
      ensures filters == old(filters) && cancelFormOpen == old(cancelFormOpen)
      ensures query.Some? <==> HasValidFilters(filters)
      ensures query.Some? ==> query.value == Slice.SearchRequest(old(store.Snapshot()), filters)
      ensures query.Some? ==> store.Snapshot() == Slice.Reduce(old(store.Snapshot()), Slice.Pending(Slice.SearchPayments))
      ensures query.Some? ==> !PanelShown() && fresh(panel) && panel.NoMessages()
      ensures query.None? ==> store.Snapshot() == old(store.Snapshot()) && panel == old(panel)
    {
      if HasValidFilters(filters) {
        query := Some(Slice.SearchRequest(store.Snapshot(), filters));
        store.Pending(Slice.SearchPayments);
        panel := new PaymentFilters.FilterPanel();
      } else {
        query := None;
      }
    }

    /** A filter change followed by the effect it triggers: the search, when it runs, asks
        for the first page with the new filters. */
    method FilterChanged(c: FilterChange) returns (query: Option<Filters>)
      requires Valid()
      modifies this, store
      ensures Valid()
      ensures filters == ApplyFilterChange(old(filters), c) && cancelFormOpen == old(cancelFormOpen)
      ensures query.Some? <==> HasValidFilters(filters)
      ensures query.Some? ==> query.value.page == Some(0) && query.value.paginate == Some(old(store.pageSize))
      ensures query.Some? ==> query.value.status == filters.status && forall g :: DateOf(query.value, g) == DateOf(filters, g)
      ensures query.Some? ==> fresh(panel) && panel.NoMessages()
      ensures query.None? ==> panel == old(panel)
      ensures store.Snapshot() == AfterFilterChange(old(store.Snapshot()), query.Some?)
      ensures store.currentPage == 0 && store.pageSize == old(store.pageSize)
    {
      HandleFilterChange(c);
      query := SearchEffect();
    }

    /** A date picked in the panel: an accepted change reaches `handleFilterChange` (and
        its effect); a rejected one leaves the filters and the store as they were. Unless
        a search starts, only that field's panel message moves; a search unmounts the
        panel, which comes back with no messages. */
    method DatePicked(field: DateField, value: Option<DateTime>) returns (query: Option<Filters>)
      requires Valid() && PanelShown()
      modifies this, store, panel
      ensures Valid()
      ensures var accepted := PaymentFilters.DateChangeAccepted(old(filters), field, value);
              (accepted ==> filters == ApplyFilterChange(old(filters), DateChange(field, value)) && store.currentPage == 0 &&
                            store.Snapshot() == AfterFilterChange(old(store.Snapshot()), query.Some?)) &&
              (!accepted ==> filters == old(filters) && store.Snapshot() == old(store.Snapshot()) && query.None?)
      ensures query.Some? <==> PaymentFilters.DateChangeAccepted(old(filters), field, value) && HasValidFilters(filters)
      ensures query.Some? ==> query.value.page == Some(0) && fresh(panel) && panel.NoMessages()
      ensures query.None? ==>
                var accepted := PaymentFilters.DateChangeAccepted(old(filters), field, value);
                panel == old(panel) &&
                panel.dateErrors == old(panel.dateErrors)[field := if accepted then "" else PaymentFilters.RANGE_MESSAGE]
      ensures cancelFormOpen == old(cancelFormOpen)
    {
      var accepted := panel.HandleDateChange(filters, field, value);
      if accepted {
        query := FilterChanged(DateChange(field, value));
      } else {
        query := None;
      }
    }

    /** A status chosen in the panel's select is forwarded unchanged. The panel's own
        state is not written on this path (it keeps no message for the select), so `panel`
        is not in the frame; a search only replaces it. */
    method StatusSelected(status: string) returns (query: Option<Filters>)
      requires Valid() && PanelShown()
      modifies this, store
      ensures Valid()
      ensures filters == old(filters).(status := status)
      ensures query.Some? <==> HasValidFilters(filters)
      ensures query.Some? ==> query.value.page == Some(0) && query.value.status == status
      ensures query.Some? ==> fresh(panel) && panel.NoMessages()
      ensures store.Snapshot() == AfterFilterChange(old(store.Snapshot()), query.Some?)
      ensures query.None? ==> panel == old(panel)
      ensures store.currentPage == 0 && cancelFormOpen == old(cancelFormOpen)
    {
      query := FilterChanged(StatusChange(status));
    }

    /** `onRowsPerPageChange`: `setPageSize` then `setPage(0)`; the filters do not change,
        so no search follows. */
    method RowsPerPageChanged(size: int)
      requires Valid()
      modifies store
      ensures Valid()
      ensures store.Snapshot() == old(store.Snapshot()).(pageSize := size, currentPage := 0)
    {
      store.SetPageSize(size);
      store.SetPage(0);
    }

    /** `onPageChange`: `setPage(newPage)` only; the filters do not change, so no search
        follows. */
    method PageChanged(page: int)
      requires Valid()
      modifies store
      ensures Valid()
      ensures store.Snapshot() == old(store.Snapshot()).(currentPage := page)
    {
      store.SetPage(page);
    }

    /** `handleCancelSubmit`: builds the request, dispatches `cancelPaymentAndRefresh`
        (its pending step runs at once, and the spinner replaces the panel) and closes the
        cancel form. */
    method HandleCancelSubmit(data: map<string, Fields.FormValue>) returns (request: CancelRequest)
      requires Valid()
      modifies this, store
      ensures Valid()
      ensures request == CancelRequestFor(data, old(filters))
      ensures filters == old(filters) && !cancelFormOpen
      ensures store.Snapshot() == Slice.Reduce(old(store.Snapshot()), Slice.Pending(Slice.CancelPaymentAndRefresh))
      ensures !PanelShown() && fresh(panel) && panel.NoMessages()
    {
      request := CancelRequestFor(data, filters);
      store.Pending(Slice.CancelPaymentAndRefresh);
      panel := new PaymentFilters.FilterPanel();
      cancelFormOpen := false;
    }
  }
}
