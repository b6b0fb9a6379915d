/** The payments table: the empty-data message, one row per payment with its status chip and
    actions, and the pagination footer with its label. */
module PaymentsTable {
  import opened PaymentTypes
  import opened Decimal
  import ChipStatus
  import Slice = PaymentsSlice

  const NO_DATA_MESSAGE: string := "No hay pagos registrados"

  const HEADERS: seq<string> :=
    ["ID", "Monto", "Referencia", "Descripci\U{f3}n", "Fecha de vencimiento", "Status", "Acciones"]

  const ROWS_PER_PAGE_OPTIONS: seq<int> := [10, 50, 100]

  const FOOTER_COLSPAN: int := 7

  const PAGE_PREFIX: string := "P\U{e1}gina "
  const PAGE_SEPARATOR: string := " de "

  /** The footer spans every column, and the store's initial page size is one of the
      offered sizes. */
  lemma LayoutConstants()
    ensures FOOTER_COLSPAN == |HEADERS|
    ensures Slice.INITIAL_STATE.pageSize in ROWS_PER_PAGE_OPTIONS
    ensures forall i, j :: 0 <= i < j < |ROWS_PER_PAGE_OPTIONS| ==> ROWS_PER_PAGE_OPTIONS[i] < ROWS_PER_PAGE_OPTIONS[j]
  {
  }

  /** The action buttons of a row. */
  datatype RowActions = RowActions(viewDetails: bool, cancel: bool)

  /** Details are offered for every row; cancelling only for a payment still "01". */
  function ActionsFor(row: PaymentRow): (r: RowActions)
    ensures r.viewDetails
    ensures r.cancel <==> row.status == CREATED
  {
    RowActions(true, row.status == CREATED)
  }

  /** Cancelling is offered exactly on the rows whose chip reads "Creado" in the info colour
      (a raw code "Creado" is shown with the default colour, so it is not confused). */
  lemma CancelOfferedIffChipShowsCreated(row: PaymentRow)
    ensures ActionsFor(row).cancel <==>
              ChipStatus.GetStatusDetails(row.status) == ChipStatus.StatusDetails("Creado", ChipStatus.Info)
  {
    var chip := ChipStatus.GetStatusDetails(row.status);
    if chip == ChipStatus.StatusDetails("Creado", ChipStatus.Info) {
      assert row.status in [CREATED, PAID, CANCELED, EXPIRED];
    }
  }

  /** One table row: the payment's cells, its status chip and its actions. The due date
      is kept as the stored string. */
  datatype RowView = RowView(
    paymentId: int,
    amount: real,
    reference: string,
    description: string,
    dueDate: string,
    chip: ChipStatus.StatusDetails,
    actions: RowActions)

  function RowOf(row: PaymentRow): (r: RowView)
    ensures r.paymentId == row.paymentId && r.amount == row.amount
    ensures r.reference == row.reference && r.description == row.description && r.dueDate == row.dueDate
    ensures r.chip == ChipStatus.GetStatusDetails(row.status)
    ensures r.actions == ActionsFor(row)
  {
    RowView(row.paymentId, row.amount, row.reference, row.description, row.dueDate,
            ChipStatus.GetStatusDetails(row.status), ActionsFor(row))
  }

  /** `Math.ceil(a / b)` for a non-zero integer divisor, from Dafny's floor division. */
  function CeilDiv(a: int, b: int): (q: int)
    requires b != 0
    ensures b > 0 ==> q * b - b < a <= q * b
    ensures b < 0 ==> q * b <= a < q * b - b
  {
    if b > 0 then CeilDivPositive(a, b) else CeilDivPositive(-a, -b)
  }

  /** The least `q` with `a <= q * b`, for a positive `b`. */
  function CeilDivPositive(a: int, b: int): (q: int)
    requires b > 0
    ensures q * b - b < a <= q * b
  {
    var k := (-a) / b;
    assert -a == b * k + (-a) % b;
    -k
  }

  /** The page count as the footer prints it; a zero page size gives the JavaScript values
      of an infinite or undefined quotient. */
  function PageCountText(count: int, rowsPerPage: int): string {
    if rowsPerPage == 0 then
      if count == 0 then "NaN" else if count > 0 then "Infinity" else "-Infinity"
    else IntToString(CeilDiv(count, rowsPerPage))
  }

  /** `labelDisplayedRows`: "Página {page + 1} de {ceil(count / rowsPerPage)}". */
  function PaginationLabel(count: int, page: int, rowsPerPage: int): string {
    PAGE_PREFIX + IntToString(page + 1) + PAGE_SEPARATOR + PageCountText(count, rowsPerPage)
  }

  /** A page that holds some of the `count` items is within the page count. */
  lemma PageWithinPageCount(count: int, page: int, rowsPerPage: int)
    requires rowsPerPage > 0 && 0 <= page && page * rowsPerPage < count
    ensures page + 1 <= CeilDiv(count, rowsPerPage)
  {
    var q := CeilDiv(count, rowsPerPage);
    if q <= page {
      MultiplyMonotone(q, page, rowsPerPage);
    }
  }

  /** On a page that holds some of the `count` items, the label prints the one-based page
      number and the page count in decimal, and both read back as those numbers. */
  lemma PaginationLabelReadsBack(count: int, page: int, rowsPerPage: int)
    requires rowsPerPage > 0 && 0 <= page && page * rowsPerPage < count
    ensures 1 <= page + 1 <= CeilDiv(count, rowsPerPage)
    ensures PaginationLabel(count, page, rowsPerPage) ==
              PAGE_PREFIX + NatToString(page + 1) + PAGE_SEPARATOR + NatToString(CeilDiv(count, rowsPerPage))
    ensures DigitsValue(NatToString(page + 1)) == page + 1
    ensures DigitsValue(NatToString(CeilDiv(count, rowsPerPage))) == CeilDiv(count, rowsPerPage)
  {
    PageWithinPageCount(count, page, rowsPerPage);
    NatToStringRoundTrip(page + 1);
    NatToStringRoundTrip(CeilDiv(count, rowsPerPage));
  }

  lemma MultiplyMonotone(x: int, y: int, m: int)
    requires x <= y && m > 0
    ensures x * m <= y * m
  {
    var d := y - x;
    assert y * m == x * m + d * m;
  }

  /** The footer: the page-size choices, its span, and the label. */
  datatype Footer = Footer(options: seq<int>, colSpan: int, count: int, rowsPerPage: int, page: int, text: string)

  /** What the table draws: only the no-data message, or the grid. */
  datatype TableView =
    | NoData(message: string)
    | Grid(headers: seq<string>, rows: seq<RowView>, footer: Footer)

  /** `PaymentsTable`: an empty list draws only the message; otherwise one row per payment,
      in order, under the seven headers, with the footer. */
  function Render(data: seq<PaymentRow>, page: int, rowsPerPage: int, totalItems: int): (r: TableView)
    ensures r.NoData? <==> |data| == 0
    ensures r.NoData? ==> r.message == NO_DATA_MESSAGE
    ensures r.Grid? ==> r.headers == HEADERS && |r.rows| == |data|
    ensures r.Grid? ==> forall i :: 0 <= i < |data| ==> r.rows[i] == RowOf(data[i])
    ensures r.Grid? ==> r.footer.options == ROWS_PER_PAGE_OPTIONS && r.footer.colSpan == |HEADERS|
    ensures r.Grid? ==> r.footer.text == PaginationLabel(totalItems, page, rowsPerPage)
  {
    if |data| == 0 then NoData(NO_DATA_MESSAGE)
    else
      Grid(HEADERS,
           seq(|data|, i requires 0 <= i < |data| => RowOf(data[i])),
           Footer(ROWS_PER_PAGE_OPTIONS, FOOTER_COLSPAN, totalItems, rowsPerPage, page,
                  PaginationLabel(totalItems, page, rowsPerPage)))
  }
}
