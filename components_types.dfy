/** Shared records and constant tables of the screens: the search filters and the status tables. */
module ComponentsTypes {
  import opened Wrappers
  import opened Dates
  import opened PaymentTypes

  /** The search filters: two nullable date ranges, a status code ('' for none) and the
      optional page and page size the search request adds. */
  datatype Filters = Filters(
    startCreationDate: Option<DateTime>,
    endCreationDate: Option<DateTime>,
    startPaymentDate: Option<DateTime>,
    endPaymentDate: Option<DateTime>,
    status: string,
    page: Option<int>,
    paginate: Option<int>)

  /** The four date fields of a `Filters` value. */
  datatype DateField = StartCreationDate | EndCreationDate | StartPaymentDate | EndPaymentDate

  function DateOf(f: Filters, field: DateField): Option<DateTime> {
    match field
    case StartCreationDate => f.startCreationDate
    case EndCreationDate => f.endCreationDate
    case StartPaymentDate => f.startPaymentDate
    case EndPaymentDate => f.endPaymentDate
  }

  /** `{ ...f, [field]: v }` for a date field. */
  function WithDate(f: Filters, field: DateField, v: Option<DateTime>): (r: Filters)
    ensures DateOf(r, field) == v
    ensures forall g :: g != field ==> DateOf(r, g) == DateOf(f, g)
    ensures r.status == f.status && r.page == f.page && r.paginate == f.paginate
  {
    match field
    case StartCreationDate => f.(startCreationDate := v)
    case EndCreationDate => f.(endCreationDate := v)
    case StartPaymentDate => f.(startPaymentDate := v)
    case EndPaymentDate => f.(endPaymentDate := v)
  }

  /** `STATUS_MAP`: status code to label. */
  const STATUS_MAP: map<string, string> :=
    map[CREATED := "Creado", PAID := "Pagado", CANCELED := "Cancelado", EXPIRED := "Expirado"]

  /** The status codes in the order `STATUS_MAP` declares them. */
  const STATUS_CODES: seq<string> := [CREATED, PAID, CANCELED, EXPIRED]

  datatype StatusOption = StatusOption(value: string, text: string)

  /** `STATUS_OPTIONS`: the status selector's entries, the empty placeholder first. */
  const STATUS_OPTIONS: seq<StatusOption> := [
    StatusOption("", "Seleccione un status"),
    StatusOption(CREATED, "Creado"),
    StatusOption(PAID, "Pagado"),
    StatusOption(CANCELED, "Cancelado"),
    StatusOption(EXPIRED, "Expirado")
  ]

  /** `STATUS_MAP[code]`: the label of a known code, nothing for any other string. */
  function StatusLabel(code: string): (r: Option<string>)
    ensures r.Some? <==> code in STATUS_CODES
    ensures r.Some? ==> r.value != ""
  {
    if code in STATUS_MAP then Some(STATUS_MAP[code]) else None
  }

  /** `STATUS_MAP` has exactly the four lifecycle codes as keys, and `STATUS_OPTIONS` is the
      placeholder followed by those keys in order, each with its `STATUS_MAP` label. */
  lemma StatusTablesAgree()
    ensures STATUS_MAP.Keys == {CREATED, PAID, CANCELED, EXPIRED}
    ensures |STATUS_OPTIONS| == |STATUS_CODES| + 1
    ensures STATUS_OPTIONS[0].value == ""
    ensures forall i :: 0 <= i < |STATUS_CODES| ==>
              STATUS_OPTIONS[i + 1].value == STATUS_CODES[i] &&
              STATUS_OPTIONS[i + 1].text == STATUS_MAP[STATUS_CODES[i]]
  {
  }
}
