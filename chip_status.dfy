/** The coloured chip that shows a payment's status. */
module ChipStatus {
  import opened Wrappers
  import opened PaymentTypes
  import ComponentsTypes

  datatype ChipColor = Info | Success | Error | Warning | Default

  datatype StatusDetails = StatusDetails(text: string, color: ChipColor)

  /** `statusMap`: the four known codes. */
  const STATUS_DETAILS: map<string, StatusDetails> := map[
    CREATED := StatusDetails("Creado", Info),
    PAID := StatusDetails("Pagado", Success),
    CANCELED := StatusDetails("Cancelado", Error),
    EXPIRED := StatusDetails("Expirado", Warning)
  ]

  /** `getStatusDetails`: the table entry of a known code; any other string is shown as
      itself with the default colour. Defined for every string. */
  function GetStatusDetails(value: string): (r: StatusDetails)
    ensures value == CREATED ==> r == StatusDetails("Creado", Info)
    ensures value == PAID ==> r == StatusDetails("Pagado", Success)
    ensures value == CANCELED ==> r == StatusDetails("Cancelado", Error)
    ensures value == EXPIRED ==> r == StatusDetails("Expirado", Warning)
    ensures value !in ComponentsTypes.STATUS_CODES ==> r == StatusDetails(value, Default)
    ensures r.color == Default <==> value !in ComponentsTypes.STATUS_CODES
  {
    if value in STATUS_DETAILS then STATUS_DETAILS[value] else StatusDetails(value, Default)
  }

  /** The known codes get pairwise distinct labels and pairwise distinct colours. */
  lemma KnownCodesDistinct(a: string, b: string)
    requires a in ComponentsTypes.STATUS_CODES && b in ComponentsTypes.STATUS_CODES && a != b
    ensures GetStatusDetails(a).text != GetStatusDetails(b).text
    ensures GetStatusDetails(a).color != GetStatusDetails(b).color
  {
  }

  /** The chip's label agrees with `STATUS_MAP` for every known code. */
  lemma ChipLabelsMatchStatusMap(code: string)
    requires code in ComponentsTypes.STATUS_CODES
    ensures ComponentsTypes.StatusLabel(code) == Some(GetStatusDetails(code).text)
  {
  }
}
