/** Form values, field descriptors and the validation callbacks of the payment-creation
    and cancellation forms. */
module Fields {
  import opened Wrappers
  import opened Dates

  /** A value held by a form field: null (or undefined), a string, or a date. */
  datatype FormValue = NullValue | TextValue(text: string) | DateValue(date: DateTime)

  /** JavaScript `!value` on a form value: null and the empty string are falsy; a date is truthy. */
  predicate Falsy(v: FormValue) {
    v.NullValue? || v == TextValue("")
  }

  /** The string a text callback receives. Null reads as the empty string, which every
      text callback treats alike (`!value`); a date never reaches a text field, since the
      form picks the event's value by the field's type. */
  function TextOf(v: FormValue): string {
    if v.TextValue? then v.text else ""
  }

  datatype FieldType = TextType | NumberType | DateType | DisabledType

  /** What `parseFloat` yields; kept abstract, see `Env`. */
  datatype ParsedNumber = NotANumber | Finite(value: real) | Infinite(positive: bool)

  /** What the callbacks read besides the value: the clock's current instant (`new Date()`)
      and the number parser. */
  datatype Env = Env(now: DateTime, parseFloat: string -> ParsedNumber)

  /** The validation callbacks the descriptors carry. */
  datatype Rule = AmountRule | DueDateRule | DescriptionRule | UpdateDescriptionRule

  /** A field descriptor (`FieldConfig`). `caption` is the descriptor's `label`. */
  datatype FieldConfig = FieldConfig(
    name: string,
    caption: string,
    kind: FieldType,
    required: bool,
    validation: Option<Rule>,
    placeholder: Option<string>,
    startAdornment: Option<string>,
    minLength: Option<nat>,
    maxLength: Option<nat>)

  const AMOUNT_REQUIRED: string := "El monto es requerido"
  const AMOUNT_INVALID: string := "Ingrese un monto v\U{e1}lido mayor a 0"
  const DUE_DATE_REQUIRED: string := "La fecha de vencimiento es requerida"
  const DUE_DATE_PAST: string := "La fecha debe ser posterior a hoy"
  const DESCRIPTION_REQUIRED: string := "El concepto de pago es requerido"
  const DESCRIPTION_TOO_SHORT: string := "El concepto debe tener al menos 3 caracteres"
  const DESCRIPTION_TOO_LONG: string := "El concepto no puede tener m\U{e1}s de 200 caracteres"
  const REASON_REQUIRED: string := "El motivo de cancelaci\U{f3}n es requerido"
  const REASON_TOO_SHORT: string := "El motivo debe tener al menos 10 caracteres"
  const REASON_TOO_LONG: string := "El motivo no puede tener m\U{e1}s de 500 caracteres"

  /** `parseFloat` produced a number greater than zero. */
  predicate IsPositive(n: ParsedNumber) {
    match n
    case NotANumber => false
    case Finite(x) => x > 0.0
    case Infinite(positive) => positive
  }

  /** The amount callback: required, then a number greater than zero. */
  function AmountError(v: FormValue, env: Env): (r: string)
    ensures TextOf(v) == "" ==> r == AMOUNT_REQUIRED
    ensures TextOf(v) != "" ==> (r == "" <==> IsPositive(env.parseFloat(TextOf(v))))
    ensures TextOf(v) != "" && r != "" ==> r == AMOUNT_INVALID
  {
    var s := TextOf(v);
    if s == "" then AMOUNT_REQUIRED
    else
      match env.parseFloat(s)
      case NotANumber => AMOUNT_INVALID
      case Finite(x) => if x <= 0.0 then AMOUNT_INVALID else ""
      case Infinite(positive) => if !positive then AMOUNT_INVALID else ""
  }

  /** The due-date callback: required, then not strictly before now. */
  function DueDateError(v: FormValue, env: Env): (r: string)
    ensures !v.DateValue? ==> r == DUE_DATE_REQUIRED
    ensures v.DateValue? ==> (r == "" <==> !Before(v.date, env.now))
    ensures v.DateValue? && r != "" ==> r == DUE_DATE_PAST
  {
    if !v.DateValue? then DUE_DATE_REQUIRED
    else if Before(v.date, env.now) then DUE_DATE_PAST
    else ""
  }

  /** A length-bounded text callback: required, then at least `min`, then at most `max`
      characters, each with its own message. */
  function LengthError(s: string, min: nat, max: nat, required: string, tooShort: string, tooLong: string): (r: string)
    ensures s == "" ==> r == required
    ensures s != "" && |s| < min ==> r == tooShort
    ensures s != "" && min <= |s| && |s| > max ==> r == tooLong
    ensures s != "" && min <= |s| <= max ==> r == ""
  {
    if s == "" then required
    else if |s| < min then tooShort
    else if |s| > max then tooLong
    else ""
  }

  function DescriptionError(v: FormValue): (r: string)
    ensures r == "" <==> 3 <= |TextOf(v)| <= 255
  {
    LengthError(TextOf(v), 3, 255, DESCRIPTION_REQUIRED, DESCRIPTION_TOO_SHORT, DESCRIPTION_TOO_LONG)
  }

  function UpdateDescriptionError(v: FormValue): (r: string)
    ensures r == "" <==> 10 <= |TextOf(v)| <= 500
  {
    LengthError(TextOf(v), 10, 500, REASON_REQUIRED, REASON_TOO_SHORT, REASON_TOO_LONG)
  }

  /** `field.validation(value)`. */
  function RunRule(rule: Rule, v: FormValue, env: Env): string {
    match rule
    case AmountRule => AmountError(v, env)
    case DueDateRule => DueDateError(v, env)
    case DescriptionRule => DescriptionError(v)
    case UpdateDescriptionRule => UpdateDescriptionError(v)
  }

  /** `paymentFields`. */
  const PAYMENT_FIELDS: seq<FieldConfig> := [
    FieldConfig("externalId", "Identificador \U{fa}nico de pago autogenerado", DisabledType, false, None,
                None, None, None, None),
    FieldConfig("amount", "Monto", NumberType, true, Some(AmountRule),
                Some("0.00"), Some("$"), None, None),
    FieldConfig("dueDate", "Fecha de Vencimiento", DateType, true, Some(DueDateRule),
                None, None, None, None),
    FieldConfig("description", "Concepto de Pago", TextType, true, Some(DescriptionRule),
                Some("Ingrese el concepto del pago"), None, Some(3), Some(255))
  ]

  /** `cancelFields`. */
  const CANCEL_FIELDS: seq<FieldConfig> := [
    FieldConfig("reference", "ID de Referencia", DisabledType, false, None,
                None, None, None, None),
    FieldConfig("updateDescription", "Motivo de Cancelaci\U{f3}n", TextType, true, Some(UpdateDescriptionRule),
                Some("Ingrese el motivo de la cancelaci\U{f3}n"), None, Some(10), Some(500))
  ]

  function Names(fields: seq<FieldConfig>): (r: seq<string>)
    ensures |r| == |fields| && forall i :: 0 <= i < |fields| ==> r[i] == fields[i].name
  {
    seq(|fields|, i requires 0 <= i < |fields| => fields[i].name)
  }

  /** The two field lists, by name and order, and which fields are disabled. */
  lemma FieldListsShape()
    ensures Names(PAYMENT_FIELDS) == ["externalId", "amount", "dueDate", "description"]
    ensures Names(CANCEL_FIELDS) == ["reference", "updateDescription"]
    ensures forall f :: f in PAYMENT_FIELDS + CANCEL_FIELDS ==>
              (f.kind == DisabledType <==> f.name in {"externalId", "reference"})
  {
  }

  /** Each length-checked descriptor's callback accepts exactly the texts whose length lies
      between the descriptor's `minLength` and `maxLength`. */
  lemma CallbacksMatchLengthBounds(f: FieldConfig, s: string)
    requires f in PAYMENT_FIELDS + CANCEL_FIELDS && f.minLength.Some? && f.maxLength.Some?
    ensures f.validation.Some?
    ensures forall env :: RunRule(f.validation.value, TextValue(s), env) == "" <==>
              f.minLength.value <= |s| <= f.maxLength.value
  {
  }

  /** The description's too-long message names 200 characters, but texts of 201 to 255
      characters are accepted: the check enforces 255. */
  lemma DescriptionLimitIs255(s: string)
    requires 200 < |s| <= 255
    ensures DescriptionError(TextValue(s)) == ""
  {
  }
}
