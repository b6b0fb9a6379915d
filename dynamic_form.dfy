/** The descriptor-driven form used to create and to cancel a payment: its state of
    values, errors and touched flags, and the transitions the form's handlers apply to it. */
module DynamicForm {
  import opened Wrappers
  import opened Dates
  import opened Fields
  import opened PaymentTypes

  datatype FormType = PaymentForm | CancelForm

  function FieldsFor(formType: FormType): seq<FieldConfig> {
    if formType == PaymentForm then PAYMENT_FIELDS else CANCEL_FIELDS
  }

  /** `formState`. A key missing from `values` reads as undefined, from `errors` as no
      message, from `touched` as not touched. */
  datatype FormState = FormState(values: map<string, FormValue>, errors: map<string, string>, touched: map<string, bool>)

  function ValueOf(s: FormState, name: string): FormValue {
    if name in s.values then s.values[name] else NullValue
  }

  function ErrorOf(s: FormState, name: string): string {
    if name in s.errors then s.errors[name] else ""
  }

  predicate IsTouched(s: FormState, name: string) {
    name in s.touched && s.touched[name]
  }

  predicate UniqueNames(fields: seq<FieldConfig>) {
    forall i, j :: 0 <= i < j < |fields| ==> fields[i].name != fields[j].name
  }

  /** The value a field starts with: null for a date, the empty string otherwise. */
  function BlankValue(f: FieldConfig): FormValue {
    if f.kind == DateType then NullValue else TextValue("")
  }

  /** The `fields.reduce` that builds the starting values. */
  function InitialValues(fields: seq<FieldConfig>): (m: map<string, FormValue>)
    ensures m.Keys == set i | 0 <= i < |fields| :: fields[i].name
    ensures UniqueNames(fields) ==> forall i :: 0 <= i < |fields| ==> m[fields[i].name] == BlankValue(fields[i])
    decreases |fields|
  {
    if fields == [] then map[]
    else
      var init := fields[..|fields| - 1];
      var last := fields[|fields| - 1];
      var m := InitialValues(init);
      assert forall i :: 0 <= i < |init| ==> init[i] == fields[i];
      assert (set i | 0 <= i < |fields| :: fields[i].name) == (set i | 0 <= i < |init| :: init[i].name) + {last.name};
      m[last.name := BlankValue(last)]
  }

  /** The state on opening and after `resetForm`: blank values, no errors, nothing touched. */
  function InitialState(fields: seq<FieldConfig>): (s: FormState)
    ensures s.errors == map[] && s.touched == map[]
    ensures UniqueNames(fields) ==> forall i :: 0 <= i < |fields| ==> ValueOf(s, fields[i].name) == BlankValue(fields[i])
  {
    FormState(InitialValues(fields), map[], map[])
  }

  /** `validateField`: a required field with a falsy value gets "<label> es requerido";
      otherwise the field's callback decides, and a field without one is valid. */
  function ValidateField(f: FieldConfig, v: FormValue, env: Env): (r: string)
    ensures f.required && Falsy(v) ==> r == f.caption + " es requerido"
    ensures !(f.required && Falsy(v)) && f.validation.Some? ==> r == RunRule(f.validation.value, v, env)
    ensures !(f.required && Falsy(v)) && f.validation.None? ==> r == ""
    ensures f.required && f.caption != "" && Falsy(v) ==> r != ""
  {
    if f.required && Falsy(v) then f.caption + " es requerido"
    else if f.validation.Some? then RunRule(f.validation.value, v, env)
    else ""
  }

  /** `errors.some(error => error !== '')`. */
  function AnyNonEmpty(errors: seq<string>): (r: bool)
    ensures r <==> exists i :: 0 <= i < |errors| && errors[i] != ""
    decreases |errors|
  {
    if errors == [] then false
    else
      assert forall i :: 1 <= i < |errors| ==> errors[i] == errors[1..][i - 1];
      errors[0] != "" || AnyNonEmpty(errors[1..])
  }

  /** `fields.map(field => validateField(field, values[field.name]))`. */
  function AllErrors(fields: seq<FieldConfig>, s: FormState, env: Env): (errors: seq<string>)
    ensures |errors| == |fields|
    ensures forall i :: 0 <= i < |fields| ==> errors[i] == ValidateField(fields[i], ValueOf(s, fields[i].name), env)
  {
    seq(|fields|, i requires 0 <= i < |fields| => ValidateField(fields[i], ValueOf(s, fields[i].name), env))
  }

  /** `isFormValid`: every field validates to the empty message. The submit button is
      enabled exactly then. */
  function IsFormValid(fields: seq<FieldConfig>, s: FormState, env: Env): (r: bool)
    ensures r <==> forall i :: 0 <= i < |fields| ==> ValidateField(fields[i], ValueOf(s, fields[i].name), env) == ""
  {
    !AnyNonEmpty(AllErrors(fields, s, env))
  }

  /** The value `handleChange` takes: the picker's date for a date field, the input's
      text otherwise; a missing one is undefined. */
  function ChangedValue(f: FieldConfig, eventText: Option<string>, dateValue: Option<DateTime>): (v: FormValue)
    ensures f.kind == DateType ==> (v.NullValue? || v.DateValue?)
    ensures f.kind != DateType ==> (v.NullValue? || v.TextValue?)
    ensures f.kind == DateType ==> (v.DateValue? <==> dateValue.Some?) && (v.DateValue? ==> v.date == dateValue.value)
    ensures f.kind != DateType ==> (v.TextValue? <==> eventText.Some?) && (v.TextValue? ==> v.text == eventText.value)
  {
    if f.kind == DateType then
      (if dateValue.Some? then DateValue(dateValue.value) else NullValue)
    else
      (if eventText.Some? then TextValue(eventText.value) else NullValue)
  }

  /** `handleChange`: stores the value; the field's error becomes its validation if the
      field was touched and the empty message otherwise; nothing else changes. */
  function HandleChange(s: FormState, f: FieldConfig, eventText: Option<string>, dateValue: Option<DateTime>, env: Env): (r: FormState)
    ensures ValueOf(r, f.name) == ChangedValue(f, eventText, dateValue)
    ensures ErrorOf(r, f.name) == (if IsTouched(s, f.name) then ValidateField(f, ChangedValue(f, eventText, dateValue), env) else "")
    ensures forall n :: n != f.name ==> ValueOf(r, n) == ValueOf(s, n) && ErrorOf(r, n) == ErrorOf(s, n)
    ensures r.values.Keys == s.values.Keys + {f.name} && r.errors.Keys == s.errors.Keys + {f.name}
    ensures r.touched == s.touched
  {
    var value := ChangedValue(f, eventText, dateValue);
    var error := if IsTouched(s, f.name) then ValidateField(f, value, env) else "";
    s.(values := s.values[f.name := value], errors := s.errors[f.name := error])
  }

  /** `handleBlur`: marks the field touched and shows the validation of its stored value. */
  function HandleBlur(s: FormState, f: FieldConfig, env: Env): (r: FormState)
    ensures IsTouched(r, f.name)
    ensures ErrorOf(r, f.name) == ValidateField(f, ValueOf(s, f.name), env)
    ensures forall n :: n != f.name ==> ErrorOf(r, n) == ErrorOf(s, n) && (IsTouched(r, n) <==> IsTouched(s, n))
    ensures r.values == s.values
  {
    s.(touched := s.touched[f.name := true],
       errors := s.errors[f.name := ValidateField(f, ValueOf(s, f.name), env)])
  }

  /** What each field shows agrees with its value: a touched field shows its validation
      message, an untouched one shows none. */
  predicate ErrorsInSync(fields: seq<FieldConfig>, s: FormState, env: Env) {
    forall i :: 0 <= i < |fields| ==>
      ErrorOf(s, fields[i].name) == (if IsTouched(s, fields[i].name) then ValidateField(fields[i], ValueOf(s, fields[i].name), env) else "")
  }

  lemma InitialStateInSync(fields: seq<FieldConfig>, env: Env)
    ensures ErrorsInSync(fields, InitialState(fields), env)
  {
  }

  /** Typing into one of the form's fields keeps every field's message in sync. */
  lemma ChangeKeepsErrorsInSync(fields: seq<FieldConfig>, s: FormState, k: nat, eventText: Option<string>, dateValue: Option<DateTime>, env: Env)
    requires UniqueNames(fields) && k < |fields| && ErrorsInSync(fields, s, env)
    ensures ErrorsInSync(fields, HandleChange(s, fields[k], eventText, dateValue, env), env)
  {
    var r := HandleChange(s, fields[k], eventText, dateValue, env);
    forall i | 0 <= i < |fields|
      ensures ErrorOf(r, fields[i].name) == (if IsTouched(r, fields[i].name) then ValidateField(fields[i], ValueOf(r, fields[i].name), env) else "")
    {
      if i != k {
        assert fields[i].name != fields[k].name by {
          if i < k { } else { }
        }
      }
    }
  }

  /** Leaving one of the form's fields keeps every field's message in sync. */
  lemma BlurKeepsErrorsInSync(fields: seq<FieldConfig>, s: FormState, k: nat, env: Env)
    requires UniqueNames(fields) && k < |fields| && ErrorsInSync(fields, s, env)
    ensures ErrorsInSync(fields, HandleBlur(s, fields[k], env), env)
  {
    var r := HandleBlur(s, fields[k], env);
    forall i | 0 <= i < |fields|
      ensures ErrorOf(r, fields[i].name) == (if IsTouched(r, fields[i].name) then ValidateField(fields[i], ValueOf(r, fields[i].name), env) else "")
    {
      if i != k {
        assert fields[i].name != fields[k].name by {
          if i < k { } else { }
        }
      }
    }
  }

  /** Once every field is touched and the messages are in sync, the submit button is
      enabled exactly when no field shows a message. */
  lemma ValidIffNoMessageShown(fields: seq<FieldConfig>, s: FormState, env: Env)
    requires ErrorsInSync(fields, s, env)
    requires forall i :: 0 <= i < |fields| ==> IsTouched(s, fields[i].name)
    ensures IsFormValid(fields, s, env) <==> forall i :: 0 <= i < |fields| ==> ErrorOf(s, fields[i].name) == ""
  {
  }

  /** The disabled fields (externalId, reference) are neither required nor validated, so
      they always validate to the empty message. */
  lemma DisabledFieldsAlwaysValid(f: FieldConfig, v: FormValue, env: Env)
    requires f in PAYMENT_FIELDS + CANCEL_FIELDS && f.kind == DisabledType
    ensures ValidateField(f, v, env) == ""
  {
  }

  /** Every field with a callback is also required, so a falsy value gets the generic
      "<label> es requerido" and the callbacks' own required messages never show. */
  lemma CallbackRequiredMessagesUnreachable(f: FieldConfig, v: FormValue, env: Env)
    requires f in PAYMENT_FIELDS + CANCEL_FIELDS && f.validation.Some? && Falsy(v)
    ensures ValidateField(f, v, env) == f.caption + " es requerido"
  {
  }

  /** In the payment form, a value-filled amount is accepted exactly when it parses to a
      number above zero. */
  lemma AmountAcceptedIffPositive(s: string, env: Env)
    requires s != ""
    ensures ValidateField(PAYMENT_FIELDS[1], TextValue(s), env) == "" <==> IsPositive(env.parseFloat(s))
  {
  }

  /** In the payment form, a due date is accepted exactly when it is not before now. */
  lemma DueDateAcceptedIffNotPast(d: DateTime, env: Env)
    ensures ValidateField(PAYMENT_FIELDS[2], DateValue(d), env) == "" <==> !Before(d, env.now)
  {
  }

  /** The form's submit handler, as the outcome of `await onSubmit(values)`. */
  datatype SubmitHandler = NoHandler | HandlerResolves | HandlerThrows

  const GENERAL_ERROR: string := "Error al procesar la solicitud. Por favor, intente nuevamente."

  /** The result of `handleSubmit`: the new state, the values passed to `onSubmit` (if it
      was called) and whether `onClose` was called. */
  datatype SubmitOutcome = SubmitOutcome(state: FormState, submitted: Option<map<string, FormValue>>, closed: bool)

  /** `handleSubmit`. A resolved submission resets and closes the form; a thrown one keeps
      the values and shows the general error; without a handler the form only closes. */
  function HandleSubmit(fields: seq<FieldConfig>, s: FormState, handler: SubmitHandler, hasOnClose: bool): (out: SubmitOutcome)
    ensures handler.NoHandler? ==> out == SubmitOutcome(s, None, hasOnClose)
    ensures handler.HandlerResolves? ==> out == SubmitOutcome(InitialState(fields), Some(s.values), hasOnClose)
    ensures handler.HandlerThrows? ==>
              && out.submitted == Some(s.values) && !out.closed
              && out.state.values == s.values && out.state.touched == s.touched
              && ErrorOf(out.state, "general") == GENERAL_ERROR
              && forall n :: n != "general" ==> ErrorOf(out.state, n) == ErrorOf(s, n)
  {
    match handler
    case NoHandler => SubmitOutcome(s, None, hasOnClose)
    case HandlerResolves => SubmitOutcome(InitialState(fields), Some(s.values), hasOnClose)
    case HandlerThrows => SubmitOutcome(s.(errors := s.errors["general" := GENERAL_ERROR]), Some(s.values), false)
  }

  /** A failed submission leaves every field's message in sync: no field is named "general". */
  lemma FailedSubmitKeepsErrorsInSync(formType: FormType, s: FormState, env: Env)
    requires ErrorsInSync(FieldsFor(formType), s, env)
    ensures ErrorsInSync(FieldsFor(formType), HandleSubmit(FieldsFor(formType), s, HandlerThrows, true).state, env)
  {
    var fields := FieldsFor(formType);
    assert forall i :: 0 <= i < |fields| ==> fields[i].name != "general";
  }

  /** The effect on `isOpen`: a closed form is reset. */
  function CloseEffect(fields: seq<FieldConfig>, isOpen: bool, s: FormState): (r: FormState)
    ensures !isOpen ==> r == InitialState(fields)
    ensures isOpen ==> r == s
  {
    if !isOpen then InitialState(fields) else s
  }

  /** The effect that pre-fills the cancel form: an open cancel form with a selected row
      whose reference is not empty takes that reference; nothing else changes. */
  function PrefillReference(formType: FormType, isOpen: bool, selectedRow: Option<PaymentRow>, s: FormState): (r: FormState)
    ensures isOpen && formType == CancelForm && selectedRow.Some? && selectedRow.value.reference != "" ==>
              ValueOf(r, "reference") == TextValue(selectedRow.value.reference)
    ensures !(isOpen && formType == CancelForm && selectedRow.Some? && selectedRow.value.reference != "") ==> r == s
    ensures forall n :: n != "reference" ==> ValueOf(r, n) == ValueOf(s, n)
    ensures r.errors == s.errors && r.touched == s.touched
  {
    if isOpen && formType == CancelForm && selectedRow.Some? && selectedRow.value.reference != "" then
      s.(values := s.values["reference" := TextValue(selectedRow.value.reference)])
    else s
  }

  /** Pre-filling the disabled reference field keeps the cancel form's messages in sync. */
  lemma PrefillKeepsErrorsInSync(isOpen: bool, selectedRow: Option<PaymentRow>, s: FormState, env: Env)
    requires ErrorsInSync(CANCEL_FIELDS, s, env)
    ensures ErrorsInSync(CANCEL_FIELDS, PrefillReference(CancelForm, isOpen, selectedRow, s), env)
  {
    var r := PrefillReference(CancelForm, isOpen, selectedRow, s);
    assert CANCEL_FIELDS[0].name == "reference" && CANCEL_FIELDS[1].name == "updateDescription";
    DisabledFieldsAlwaysValid(CANCEL_FIELDS[0], ValueOf(s, "reference"), env);
    DisabledFieldsAlwaysValid(CANCEL_FIELDS[0], ValueOf(r, "reference"), env);
  }
}
