/** The search-filter panel: which date ranges are marked required, the "at most a month"
    range check, and the panel's own per-field range messages. */
module PaymentFilters {
  import opened Wrappers
  import opened Dates
  import opened ComponentsTypes

  const RANGE_MESSAGE: string := "El rango de fechas no puede ser mayor a un mes"
  const REQUIRED_MESSAGE: string := "Campo requerido"

  /** The longest accepted range, in full days. */
  const MAX_RANGE_DAYS: int := 31

  predicate HasCreationDateRange(f: Filters) {
    f.startCreationDate.Some? || f.endCreationDate.Some?
  }

  predicate HasPaymentDateRange(f: Filters) {
    f.startPaymentDate.Some? || f.endPaymentDate.Some?
  }

  /** `isCreationDateRangeRequired`. */
  predicate IsCreationDateRangeRequired(f: Filters) {
    HasCreationDateRange(f) || (!HasPaymentDateRange(f) && f.status == "")
  }

  /** `isPaymentDateRangeRequired`. */
  predicate IsPaymentDateRangeRequired(f: Filters) {
    HasPaymentDateRange(f) || (!HasCreationDateRange(f) && f.status == "")
  }

  /** The filters with the creation and payment ranges exchanged. */
  function SwapRanges(f: Filters): Filters {
    f.(startCreationDate := f.startPaymentDate, endCreationDate := f.endPaymentDate,
       startPaymentDate := f.startCreationDate, endPaymentDate := f.endCreationDate)
  }

  /** The two rules are mirror images; without a status some range is always required;
      once one range is begun, the other is required only if it is begun too; with a status
      and no dates, neither is required. */
  lemma RequirednessRules(f: Filters)
    ensures IsPaymentDateRangeRequired(f) == IsCreationDateRangeRequired(SwapRanges(f))
    ensures f.status == "" ==> IsCreationDateRangeRequired(f) || IsPaymentDateRangeRequired(f)
    ensures HasCreationDateRange(f) ==> (IsPaymentDateRangeRequired(f) <==> HasPaymentDateRange(f))
    ensures HasPaymentDateRange(f) ==> (IsCreationDateRangeRequired(f) <==> HasCreationDateRange(f))
    ensures f.status != "" && !HasCreationDateRange(f) && !HasPaymentDateRange(f) ==>
              !IsCreationDateRangeRequired(f) && !IsPaymentDateRangeRequired(f)
  {
  }

  /** `validateDateRange`: a range with a missing end is fine; otherwise it may span at
      most 31 full days (a reversed range has a negative span and passes). */
  function ValidateDateRange(start: Option<DateTime>, end: Option<DateTime>): (r: bool)
    ensures start.None? || end.None? ==> r
    ensures start.Some? && end.Some? ==> (r <==> DifferenceInDays(end.value, start.value) <= MAX_RANGE_DAYS)
    ensures start.Some? && end.Some? && !Before(start.value, end.value) ==> r
  {
    if start.Some? && end.Some? then DifferenceInDays(end.value, start.value) <= MAX_RANGE_DAYS else true
  }

  /** In calendar days: up to 31 days apart always passes; 32 days apart passes only if the
      end's time of day is earlier than the start's; 33 or more never. */
  lemma RangeLimitInCalendarDays(start: DateTime, end: DateTime)
    ensures end.day - start.day <= 31 ==> ValidateDateRange(Some(start), Some(end))
    ensures end.day - start.day == 32 ==> (ValidateDateRange(Some(start), Some(end)) <==> end.time < start.time)
    ensures end.day - start.day >= 33 ==> !ValidateDateRange(Some(start), Some(end))
  {
    var delta := Timestamp(end) - Timestamp(start);
    assert delta == (end.day - start.day) * MS_PER_DAY + (end.time - start.time);
  }

  predicate IsCreationField(field: DateField) {
    field == StartCreationDate || field == EndCreationDate
  }

  predicate IsStart(field: DateField) {
    field == StartCreationDate || field == StartPaymentDate
  }

  /** The other end of the same range. */
  function Partner(field: DateField): (p: DateField)
    ensures p != field && IsStart(p) != IsStart(field)
    ensures IsCreationField(p) <==> IsCreationField(field)
  {
    match field
    case StartCreationDate => EndCreationDate
    case EndCreationDate => StartCreationDate
    case StartPaymentDate => EndPaymentDate
    case EndPaymentDate => StartPaymentDate
  }

  /** The ends of a range are each other's partners. */
  lemma PartnerIsInvolution(field: DateField)
    ensures Partner(Partner(field)) == field
  {
  }

  /** A date change is accepted exactly when the range it would produce passes
      `ValidateDateRange`. */
  predicate DateChangeAccepted(f: Filters, field: DateField, value: Option<DateTime>) {
    if IsStart(field) then ValidateDateRange(value, DateOf(f, Partner(field)))
    else ValidateDateRange(DateOf(f, Partner(field)), value)
  }

  /** Clearing a date, or setting one whose partner is empty, is always accepted. */
  lemma ClearingOrUnpairedAlwaysAccepted(f: Filters, field: DateField, value: Option<DateTime>)
    requires value.None? || DateOf(f, Partner(field)).None?
    ensures DateChangeAccepted(f, field, value)
  {
  }

  /** The check at the head of `handleDateChange`: the if-chain over the field, its
      partner and the new value, with its `isValid` and `errorMessage` locals. */
  method CheckDateChange(filters: Filters, field: DateField, value: Option<DateTime>) returns (isValid: bool, errorMessage: string)
    ensures isValid == DateChangeAccepted(filters, field, value)
    ensures errorMessage == (if isValid then "" else RANGE_MESSAGE)
  {
    isValid := true;
    errorMessage := "";
    if field == EndCreationDate && filters.startCreationDate.Some? && value.Some? {
      isValid := ValidateDateRange(filters.startCreationDate, value);
      if !isValid {
        errorMessage := RANGE_MESSAGE;
      }
    } else if field == StartCreationDate && filters.endCreationDate.Some? && value.Some? {
      isValid := ValidateDateRange(value, filters.endCreationDate);
      if !isValid {
        errorMessage := RANGE_MESSAGE;
      }
    } else if field == EndPaymentDate && filters.startPaymentDate.Some? && value.Some? {
      isValid := ValidateDateRange(filters.startPaymentDate, value);
      if !isValid {
        errorMessage := RANGE_MESSAGE;
      }
    } else if field == StartPaymentDate && filters.endPaymentDate.Some? && value.Some? {
      isValid := ValidateDateRange(value, filters.endPaymentDate);
      if !isValid {
        errorMessage := RANGE_MESSAGE;
      }
    }
  }

  /** The panel's own state: one range message per date field. */
  class FilterPanel {
    var dateErrors: map<DateField, string>

    ghost predicate Valid()
      reads this
    {
      forall field: DateField :: field in dateErrors
    }

    /** No field carries a range message: the state of a freshly mounted panel. */
    predicate NoMessages()
      reads this
    {
      forall field: DateField :: field in dateErrors && dateErrors[field] == ""
    }

    constructor ()
      ensures Valid() && NoMessages()
    {
      dateErrors := map[StartCreationDate := "", EndCreationDate := "", StartPaymentDate := "", EndPaymentDate := ""];
      new;
      forall field: DateField
        ensures field in dateErrors && dateErrors[field] == ""
      {
        assert field.StartCreationDate? || field.EndCreationDate? || field.StartPaymentDate? || field.EndPaymentDate?;
      }
    }

    /** `handleDateChange`: decides whether the change is accepted (the caller forwards an
        accepted value to `onFilterChange`), and sets only that field's message: cleared
        when accepted, the range message when rejected. */
    method HandleDateChange(filters: Filters, field: DateField, value: Option<DateTime>) returns (accepted: bool)
      requires Valid()
      modifies this
      ensures Valid()
      ensures accepted == DateChangeAccepted(filters, field, value)
      ensures dateErrors == old(dateErrors)[field := if accepted then "" else RANGE_MESSAGE]
    {
      var errorMessage;
      accepted, errorMessage := CheckDateChange(filters, field, value);
      if accepted {
        dateErrors := dateErrors[field := ""];
      } else {
        dateErrors := dateErrors[field := errorMessage];
      }
    }

    /** The picker's helper text: the range message if any, else "Campo requerido" when its
        range is required and the date is missing. */
    function HelperText(filters: Filters, field: DateField): (text: string)
      requires Valid()
      reads this
      ensures dateErrors[field] != "" ==> text == dateErrors[field]
      ensures dateErrors[field] == "" ==>
                (text == REQUIRED_MESSAGE <==> RangeRequired(filters, field) && DateOf(filters, field).None?)
      ensures dateErrors[field] == "" && !(RangeRequired(filters, field) && DateOf(filters, field).None?) ==> text == ""
    {
      if dateErrors[field] != "" then dateErrors[field]
      else if RangeRequired(filters, field) && DateOf(filters, field).None? then REQUIRED_MESSAGE
      else ""
    }

    /** The picker is drawn in error (a required date is missing, or it carries a message)
        exactly when it shows a helper text. */
    function InError(filters: Filters, field: DateField): (r: bool)
      requires Valid()
      reads this
      ensures r <==> HelperText(filters, field) != ""
    {
      (RangeRequired(filters, field) && DateOf(filters, field).None?) || dateErrors[field] != ""
    }
  }

  /** Whether the range `field` belongs to is marked required. */
  predicate RangeRequired(filters: Filters, field: DateField) {
    if IsCreationField(field) then IsCreationDateRangeRequired(filters)
    else IsPaymentDateRangeRequired(filters)
  }
}
