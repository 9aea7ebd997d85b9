/** The admin edit form for a booking transaction: one rule set per field, and
    no rule that relates two fields.

    Each field's rules are Laravel validation rules: `required` refuses a
    missing value and a string that PHP's `trim` empties; `max:255` counts
    characters; `numeric` is PHP's `is_numeric`, outside the model and taken as
    the parameter `isNumeric`. Every field here carries `required` first, and a
    failed `required` stops that field's remaining rules, so each field reports
    at most one error. */
module AdminForm {
  import opened Wrappers

  /** The form's state. Text inputs and date pickers hold strings; the payment
      select holds one of its two options; the office select holds an office id. */
  datatype FormInput = FormInput(
    name: Option<string>,
    booking_trx_id: Option<string>,
    phone_number: Option<string>,
    total_amount: Option<string>,
    duration: Option<string>,
    started_at: Option<string>,
    ended_at: Option<string>,
    is_paid: Option<bool>,
    office_space_id: Option<int>)

  datatype Rule = Required | MaxLength(limit: nat) | Numeric

  /** The form's fields, each reported under its column name (`name`,
      `booking_trx_id`, `phone_number`, `total_amount`, `duration`,
      `started_at`, `ended_at`, `is_paid`, `office_space_id`). */
  datatype Field =
    | Name | BookingTrxId | PhoneNumber | TotalAmount | Duration
    | StartedAt | EndedAt | IsPaid | OfficeSpaceId

  datatype FormError = FormError(field: Field, rule: Rule)

  const MaxText := 255

  /** The characters PHP's `trim` removes by default. */
  predicate TrimmedChar(c: char) {
    c == ' ' || c == '\t' || c == '\n' || c == '\r' || c == '\0' || c == '\U{000B}'
  }

  predicate Blank(s: string) {
    forall i :: 0 <= i < |s| ==> TrimmedChar(s[i])
  }

  /** Laravel's `required` on a string field. */
  predicate Filled(v: Option<string>) {
    v.Some? && !Blank(v.value)
  }

  /** A text input with `required()` and `maxLength(255)`. */
  function TextErrors(field: Field, v: Option<string>): (r: seq<FormError>)
    ensures r == [] <==> Filled(v) && |v.value| <= MaxText
    ensures !Filled(v) ==> r == [FormError(field, Required)]
    ensures Filled(v) && |v.value| > MaxText ==> r == [FormError(field, MaxLength(MaxText))]
    ensures |r| <= 1 && forall e :: e in r ==> e.field == field
  {
    if !Filled(v) then [FormError(field, Required)]
    else if |v.value| > MaxText then [FormError(field, MaxLength(MaxText))]
    else []
  }

  /** A text input with `required()` and `numeric()`. */
  function NumericErrors(field: Field, v: Option<string>, isNumeric: string -> bool): (r: seq<FormError>)
    ensures r == [] <==> Filled(v) && isNumeric(v.value)
    ensures !Filled(v) ==> r == [FormError(field, Required)]
    ensures Filled(v) && !isNumeric(v.value) ==> r == [FormError(field, Numeric)]
    ensures |r| <= 1 && forall e :: e in r ==> e.field == field
  {
    if !Filled(v) then [FormError(field, Required)]
    else if !isNumeric(v.value) then [FormError(field, Numeric)]
    else []
  }

  /** A date picker with `required()`. */
  function DateErrors(field: Field, v: Option<string>): (r: seq<FormError>)
    ensures r == [] <==> Filled(v)
    ensures |r| <= 1 && forall e :: e in r ==> e.field == field && e.rule == Required
  {
    if Filled(v) then [] else [FormError(field, Required)]
  }

  /** A select with `required()`. */
  function SelectErrors<T>(field: Field, v: Option<T>): (r: seq<FormError>)
    ensures r == [] <==> v.Some?
    ensures |r| <= 1 && forall e :: e in r ==> e.field == field && e.rule == Required
  {
    if v.Some? then [] else [FormError(field, Required)]
  }

  /** Reference definition of an acceptable form: a conjunction of per-field conditions. */
  predicate AdminFormValid(f: FormInput, isNumeric: string -> bool) {
    && Filled(f.name) && |f.name.value| <= MaxText
    && Filled(f.booking_trx_id) && |f.booking_trx_id.value| <= MaxText
    && Filled(f.phone_number) && |f.phone_number.value| <= MaxText
    && Filled(f.total_amount) && isNumeric(f.total_amount.value)
    && Filled(f.duration) && isNumeric(f.duration.value)
    && Filled(f.started_at)
    && Filled(f.ended_at)
    && f.is_paid.Some?
    && f.office_space_id.Some?
  }

  /** The form's fields, in the order the form declares them. */
  const FieldOrder: seq<Field> :=
    [Name, BookingTrxId, PhoneNumber, TotalAmount, Duration, StartedAt, EndedAt, IsPaid, OfficeSpaceId]

  /** The errors of one field's own rules. */
  function FieldErrors(f: FormInput, isNumeric: string -> bool, field: Field): (r: seq<FormError>)
    ensures |r| <= 1 && forall e :: e in r ==> e.field == field
  {
    match field
    case Name => TextErrors(field, f.name)
    case BookingTrxId => TextErrors(field, f.booking_trx_id)
    case PhoneNumber => TextErrors(field, f.phone_number)
    case TotalAmount => NumericErrors(field, f.total_amount, isNumeric)
    case Duration => NumericErrors(field, f.duration, isNumeric)
    case StartedAt => DateErrors(field, f.started_at)
    case EndedAt => DateErrors(field, f.ended_at)
    case IsPaid => SelectErrors(field, f.is_paid)
    case OfficeSpaceId => SelectErrors(field, f.office_space_id)
  }

  /** The errors of the listed fields, field by field. */
  function ErrorsOf(f: FormInput, isNumeric: string -> bool, fields: seq<Field>): (r: seq<FormError>)
    ensures r == [] <==> forall i :: 0 <= i < |fields| ==> FieldErrors(f, isNumeric, fields[i]) == []
    ensures forall e :: e in r ==> e.field in fields
    ensures |r| <= |fields|
    decreases |fields|
  {
    if |fields| == 0 then []
    else
      var rest := ErrorsOf(f, isNumeric, fields[1..]);
      assert forall i :: 0 < i < |fields| ==> fields[i] == fields[1..][i - 1];
      FieldErrors(f, isNumeric, fields[0]) + rest
  }

  /** The fields pass their own rules one by one exactly when the form is valid. */
  lemma FieldsPassIffValid(f: FormInput, isNumeric: string -> bool)
    ensures (forall i :: 0 <= i < |FieldOrder| ==> FieldErrors(f, isNumeric, FieldOrder[i]) == [])
      <==> AdminFormValid(f, isNumeric)
  {
    var order := FieldOrder;
    assert order == [Name, BookingTrxId, PhoneNumber, TotalAmount, Duration, StartedAt, EndedAt, IsPaid, OfficeSpaceId];
    if AdminFormValid(f, isNumeric) {
      forall i | 0 <= i < |order| ensures FieldErrors(f, isNumeric, order[i]) == [] {
      }
    } else {
      assert exists i :: 0 <= i < |order| && FieldErrors(f, isNumeric, order[i]) != [] by {
        if !(Filled(f.name) && |f.name.value| <= MaxText) { assert FieldErrors(f, isNumeric, order[0]) != []; }
        else if !(Filled(f.booking_trx_id) && |f.booking_trx_id.value| <= MaxText) { assert FieldErrors(f, isNumeric, order[1]) != []; }
        else if !(Filled(f.phone_number) && |f.phone_number.value| <= MaxText) { assert FieldErrors(f, isNumeric, order[2]) != []; }
        else if !(Filled(f.total_amount) && isNumeric(f.total_amount.value)) { assert FieldErrors(f, isNumeric, order[3]) != []; }
        else if !(Filled(f.duration) && isNumeric(f.duration.value)) { assert FieldErrors(f, isNumeric, order[4]) != []; }
        else if !Filled(f.started_at) { assert FieldErrors(f, isNumeric, order[5]) != []; }
        else if !Filled(f.ended_at) { assert FieldErrors(f, isNumeric, order[6]) != []; }
        else if f.is_paid.None? { assert FieldErrors(f, isNumeric, order[7]) != []; }
        else { assert FieldErrors(f, isNumeric, order[8]) != []; }
      }
    }
  }

  /** The fields a failing form reports, in the form's field order. */
  function AdminFormErrors(f: FormInput, isNumeric: string -> bool): (r: seq<FormError>)
    ensures r == [] <==> AdminFormValid(f, isNumeric)
    ensures |r| <= 9
    ensures forall e :: e in r ==> e.field in FieldOrder
  {
    FieldsPassIffValid(f, isNumeric);
    ErrorsOf(f, isNumeric, FieldOrder)
  }

  predicate DistinctFields(fields: seq<Field>) {
    forall i, j :: 0 <= i < j < |fields| ==> fields[i] != fields[j]
  }

  /** The form declares each field once. */
  lemma FieldOrderDistinct()
    ensures DistinctFields(FieldOrder)
  {
  }

  /** With distinct fields, the errors filed under a field are exactly that
      field's own errors. */
  lemma {:induction false} OwnErrors(f: FormInput, isNumeric: string -> bool, fields: seq<Field>, i: int)
    requires DistinctFields(fields)
    requires 0 <= i < |fields|
    ensures forall e :: e in ErrorsOf(f, isNumeric, fields) && e.field == fields[i] <==> e in FieldErrors(f, isNumeric, fields[i])
    decreases |fields|
  {
    var rest := ErrorsOf(f, isNumeric, fields[1..]);
    assert ErrorsOf(f, isNumeric, fields) == FieldErrors(f, isNumeric, fields[0]) + rest;
    if i == 0 {
      forall e | e in rest ensures e.field != fields[0] {
        var j :| 0 <= j < |fields[1..]| && fields[1..][j] == e.field;
        assert fields[j + 1] == e.field;
      }
    } else {
      assert DistinctFields(fields[1..]) by {
        forall a, b | 0 <= a < b < |fields[1..]| ensures fields[1..][a] != fields[1..][b] {
          assert fields[1..][a] == fields[a + 1] && fields[1..][b] == fields[b + 1];
        }
      }
      assert fields[1..][i - 1] == fields[i];
      OwnErrors(f, isNumeric, fields[1..], i - 1);
    }
  }

  /** When only one field fails, the form's errors are that field's errors alone. */
  lemma {:induction false} OnlyFailingField(f: FormInput, isNumeric: string -> bool, fields: seq<Field>, i: int)
    requires 0 <= i < |fields|
    requires forall j :: 0 <= j < |fields| && j != i ==> FieldErrors(f, isNumeric, fields[j]) == []
    ensures ErrorsOf(f, isNumeric, fields) == FieldErrors(f, isNumeric, fields[i])
    decreases |fields|
  {
    var rest := ErrorsOf(f, isNumeric, fields[1..]);
    assert ErrorsOf(f, isNumeric, fields) == FieldErrors(f, isNumeric, fields[0]) + rest;
    if i == 0 {
      assert forall j :: 0 <= j < |fields[1..]| ==> fields[1..][j] == fields[j + 1];
      assert rest == [];
    } else {
      assert FieldErrors(f, isNumeric, fields[0]) == [];
      assert forall j :: 0 <= j < |fields[1..]| ==> fields[1..][j] == fields[j + 1];
      OnlyFailingField(f, isNumeric, fields[1..], i - 1);
    }
  }

  /** A field's own errors all appear among the form's errors. */
  lemma ReportedInForm(f: FormInput, isNumeric: string -> bool, field: Field)
    ensures forall e :: e in FieldErrors(f, isNumeric, field) ==> e in AdminFormErrors(f, isNumeric)
  {
    var order := FieldOrder;
    assert order == [Name, BookingTrxId, PhoneNumber, TotalAmount, Duration, StartedAt, EndedAt, IsPaid, OfficeSpaceId];
    var k := match field
      case Name => 0 case BookingTrxId => 1 case PhoneNumber => 2
      case TotalAmount => 3 case Duration => 4 case StartedAt => 5
      case EndedAt => 6 case IsPaid => 7 case OfficeSpaceId => 8;
    assert order[k] == field;
    FieldOrderDistinct();
    OwnErrors(f, isNumeric, order, k);
  }

  /** Each field of the form reports its own errors and no other field's: for
      instance a missing phone number is reported as `phone_number` required,
      and a missing or over-long name under `name`. */
  lemma ErrorsPerField(f: FormInput, isNumeric: string -> bool, i: int)
    requires 0 <= i < |FieldOrder|
    ensures forall e :: e in AdminFormErrors(f, isNumeric) && e.field == FieldOrder[i] <==> e in FieldErrors(f, isNumeric, FieldOrder[i])
    ensures !Filled(f.phone_number) ==> FormError(PhoneNumber, Required) in AdminFormErrors(f, isNumeric)
    ensures !Filled(f.name) ==> FormError(Name, Required) in AdminFormErrors(f, isNumeric)
    ensures Filled(f.name) && |f.name.value| > MaxText ==> FormError(Name, MaxLength(255)) in AdminFormErrors(f, isNumeric)
  {
    assert AdminFormErrors(f, isNumeric) == ErrorsOf(f, isNumeric, FieldOrder);
    FieldOrderDistinct();
    OwnErrors(f, isNumeric, FieldOrder, i);
    ReportedInForm(f, isNumeric, PhoneNumber);
    ReportedInForm(f, isNumeric, Name);
  }

  /** No cross-field rule: the end date, the start date, the duration and the
      amount are checked independently, so an end date before the start date
      (or any other filled value) leaves a valid form valid. */
  lemma NoCrossFieldConstraint(f: FormInput, isNumeric: string -> bool, start: string, end: string)
    requires AdminFormValid(f, isNumeric)
    requires !Blank(start) && !Blank(end)
    ensures AdminFormValid(f.(started_at := Some(start), ended_at := Some(end)), isNumeric)
    ensures AdminFormErrors(f.(started_at := Some(start), ended_at := Some(end)), isNumeric) == []
  {
  }

  /** The payment select's value matters only to the payment field's own rules. */
  lemma UnpaidChoiceIsLocal(f: FormInput, isNumeric: string -> bool, field: Field)
    requires field != IsPaid
    ensures FieldErrors(f.(is_paid := None), isNumeric, field) == FieldErrors(f, isNumeric, field)
  {
  }

  /** The payment select offers both options, so a valid form stays valid with
      "Not Paid" chosen: the edit form can return a paid booking to unpaid. */
  lemma FormAdmitsUnpaid(f: FormInput, isNumeric: string -> bool)
    requires AdminFormValid(f, isNumeric)
    ensures AdminFormErrors(f.(is_paid := Some(false)), isNumeric) == []
    ensures AdminFormErrors(f.(is_paid := None), isNumeric) == [FormError(IsPaid, Required)]
  {
    var g := f.(is_paid := None);
    assert AdminFormValid(f.(is_paid := Some(false)), isNumeric);
    assert forall j :: 0 <= j < |FieldOrder| && j != 7 ==> FieldErrors(g, isNumeric, FieldOrder[j]) == [] by {
      FieldsPassIffValid(f, isNumeric);
      var order := FieldOrder;
      assert order == [Name, BookingTrxId, PhoneNumber, TotalAmount, Duration, StartedAt, EndedAt, IsPaid, OfficeSpaceId];
      forall j | 0 <= j < |order| && j != 7 ensures FieldErrors(g, isNumeric, order[j]) == [] {
        assert order[j] != IsPaid;
        UnpaidChoiceIsLocal(f, isNumeric, order[j]);
      }
    }
    assert AdminFormErrors(g, isNumeric) == [FormError(IsPaid, Required)] by {
      OnlyFailingField(g, isNumeric, FieldOrder, 7);
      assert FieldOrder[7] == IsPaid;
    }
  }

  /** Unlike the storefront's `min(1)` rule, `required` trims: a string of
      spaces and tabs counts as missing. */
  lemma WhitespaceIsMissing(s: string)
    requires forall i :: 0 <= i < |s| ==> s[i] == ' ' || s[i] == '\t'
    ensures TextErrors(Name, Some(s)) == [FormError(Name, Required)]
  {
  }
}
