/** The `required` rules passed to `register` for the six form fields, and
    the gate `handleSubmit` puts in front of `onSubmit`. */
module Validation {
  import opened Wrappers
  import opened FormPayload

  /** The form store: a field that was never set holds `undefined`. */
  datatype FormValues = FormValues(
    roomNumber: Option<string>,
    price: Option<string>,
    capacity: Option<string>,
    discount: Option<string>,
    facilities: Option<Facilities>,
    imgs: Option<seq<FormDataValue>>)

  /** The store of a freshly mounted form. */
  const NoValues := FormValues(None, None, None, None, None, None)

  /** The registered fields, in the order the form registers them. */
  datatype Field = RoomNumber | Price | Capacity | Discount | FacilitiesField | Imgs

  const Registered: seq<Field> := [RoomNumber, Price, Capacity, Discount, FacilitiesField, Imgs]

  /** The fixed message of each field's `required` rule. */
  function Message(f: Field): string
  {
    match f
    case RoomNumber => "Room Number is required"
    case Price => "Price is required"
    case Capacity => "capacity is required"
    case Discount => "discount is required"
    case FacilitiesField => "facilities is required"
    case Imgs => "imgs is required"
  }

  datatype FieldError = FieldError(field: Field, message: string)

  predicate EmptyText(v: Option<string>)
  {
    v.None? || v.value == ""
  }

  /** The `required` rule fails: the value is undefined, the empty string or
      an empty array. */
  predicate Missing(v: FormValues, f: Field)
  {
    match f
    case RoomNumber => EmptyText(v.roomNumber)
    case Price => EmptyText(v.price)
    case Capacity => EmptyText(v.capacity)
    case Discount => EmptyText(v.discount)
    case FacilitiesField =>
      v.facilities.None? ||
      (match v.facilities.value
       case Ids(ids) => ids == []
       case NotArray(raw) => raw == "")
    case Imgs => v.imgs.None? || v.imgs.value == []
  }

  /** The errors of the rules of `fields`, in that order. */
  function ErrorsFor(fields: seq<Field>, v: FormValues): (errs: seq<FieldError>)
    ensures forall e :: e in errs ==> e.field in fields && Missing(v, e.field) && e.message == Message(e.field)
    ensures forall f :: f in fields && Missing(v, f) ==> FieldError(f, Message(f)) in errs
    ensures |errs| <= |fields|
    decreases |fields|
  {
    if fields == [] then []
    else
      var rest := ErrorsFor(fields[1..], v);
      if Missing(v, fields[0]) then [FieldError(fields[0], Message(fields[0]))] + rest else rest
  }

  /** Every field of the form is registered with a rule. */
  lemma AllRegistered()
    ensures forall f :: f in Registered
  {
    forall f ensures f in Registered {
      match f
      case RoomNumber => assert Registered[0] == f;
      case Price => assert Registered[1] == f;
      case Capacity => assert Registered[2] == f;
      case Discount => assert Registered[3] == f;
      case FacilitiesField => assert Registered[4] == f;
      case Imgs => assert Registered[5] == f;
    }
  }

  /** Every field whose rule fails gets its own message, and only those. */
  function RequiredErrors(v: FormValues): (errs: seq<FieldError>)
    ensures forall f :: Missing(v, f) <==> FieldError(f, Message(f)) in errs
    ensures forall e :: e in errs ==> e.message == Message(e.field)
  {
    AllRegistered();
    ErrorsFor(Registered, v)
  }

  /** The values `onSubmit` is called with pass every rule. */
  predicate Complete(d: Inputs)
  {
    && d.roomNumber != "" && d.price != "" && d.capacity != "" && d.discount != ""
    && (match d.facilities
        case Ids(ids) => ids != []
        case NotArray(raw) => raw != "")
    && d.imgs != []
  }

  /** handleSubmit's validation: the values when every rule passes, or the
      errors of the failing rules. */
  function Validate(v: FormValues): (r: Result<Inputs, seq<FieldError>>)
    ensures r.Success? <==> forall f :: !Missing(v, f)
    ensures r.Failure? ==> r.error == RequiredErrors(v) && r.error != []
    ensures r.Success? ==> Complete(r.value)
    ensures r.Success? ==>
      && v.roomNumber == Some(r.value.roomNumber) && v.price == Some(r.value.price)
      && v.capacity == Some(r.value.capacity) && v.discount == Some(r.value.discount)
      && v.facilities == Some(r.value.facilities) && v.imgs == Some(r.value.imgs)
  {
    var errs := RequiredErrors(v);
    if errs != [] then Failure(errs)
    else
      assert !Missing(v, RoomNumber) && !Missing(v, Price) && !Missing(v, Capacity);
      assert !Missing(v, Discount) && !Missing(v, FacilitiesField) && !Missing(v, Imgs);
      Success(Inputs(v.roomNumber.value, v.price.value, v.capacity.value, v.discount.value,
                     v.facilities.value, v.imgs.value))
  }

  /** A freshly mounted form fails every rule. */
  lemma FreshFormFailsEveryRule()
    ensures forall f :: FieldError(f, Message(f)) in RequiredErrors(NoValues)
  {
  }
}
