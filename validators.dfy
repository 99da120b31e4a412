/** The input checks of the tool handlers. Each check either passes or fails
    with a message naming the field; the handlers run them in order and stop at
    the first failure. */
module Validators {

  /** A JavaScript value as a handler finds it in a parsed request body: an
      absent key reads as `Undefined`. `Num` is a finite number other than NaN. */
  datatype Value = Undefined | Null | Bool(b: bool) | Num(n: real) | NaN | Str(s: string) | Obj

  /** Why a check failed, naming the field it was given. */
  datatype ValidationError =
    | Required(field: string)
    | NotANumber(field: string)
    | NotPositive(field: string)
    | NotAString(field: string)

  /** The message of the error each check throws. */
  function Message(e: ValidationError): string
  {
    match e
    case Required(field) => field + " is required"
    case NotANumber(field) => field + " must be a valid number"
    case NotPositive(field) => field + " must be a positive number"
    case NotAString(field) => field + " must be a string"
  }

  /** The result of one check: it passes, or fails with an error. */
  datatype Outcome = Pass | Fail(error: ValidationError)

  /** JavaScript truthiness: `undefined`, `null`, `false`, `0`, NaN and `""`
      are falsy, everything else is truthy. */
  predicate Truthy(v: Value)
  {
    match v
    case Undefined => false
    case Null => false
    case Bool(b) => b
    case Num(n) => n != 0.0
    case NaN => false
    case Str(s) => s != ""
    case Obj => true
  }

  /** Fails for undefined, null and the empty string only. */
  function ValidateRequired(value: Value, fieldName: string): (r: Outcome)
    ensures r.Fail? <==> value == Undefined || value == Null || value == Str("")
    ensures r.Fail? ==> r.error == Required(fieldName)
  {
    if value == Undefined || value == Null || value == Str("") then
      Fail(Required(fieldName))
    else
      Pass
  }

  /** `typeof value === "number"`: NaN is a number too. */
  predicate HasNumberType(value: Value)
  {
    value.Num? || value.NaN?
  }

  /** Fails for everything whose `typeof` is not "number", and for NaN. */
  function ValidateNumber(value: Value, fieldName: string): (r: Outcome)
    ensures r.Pass? <==> value.Num?
    ensures r.Fail? ==> r.error == NotANumber(fieldName)
  {
    if !HasNumberType(value) || value.NaN? then
      Fail(NotANumber(fieldName))
    else
      Pass
  }

  /** First the number check, then the sign check. */
  function ValidatePositiveNumber(value: Value, fieldName: string): (r: Outcome)
    ensures r.Pass? <==> value.Num? && value.n > 0.0
    ensures r.Pass? ==> ValidateNumber(value, fieldName).Pass?
    ensures !value.Num? ==> r == Fail(NotANumber(fieldName))
    ensures value.Num? && value.n <= 0.0 ==> r == Fail(NotPositive(fieldName))
  {
    match ValidateNumber(value, fieldName)
    case Fail(e) => Fail(e)
    case Pass =>
      if value.n <= 0.0 then Fail(NotPositive(fieldName)) else Pass
  }

  /** Fails for everything whose `typeof` is not "string". */
  function ValidateString(value: Value, fieldName: string): (r: Outcome)
    ensures r.Pass? <==> value.Str?
    ensures r.Fail? ==> r.error == NotAString(fieldName)
  {
    if value.Str? then Pass else Fail(NotAString(fieldName))
  }
}
