/** The pydantic field rules both Bazos parameter models use: an optional
    field takes its default when the key is absent, accepts `None`, and
    otherwise must have the declared type; integer fields declared with
    `ge=0` refuse negative values. */
module ModelFields {

  import opened Common

  /** An `Optional[str]` field named `key` with default `default`. */
  function TextField(raw: map<string, Scalar>, key: string, default: string): (r: Result<Option<string>>)
    ensures key !in raw ==> r == Ok(Some(default))
    ensures key in raw ==> (r.Ok? <==> !raw[key].Int?)
    ensures key in raw && r.Ok? ==> (r.value.Some? <==> raw[key].Str?)
    ensures key in raw && r.Ok? && r.value.Some? ==> r.value.value == raw[key].s
    ensures r.Err? ==> r.error == ValidationFailed(key)
  {
    if key !in raw then Ok(Some(default))
    else match raw[key]
      case Str(s) => Ok(Some(s))
      case Null => Ok(None)
      case Int(_) => Err(ValidationFailed(key))
  }

  /** An `Optional[int]` field named `key` with default `default` and `ge=0`;
      the bound applies to given values only, as pydantic does not validate
      defaults. */
  function NonNegativeField(raw: map<string, Scalar>, key: string, default: Option<int>): (r: Result<Option<int>>)
    ensures key !in raw ==> r == Ok(default)
    ensures key in raw ==> (r.Ok? <==> raw[key].Null? || (raw[key].Int? && raw[key].n >= 0))
    ensures key in raw && r.Ok? ==> (r.value.Some? <==> raw[key].Int?)
    ensures key in raw && r.Ok? && r.value.Some? ==> r.value.value == raw[key].n
    ensures r.Err? ==> r.error == ValidationFailed(key)
  {
    if key !in raw then Ok(default)
    else match raw[key]
      case Int(n) => if n >= 0 then Ok(Some(n)) else Err(ValidationFailed(key))
      case Null => Ok(None)
      case Str(_) => Err(ValidationFailed(key))
  }

  /** The value `model_dump` gives an optional text field. */
  function TextScalar(v: Option<string>): Scalar
  {
    match v
    case Some(s) => Str(s)
    case None => Null
  }

  /** The value `model_dump` gives an optional integer field. */
  function IntScalar(v: Option<int>): Scalar
  {
    match v
    case Some(n) => Int(n)
    case None => Null
  }
}
