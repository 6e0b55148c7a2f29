/** Field validation shared by the pydantic models: a required text field with
    `min_length=1`, a `max_length`, and a validator that rejects blank text and
    stores the stripped text. `Message.content` and `ChatRequest.message` both
    follow this pattern, with different maximum lengths. */
module Validation {
  import opened Wrappers
  import opened Text
  import opened Dicts

  /** Why pydantic rejected a field. */
  datatype Problem =
    | Missing        // a required field is absent
    | WrongType      // the value has the wrong JSON type
    | TooShort       // `min_length` violated
    | TooLong        // `max_length` violated
    | Blank          // the validator's "empty or whitespace only" check
    | Negative       // a `ge=0` bound violated
    | UnknownChoice  // not one of an enumeration's values

  /** A `ValidationError` for one named field. */
  datatype FieldError = FieldError(field: string, problem: Problem)

  /** The constrained text field: pydantic checks the length bounds on the raw
      string first, then the validator rejects blank text and keeps `raw.strip()`. */
  function ValidateText(field: string, raw: string, maxLength: nat): (r: Result<string, FieldError>)
    ensures r.Success? <==> 1 <= |raw| <= maxLength && !IsBlank(raw)
    ensures r.Success? ==> r.value != [] && |r.value| <= maxLength && IsStripped(r.value)
    ensures r.Success? ==> r.value == Strip(raw)
    ensures r.Failure? ==> r.error.field == field
    ensures r.Failure? ==> r.error.problem in {TooShort, TooLong, Blank}
  {
    if |raw| < 1 then Failure(FieldError(field, TooShort))
    else if |raw| > maxLength then Failure(FieldError(field, TooLong))
    else if IsBlank(raw) then Failure(FieldError(field, Blank))
    else Success(Strip(raw))
  }

  /** Re-validating an accepted value accepts it unchanged: this is why a model
      rebuilt from its own dictionary keeps its text. */
  lemma ValidateTextStable(field: string, raw: string, maxLength: nat)
    requires ValidateText(field, raw, maxLength).Success?
    ensures var v := ValidateText(field, raw, maxLength).value;
            ValidateText(field, v, maxLength) == Success(v)
  {
    var v := Strip(raw);
    StripFixpoint(v);
  }

  /** The text of a required string field of a dictionary. */
  function RequiredString(d: Dict, key: string): (r: Result<string, FieldError>)
    ensures r.Success? <==> key in d && d[key].JStr?
    ensures r.Success? ==> d[key] == JStr(r.value)
  {
    if key !in d then Failure(FieldError(key, Missing))
    else match d[key]
      case JStr(s) => Success(s)
      case _ => Failure(FieldError(key, WrongType))
  }

  /** The text of a string field whose pydantic default (a fresh id) is `default`. */
  function StringOr(d: Dict, key: string, default: string): (r: Result<string, FieldError>)
    ensures key !in d ==> r == Success(default)
    ensures key in d ==> (r.Success? <==> d[key].JStr?)
    ensures key in d && r.Success? ==> d[key] == JStr(r.value)
  {
    if key !in d then Success(default) else RequiredString(d, key)
  }

  /** A timestamp field whose pydantic default (`datetime.utcnow`) is `now`. */
  function TimestampOr(d: Dict, key: string, now: nat): (r: Result<nat, FieldError>)
    ensures key !in d ==> r == Success(now)
    ensures key in d ==> (r.Success? <==> d[key].JInt? && d[key].i >= 0)
    ensures key in d && r.Success? ==> d[key] == JInt(r.value)
  {
    if key !in d then Success(now)
    else match d[key]
      case JInt(i) => if i >= 0 then Success(i) else Failure(FieldError(key, WrongType))
      case _ => Failure(FieldError(key, WrongType))
  }

  /** An `Optional[Dict[str, Any]]` field whose default factory is `dict`. */
  function MetadataOr(d: Dict, key: string): (r: Result<Option<Dict>, FieldError>)
    ensures key !in d ==> r == Success(Some(map[]))
    ensures key in d ==> (r.Success? <==> d[key].JNull? || d[key].JObj?)
    ensures key in d && r.Success? ==> d[key] == MetadataJson(r.value)
  {
    if key !in d then Success(Some(map[]))
    else match d[key]
      case JNull => Success(None)
      case JObj(m) => Success(Some(m))
      case _ => Failure(FieldError(key, WrongType))
  }

  /** How an optional metadata dictionary is written into a dictionary. */
  function MetadataJson(m: Option<Dict>): Json {
    match m
    case None => JNull
    case Some(fields) => JObj(fields)
  }
}
