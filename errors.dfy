/** The service's error taxonomy: the base error and its three kinds, each
    fixing a machine code, an HTTP status and how its details map is built. */
module Errors {
  import opened Outcomes

  /** The details map of an error. Every value the service itself puts there
      is a string. */
  type Details = map<string, string>

  const GENERIC_ERROR_CODE := "GENERIC_ERROR"
  const VALIDATION_ERROR_CODE := "VALIDATION_ERROR"
  const LLM_SERVICE_ERROR_CODE := "LLM_SERVICE_ERROR"
  const INTERNAL_ERROR_CODE := "INTERNAL_ERROR"
  const DEFAULT_PROVIDER := "qwen"
  const DEFAULT_INTERNAL_MESSAGE := "An internal server error occurred"

  /** An exception as a value: either one raised by Python or a library
      (with its type name and its `str()`), or one of the service's own. */
  datatype Cause =
    | PyException(typeName: string, text: string)
    | Raised(error: TranslatorError)

  /** The subclass an error was built by, with the attributes it records. */
  datatype ErrorKind =
    | Generic
    | Validation(field: Option<string>)
    | LLMService(provider: string, original: Option<Cause>)
    | Internal(original: Option<Cause>)

  datatype TranslatorError = TranslatorError(
    kind: ErrorKind,
    message: string,
    code: string,
    details: Details,
    status: int)

  /** The dictionary `to_dict` returns: `error`, `message` and `details`. */
  datatype ErrorBody = ErrorBody(error: string, message: string, details: Option<Details>)

  /** `str(e)`: for the service's own errors, their message. */
  function CauseText(c: Cause): string
  {
    match c
    case PyException(_, text) => text
    case Raised(e) => e.message
  }

  /** `details or {}`: an absent (or empty) details argument becomes a new
      empty map. */
  function GivenDetails(details: Option<Details>): (d: Details)
    ensures details.None? ==> d == map[]
    ensures details.Some? ==> d == details.value
  {
    if details.Some? then details.value else map[]
  }

  /** `AITranslatorError(message, error_code, details, status_code)` */
  function BaseError(message: string, code: string := GENERIC_ERROR_CODE,
                     details: Option<Details> := None, status: int := 500): (e: TranslatorError)
    ensures e.kind == Generic && e.message == message
    ensures e.code == code && e.status == status
    ensures details.None? ==> e.details == map[]
    ensures details.Some? ==> e.details == details.value
  {
    TranslatorError(Generic, message, code, GivenDetails(details), status)
  }

  /** With only a message, the base error is a generic server error with no
      details. */
  lemma {:induction false} BaseErrorDefaults(message: string)
    ensures BaseError(message).code == "GENERIC_ERROR"
    ensures BaseError(message).status == 500
    ensures BaseError(message).details == map[]
  {
  }

  /** `ValidationError(message, field, details)`: a client error (400) that
      adds `field` to the caller's details when a non-empty field is given. */
  function ValidationError(message: string, field: Option<string> := None,
                           details: Option<Details> := None): (e: TranslatorError)
    ensures e.kind == Validation(field) && e.message == message
    ensures e.code == VALIDATION_ERROR_CODE && e.status == 400
    ensures e.details.Keys == GivenDetails(details).Keys +
      (if field.Some? && field.value != "" then {"field"} else {})
    ensures field.Some? && field.value != "" ==> e.details["field"] == field.value
    ensures forall k :: k in GivenDetails(details) && k != "field" ==>
      e.details[k] == GivenDetails(details)[k]
  {
    var d := GivenDetails(details);
    var d' := if field.Some? && field.value != "" then d["field" := field.value] else d;
    TranslatorError(Validation(field), message, VALIDATION_ERROR_CODE, d', 400)
  }

  /** `LLMServiceError(message, provider, original_error, details)`: a 503
      error whose details always name the provider, and hold the text of the
      original error when there is one, besides the caller's own keys. */
  function LLMServiceError(message: string, provider: string := DEFAULT_PROVIDER,
                           original: Option<Cause> := None,
                           details: Option<Details> := None): (e: TranslatorError)
    ensures e.kind == LLMService(provider, original) && e.message == message
    ensures e.code == LLM_SERVICE_ERROR_CODE && e.status == 503
    ensures e.details.Keys == GivenDetails(details).Keys + {"provider"} +
      (if original.Some? then {"original_error"} else {})
    ensures e.details["provider"] == provider
    ensures original.Some? ==> e.details["original_error"] == CauseText(original.value)
    ensures forall k :: k in GivenDetails(details) && k != "provider" && k != "original_error" ==>
      e.details[k] == GivenDetails(details)[k]
  {
    var d := GivenDetails(details)["provider" := provider];
    var d' := if original.Some? then d["original_error" := CauseText(original.value)] else d;
    TranslatorError(LLMService(provider, original), message, LLM_SERVICE_ERROR_CODE, d', 503)
  }

  /** `InternalError(message, original_error, details)`: a 500 error with a
      default message, holding the text of the original error when there is
      one, besides the caller's own keys. */
  function InternalError(message: string := DEFAULT_INTERNAL_MESSAGE,
                         original: Option<Cause> := None,
                         details: Option<Details> := None): (e: TranslatorError)
    ensures e.kind == Internal(original) && e.message == message
    ensures e.code == INTERNAL_ERROR_CODE && e.status == 500
    ensures e.details.Keys == GivenDetails(details).Keys +
      (if original.Some? then {"original_error"} else {})
    ensures original.Some? ==> e.details["original_error"] == CauseText(original.value)
    ensures forall k :: k in GivenDetails(details) && k != "original_error" ==>
      e.details[k] == GivenDetails(details)[k]
  {
    var d := GivenDetails(details);
    var d' := if original.Some? then d["original_error" := CauseText(original.value)] else d;
    TranslatorError(Internal(original), message, INTERNAL_ERROR_CODE, d', 500)
  }

  /** `InternalError()` with no arguments. */
  lemma {:induction false} InternalErrorDefaults()
    ensures InternalError().message == "An internal server error occurred"
    ensures InternalError().details == map[]
  {
  }

  /** `to_dict()`: the code and message, and the details, reported as `None`
      exactly when the details map is empty. */
  function ToDict(e: TranslatorError): (body: ErrorBody)
    ensures body.error == e.code && body.message == e.message
    ensures body.details.None? <==> |e.details| == 0
    ensures body.details.Some? ==> body.details.value == e.details
  {
    ErrorBody(e.code, e.message, if |e.details| == 0 then None else Some(e.details))
  }

  /** Validation errors are the caller's fault (4xx); the two other kinds are
      the server's (5xx). */
  lemma {:induction false} StatusClasses(message: string, field: Option<string>, provider: string,
                      original: Option<Cause>, details: Option<Details>)
    ensures 400 <= ValidationError(message, field, details).status < 500
    ensures 500 <= LLMServiceError(message, provider, original, details).status < 600
    ensures 500 <= InternalError(message, original, details).status < 600
  {
  }
}
