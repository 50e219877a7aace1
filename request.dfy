/** The body of a translation request: its `text` field's length limits and
    its content validator. */
module Request {
  import opened Outcomes
  import opened PyText

  const MIN_TEXT_LENGTH := 1
  const MAX_TEXT_LENGTH := 10000

  /** Why a request's text was refused. */
  datatype TextError = TooShort | TooLong | BlankText

  /** The `text` field: the length limits are checked on the raw value, then
      `validate_text_content` strips it and refuses what is left empty. */
  function ValidateText(raw: string): (r: Result<string, TextError>)
    ensures r.Success? <==> MIN_TEXT_LENGTH <= |raw| <= MAX_TEXT_LENGTH && !IsBlank(raw)
    ensures r.Success? ==> r.value == Strip(raw)
    ensures r.Success? ==> r.value != [] && |r.value| <= MAX_TEXT_LENGTH
    ensures r.Success? ==> !IsSpace(r.value[0]) && !IsSpace(r.value[|r.value| - 1])
    ensures r == Failure(TooShort) <==> |raw| < MIN_TEXT_LENGTH
    ensures r == Failure(TooLong) <==> |raw| > MAX_TEXT_LENGTH
  {
    if |raw| < MIN_TEXT_LENGTH then Failure(TooShort)
    else if |raw| > MAX_TEXT_LENGTH then Failure(TooLong)
    else
      var stripped := Strip(raw);
      if stripped == [] then Failure(BlankText) else Success(stripped)
  }

  /** Whitespace-only text of an allowed length is refused as blank. */
  lemma {:induction false} WhitespaceOnlyRefused(raw: string)
    requires MIN_TEXT_LENGTH <= |raw| <= MAX_TEXT_LENGTH && IsBlank(raw)
    ensures ValidateText(raw) == Failure(BlankText)
  {
  }

  /** Validating an accepted text again yields the same text. */
  lemma {:induction false} ValidateTextIdempotent(raw: string)
    requires ValidateText(raw).Success?
    ensures ValidateText(ValidateText(raw).value) == ValidateText(raw)
  {
    StripIdempotent(raw);
  }
}
