# AITranslator translation core in Dafny

This project models the backend core of AITranslator. The service takes
Chinese text and returns an English translation with keywords. The language
work is done by an external chat model, reached through a gateway. The
model covers:

- **the translation service** (`TranslationService`):
  - `translate` refuses blank text before any request is sent. Otherwise it
    builds the prompt, sends exactly one request and reads `translation`
    and `keywords` from the returned JSON object.
  - When the model gives no translation, a stub replaces it. When it gives
    no keywords, they come from a frequency-based extractor.
  - The keywords are stripped, lower-cased and de-duplicated in order.
  - Every failure becomes an `InternalError`.
  - `batch_translate` runs `translate` over a list and puts a stub in
    place of each failure.
- **the gateway** (`LLMService`):
  - construction, from an injected client or from the settings;
  - the message list `generate` sends;
  - how `generate_with_json_output` chooses the text to parse: from the
    first `{` to the last `}`, else the whole reply;
  - how every failure is wrapped in an `LLMServiceError`.
- **the error taxonomy**: the base error and its validation, LLM-service and
  internal kinds, each with its code, HTTP status and details map, plus
  `to_dict`.
- **the validators**:
  - the request text's length limits and blank check;
  - the settings' `app_env` and `log_level` normalisers;
  - the settings' numeric bounds and environment predicates.

Module layout:

- `PyText` holds the Python string primitives.
- `Seqs` holds `dict.fromkeys` de-duplication and counting.
- `Json` holds the shape of a parsed JSON value and the dict behaviour the
  service uses.
- `Errors` models `exceptions.py`.
- `Config` models `settings.py`.
- `Request` models `request.py`.
- `Gateway` models `llm_service.py`.
- `Keywords` models the keyword extractor.
- `Translation` models the rest of `translation_service.py`.

The chat model is a `ChatModel` object. It keeps a log of the requests it
received, and it answers request number `n` with `respond(n, messages)`, a
function given when it is built. So the model can state how many requests
an operation sends and what they contain. The JSON decoder is a function
`decode` held by the gateway.

Three behaviours of the code are worth stating, since a reader might
expect otherwise:

- `generate_with_json_output` wraps a failure of `generate` a second time,
  in a new `LLMServiceError` with the message "Failed to generate JSON
  response from LLM", whose original error is the first `LLMServiceError`.
- When a `{ … }` span is found and fails to parse, the whole reply is not
  tried. The code parses the whole reply only when there is no span.
- `translate` can fail after its blank check even when the gateway
  succeeds. It raises an `InternalError` when the returned value is not an
  object, when the translation is not a string, when the keywords cannot be
  iterated, or when a true keyword is not a string. This follows the
  `AttributeError`/`TypeError` that Python raises there.

## Model

| member | source | states |
|---|---|---|
| PyText.Strip | backend/app/models/request.py:49 | `strip` never lengthens; a non-empty result has no whitespace at either end; the result is empty exactly when the input is all whitespace |
| PyText.StripKeepsMiddle | backend/app/models/request.py:49 | what `strip` keeps is a contiguous middle of the input, and what it drops on both sides is whitespace |
| PyText.StripFixed | backend/app/models/request.py:49-52 | a string with no whitespace at either end is its own `strip` |
| PyText.StripIdempotent | backend/app/models/request.py:49-52 | stripping twice is stripping once |
| PyText.Lower | backend/app/services/translation_service.py:183 | `lower()` keeps the length and lowers each character on its own |
| PyText.Upper | backend/config/settings.py:98 | `upper()` keeps the length and raises each character on its own |
| PyText.CaseKeepsSpace | backend/app/services/translation_service.py:129 | changing case never creates or removes whitespace, so lowering a stripped keyword leaves it stripped |
| PyText.LowerIdempotent | backend/config/settings.py:41-43 | lowering twice is lowering once |
| PyText.UpperIdempotent | backend/config/settings.py:98-100 | upper-casing twice is upper-casing once |
| PyText.LowerFixed | backend/app/services/translation_service.py:129 | a string with no upper-case letter is its own `lower()` |
| PyText.Prefix | backend/app/services/translation_service.py:166 | the slice `s[:n]` is a prefix of `s` of length `min(n, len(s))` |
| Seqs.Count | backend/app/services/translation_service.py:196 | an occurrence count is at most the length, and positive exactly for members |
| Seqs.CountConcat | backend/app/services/translation_service.py:196 | the occurrences in a concatenation are those of its parts added up |
| Seqs.Dedup | backend/app/services/translation_service.py:130 | `list(dict.fromkeys(xs))` has no repeats, loses no element of `xs`, adds none, and is no longer than `xs` |
| Seqs.DedupOfDistinct | backend/app/services/translation_service.py:130 | a list without repeats is unchanged by de-duplication |
| Seqs.DedupIdempotent | backend/app/services/translation_service.py:130 | de-duplicating twice is de-duplicating once |
| Seqs.DedupKeepsFirstOccurrenceOrder | backend/app/services/translation_service.py:130 | two elements keep the order of their first occurrences, in both directions |
| Errors.BaseError | backend/app/core/exceptions.py:32-52 | the base error keeps the message, code and status it is given; given details are kept as they are, and absent details become an empty map |
| Errors.BaseErrorDefaults | backend/app/core/exceptions.py:35-37 | given only a message, the base error is `GENERIC_ERROR`, status 500, with no details |
| Errors.ValidationError | backend/app/core/exceptions.py:79-103 | code `VALIDATION_ERROR`, status 400; the details add `field` when a non-empty field is given, and otherwise keep the caller's keys as given |
| Errors.LLMServiceError | backend/app/core/exceptions.py:118-146 | code `LLM_SERVICE_ERROR`, status 503; the details always name the provider, add `original_error` as its text when one is given, and otherwise keep the caller's keys as given |
| Errors.InternalError | backend/app/core/exceptions.py:160-184 | code `INTERNAL_ERROR`, status 500; the details add `original_error` as its text when one is given, and otherwise keep the caller's keys as given |
| Errors.InternalErrorDefaults | backend/app/core/exceptions.py:162 | with no arguments, the message is "An internal server error occurred" and there are no details |
| Errors.ToDict | backend/app/core/exceptions.py:54-65 | `to_dict` gives the code and the message, and gives the details as `None` exactly when the details map is empty |
| Errors.StatusClasses | backend/app/core/exceptions.py:97-184 | validation errors are 4xx; LLM-service and internal errors are 5xx |
| Json.Get | backend/app/services/translation_service.py:116-117 | `dict.get(key, default)`: the default for a missing key, otherwise the value of the last member with that key |
| Json.Keys | backend/app/services/translation_service.py:129 | iterating a dict gives each key exactly once, nothing else, in the order the keys were first inserted |
| Config.ValidateAppEnv | backend/config/settings.py:36-43 | accepted exactly when the lower-cased value is development, staging or production; stored lower-cased; otherwise the validator's message |
| Config.ValidateLogLevel | backend/config/settings.py:93-100 | accepted exactly when the upper-cased value is a logging level; stored upper-cased; otherwise the validator's message |
| Config.ValidateAppEnvIdempotent | backend/config/settings.py:36-43 | validating an accepted environment again gives the same value |
| Config.ValidateLogLevelIdempotent | backend/config/settings.py:93-100 | validating an accepted level again gives the same value |
| Config.InvalidFields | backend/config/settings.py:36-100 | a field is reported exactly when a value was supplied for it and fails its check, or, for the API key, when none was supplied |
| Config.LoadSettings | backend/config/settings.py:30-100 | loading succeeds exactly when no supplied field fails its check, else it reports the failing fields; loaded settings have an allowed environment and level, temperature in [0, 2], and positive token limit, timeout and rate limit; each supplied value is stored (environment and level normalised), each absent one takes its default; a missing API key, an out-of-range temperature, a non-positive bound or a refused environment or level is refused |
| Config.EnvironmentExclusive | backend/config/settings.py:102-110 | `is_development` and `is_production` are never both true, and the only other environment is staging |
| Request.ValidateText | backend/app/models/request.py:26-52 | accepted exactly when the length is 1 to 10000 and the text is not all whitespace; the accepted value is the stripped text, non-empty, at most 10000 long, with no whitespace at either end; too-short and too-long are reported exactly when they apply |
| Request.WhitespaceOnlyRefused | backend/app/models/request.py:49-51 | whitespace-only text of an allowed length is refused as blank |
| Request.ValidateTextIdempotent | backend/app/models/request.py:49-52 | validating an accepted text again gives the same text |
| Gateway.ChatModel.constructor | backend/app/services/llm_service.py:85-92 | a new client has its options and its answers, and has received no request |
| Gateway.ChatModel.Invoke | backend/app/services/llm_service.py:146 | `invoke` records exactly the messages sent and returns the answer to that request |
| Gateway.ClientOptionsFor | backend/app/services/llm_service.py:85-92 | the client is built from the settings' key, model, temperature, token limit and base URL, with the timeout in whole seconds by floor division |
| Gateway.CreationFailure | backend/app/services/llm_service.py:78-108 | building the default client fails exactly when the import or the constructor raises; it then raises an `LLMServiceError` for "qwen" carrying the original error, and the message follows the class of the exception raised while importing or constructing (`ImportError` or any other) |
| Gateway.Messages | backend/app/services/llm_service.py:137-142 | one or two messages ending with the user prompt; two exactly when the system prompt is non-empty, and then the system prompt comes first |
| Gateway.GenerateOutcome | backend/app/services/llm_service.py:146-160 | success exactly when the client answered, with its content unchanged; otherwise an `LLMServiceError` for "qwen" carrying the cause |
| Gateway.SpanBounds | backend/app/services/llm_service.py:196 | a span exists exactly when some `{` is followed by a `}`; it runs from the first `{` to the last `}` |
| Gateway.ParseTarget | backend/app/services/llm_service.py:196-205 | with a brace pair, the parsed text is the slice from the first `{` to the last `}`, both included; otherwise it is the whole reply |
| Gateway.JsonOutcome | backend/app/services/llm_service.py:192-223 | every failure is a 503 `LLMServiceError` for "qwen"; a `generate` failure is wrapped again; success exactly when the parse target decodes, and then its value; a parse failure keeps the first 500 characters of the reply and the decoder's message |
| Gateway.RawResponseTruncated | backend/app/services/llm_service.py:207-215 | the kept raw reply is at most 500 characters, is a prefix of the reply, and is the whole reply when that is short enough |
| Gateway.LLMService.constructor | backend/app/services/llm_service.py:57-58 | an injected client and the decoder are used as they are |
| Gateway.LLMService.CreateDefaultModel | backend/app/services/llm_service.py:64-108 | fails exactly as `CreationFailure` says; otherwise a new client built with the options from the settings, with no requests yet |
| Gateway.LLMService.Create | backend/app/services/llm_service.py:44-62 | an injected client is always used as it is; without one, the default client is built and its failure propagates |
| Gateway.LLMService.Generate | backend/app/services/llm_service.py:110-160 | exactly one request, carrying the `Messages` list, is sent; the result is `GenerateOutcome` of the answer to it |
| Gateway.LLMService.GenerateJson | backend/app/services/llm_service.py:162-223 | exactly one request is sent; the result is `JsonOutcome` of that request's outcome |
| Keywords.MatchSpans | backend/app/services/translation_service.py:183 | every span found is a match of `\b[a-zA-Z]{3,}\b` at or after the scan start |
| Keywords.MatchSpansInOrder | backend/app/services/translation_service.py:183 | the matches come left to right and do not overlap |
| Keywords.MatchSpansComplete | backend/app/services/translation_service.py:183 | every match after the scan start is found |
| Keywords.FindWords | backend/app/services/translation_service.py:183 | every word found is three or more ASCII letters |
| Keywords.FindWordsExact | backend/app/services/translation_service.py:183 | a word is found exactly when it is the text of some match |
| Keywords.FoundWordHasSpan | backend/app/services/translation_service.py:183 | every word found is the text of a match of the pattern |
| Keywords.SpanWordFound | backend/app/services/translation_service.py:183 | the text of every match of the pattern is among the words found |
| Keywords.FindWordsInLowered | backend/app/services/translation_service.py:183 | in lower-cased text every word found is lower-case |
| Keywords.DropStopWords | backend/app/services/translation_service.py:192 | the filtered words are exactly the words that are not stop words |
| Keywords.DropStopWordsCount | backend/app/services/translation_service.py:192 | the filter keeps every occurrence of a word that is not a stop word, and none of a stop word |
| Keywords.DropStopWordsAppend | backend/app/services/translation_service.py:192 | the filter works word by word, so the kept words stay in their order |
| Keywords.Candidates | backend/app/services/translation_service.py:183-192 | every counted word is lower-case, three or more letters long, and not a stop word |
| Keywords.CandidatesExact | backend/app/services/translation_service.py:183-192 | a word is counted exactly when the regex finds it in the lower-cased text and it is not a stop word |
| Keywords.Tally | backend/app/services/translation_service.py:196 | the `Counter` holds exactly the words present, each with its number of occurrences |
| Keywords.CounterStep | backend/app/services/translation_service.py:196 | counting one more word adds one to its count, and a new word joins the end of the insertion order |
| Keywords.CountWords | backend/app/services/translation_service.py:195-196 | the counting loop builds the `Counter` and its insertion order |
| Keywords.CountWord | backend/app/services/translation_service.py:196 | counting one more word turns the `Counter` of a prefix into the `Counter` of the prefix one word longer, with a new word last in insertion order |
| Keywords.InsertByCount | backend/app/services/translation_service.py:197 | one insertion step adds its word and loses none |
| Keywords.SortByCount | backend/app/services/translation_service.py:197 | the sort is a permutation of the counter's words |
| Keywords.InsertRanked | backend/app/services/translation_service.py:197 | inserting a later word into a ranked list keeps it ranked: higher count first, ties in insertion order |
| Keywords.SortRanked | backend/app/services/translation_service.py:197 | the sort is ranked and holds only words of its input |
| Keywords.MostCommon | backend/app/services/translation_service.py:197 | `most_common(n)` returns `min(n, distinct words)` of the counter's words |
| Keywords.RanksBeforeMeansPrecedes | backend/app/services/translation_service.py:196-197 | the counter's ranking is the order by occurrence count, ties by first occurrence, in both directions |
| Keywords.RankedDistinct | backend/app/services/translation_service.py:197 | a ranked list holds no word twice |
| Keywords.MostCommonSpec | backend/app/services/translation_service.py:195-197 | `Counter(ws).most_common(n)` returns `min(n, distinct words)` distinct words of `ws`, by count with ties by first occurrence, and no word left out outranks one kept |
| Keywords.MostCommonIsRankedPrefix | backend/app/services/translation_service.py:197 | `most_common(n)` is the first `min(n, distinct words)` entries of a complete ranking of the counter's words |
| Keywords.MostCommonOrdered | backend/app/services/translation_service.py:197 | the words kept come by descending count, ties by first occurrence |
| Keywords.MostCommonTop | backend/app/services/translation_service.py:197 | no word left out outranks a word kept |
| Keywords.KeywordsFromTextSpec | backend/app/services/translation_service.py:168-200 | the extractor returns at most five distinct lower-case non-stop words of three or more letters, ranked by count then first occurrence, and no counted word left out outranks one kept |
| Keywords.ExtractKeywords | backend/app/services/translation_service.py:168-200 | the extractor, with its counting loop, returns the keywords `KeywordsFromTextSpec` describes |
| Translation.PromptInjective | backend/app/services/translation_service.py:46-55 | the prompt ends with the text, unchanged, so different texts give different prompts |
| Translation.RequestShape | backend/app/services/translation_service.py:110-113 | the request is the fixed system prompt, then the prompt for the text |
| Translation.StubShape | backend/app/services/translation_service.py:166 | the stub is the marker around the text's first 50 characters, and holds a text of at most 50 characters whole |
| Translation.StubIsStripped | backend/app/services/translation_service.py:120-122 | the stub is never blank and has nothing to strip |
| Translation.ReadResult | backend/app/services/translation_service.py:116-117 | a non-object raises on `get`; a non-string translation raises on `strip`; otherwise the stripped translation and the `keywords` value with its default |
| Translation.Iterate | backend/app/services/translation_service.py:129 | lists give their items, strings their characters, objects their keys; any other value is not iterable |
| Translation.AsValues | backend/app/services/translation_service.py:126 | the extractor's words, one string value each, in order |
| Translation.CleanedIsClean | backend/app/services/translation_service.py:129 | a non-blank string, stripped and lowered, is non-empty, has nothing to strip, and has no upper-case letter |
| Translation.CleanKeywords | backend/app/services/translation_service.py:129 | the cleaning raises exactly when some item is true but not a string; otherwise it keeps only clean keywords, no more than there were items |
| Translation.CleanKeywordsAppend | backend/app/services/translation_service.py:129 | the cleaning works item by item: a concatenation is cleaned exactly when both parts are, into the cleaned parts in the same order |
| Translation.CleanKeywordsFirstFailure | backend/app/services/translation_service.py:129 | the error raised is the one for the first failing item |
| Translation.CleanKeywordsContents | backend/app/services/translation_service.py:129 | the cleaned keywords are exactly the stripped, lowered non-blank strings among the items |
| Translation.CleanKeywordsExample | backend/app/services/translation_service.py:129 | `[" hello ", "world", "", "  "]` cleans to `["hello", "world"]`: padding stripped, empty and blank strings skipped |
| Translation.CleanKeywordsStrHead | backend/app/services/translation_service.py:129 | a leading non-blank string is cleaned into the first keyword |
| Translation.CleanKeywordsUnfold | backend/app/services/translation_service.py:129 | the cleaning succeeds on a non-empty list exactly when its first item can be stripped and the rest succeeds, and puts that item's keyword, if any, first |
| Translation.LowerWordKept | backend/app/services/translation_service.py:129 | a lower-case word passes the cleaning unchanged |
| Translation.CleanLowerWords | backend/app/services/translation_service.py:126-129 | the extractor's words pass the cleaning unchanged |
| Translation.Finish | backend/app/services/translation_service.py:116-130 | a read failure propagates; the translation is the stripped one, or the stub when that is empty, and so is never empty; when the model gives keywords, the result succeeds exactly when they can be iterated and cleaned, and its keywords are then the cleaned keywords de-duplicated in first-occurrence order; the keywords are always distinct and clean |
| Translation.KeywordFallback | backend/app/services/translation_service.py:124-126 | with no keywords from the model, the keywords are exactly the extractor's on the final translation, which may be the stub |
| Translation.WrapFailure | backend/app/services/translation_service.py:144-149 | a failure becomes an `InternalError` whose message starts "Failed to translate text: " and which carries the original error |
| Translation.TranslateSpec | backend/app/services/translation_service.py:98-149 | every failure is an `InternalError`; blank text gives "Text cannot be empty"; a gateway failure is wrapped with the gateway error as original; otherwise success exactly when `Finish` succeeds |
| Translation.NoGatewayErrorEscapes | backend/app/services/translation_service.py:140-149 | no `LLMServiceError` leaves `translate`; a failure has no original error exactly when the text was blank |
| Translation.TranslationWellFormed | backend/app/services/translation_service.py:116-138 | a successful translation is not blank, and its keywords are distinct and clean |
| Translation.Settle | backend/app/services/translation_service.py:221-227 | a batch keeps the translation, or the stub with no keywords on failure |
| Translation.Sent | backend/app/services/translation_service.py:218-228 | a batch prefix sends at most one request per text |
| Translation.RequestsBefore | backend/app/services/translation_service.py:218-228 | the requests of a batch prefix number exactly its non-blank texts |
| Translation.BatchResults | backend/app/services/translation_service.py:218-228 | the batch has one result per text |
| Translation.RequestsStep | backend/app/services/translation_service.py:219-223 | one more text adds its request when it is not blank |
| Translation.BatchResultsStep | backend/app/services/translation_service.py:219-227 | one more text adds its settled item at the end |
| Translation.BatchStep | backend/app/services/translation_service.py:219-227 | one turn of the loop keeps the request log and the results as the batch specification says |
| Translation.BatchResultsAt | backend/app/services/translation_service.py:218-228 | result `j` of the batch is the settled `translate` of text `j`, answered as the request that follows the earlier texts' requests |
| Translation.SettledNonBlank | backend/app/services/translation_service.py:221-227 | whatever `translate` does, a batch keeps a non-blank translation |
| Translation.BlankTextSettles | backend/app/services/translation_service.py:224-227 | a blank text in a batch gets the stub and no keywords |
| Translation.BatchItemFilled | backend/app/services/translation_service.py:221-227 | every batch item of the service has a non-blank translation |
| Translation.BatchItemBlank | backend/app/services/translation_service.py:224-227 | every blank text of the service's batch gets the stub and no keywords |
| Translation.TranslationService.constructor | backend/app/services/translation_service.py:57-70 | the service uses the given gateway and the fixed system prompt and template |
| Translation.TranslationService.Translate | backend/app/services/translation_service.py:72-149 | blank text sends no request; other text sends exactly one, with the system prompt and the text's prompt; the result is `TranslateSpec` of the gateway's answer |
| Translation.TranslationService.BatchTranslate | backend/app/services/translation_service.py:202-228 | one result per text, in order, each as `BatchResultsAt` states; the requests sent are those of the non-blank texts, in order |

## Left out

- The chat-model provider call (`ChatTongyi`, LangChain messages, the network) is an oracle function, `respond`. Its keyword arguments (`**kwargs`) are not modelled.
- `json.loads` is the decoder function `decode`, whose text-to-value mapping is not modelled. `NaN`/`Infinity` and the float/int split are not modelled.
- Gateway.JsonOutcome: the decoder either returns a value or raises `JSONDecodeError`. A reply nested deeply enough makes `json.loads` raise `RecursionError` instead. That takes the generic failure path with the message "Failed to generate JSON response from LLM" and no `raw_response` in the details, and the model does not capture it.
- `str.lower`, `str.upper` and the regex class `\w` are modelled for ASCII only. Python's Unicode case mapping and Unicode word characters are not modelled. `str.isspace` is modelled as Python's whitespace set.
- Errors.ValidationError: `details or {}` mutates a non-empty dict given by the caller in place. The model returns a new map, so that aliasing is not captured. The same holds for Errors.LLMServiceError and Errors.InternalError.
- Config.LoadSettings: reading environment variables and the `.env` file is left out, as are case-insensitive names and ignored extra keys. Settings are given as optional values. The temperature is a real number in [0, 2], not a float. The fields `app_name`, `app_host`, `log_format` and `log_file` (strings), `app_port` (an int) and `app_debug` and `rate_limit_enabled` (booleans) carry no rules and are not modelled.
- Gateway.LLMService.Create: the log message naming the model is left out. So is every other log call, in every file (logging is I/O).
- Translation.TranslationService.constructor: building a default `LLMService()` when none is given is not modelled here; `Gateway.LLMService.Create` models that construction.
- Translation.PromptInjective: the position of the fields inside the template text is not stated. The template is a constant, and only its role as the prefix of the prompt is proved.
- The Flask application, routes and error handlers, the response helpers and the logger configuration are not part of this model (HTTP and I/O plumbing).
