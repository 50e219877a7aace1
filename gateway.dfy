/** The LLM gateway: the provider client it holds, the message list it
    sends, the JSON span it extracts from a reply, and how it wraps every
    failure into an `LLMServiceError`. */
module Gateway {
  import opened Outcomes
  import opened PyText
  import opened Errors
  import opened Json
  import opened Config

  const GENERATION_FAILED := "Failed to generate response from LLM"
  const JSON_PARSE_FAILED := "LLM response could not be parsed as JSON"
  const JSON_GENERATION_FAILED := "Failed to generate JSON response from LLM"
  const IMPORT_FAILED := "Failed to import required LangChain components"
  const INIT_FAILED := "Failed to initialize LLM model"
  /** How much of an unparseable reply the error details keep. */
  const RAW_RESPONSE_LIMIT := 500

  datatype Message = SystemMessage(content: string) | HumanMessage(content: string)

  /** What the provider does with one request: answer with content, or raise. */
  datatype Reply = Content(text: string) | Raise(cause: Cause)

  /** The arguments the default provider client is built with. */
  datatype ClientOptions = ClientOptions(
    apiKey: string,
    modelName: string,
    temperature: real,
    maxTokens: int,
    timeoutSeconds: int,
    baseUrl: string)

  /** What importing and constructing the default client does, told apart
      by the class of what is raised (both steps sit in one `try`): succeed,
      raise an `ImportError`, or raise any other exception. */
  datatype ClientCreation = Created | RaisedImportError(cause: Cause) | RaisedOther(cause: Cause)

  /** A chat-model client. Its answers are an oracle: `respond(n, messages)`
      is its reply to the `n`-th request it is sent (counting from 0).
      `sent` is the log of the requests it has received. */
  class ChatModel {
    const options: Option<ClientOptions>
    const respond: (nat, seq<Message>) -> Reply
    var sent: seq<seq<Message>>

    constructor (options: Option<ClientOptions>, respond: (nat, seq<Message>) -> Reply)
      ensures this.options == options && this.respond == respond && sent == []
    {
      this.options := options;
      this.respond := respond;
      sent := [];
    }

    /** `model.invoke(messages)` */
    method Invoke(messages: seq<Message>) returns (reply: Reply)
      modifies this
      ensures sent == old(sent) + [messages]
      ensures reply == respond(|old(sent)|, messages)
    {
      reply := respond(|sent|, messages);
      sent := sent + [messages];
    }
  }

  /** The client arguments taken from the settings; the timeout is converted
      from milliseconds to whole seconds by floor division. */
  function ClientOptionsFor(s: Settings): (o: ClientOptions)
    ensures o.apiKey == s.qwenApiKey && o.modelName == s.qwenModel && o.baseUrl == s.qwenApiBase
    ensures o.temperature == s.llmTemperature && o.maxTokens == s.llmMaxTokens
    ensures o.timeoutSeconds * 1000 <= s.llmTimeout < o.timeoutSeconds * 1000 + 1000
  {
    ClientOptions(s.qwenApiKey, s.qwenModel, s.llmTemperature, s.llmMaxTokens,
                  s.llmTimeout / 1000, s.qwenApiBase)
  }

  /** The error that building the default client raises, if any: either
      failure becomes an `LLMServiceError` for provider "qwen" that carries
      the original error, with the message chosen by the exception's class,
      whichever of the import or the constructor raised it. */
  function CreationFailure(c: ClientCreation): (e: Option<TranslatorError>)
    ensures e.None? <==> c.Created?
    ensures e.Some? ==> e.value.kind == LLMService("qwen", Some(c.cause))
    ensures e.Some? ==> e.value.code == "LLM_SERVICE_ERROR" && e.value.status == 503
    ensures c.RaisedImportError? ==> e.value.message == IMPORT_FAILED
    ensures c.RaisedOther? ==> e.value.message == INIT_FAILED
  {
    match c
    case Created => None
    case RaisedImportError(cause) => Some(LLMServiceError(IMPORT_FAILED, DEFAULT_PROVIDER, Some(cause)))
    case RaisedOther(cause) => Some(LLMServiceError(INIT_FAILED, DEFAULT_PROVIDER, Some(cause)))
  }

  /** Whether `if system_prompt:` holds: given and non-empty. */
  predicate HasSystemPrompt(systemPrompt: Option<string>)
  {
    systemPrompt.Some? && systemPrompt.value != ""
  }

  /** The message list `generate` sends: an optional system message, then
      the user message. */
  function Messages(prompt: string, systemPrompt: Option<string>): (ms: seq<Message>)
    ensures 1 <= |ms| <= 2 && ms[|ms| - 1] == HumanMessage(prompt)
    ensures |ms| == 2 <==> HasSystemPrompt(systemPrompt)
    ensures |ms| == 2 ==> ms[0] == SystemMessage(systemPrompt.value)
  {
    (if HasSystemPrompt(systemPrompt) then [SystemMessage(systemPrompt.value)] else [])
    + [HumanMessage(prompt)]
  }

  /** What `generate` makes of the provider's reply: the content unchanged,
      or an `LLMServiceError` for provider "qwen" carrying the cause. */
  function GenerateOutcome(reply: Reply): (r: Result<string, TranslatorError>)
    ensures r.Success? <==> reply.Content?
    ensures r.Success? ==> r.value == reply.text
    ensures r.Failure? ==> r.error.kind == LLMService("qwen", Some(reply.cause))
    ensures r.Failure? ==> r.error.message == GENERATION_FAILED
  {
    match reply
    case Content(text) => Success(text)
    case Raise(cause) => Failure(LLMServiceError(GENERATION_FAILED, DEFAULT_PROVIDER, Some(cause)))
  }

  /** The first position of `c` in `s`. */
  function FindFirst(s: string, c: char): (r: Option<nat>)
    ensures r.Some? ==> r.value < |s| && s[r.value] == c
    ensures r.Some? ==> forall p :: 0 <= p < r.value ==> s[p] != c
    ensures r.None? ==> forall p :: 0 <= p < |s| ==> s[p] != c
  {
    if s == [] then None
    else if s[0] == c then Some(0)
    else
      var r := FindFirst(s[1..], c);
      if r.Some? then Some(r.value + 1) else None
  }

  /** The last position of `c` in `s`. */
  function FindLast(s: string, c: char): (r: Option<nat>)
    ensures r.Some? ==> r.value < |s| && s[r.value] == c
    ensures r.Some? ==> forall p :: r.value < p < |s| ==> s[p] != c
    ensures r.None? ==> forall p :: 0 <= p < |s| ==> s[p] != c
  {
    if s == [] then None
    else if s[|s| - 1] == c then Some(|s| - 1)
    else FindLast(s[..|s| - 1], c)
  }

  /** Some `{` is followed, somewhere later, by a `}`. */
  predicate HasBracePair(s: string)
  {
    exists i, j :: 0 <= i < j < |s| && s[i] == '{' && s[j] == '}'
  }

  /** The match of `\{[\s\S]*\}` found by `re.search`, as a pair of
      positions: the leftmost start and, from there, the longest match, that
      is, from the first `{` to the last `}`. */
  function SpanBounds(s: string): (r: Option<(nat, nat)>)
    ensures r.None? <==> !HasBracePair(s)
    ensures r.Some? ==> r.value.0 < r.value.1 < |s|
    ensures r.Some? ==> s[r.value.0] == '{' && s[r.value.1] == '}'
    ensures r.Some? ==> forall p :: 0 <= p < r.value.0 ==> s[p] != '{'
    ensures r.Some? ==> forall p :: r.value.1 < p < |s| ==> s[p] != '}'
  {
    var first := FindFirst(s, '{');
    var last := FindLast(s, '}');
    if first.Some? && last.Some? && first.value < last.value then Some((first.value, last.value))
    else
      assert !HasBracePair(s) by {
        forall i, j | 0 <= i < j < |s| && s[i] == '{' ensures s[j] != '}' {
          assert first.Some? && first.value <= i;
        }
      }
      None
  }

  /** The text `generate_with_json_output` hands to the JSON parser: the
      matched span when there is one, else the whole reply. */
  function ParseTarget(s: string): (t: string)
    ensures HasBracePair(s) ==> |t| >= 2 && t[0] == '{' && t[|t| - 1] == '}'
    ensures !HasBracePair(s) ==> t == s
    ensures HasBracePair(s) ==> t == s[SpanBounds(s).value.0..SpanBounds(s).value.1 + 1]
  {
    var b := SpanBounds(s);
    if b.Some? then s[b.value.0..b.value.1 + 1] else s
  }

  /** What `generate_with_json_output` returns, given what `generate`
      returned and the JSON decoder:
      - a failure of `generate` is wrapped once more;
      - a reply whose parse target decodes gives that value;
      - otherwise the error keeps the first 500 characters of the reply. */
  function JsonOutcome(generated: Result<string, TranslatorError>, decode: string -> Decoded)
    : (r: Result<Value, TranslatorError>)
    ensures r.Failure? ==> r.error.kind.LLMService? && r.error.kind.provider == "qwen"
    ensures r.Failure? ==> r.error.code == "LLM_SERVICE_ERROR" && r.error.status == 503
    ensures generated.Failure? ==>
      r == Failure(LLMServiceError(JSON_GENERATION_FAILED, "qwen", Some(Raised(generated.error))))
    ensures generated.Success? ==>
      (r.Success? <==> decode(ParseTarget(generated.value)).Parsed?)
    ensures generated.Success? && r.Success? ==> r.value == decode(ParseTarget(generated.value)).value
    ensures generated.Success? && r.Failure? ==>
      && r.error.message == JSON_PARSE_FAILED
      && "raw_response" in r.error.details && "original_error" in r.error.details
      && r.error.details["raw_response"] == Prefix(generated.value, RAW_RESPONSE_LIMIT)
      && r.error.details["original_error"] == decode(ParseTarget(generated.value)).msg
  {
    match generated
    case Failure(e) => Failure(LLMServiceError(JSON_GENERATION_FAILED, DEFAULT_PROVIDER, Some(Raised(e))))
    case Success(text) =>
      match decode(ParseTarget(text))
      case Parsed(v) => Success(v)
      case DecodeError(msg) =>
        Failure(LLMServiceError(JSON_PARSE_FAILED, DEFAULT_PROVIDER,
                                Some(PyException("JSONDecodeError", msg)),
                                Some(map["raw_response" := Prefix(text, RAW_RESPONSE_LIMIT)])))
  }

  /** The raw reply kept in a parse error is at most 500 characters long and
      is where the reply starts; a reply that short is kept whole. */
  lemma {:induction false} RawResponseTruncated(text: string, decode: string -> Decoded)
    requires decode(ParseTarget(text)).DecodeError?
    ensures var raw := JsonOutcome(Success(text), decode).error.details["raw_response"];
      |raw| <= 500 && raw <= text && (|text| <= 500 ==> raw == text)
  {
  }

  /** The gateway. `decode` is the JSON decoder it uses. */
  class LLMService {
    const model: ChatModel
    const decode: string -> Decoded

    /** `LLMService(model=...)`: an injected client is used as it is. */
    constructor (model: ChatModel, decode: string -> Decoded)
      ensures this.model == model && this.decode == decode
    {
      this.model := model;
      this.decode := decode;
    }

    /** `_create_default_model`: builds the client from the settings, or
        raises the `LLMServiceError` of `CreationFailure`. */
    static method CreateDefaultModel(settings: Settings, create: ClientOptions -> ClientCreation,
                                     respond: (nat, seq<Message>) -> Reply)
      returns (r: Result<ChatModel, TranslatorError>)
      ensures r.Failure? <==> CreationFailure(create(ClientOptionsFor(settings))).Some?
      ensures r.Failure? ==> Some(r.error) == CreationFailure(create(ClientOptionsFor(settings)))
      ensures r.Success? ==> fresh(r.value) && r.value.sent == []
      ensures r.Success? ==> r.value.options == Some(ClientOptionsFor(settings)) && r.value.respond == respond
    {
      var options := ClientOptionsFor(settings);
      var failure := CreationFailure(create(options));
      if failure.Some? {
        r := Failure(failure.value);
      } else {
        var model := new ChatModel(Some(options), respond);
        r := Success(model);
      }
    }

    /** `LLMService(model)`: the injected client when given, otherwise the
        default client built from the settings, whose failure propagates. */
    static method Create(injected: Option<ChatModel>, settings: Settings,
                         create: ClientOptions -> ClientCreation,
                         respond: (nat, seq<Message>) -> Reply, decode: string -> Decoded)
      returns (r: Result<LLMService, TranslatorError>)
      ensures injected.Some? ==> r.Success? && r.value.model == injected.value
      ensures injected.None? ==>
        (r.Failure? <==> CreationFailure(create(ClientOptionsFor(settings))).Some?)
      ensures injected.None? && r.Failure? ==>
        Some(r.error) == CreationFailure(create(ClientOptionsFor(settings)))
      ensures injected.None? && r.Success? ==>
        fresh(r.value.model) && r.value.model.options == Some(ClientOptionsFor(settings))
      ensures r.Success? ==> fresh(r.value) && r.value.decode == decode
    {
      if injected.Some? {
        var service := new LLMService(injected.value, decode);
        r := Success(service);
      } else {
        var model := CreateDefaultModel(settings, create, respond);
        if model.Failure? {
          r := Failure(model.error);
        } else {
          var service := new LLMService(model.value, decode);
          r := Success(service);
        }
      }
    }

    /** `generate`: one request to the client, with the message list of
        `Messages`; the content comes back unchanged, a failure as an
        `LLMServiceError`. */
    method Generate(prompt: string, systemPrompt: Option<string> := None)
      returns (r: Result<string, TranslatorError>)
      modifies model
      ensures model.sent == old(model.sent) + [Messages(prompt, systemPrompt)]
      ensures r == GenerateOutcome(model.respond(|old(model.sent)|, Messages(prompt, systemPrompt)))
    {
      var messages: seq<Message> := [];
      if systemPrompt.Some? && systemPrompt.value != "" {
        messages := messages + [SystemMessage(systemPrompt.value)];
      }
      messages := messages + [HumanMessage(prompt)];
      assert messages == Messages(prompt, systemPrompt);
      var reply := model.Invoke(messages);
      match reply
      case Content(text) =>
        r := Success(text);
      case Raise(cause) =>
        r := Failure(LLMServiceError(GENERATION_FAILED, DEFAULT_PROVIDER, Some(cause)));
    }

    /** `generate_with_json_output`: one request, then the JSON value in the
        reply, as `JsonOutcome` describes. */
    method GenerateJson(prompt: string, systemPrompt: Option<string> := None)
      returns (r: Result<Value, TranslatorError>)
      modifies model
      ensures model.sent == old(model.sent) + [Messages(prompt, systemPrompt)]
      ensures r == JsonOutcome(GenerateOutcome(model.respond(|old(model.sent)|,
                                                             Messages(prompt, systemPrompt))), decode)
    {
      var generated := Generate(prompt, systemPrompt);
      if generated.Failure? {
        r := Failure(LLMServiceError(JSON_GENERATION_FAILED, DEFAULT_PROVIDER, Some(Raised(generated.error))));
        return;
      }
      var responseText := generated.value;
      var bounds := SpanBounds(responseText);
      var decoded;
      if bounds.Some? {
        decoded := decode(responseText[bounds.value.0..bounds.value.1 + 1]);
      } else {
        decoded := decode(responseText);
      }
      match decoded
      case Parsed(v) =>
        r := Success(v);
      case DecodeError(msg) =>
        r := Failure(LLMServiceError(JSON_PARSE_FAILED, DEFAULT_PROVIDER,
                                     Some(PyException("JSONDecodeError", msg)),
                                     Some(map["raw_response" := Prefix(responseText, RAW_RESPONSE_LIMIT)])));
    }
  }
}
