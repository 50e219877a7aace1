/** The translation service: one request to the gateway per text, the
    reply's `translation` and `keywords` read and cleaned, a stub when the
    model gives no translation, the keyword extractor when it gives no
    keywords, and every failure turned into an `InternalError`. */
module Translation {
  import opened Outcomes
  import opened PyText
  import opened Seqs
  import opened Errors
  import opened Json
  import opened Gateway
  import opened Keywords

  const TRANSLATION_SYSTEM_PROMPT :=
    "You are a professional Chinese-English translator. "
    + "Your task is to translate Chinese text to accurate, "
    + "natural-sounding English. Additionally, extract 3-5 "
    + "relevant keywords from the translated text."

  /** The request template with its doubled braces already read by
      `str.format`; the text goes at its end. */
  const PROMPT_HEAD :=
    "Translate the following Chinese text to English "
    + "and extract 3-5 relevant keywords.\n\n"
    + "Please return the result in the following JSON format:\n"
    + "{\n"
    + "  \"translation\": \"<translated English text>\",\n"
    + "  \"keywords\": [\"<keyword1>\", \"<keyword2>\", ...]\n"
    + "}\n\n"
    + "Chinese text to translate:\n"

  const STUB_HEAD := "[Translation unavailable for: "
  const STUB_TAIL := "...]"
  const STUB_TEXT_LIMIT := 50
  const EMPTY_TEXT_MESSAGE := "Text cannot be empty"
  const FAILURE_PREFIX := "Failed to translate text: "

  /** The service's two fixed texts: its system prompt and the request
      template up to the place of the text. */
  datatype Wording = Wording(system: string, head: string)

  /** The class attributes `TRANSLATION_SYSTEM_PROMPT` and
      `TRANSLATION_PROMPT_TEMPLATE`. */
  const SERVICE_WORDING := Wording(TRANSLATION_SYSTEM_PROMPT, PROMPT_HEAD)

  /** A translation and its keywords. */
  datatype Translation = Translation(translation: string, keywords: seq<string>)

  /** `TRANSLATION_PROMPT_TEMPLATE.format(text=text)` */
  function Prompt(w: Wording, text: string): string
  {
    w.head + text
  }

  /** The prompt ends with the text, unchanged, so different texts give
      different prompts. */
  lemma {:induction false} PromptInjective(w: Wording, a: string, b: string)
    ensures Prompt(w, a)[|w.head|..] == a
    ensures Prompt(w, a) == Prompt(w, b) ==> a == b
  {
    assert Prompt(w, a)[|w.head|..] == a;
    assert Prompt(w, b)[|w.head|..] == b;
  }

  /** The messages of the one request `translate` makes. */
  function Request(w: Wording, text: string): seq<Message>
  {
    Messages(Prompt(w, text), Some(w.system))
  }

  /** The request is the system prompt followed by the prompt for the text. */
  lemma {:induction false} RequestShape(w: Wording, text: string)
    requires w.system != ""
    ensures Request(w, text) == [SystemMessage(w.system), HumanMessage(Prompt(w, text))]
  {
  }

  /** `_fallback_translate`: a marker holding the first 50 characters of the
      text. */
  function FallbackTranslate(text: string): string
  {
    STUB_HEAD + Prefix(text, STUB_TEXT_LIMIT) + STUB_TAIL
  }

  /** The stub is the marker around the first 50 characters of the text, so
      a text of at most 50 characters appears whole. */
  lemma {:induction false} StubShape(text: string)
    ensures var r := FallbackTranslate(text);
      && |STUB_HEAD| <= |r| - |STUB_TAIL| <= |STUB_HEAD| + STUB_TEXT_LIMIT
      && r[..|STUB_HEAD|] == STUB_HEAD && r[|r| - |STUB_TAIL|..] == STUB_TAIL
      && r[|STUB_HEAD|..|r| - |STUB_TAIL|] == Prefix(text, STUB_TEXT_LIMIT)
      && (|text| <= STUB_TEXT_LIMIT ==> r[|STUB_HEAD|..|r| - |STUB_TAIL|] == text)
  {
    var r := FallbackTranslate(text);
    assert r[..|STUB_HEAD|] == STUB_HEAD;
    assert r[|r| - |STUB_TAIL|..] == STUB_TAIL;
    assert r[|STUB_HEAD|..|r| - |STUB_TAIL|] == Prefix(text, STUB_TEXT_LIMIT);
  }

  /** The stub is never blank and has nothing to strip, so a translation
      replaced by it is a non-empty string. */
  lemma {:induction false} StubIsStripped(text: string)
    ensures !IsBlank(FallbackTranslate(text))
    ensures Strip(FallbackTranslate(text)) == FallbackTranslate(text)
  {
    var r := FallbackTranslate(text);
    assert r[0] == '[' && r[|r| - 1] == ']';
    StripFixed(r);
  }

  /** The `AttributeError` Python raises for `v.attr` when the type of `v`
      has no such attribute. */
  function NoAttribute(v: Value, attr: string): Cause
  {
    PyException("AttributeError", "'" + TypeName(v) + "' object has no attribute '" + attr + "'")
  }

  /** The `TypeError` Python raises for iterating over `v`. */
  function NotIterable(v: Value): Cause
  {
    PyException("TypeError", "'" + TypeName(v) + "' object is not iterable")
  }

  /** `result.get('translation', '').strip()` and `result.get('keywords', [])`:
      the stripped translation and the keywords value, or the error raised
      when the result is not a dict or the translation not a string. */
  function ReadResult(v: Value): (r: Result<(string, Value), Cause>)
    ensures !v.Obj? ==> r == Failure(NoAttribute(v, "get"))
    ensures v.Obj? ==> var t := Get(v.members, "translation", Str(""));
      && (r.Success? <==> t.Str?)
      && (r.Failure? ==> r.error == NoAttribute(t, "strip"))
      && (r.Success? ==> r.value.0 == Strip(t.s) &&
                         r.value.1 == Get(v.members, "keywords", Arr([])))
  {
    match v
    case Obj(members) =>
      (match Get(members, "translation", Str(""))
       case Str(s) => Success((Strip(s), Get(members, "keywords", Arr([]))))
       case other => Failure(NoAttribute(other, "strip")))
    case _ => Failure(NoAttribute(v, "get"))
  }

  /** `for k in keywords`: a list's items, a string's characters, a dict's
      keys; anything else is not iterable. */
  function Iterate(kw: Value): (r: Result<seq<Value>, Cause>)
    ensures r.Failure? <==> !(kw.Arr? || kw.Str? || kw.Obj?)
    ensures r.Failure? ==> r.error == NotIterable(kw)
    ensures kw.Arr? ==> r == Success(kw.items)
    ensures kw.Str? ==> r.Success? && |r.value| == |kw.s|
    ensures kw.Str? ==> forall i :: 0 <= i < |kw.s| ==> r.value[i] == Str([kw.s[i]])
    ensures kw.Obj? ==> r.Success? && |r.value| == |Keys(kw.members)|
    ensures kw.Obj? ==> forall i :: 0 <= i < |r.value| ==> r.value[i] == Str(Keys(kw.members)[i])
  {
    match kw
    case Arr(items) => Success(items)
    case Str(s) => Success(seq(|s|, i requires 0 <= i < |s| => Str([s[i]])))
    case Obj(members) =>
      var keys := Keys(members);
      Success(seq(|keys|, i requires 0 <= i < |keys| => Str(keys[i])))
    case _ => Failure(NotIterable(kw))
  }

  /** The extractor's words as the list `translate` goes on with. */
  function AsValues(ws: seq<string>): (vs: seq<Value>)
    ensures |vs| == |ws| && forall i :: 0 <= i < |ws| ==> vs[i] == Str(ws[i])
  {
    if ws == [] then [] else [Str(ws[0])] + AsValues(ws[1..])
  }

  /** A cleaned keyword: not empty, nothing to strip, no upper-case ASCII
      letter. */
  predicate IsCleanKeyword(k: string)
  {
    && k != []
    && !IsSpace(k[0]) && !IsSpace(k[|k| - 1])
    && forall i :: 0 <= i < |k| ==> !IsAsciiUpper(k[i])
  }

  /** A string that is not blank becomes a clean keyword. */
  lemma {:induction false} CleanedIsClean(s: string)
    requires !IsBlank(s)
    ensures IsCleanKeyword(Lower(Strip(s)))
  {
    var c := Lower(Strip(s));
    assert c != [];
    CaseKeepsSpace(Strip(s)[0]);
    CaseKeepsSpace(Strip(s)[|c| - 1]);
    assert !IsSpace(c[0]);
    assert !IsSpace(c[|c| - 1]);
  }

  /** An item on which `k and k.strip()` raises: true, but not a string. */
  predicate FailsStrip(v: Value)
  {
    Truthy(v) && !v.Str?
  }

  /** `[k.strip().lower() for k in items if k and k.strip()]`: false items
      and blank strings are skipped, a true item that is not a string
      raises. */
  function CleanKeywords(items: seq<Value>): (r: Result<seq<string>, Cause>)
    ensures r.Failure? <==> exists i :: 0 <= i < |items| && FailsStrip(items[i])
    ensures r.Success? ==> |r.value| <= |items|
    ensures r.Success? ==> forall k :: k in r.value ==> IsCleanKeyword(k)
  {
    if items == [] then Success([])
    else
      var k := items[0];
      var rest := CleanKeywords(items[1..]);
      if FailsStrip(k) then Failure(NoAttribute(k, "strip"))
      else if rest.Failure? then
        assert exists i :: 0 <= i < |items| && FailsStrip(items[i]) by {
          var j :| 0 <= j < |items[1..]| && FailsStrip(items[1..][j]);
          assert items[j + 1] == items[1..][j];
        }
        Failure(rest.error)
      else
        assert forall i :: 0 <= i < |items| ==> !FailsStrip(items[i]) by {
          forall i | 1 <= i < |items| ensures !FailsStrip(items[i]) {
            assert items[i] == items[1..][i - 1];
          }
        }
        if k.Str? && !IsBlank(k.s) then
          CleanedIsClean(k.s);
          Success([Lower(Strip(k.s))] + rest.value)
        else
          Success(rest.value)
  }

  /** What the cleaning makes of one item that does not raise. */
  function CleanedItem(k: Value): seq<string>
  {
    if k.Str? && !IsBlank(k.s) then [Lower(Strip(k.s))] else []
  }

  /** One step of the cleaning: the first item, then the rest. */
  lemma {:induction false} CleanKeywordsUnfold(items: seq<Value>)
    requires items != []
    ensures CleanKeywords(items).Success? <==> !FailsStrip(items[0]) && CleanKeywords(items[1..]).Success?
    ensures CleanKeywords(items).Success? ==>
      CleanKeywords(items).value == CleanedItem(items[0]) + CleanKeywords(items[1..]).value
  {
  }

  /** One induction step of `CleanKeywordsAppend`, on the results alone:
      cleaning `[k] + rest` and `[k] + a'` each either fails or prefixes the
      same cleaned head, and `rest` cleans as `a'` followed by `b`. */
  lemma {:induction false} ConsAppendStep(ok: bool, h: seq<string>,
      rab: Result<seq<string>, Cause>, rrest: Result<seq<string>, Cause>,
      ra: Result<seq<string>, Cause>, ra1: Result<seq<string>, Cause>, rb: Result<seq<string>, Cause>)
    requires rab.Success? <==> ok && rrest.Success?
    requires rab.Success? ==> rab.value == h + rrest.value
    requires ra.Success? <==> ok && ra1.Success?
    requires ra.Success? ==> ra.value == h + ra1.value
    requires rrest.Success? <==> ra1.Success? && rb.Success?
    requires rrest.Success? ==> rrest.value == ra1.value + rb.value
    ensures rab.Success? <==> ra.Success? && rb.Success?
    ensures rab.Success? ==> rab.value == ra.value + rb.value
  {
    if rab.Success? {
      assert h + (ra1.value + rb.value) == (h + ra1.value) + rb.value;
    }
  }

  /** The cleaning works item by item: a concatenation is cleaned when both
      parts are, into the cleaned parts in the same order. */
  lemma {:induction false} CleanKeywordsAppend(a: seq<Value>, b: seq<Value>)
    ensures CleanKeywords(a + b).Success? <==> CleanKeywords(a).Success? && CleanKeywords(b).Success?
    ensures CleanKeywords(a + b).Success? ==>
      CleanKeywords(a + b).value == CleanKeywords(a).value + CleanKeywords(b).value
  {
    if a == [] {
      assert a + b == b;
    } else {
      var ab := a + b;
      assert ab[0] == a[0] && ab[1..] == a[1..] + b;
      CleanKeywordsUnfold(ab);
      CleanKeywordsUnfold(a);
      CleanKeywordsAppend(a[1..], b);
      ConsAppendStep(!FailsStrip(a[0]), CleanedItem(a[0]), CleanKeywords(ab), CleanKeywords(a[1..] + b),
        CleanKeywords(a), CleanKeywords(a[1..]), CleanKeywords(b));
    }
  }

  /** `CleanKeywordsUnfold` for a list written as a head and a rest. */
  lemma {:induction false} CleanKeywordsCons(k: Value, rest: seq<Value>)
    ensures CleanKeywords([k] + rest).Success? <==> !FailsStrip(k) && CleanKeywords(rest).Success?
    ensures CleanKeywords([k] + rest).Success? ==>
      CleanKeywords([k] + rest).value == CleanedItem(k) + CleanKeywords(rest).value
  {
    var items := [k] + rest;
    assert items[0] == k && items[1..] == rest;
    CleanKeywordsUnfold(items);
  }

  lemma {:induction false} StripPaddedExample(s: string)
    requires s == " hello "
    ensures Strip(s) == "hello"
  {
    assert SkipSpaces(s, 0) == 1;
    assert SkipSpacesBack(s, 1, 7) == 6;
  }

  /** The padded item of the worked case below loses its padding. */
  lemma {:induction false} CleanedPaddedExample(item: Value)
    requires item == Str(" hello ")
    ensures CleanedItem(item) == ["hello"]
  {
    StripPaddedExample(item.s);
    LowerFixed("hello");
  }

  /** The two blank items of the worked case below are skipped. */
  lemma {:induction false} CleanedBlankTail(empty: Value, blank: Value)
    requires empty == Str("") && blank == Str("  ")
    ensures CleanKeywords([empty, blank]) == Success([])
  {
    assert CleanedItem(empty) == [] && CleanedItem(blank) == [];
    CleanKeywordsCons(blank, []);
    assert [blank] + [] == [blank];
    ConsResult(true, [], CleanKeywords([blank]), CleanKeywords([]), []);
    CleanKeywordsCons(empty, [blank]);
    assert [empty] + [blank] == [empty, blank];
    ConsResult(true, [], CleanKeywords([empty, blank]), CleanKeywords([blank]), []);
  }

  /** The last three items of the worked case below leave one keyword. */
  lemma {:induction false} CleanedWordTail(rest: seq<Value>)
    requires rest == [Str("world"), Str(""), Str("  ")]
    ensures CleanKeywords(rest) == Success(["world"])
  {
    var tail := rest[1..];
    assert rest == [rest[0]] + tail && tail == [rest[1], rest[2]];
    CleanedBlankTail(rest[1], rest[2]);
    LowerWordKept("world");
    CleanKeywordsCons(rest[0], tail);
    ConsResult(true, ["world"], CleanKeywords(rest), CleanKeywords(tail), []);
    assert ["world"] + [] == ["world"];
  }

  /** A worked case: padding is stripped, and the empty and the blank
      string are skipped. */
  lemma {:induction false} CleanKeywordsExample(items: seq<Value>)
    requires items == [Str(" hello "), Str("world"), Str(""), Str("  ")]
    ensures CleanKeywords(items) == Success(["hello", "world"])
  {
    var rest := items[1..];
    assert items == [items[0]] + rest;
    CleanedWordTail(rest);
    CleanedPaddedExample(items[0]);
    CleanKeywordsCons(items[0], rest);
    ConsResult(true, ["hello"], CleanKeywords(items), CleanKeywords(rest), ["world"]);
    assert ["hello"] + ["world"] == ["hello", "world"];
  }

  /** The error raised is the one of the first item that fails. */
  lemma {:induction false} CleanKeywordsFirstFailure(items: seq<Value>)
    requires CleanKeywords(items).Failure?
    ensures exists i :: (0 <= i < |items| && FailsStrip(items[i]) &&
      CleanKeywords(items).error == NoAttribute(items[i], "strip") &&
      forall j :: 0 <= j < i ==> !FailsStrip(items[j]))
  {
    if !FailsStrip(items[0]) {
      var rest := items[1..];
      assert CleanKeywords(rest).Failure? && CleanKeywords(items).error == CleanKeywords(rest).error;
      CleanKeywordsFirstFailure(rest);
      var i :| 0 <= i < |rest| && FailsStrip(rest[i]) &&
        CleanKeywords(rest).error == NoAttribute(rest[i], "strip") &&
        (forall j :: 0 <= j < i ==> !FailsStrip(rest[j]));
      assert items[i + 1] == rest[i];
      forall j | 0 <= j < i + 1 ensures !FailsStrip(items[j]) {
        if j > 0 {
          assert items[j] == rest[j - 1];
        }
      }
    }
  }

  /** `item` is a string the cleaning turns into `k`. */
  predicate Yields(item: Value, k: string)
  {
    item.Str? && !IsBlank(item.s) && k == Lower(Strip(item.s))
  }

  /** On success the keywords are exactly the stripped, lower-cased
      non-blank strings among the items. */
  lemma {:induction false} CleanKeywordsContents(items: seq<Value>, k: string)
    requires CleanKeywords(items).Success?
    ensures k in CleanKeywords(items).value <==> exists i :: 0 <= i < |items| && Yields(items[i], k)
  {
    if items != [] {
      CleanKeywordsUnfold(items);
      CleanKeywordsContents(items[1..], k);
      YieldsShift(items, k);
      assert k in CleanKeywords(items).value <==>
        k in CleanedItem(items[0]) || k in CleanKeywords(items[1..]).value;
    }
  }

  /** Some item yields `k` exactly when the first does or one of the rest. */
  lemma {:induction false} YieldsShift(items: seq<Value>, k: string)
    requires items != []
    ensures (exists i :: 0 <= i < |items| && Yields(items[i], k)) <==>
      Yields(items[0], k) || exists i :: 0 <= i < |items[1..]| && Yields(items[1..][i], k)
  {
    if exists i :: 0 <= i < |items| && Yields(items[i], k) {
      var i :| 0 <= i < |items| && Yields(items[i], k);
      if i > 0 {
        assert items[1..][i - 1] == items[i];
      }
    }
    if exists i :: 0 <= i < |items[1..]| && Yields(items[1..][i], k) {
      var i :| 0 <= i < |items[1..]| && Yields(items[1..][i], k);
      assert items[i + 1] == items[1..][i];
    }
  }

  /** A word of lower-case letters is kept as it is by the cleaning. */
  lemma {:induction false} LowerWordKept(w: string)
    requires IsLowerWord(w)
    ensures !FailsStrip(Str(w)) && !IsBlank(w) && Lower(Strip(w)) == w
  {
    assert IsAsciiLower(w[0]) && IsAsciiLower(w[|w| - 1]);
    assert !IsSpace(w[0]);
    StripFixed(w);
    LowerFixed(w);
  }

  /** The extractor's words pass the cleaning unchanged. */
  lemma {:induction false} CleanLowerWords(ws: seq<string>)
    requires forall w :: w in ws ==> IsLowerWord(w)
    ensures CleanKeywords(AsValues(ws)) == Success(ws)
  {
    if ws != [] {
      var items := AsValues(ws);
      assert items[1..] == AsValues(ws[1..]);
      CleanLowerWords(ws[1..]);
      LowerWordKept(ws[0]);
      CleanKeywordsUnfold(items);
      assert items[0] == Str(ws[0]);
      ConsKept(!FailsStrip(items[0]), CleanedItem(items[0]), CleanKeywords(items), CleanKeywords(items[1..]), ws);
    }
  }

  /** One step of the cleaning, on the results alone: when the head does
      not raise and yields `h`, and the rest cleans to `tail`, the whole
      cleans to `h + tail`. */
  lemma {:induction false} ConsResult(ok: bool, h: seq<string>, r: Result<seq<string>, Cause>,
      rrest: Result<seq<string>, Cause>, tail: seq<string>)
    requires ok && rrest == Success(tail)
    requires r.Success? <==> ok && rrest.Success?
    requires r.Success? ==> r.value == h + rrest.value
    ensures r == Success(h + tail)
  {
  }

  /** `ConsResult` when the head is kept as `ws[0]` and the rest cleans to
      `ws[1..]`: the whole cleans to `ws`. */
  lemma {:induction false} ConsKept(ok: bool, h: seq<string>, r: Result<seq<string>, Cause>,
      rrest: Result<seq<string>, Cause>, ws: seq<string>)
    requires ws != [] && ok && h == [ws[0]] && rrest == Success(ws[1..])
    requires r.Success? <==> ok && rrest.Success?
    requires r.Success? ==> r.value == h + rrest.value
    ensures r == Success(ws)
  {
    ConsResult(ok, h, r, rrest, ws[1..]);
    assert [ws[0]] + ws[1..] == ws;
  }

  /** A list that starts with a string that is not blank is cleaned into
      that string, stripped and lower-cased, before the rest. */
  lemma {:induction false} CleanKeywordsStrHead(items: seq<Value>, s: string)
    requires items != [] && items[0] == Str(s) && !IsBlank(s)
    requires CleanKeywords(items[1..]).Success?
    ensures CleanKeywords(items) == Success([Lower(Strip(s))] + CleanKeywords(items[1..]).value)
  {
  }

  /** What `translate` does with the value the gateway returned, up to the
      result or the Python exception it raises:
      - the stripped translation, else the stub for `text`;
      - the model's keywords, else the extractor's on that translation;
      - then cleaned and de-duplicated in order. */
  function Finish(text: string, v: Value): (r: Result<Translation, Cause>)
    ensures ReadResult(v).Failure? ==> r == Failure(ReadResult(v).error)
    ensures ReadResult(v).Success? && r.Success? ==> var t := ReadResult(v).value.0;
      r.value.translation == (if t == [] then FallbackTranslate(text) else t)
    ensures ReadResult(v).Success? && Truthy(ReadResult(v).value.1) ==>
      var kw := ReadResult(v).value.1;
      && (r.Success? <==> Iterate(kw).Success? && CleanKeywords(Iterate(kw).value).Success?)
      && (r.Success? ==> r.value.keywords == Dedup(CleanKeywords(Iterate(kw).value).value))
    ensures r.Success? ==> r.value.translation != [] && !IsSpace(r.value.translation[0])
    ensures r.Success? ==> Distinct(r.value.keywords)
    ensures r.Success? ==> forall k :: k in r.value.keywords ==> IsCleanKeyword(k)
  {
    match ReadResult(v)
    case Failure(c) => Failure(c)
    case Success((t, kw)) =>
      var translation := if t == [] then FallbackTranslate(text) else t;
      assert translation != [] && !IsSpace(translation[0]) by {
        if t == [] { StubIsStripped(text); }
      }
      var items := if Truthy(kw) then Iterate(kw) else Success(AsValues(KeywordsFromText(translation)));
      match items
      case Failure(c) => Failure(c)
      case Success(vs) =>
        match CleanKeywords(vs)
        case Failure(c) => Failure(c)
        case Success(ks) => Success(Translation(translation, Dedup(ks)))
  }

  /** When the model's keywords are missing or false, the keywords are the
      extractor's five most common words of the final translation (the stub
      when the model gave no translation), kept as they are. */
  lemma {:induction false} KeywordFallback(text: string, v: Value)
    requires ReadResult(v).Success? && !Truthy(ReadResult(v).value.1)
    ensures Finish(text, v).Success?
    ensures Finish(text, v).value.keywords == KeywordsFromText(Finish(text, v).value.translation)
  {
    var t := ReadResult(v).value.0;
    var translation := if t == [] then FallbackTranslate(text) else t;
    var ks := KeywordsFromText(translation);
    KeywordsFromTextSpec(translation);
    CleanLowerWords(ks);
    DedupOfDistinct(ks);
  }

  /** The `InternalError` a failure inside `translate` becomes, keeping the
      original error. */
  function WrapFailure(c: Cause): (e: TranslatorError)
    ensures e.kind == Internal(Some(c)) && e.code == INTERNAL_ERROR_CODE && e.status == 500
    ensures e.message == FAILURE_PREFIX + CauseText(c)
    ensures e.details == map["original_error" := CauseText(c)]
  {
    InternalError(FAILURE_PREFIX + CauseText(c), Some(c))
  }

  /** `translate(text)`, given what the gateway returns for its request. */
  function TranslateSpec(text: string, outcome: Result<Value, TranslatorError>)
    : (r: Result<Translation, TranslatorError>)
    ensures r.Failure? ==> r.error.kind.Internal? && r.error.code == INTERNAL_ERROR_CODE && r.error.status == 500
    ensures IsBlank(text) ==> r == Failure(InternalError(EMPTY_TEXT_MESSAGE))
    ensures !IsBlank(text) && outcome.Failure? ==> r == Failure(WrapFailure(Raised(outcome.error)))
    ensures !IsBlank(text) && outcome.Success? ==>
      (r.Success? <==> Finish(text, outcome.value).Success?)
    ensures !IsBlank(text) && outcome.Success? && r.Success? ==> r.value == Finish(text, outcome.value).value
    ensures !IsBlank(text) && outcome.Success? && r.Failure? ==>
      r.error == WrapFailure(Finish(text, outcome.value).error)
  {
    if IsBlank(text) then Failure(InternalError(EMPTY_TEXT_MESSAGE))
    else match outcome
      case Failure(e) => Failure(WrapFailure(Raised(e)))
      case Success(v) =>
        match Finish(text, v)
        case Failure(c) => Failure(WrapFailure(c))
        case Success(t) => Success(t)
  }

  /** No gateway error leaves `translate` as it is: each comes back as an
      `InternalError` whose original error is the gateway's, and a blank
      text is refused without an original error. */
  lemma {:induction false} NoGatewayErrorEscapes(text: string, outcome: Result<Value, TranslatorError>)
    ensures var r := TranslateSpec(text, outcome);
      r.Failure? ==> !r.error.kind.LLMService? && r.error.code != LLM_SERVICE_ERROR_CODE
    ensures var r := TranslateSpec(text, outcome);
      r.Failure? && r.error.kind.original.None? <==> IsBlank(text)
  {
  }

  /** Every successful translation is non-empty, with distinct cleaned
      keywords. */
  lemma {:induction false} TranslationWellFormed(text: string, outcome: Result<Value, TranslatorError>)
    ensures var r := TranslateSpec(text, outcome);
      r.Success? ==>
        && r.value.translation != [] && !IsBlank(r.value.translation)
        && Distinct(r.value.keywords)
        && forall k :: k in r.value.keywords ==> IsCleanKeyword(k)
  {
    var r := TranslateSpec(text, outcome);
    if r.Success? {
      assert !IsSpace(r.value.translation[0]);
    }
  }

  /** `translate(text)` for a service whose client answers call `n` with
      `respond(n, ...)` and whose decoder is `decode`. */
  function Answer(w: Wording, text: string, respond: (nat, seq<Message>) -> Reply, decode: string -> Decoded, n: nat)
    : Result<Translation, TranslatorError>
  {
    TranslateSpec(text, JsonOutcome(GenerateOutcome(respond(n, Request(w, text))), decode))
  }

  /** What `batch_translate` keeps for a text: the translation, or the stub
      with no keywords when `translate` raised. */
  function Settle(text: string, r: Result<Translation, TranslatorError>): (t: Translation)
    ensures r.Success? ==> t == r.value
    ensures r.Failure? ==> t == Translation(FallbackTranslate(text), [])
  {
    if r.Success? then r.value else Translation(FallbackTranslate(text), [])
  }

  /** How many of the first `i` texts of a batch are not blank, that is,
      how many requests those texts send. */
  function Sent(texts: seq<string>, i: nat): (c: nat)
    requires i <= |texts|
    ensures c <= i
  {
    if i == 0 then 0 else Sent(texts, i - 1) + (if IsBlank(texts[i - 1]) then 0 else 1)
  }

  /** The requests a batch sends for its first `i` texts: one per text that
      is not blank, in order. */
  function RequestsBefore(w: Wording, texts: seq<string>, i: nat): (rs: seq<seq<Message>>)
    requires i <= |texts|
    ensures |rs| == Sent(texts, i)
  {
    if i == 0 then []
    else RequestsBefore(w, texts, i - 1) + (if IsBlank(texts[i - 1]) then [] else [Request(w, texts[i - 1])])
  }

  /** The service's `translate` as a function of the text and of the number
      of calls its client had answered before. */
  function ServiceAnswer(w: Wording, respond: (nat, seq<Message>) -> Reply, decode: string -> Decoded)
    : (answer: (string, nat) -> Result<Translation, TranslatorError>)
    ensures forall text, n :: answer(text, n) == Answer(w, text, respond, decode, n)
  {
    (text: string, n: nat) => Answer(w, text, respond, decode, n)
  }

  /** What `batch_translate` keeps for `texts[i]` when `translate` answers
      as `answer` and the client had answered `n` calls before the batch:
      the answer to the call that follows the requests of the texts before
      it. */
  function BatchItem(texts: seq<string>, i: nat, answer: (string, nat) -> Result<Translation, TranslatorError>,
                     n: nat): Translation
    requires i < |texts|
  {
    Settle(texts[i], answer(texts[i], n + Sent(texts, i)))
  }

  /** What `batch_translate` returns for the first `i` texts. */
  function BatchResults(texts: seq<string>, i: nat, answer: (string, nat) -> Result<Translation, TranslatorError>,
                        n: nat): (rs: seq<Translation>)
    requires i <= |texts|
    ensures |rs| == i
  {
    if i == 0 then [] else BatchResults(texts, i - 1, answer, n) + [BatchItem(texts, i - 1, answer, n)]
  }

  /** One more text adds its request, if it is not blank, to those of the
      batch. */
  lemma {:induction false} RequestsStep(w: Wording, texts: seq<string>, i: nat)
    requires i < |texts|
    ensures RequestsBefore(w, texts, i + 1)
      == RequestsBefore(w, texts, i) + (if IsBlank(texts[i]) then [] else [Request(w, texts[i])])
    ensures Sent(texts, i) == |RequestsBefore(w, texts, i)|
  {
  }

  /** One more text adds its item to the batch's results. */
  lemma {:induction false} BatchResultsStep(texts: seq<string>, i: nat,
                                            answer: (string, nat) -> Result<Translation, TranslatorError>, n: nat)
    requires i < |texts|
    ensures BatchResults(texts, i + 1, answer, n)
      == BatchResults(texts, i, answer, n) + [Settle(texts[i], answer(texts[i], n + Sent(texts, i)))]
  {
  }

  /** One turn of `batch_translate`'s loop keeps the request log and the
      results as the batch specification says, when `translate` answered
      the text as `answer` does. */
  lemma {:induction false} BatchStep(w: Wording, texts: seq<string>, i: nat,
                                     answer: (string, nat) -> Result<Translation, TranslatorError>,
                                     log: seq<seq<Message>>, before: seq<seq<Message>>, after: seq<seq<Message>>,
                                     results: seq<Translation>, r: Result<Translation, TranslatorError>)
    requires i < |texts|
    requires before == log + RequestsBefore(w, texts, i)
    requires results == BatchResults(texts, i, answer, |log|)
    requires IsBlank(texts[i]) ==> after == before
    requires !IsBlank(texts[i]) ==> after == before + [Request(w, texts[i])]
    requires r == answer(texts[i], |before|)
    ensures after == log + RequestsBefore(w, texts, i + 1)
    ensures results + [Settle(texts[i], r)] == BatchResults(texts, i + 1, answer, |log|)
  {
    RequestsStep(w, texts, i);
    BatchResultsStep(texts, i, answer, |log|);
  }

  /** The batch's results are, one by one, the items of its texts. */
  lemma {:induction false} BatchResultsAt(texts: seq<string>, i: nat,
                                          answer: (string, nat) -> Result<Translation, TranslatorError>, n: nat, j: nat)
    requires j < i <= |texts|
    ensures BatchResults(texts, i, answer, n)[j] == BatchItem(texts, j, answer, n)
  {
    if j < i - 1 {
      BatchResultsAt(texts, i - 1, answer, n, j);
    }
  }

  /** Whatever `translate` gives, a batch keeps a non-blank translation. */
  lemma {:induction false} SettledNonBlank(text: string, outcome: Result<Value, TranslatorError>)
    ensures !IsBlank(Settle(text, TranslateSpec(text, outcome)).translation)
  {
    if TranslateSpec(text, outcome).Success? {
      TranslationWellFormed(text, outcome);
    } else {
      StubIsStripped(text);
    }
  }

  /** A blank text is settled with the stub and no keywords. */
  lemma {:induction false} BlankTextSettles(text: string, outcome: Result<Value, TranslatorError>)
    requires IsBlank(text)
    ensures Settle(text, TranslateSpec(text, outcome)) == Translation(FallbackTranslate(text), [])
  {
    assert TranslateSpec(text, outcome).Failure?;
  }

  /** `batch_translate` never fails and keeps a non-empty translation for
      every text. */
  lemma {:induction false} BatchItemFilled(w: Wording, texts: seq<string>, i: nat, respond: (nat, seq<Message>) -> Reply,
                                           decode: string -> Decoded, n: nat)
    requires i < |texts|
    ensures !IsBlank(BatchItem(texts, i, ServiceAnswer(w, respond, decode), n).translation)
  {
    var m := n + Sent(texts, i);
    SettledNonBlank(texts[i], JsonOutcome(GenerateOutcome(respond(m, Request(w, texts[i]))), decode));
  }

  /** A blank text in a batch gets the stub with no keywords. */
  lemma {:induction false} BatchItemBlank(w: Wording, texts: seq<string>, i: nat, respond: (nat, seq<Message>) -> Reply,
                                          decode: string -> Decoded, n: nat)
    requires i < |texts| && IsBlank(texts[i])
    ensures BatchItem(texts, i, ServiceAnswer(w, respond, decode), n) == Translation(FallbackTranslate(texts[i]), [])
  {
    var m := n + Sent(texts, i);
    BlankTextSettles(texts[i], JsonOutcome(GenerateOutcome(respond(m, Request(w, texts[i]))), decode));
  }

  /** `TranslationService`: translation on top of a gateway. */
  class TranslationService {
    const llm: LLMService
    const wording: Wording

    /** `TranslationService(llm_service)` with the gateway given. */
    constructor (llm: LLMService)
      ensures this.llm == llm && wording == SERVICE_WORDING
    {
      this.llm := llm;
      wording := SERVICE_WORDING;
    }

    /** `translate`: a blank text is refused before any request; otherwise
        exactly one request is sent and the answer is `Answer`'s. */
    method Translate(text: string) returns (r: Result<Translation, TranslatorError>)
      modifies llm.model
      ensures IsBlank(text) ==> llm.model.sent == old(llm.model.sent)
      ensures !IsBlank(text) ==> llm.model.sent == old(llm.model.sent) + [Request(wording, text)]
      ensures r == Answer(wording, text, llm.model.respond, llm.decode, |old(llm.model.sent)|)
    {
      if text == [] || Strip(text) == [] {
        r := Failure(InternalError(EMPTY_TEXT_MESSAGE));
        return;
      }
      var prompt := Prompt(wording, text);
      var result := llm.GenerateJson(prompt, Some(wording.system));
      if result.Failure? {
        r := Failure(WrapFailure(Raised(result.error)));
        return;
      }
      var read := ReadResult(result.value);
      if read.Failure? {
        r := Failure(WrapFailure(read.error));
        return;
      }
      var translation := read.value.0;
      var keywords := read.value.1;
      if translation == [] {
        translation := FallbackTranslate(text);
      }
      var items;
      if !Truthy(keywords) {
        var extracted := ExtractKeywords(translation);
        items := Success(AsValues(extracted));
      } else {
        items := Iterate(keywords);
      }
      if items.Failure? {
        r := Failure(WrapFailure(items.error));
        return;
      }
      var cleaned := CleanKeywords(items.value);
      if cleaned.Failure? {
        r := Failure(WrapFailure(cleaned.error));
        return;
      }
      r := Success(Translation(translation, Dedup(cleaned.value)));
    }

    /** `batch_translate`: one result per text, in order, each as
        `BatchItem` says; the requests are those of the texts that are not
        blank. */
    method BatchTranslate(texts: seq<string>) returns (results: seq<Translation>)
      modifies llm.model
      ensures llm.model.sent == old(llm.model.sent) + RequestsBefore(wording, texts, |texts|)
      ensures results == BatchResults(texts, |texts|, ServiceAnswer(wording, llm.model.respond, llm.decode),
                                      |old(llm.model.sent)|)
    {
      ghost var answer := ServiceAnswer(wording, llm.model.respond, llm.decode);
      results := [];
      for i := 0 to |texts|
        invariant llm.model.sent == old(llm.model.sent) + RequestsBefore(wording, texts, i)
        invariant results == BatchResults(texts, i, answer, |old(llm.model.sent)|)
      {
        ghost var before := llm.model.sent;
        var r := Translate(texts[i]);
        assert r == answer(texts[i], |before|);
        BatchStep(wording, texts, i, answer, old(llm.model.sent), before, llm.model.sent, results, r);
        results := results + [Settle(texts[i], r)];
      }
    }
  }
}
