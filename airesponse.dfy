/**
 * What the AI service does with a provider's answer, shared by the copy of
 * the service in `aiService.js` and the one in `background.js`: the key
 * check, the choice of provider, and the normalisation of the steps the
 * answer holds. The regular-expression extraction and `JSON.parse` are an
 * oracle `extract`: for a reply's text it yields the parsed array, or
 * `None` when no JSON is found, the JSON does not parse, or it is not an
 * array.
 */
module AiResponse {
  import opened Wrappers
  import opened JsString
  import opened Steps

  /**
   * An element of the parsed array. `NullStep` is a JSON `null`, on which
   * reading `step.title` throws. Otherwise each field is the string the
   * object holds under that name, or `None` when it holds none.
   */
  datatype RawStep =
    | NullStep
    | RawStep(title: Option<string>, description: Option<string>,
              selector: Option<string>, fallback: Option<string>)

  /** `value || otherwise` for a field that is a string or absent: the empty string is falsy. */
  function Or(value: Option<string>, otherwise: string): (r: string)
    ensures value.Some? && value.value != "" ==> r == value.value
    ensures value.None? || value.value == "" ==> r == otherwise
  {
    match value
    case Some(v) => if v != "" then v else otherwise
    case None => otherwise
  }

  /** The `.map` callback: element `index` with the defaults filled in. */
  function NormaliseStep(raw: RawStep, index: nat): Step
    requires raw.RawStep?
  {
    Step(Or(raw.title, "Step " + DecimalString(index + 1)),
         Or(raw.description, ""),
         Or(raw.selector, "body"),
         Or(raw.fallback, Or(raw.description, "")),
         false)
  }

  /** `steps.map(...)`; it completes only when no element is `null`. */
  function Normalised(raws: seq<RawStep>): (r: seq<Step>)
    requires forall k :: 0 <= k < |raws| ==> raws[k].RawStep?
    ensures |r| == |raws|
    ensures forall k :: 0 <= k < |raws| ==> r[k] == NormaliseStep(raws[k], k)
  {
    seq(|raws|, k requires 0 <= k < |raws| => NormaliseStep(raws[k], k))
  }

  /** The single step returned when the answer cannot be used. */
  function FallbackStep(content: string): Step {
    Step("Step 1: Follow Instructions", Prefix(content, 200) + "...", "body", "Follow the instructions provided", false)
  }

  /** The array is usable: it was found and parsed, and none of its elements is `null`. */
  predicate Usable(parsed: Option<seq<RawStep>>) {
    parsed.Some? && forall k :: 0 <= k < |parsed.value| ==> parsed.value[k].RawStep?
  }

  /**
   * `parseAIResponse(content)`: the normalised array, or the fallback step
   * when anything inside the `try` throws.
   */
  function ParseAIResponse(content: string, extract: string -> Option<seq<RawStep>>): seq<Step> {
    var parsed := extract(content);
    if Usable(parsed) then Normalised(parsed.value) else [FallbackStep(content)]
  }

  /**
   * A usable array gives one step per element, in order, with the defaults
   * of the `.map` callback: a missing or empty title becomes "Step " and the
   * one-based position, a missing description the empty string, a missing
   * selector `body`, and a missing fallback the description. No step has an
   * empty title or selector.
   */
  lemma ParseArray(content: string, extract: string -> Option<seq<RawStep>>)
    requires Usable(extract(content))
    ensures var raws := extract(content).value;
            var r := ParseAIResponse(content, extract);
            && |r| == |raws|
            && forall k :: 0 <= k < |raws| ==>
                 && r[k].title == Or(raws[k].title, "Step " + DecimalString(k + 1))
                 && r[k].description == Or(raws[k].description, "")
                 && r[k].selector == Or(raws[k].selector, "body")
                 && r[k].fallback == Or(raws[k].fallback, r[k].description)
                 && r[k].title != "" && r[k].selector != "" && !r[k].isUrlCheck
  {
  }

  /** A default title names the step's position: its digits read back as that position. */
  lemma DefaultTitleNumbers(content: string, extract: string -> Option<seq<RawStep>>, k: nat)
    requires Usable(extract(content)) && k < |extract(content).value|
    requires Or(extract(content).value[k].title, "") == ""
    ensures var title := ParseAIResponse(content, extract)[k].title;
            && |title| > 5 && title[..5] == "Step "
            && DecimalValue(title[5..]) == k + 1
  {
    var title := ParseAIResponse(content, extract)[k].title;
    assert title == "Step " + DecimalString(k + 1);
    assert title[5..] == DecimalString(k + 1);
    DecimalRoundTrip(k + 1);
  }

  /** A step's fallback is empty exactly when the answer gave it neither a fallback nor a description. */
  lemma FallbackEmptyIff(content: string, extract: string -> Option<seq<RawStep>>, k: nat)
    requires Usable(extract(content)) && k < |extract(content).value|
    ensures var raw := extract(content).value[k];
            ParseAIResponse(content, extract)[k].fallback == "" <==> Or(raw.fallback, "") == "" && Or(raw.description, "") == ""
  {
  }

  /**
   * When the array cannot be used the answer is the single fallback step:
   * the first 200 characters of the content (all of it when shorter)
   * followed by "...", to be looked for anywhere on the page.
   */
  lemma ParseFailure(content: string, extract: string -> Option<seq<RawStep>>)
    requires !Usable(extract(content))
    ensures var r := ParseAIResponse(content, extract);
            var n := if |content| < 200 then |content| else 200;
            && |r| == 1
            && r[0].title == "Step 1: Follow Instructions"
            && |r[0].description| == n + 3
            && r[0].description[..n] == content[..n]
            && r[0].description[n..] == "..."
            && r[0].selector == "body"
            && r[0].fallback == "Follow the instructions provided"
  {
    var d := Prefix(content, 200) + "...";
    var n := if |content| < 200 then |content| else 200;
    assert d[..n] == Prefix(content, 200);
    assert d[n..] == "...";
  }

  /** The answer has no steps exactly when the provider's array was empty. */
  lemma ParseEmptyIff(content: string, extract: string -> Option<seq<RawStep>>)
    ensures ParseAIResponse(content, extract) == [] <==> extract(content) == Some([])
  {
  }

  /**
   * `isConfigured()`: there is a key (`apiKey !== null`) and it is not
   * blank after trimming.
   */
  predicate IsConfigured(apiKey: Option<string>) {
    apiKey.Some? && |Trim(apiKey.value)| > 0
  }

  /** A key counts exactly when it holds a character that is not white space. */
  lemma ConfiguredIff(apiKey: Option<string>)
    ensures IsConfigured(apiKey) <==>
              apiKey.Some? && exists k :: 0 <= k < |apiKey.value| && !IsWhitespace(apiKey.value[k])
  {
    if apiKey.Some? {
      TrimEmptyIff(apiKey.value);
    }
  }

  /** The two providers the service can call. */
  datatype Provider = OpenAI | Anthropic

  /** The provider `apiProvider` names: exactly `openai` or `anthropic`, compared as written. */
  function SelectProvider(apiProvider: string): (r: Option<Provider>)
    ensures r == Some(OpenAI) <==> apiProvider == "openai"
    ensures r == Some(Anthropic) <==> apiProvider == "anthropic"
    ensures r.None? <==> apiProvider != "openai" && apiProvider != "anthropic"
  {
    if apiProvider == "openai" then Some(OpenAI)
    else if apiProvider == "anthropic" then Some(Anthropic)
    else None
  }

  /**
   * A provider's HTTP call, as seen from the service: the text of the
   * reply's first message, or the message of the error the call throws.
   */
  type Fetch = Provider -> Result<string, string>

  /** The error `callAI` and the background's `generateGuide` throw for any other provider. */
  const UnknownProvider := "Unknown API provider"

  /** The error `generateGuide` throws without a key. */
  const NotConfigured := "API key not configured"

  /**
   * `callOpenAI` / `callAnthropic` after the request: the reply text is
   * trimmed and parsed; an error is passed on.
   */
  function CallProvider(provider: Provider, fetch: Fetch, extract: string -> Option<seq<RawStep>>): Result<seq<Step>, string> {
    match fetch(provider)
    case Ok(content) => Ok(ParseAIResponse(Trim(content), extract))
    case Err(e) => Err(e)
  }

  /** `callAI`: dispatch on the configured provider. */
  function CallAI(apiProvider: string, fetch: Fetch, extract: string -> Option<seq<RawStep>>): Result<seq<Step>, string> {
    if apiProvider == "openai" then CallProvider(OpenAI, fetch, extract)
    else if apiProvider == "anthropic" then CallProvider(Anthropic, fetch, extract)
    else Err(UnknownProvider)
  }

  /**
   * `callAI` reaches a provider exactly when `apiProvider` names one, and
   * then returns the parse of that provider's trimmed reply or its error;
   * any other value throws `Unknown API provider` without a call.
   */
  lemma CallAIDispatch(apiProvider: string, fetch: Fetch, extract: string -> Option<seq<RawStep>>)
    ensures var r := CallAI(apiProvider, fetch, extract);
            && (SelectProvider(apiProvider).None? ==> r == Err(UnknownProvider))
            && (SelectProvider(apiProvider).Some? ==>
                  var p := SelectProvider(apiProvider).value;
                  && (fetch(p).Ok? ==> r == Ok(ParseAIResponse(Trim(fetch(p).value), extract)))
                  && (fetch(p).Err? ==> r == Err(fetch(p).error)))
  {
  }

  /**
   * Whatever the provider answers, a successful call yields at least one
   * step unless the answer was an empty JSON array.
   */
  lemma CallAISteps(apiProvider: string, fetch: Fetch, extract: string -> Option<seq<RawStep>>)
    requires CallAI(apiProvider, fetch, extract).Ok?
    ensures var p := SelectProvider(apiProvider);
            && p.Some? && fetch(p.value).Ok?
            && (CallAI(apiProvider, fetch, extract).value == [] <==> extract(Trim(fetch(p.value).value)) == Some([]))
  {
    var p := SelectProvider(apiProvider);
    ParseEmptyIff(Trim(fetch(p.value).value), extract);
  }
}
