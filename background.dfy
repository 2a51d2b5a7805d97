/**
 * The background worker of `background.js`: its own, cache-less copy of the
 * AI service (the provider's HTTP call is the `fetch` parameter), and the
 * handlers of the `GENERATE_GUIDE` and `SET_API_KEY` messages. The callback
 * of `chrome.storage.sync.set` is modelled by the error it finds in
 * `chrome.runtime.lastError`, if any.
 */
module Background {
  import opened Wrappers
  import opened JsString
  import opened Steps
  import opened AiResponse
  import AiService

  /** `callOpenAI` / `callAnthropic` of this copy: the trimmed reply text, or the error. */
  function Content(provider: Provider, fetch: Fetch): Result<string, string> {
    match fetch(provider)
    case Ok(text) => Ok(Trim(text))
    case Err(e) => Err(e)
  }

  /**
   * `generateGuide` of the background copy: the key check, then the provider
   * dispatch for the reply text, which is parsed only after the dispatch.
   */
  function GenerateGuide(apiKey: Option<string>, apiProvider: string, fetch: Fetch,
                         extract: string -> Option<seq<RawStep>>): Result<seq<Step>, string> {
    if !IsConfigured(apiKey) then Err(NotConfigured)
    else
      var content :=
        if apiProvider == "openai" then Content(OpenAI, fetch)
        else if apiProvider == "anthropic" then Content(Anthropic, fetch)
        else Err(UnknownProvider);
      match content
      case Ok(text) => Ok(ParseAIResponse(text, extract))
      case Err(e) => Err(e)
  }

  /**
   * The background copy answers as `aiService.js` does without its cache:
   * the error for a missing key, and otherwise the result of `callAI`. Its
   * result therefore has the same shape: for an unknown provider the same
   * error, and for a known one the parse of that provider's reply.
   */
  lemma SameAsService(apiKey: Option<string>, apiProvider: string, fetch: Fetch,
                      extract: string -> Option<seq<RawStep>>)
    ensures GenerateGuide(apiKey, apiProvider, fetch, extract) ==
              if IsConfigured(apiKey) then AiResponse.CallAI(apiProvider, fetch, extract) else Err(NotConfigured)
  {
  }

  /** Without a usable key no provider is asked, and the request fails with `API key not configured`. */
  lemma UnconfiguredFails(apiKey: Option<string>, apiProvider: string, fetch: Fetch, fetch': Fetch,
                          extract: string -> Option<seq<RawStep>>)
    requires !IsConfigured(apiKey)
    ensures GenerateGuide(apiKey, apiProvider, fetch, extract) == GenerateGuide(apiKey, apiProvider, fetch', extract)
    ensures GenerateGuide(apiKey, apiProvider, fetch, extract) == Err(NotConfigured)
  {
  }

  /** The `GENERATE_GUIDE` reply: `{success: true, steps}` on success, `{success: false, error}` on failure. */
  function ReplyFor(result: Result<seq<Step>, string>): GuideReply {
    match result
    case Ok(steps) => GuideReply(true, Some(steps), None)
    case Err(e) => GuideReply(false, None, Some(e))
  }

  /**
   * The content script adopts exactly the steps of a successful generation:
   * a reply to a failed one sends it down the keyword path.
   */
  lemma ReplyAdoptedIff(result: Result<seq<Step>, string>)
    ensures AdoptedSteps(Delivered(Some(ReplyFor(result)))).Some? <==> result.Ok?
    ensures result.Ok? ==> AdoptedSteps(Delivered(Some(ReplyFor(result)))) == Some(result.value)
    ensures result.Err? ==> ReplyFor(result).error == Some(result.error) && !ReplyFor(result).success
  {
  }

  /** Without a usable key the content script always falls back to its keyword guide. */
  lemma UnconfiguredUsesKeywords(apiKey: Option<string>, apiProvider: string, fetch: Fetch,
                                 extract: string -> Option<seq<RawStep>>)
    requires !IsConfigured(apiKey)
    ensures AdoptedSteps(Delivered(Some(ReplyFor(GenerateGuide(apiKey, apiProvider, fetch, extract))))).None?
  {
    ReplyAdoptedIff(GenerateGuide(apiKey, apiProvider, fetch, extract));
  }

  /** The `SET_API_KEY` reply: `{success: true}`, or `{success: false, error}`. */
  datatype SetKeyReply = SetKeyReply(success: bool, error: Option<string>)

  /** The worker's service instance. */
  class BackgroundService {
    var apiKey: Option<string>
    var apiProvider: string

    /** `new AIService()`. */
    constructor ()
      ensures apiKey == None && apiProvider == "openai"
    {
      apiKey := None;
      apiProvider := "openai";
    }

    /** `initialize`: an empty or absent stored key becomes `null`, an empty or absent provider `openai`. */
    method Initialize(storedKey: Option<string>, storedProvider: Option<string>)
      modifies this
      ensures apiKey == AiService.StoredKey(storedKey) && apiProvider == Or(storedProvider, "openai")
    {
      apiKey := AiService.StoredKey(storedKey);
      apiProvider := Or(storedProvider, "openai");
    }

    /** `isConfigured`. */
    function Configured(): (r: bool)
      reads this
      ensures r <==> apiKey.Some? && exists k :: 0 <= k < |apiKey.value| && !IsWhitespace(apiKey.value[k])
    {
      ConfiguredIff(apiKey);
      IsConfigured(apiKey)
    }

    /** The `GENERATE_GUIDE` handler: the reply to the generation the message asks for. */
    method HandleGenerateGuide(message: GuideRequest, fetch: Fetch, extract: string -> Option<seq<RawStep>>)
      returns (reply: GuideReply)
      ensures reply == ReplyFor(GenerateGuide(apiKey, apiProvider, fetch, extract))
      ensures reply.success <==> reply.steps.Some?
      ensures !Configured() ==> reply == GuideReply(false, None, Some(NotConfigured))
    {
      var result := GenerateGuide(apiKey, apiProvider, fetch, extract);
      reply := ReplyFor(result);
    }

    /**
     * The `SET_API_KEY` handler. The key and provider (`openai` when the
     * message has none, or an empty one) are stored; only once storage
     * reports no error are they copied into the service, and the reply says
     * which happened.
     */
    method HandleSetApiKey(key: string, provider: Option<string>, storageError: Option<string>)
      returns (reply: SetKeyReply)
      modifies this
      ensures storageError.Some? ==>
                reply == SetKeyReply(false, storageError) && apiKey == old(apiKey) && apiProvider == old(apiProvider)
      ensures storageError.None? ==>
                reply == SetKeyReply(true, None) && apiKey == Some(key) && apiProvider == Or(provider, "openai")
    {
      if storageError.Some? {
        return SetKeyReply(false, storageError);
      }
      apiKey := Some(key);
      apiProvider := Or(provider, "openai");
      reply := SetKeyReply(true, None);
    }
  }
}
