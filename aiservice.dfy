/**
 * The `AIService` class of `aiService.js`: the key, the provider, and the
 * cache of generated guides keyed by the lower-cased task and the URL. The
 * provider's HTTP call is the `fetch` parameter; the service records, as
 * ghost state, which providers it has called, so that a cache hit can be
 * seen to make no call.
 */
module AiService {
  import opened Wrappers
  import opened JsString
  import opened Steps
  import opened AiResponse

  /** `${taskDescription.toLowerCase()}_${currentUrl}`. */
  function CacheKey(taskDescription: string, currentUrl: string): (r: string)
    ensures |r| == |taskDescription| + 1 + |currentUrl|
    ensures r[..|taskDescription|] == ToLower(taskDescription) && r[|taskDescription|] == '_'
    ensures r[|taskDescription| + 1..] == currentUrl
  {
    ToLower(taskDescription) + "_" + currentUrl
  }

  /** Tasks that differ only in the case of their letters share a cached guide. */
  lemma CacheKeyIgnoresCase(taskDescription: string, currentUrl: string)
    ensures CacheKey(ToLower(taskDescription), currentUrl) == CacheKey(taskDescription, currentUrl)
  {
    ToLowerOfLower(ToLower(taskDescription));
  }

  /**
   * The key does not determine the request: a task ending in "_b" on page
   * "c" and the task "a" on page "b_c" share the key "a_b_c", so the second
   * is answered with the guide cached for the first.
   */
  lemma CacheKeyCollides()
    ensures CacheKey("a_b", "c") == CacheKey("a", "b_c")
  {
    assert ToLower("a_b") == "a_b" by {
      assert !IsUpper('a') && !IsUpper('_') && !IsUpper('b');
    }
    assert ToLower("a") == "a" by {
      assert !IsUpper('a');
    }
  }

  /** The providers a `callAI` with this setting calls: one, or none for an unknown name. */
  function Called(apiProvider: string): (r: seq<Provider>)
    ensures |r| <= 1
    ensures r == [] <==> SelectProvider(apiProvider).None?
    ensures r != [] ==> r == [SelectProvider(apiProvider).value]
  {
    if apiProvider == "openai" then [OpenAI]
    else if apiProvider == "anthropic" then [Anthropic]
    else []
  }

  /** `apiKey || null`: a stored key that is empty or absent becomes `null`. */
  function StoredKey(stored: Option<string>): (r: Option<string>)
    ensures r.Some? <==> stored.Some? && stored.value != ""
    ensures r.Some? ==> r == stored
  {
    if stored.Some? && stored.value != "" then stored else None
  }

  class AIService {
    var apiKey: Option<string>
    var apiProvider: string
    var cache: map<string, seq<Step>>
    /** The providers called so far, in order. */
    ghost var calls: seq<Provider>

    /** A fresh service: no key, OpenAI, an empty cache. */
    constructor ()
      ensures apiKey == None && apiProvider == "openai" && cache == map[] && calls == []
    {
      apiKey := None;
      apiProvider := "openai";
      cache := map[];
      calls := [];
    }

    /**
     * `initialize`: the key and provider read from storage, an empty or
     * absent key becoming `null` and an empty or absent provider `openai`.
     */
    method Initialize(storedKey: Option<string>, storedProvider: Option<string>)
      modifies this
      ensures apiKey == StoredKey(storedKey) && apiProvider == Or(storedProvider, "openai")
      ensures cache == old(cache) && calls == old(calls)
    {
      apiKey := StoredKey(storedKey);
      apiProvider := Or(storedProvider, "openai");
    }

    /** `callAI`: one call to the provider the setting names, if any. */
    method CallAI(fetch: Fetch, extract: string -> Option<seq<RawStep>>) returns (r: Result<seq<Step>, string>)
      modifies this
      ensures r == AiResponse.CallAI(apiProvider, fetch, extract)
      ensures calls == old(calls) + Called(apiProvider)
      ensures apiKey == old(apiKey) && apiProvider == old(apiProvider) && cache == old(cache)
    {
      if apiProvider == "openai" {
        calls := calls + [OpenAI];
        r := CallProvider(OpenAI, fetch, extract);
      } else if apiProvider == "anthropic" {
        calls := calls + [Anthropic];
        r := CallProvider(Anthropic, fetch, extract);
      } else {
        r := Err(UnknownProvider);
      }
    }

    /**
     * `generateGuide`: without a usable key it throws before anything else;
     * a cached guide is returned without calling a provider; otherwise the
     * provider is called and a guide it yields is cached under the request's
     * key, so that the same request is answered next time from the cache.
     */
    method GenerateGuide(taskDescription: string, currentUrl: string, fetch: Fetch,
                         extract: string -> Option<seq<RawStep>>) returns (r: Result<seq<Step>, string>)
      modifies this
      ensures apiKey == old(apiKey) && apiProvider == old(apiProvider)
      ensures var key := CacheKey(taskDescription, currentUrl);
              && (!IsConfigured(apiKey) ==>
                    r == Err(NotConfigured) && cache == old(cache) && calls == old(calls))
              && (IsConfigured(apiKey) && key in old(cache) ==>
                    r == Ok(old(cache)[key]) && cache == old(cache) && calls == old(calls))
              && (IsConfigured(apiKey) && key !in old(cache) ==>
                    && r == AiResponse.CallAI(apiProvider, fetch, extract)
                    && calls == old(calls) + Called(apiProvider)
                    && cache == (if r.Ok? then old(cache)[key := r.value] else old(cache)))
              && (r.Ok? ==> key in cache && cache[key] == r.value)
    {
      if !IsConfigured(apiKey) {
        return Err(NotConfigured);
      }
      var key := CacheKey(taskDescription, currentUrl);
      if key in cache {
        return Ok(cache[key]);
      }
      r := CallAI(fetch, extract);
      if r.Ok? {
        cache := cache[key := r.value];
      }
    }

    /**
     * `setApiKey(apiKey, provider = 'openai')`: both fields take the
     * arguments; only an omitted provider defaults to `openai`. Storage is
     * not modelled.
     */
    method SetApiKey(key: Option<string>, provider: Option<string>)
      modifies this
      ensures apiKey == key && apiProvider == provider.GetOr("openai")
      ensures cache == old(cache) && calls == old(calls)
    {
      apiKey := key;
      apiProvider := provider.GetOr("openai");
    }
  }
}
