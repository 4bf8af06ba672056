/**
 * src/services/gemini.js: the activation test, the fixed safety and
 * generation settings, message processing behind the rate limiter and the
 * response cache, the primary-then-fallback wrapper, and image description.
 * The chat SDK is represented by the answers it gives; the settings the
 * service reads from `config.ai.gemini` are the parameter `GeminiConfig`.
 */
module Gemini {
  import opened Wrappers
  import opened JsText
  import opened Errors
  import opened RateLimiting
  import opened KeyValueCache

  const ChatLimit := Options(Some(60000), Some(5))
  const VisionLimit := Options(Some(300000), Some(3))
  const ResponseCacheSeconds := 1800
  const DefaultActivationName := "GiGi"

  datatype GeminiConfig = GeminiConfig(initialPrompt: string, fallbackPrompt: string,
                                       activationName: Option<string>, temperature: real)

  // ---------------------------------------------------------------- settings

  datatype SafetySetting = SafetySetting(category: string, threshold: string)

  /** `getSafetySettings`: four distinct harm categories, each blocked from medium up. */
  function GetSafetySettings(): (r: seq<SafetySetting>)
    ensures |r| == 4
    ensures forall i :: 0 <= i < |r| ==> r[i].threshold == "BLOCK_MEDIUM_AND_ABOVE"
    ensures forall i, j :: 0 <= i < j < |r| ==> r[i].category != r[j].category
  {
    var r := [SafetySetting("HARM_CATEGORY_HARASSMENT", "BLOCK_MEDIUM_AND_ABOVE"),
              SafetySetting("HARM_CATEGORY_HATE_SPEECH", "BLOCK_MEDIUM_AND_ABOVE"),
              SafetySetting("HARM_CATEGORY_SEXUALLY_EXPLICIT", "BLOCK_MEDIUM_AND_ABOVE"),
              SafetySetting("HARM_CATEGORY_DANGEROUS_CONTENT", "BLOCK_MEDIUM_AND_ABOVE")];
    assert r[2].category[14] == 'S' && r[3].category[14] == 'D';
    r
  }

  datatype GenerationConfig = GenerationConfig(temperature: real, topK: nat, topP: real, maxOutputTokens: nat)

  /** `getGenerationConfig`: the configured temperature with fixed sampling bounds. */
  function GetGenerationConfig(cfg: GeminiConfig): (g: GenerationConfig)
    ensures g.temperature == cfg.temperature
    ensures g.topK == 40 && g.topP == 0.95 && g.maxOutputTokens == 1024
  {
    GenerationConfig(cfg.temperature, 40, 0.95, 1024)
  }

  // ---------------------------------------------------------------- isActivated

  /** `config.ai.gemini.activationName || 'GiGi'` */
  function ActivationName(cfg: GeminiConfig): (name: string)
    ensures name != ""
    ensures Truthy(cfg.activationName) ==> name == cfg.activationName.value
  {
    Or(cfg.activationName, DefaultActivationName)
  }

  /** `content.toLowerCase().includes(activationName.toLowerCase())` */
  predicate IsActivated(content: string, cfg: GeminiConfig)
  {
    Contains(ToLowerAscii(content), ToLowerAscii(ActivationName(cfg)))
  }

  // ---------------------------------------------------------------- processMessage

  function CacheKey(content: string): string
  {
    "gemini:" + content
  }

  /** The chat SDK's answers: to the system prompt, then to the user's content. */
  datatype GeminiCalls = GeminiCalls(promptReply: Result<string, Error>, reply: Result<string, Error>)

  /** A result, the limiter and cache after it, and the messages sent to the chat, in order. */
  datatype MessageStep = MessageStep(result: Result<string, Error>, limits: Limits,
                                     entries: map<string, Entry<string>>, sent: seq<string>)

  function Wrapped(message: string, e: Error): Error
  {
    APIError(message, StatusOr500(e), "Gemini")
  }

  /** `processMessage(userId, content, isFallback)` */
  function MessageOutcome(limits: Limits, entries: map<string, Entry<string>>, cfg: GeminiConfig, userId: string,
                          content: string, isFallback: bool, now: int, calls: GeminiCalls): (r: MessageStep)
    ensures r.limits == Check(limits, userId, "gemini_chat", ChatLimit, now).limits
    ensures Check(limits, userId, "gemini_chat", ChatLimit, now).result.Err? ==> r.result.Err? && r.sent == []
    ensures r.result.Err? ==> r.result.error.APIError? && r.result.error.source == "Gemini" && r.entries == entries
    ensures isFallback || |r.sent| < 2 ==> r.entries == entries
    ensures |r.sent| <= 2 && (|r.sent| > 0 ==> r.sent[0] == (if isFallback then cfg.fallbackPrompt else cfg.initialPrompt))
    ensures |r.sent| == 2 ==> r.sent[1] == content
    ensures !isFallback && r.result.Ok? && |r.sent| == 2 ==>
              r.entries == entries[CacheKey(content) := Entry(r.result.value, ResponseCacheSeconds)]
    ensures Check(limits, userId, "gemini_chat", ChatLimit, now).result.Ok? && !isFallback &&
            CacheKey(content) in entries && Truthy(Some(entries[CacheKey(content)].value)) ==>
              r == MessageStep(Ok(entries[CacheKey(content)].value), Check(limits, userId, "gemini_chat", ChatLimit, now).limits,
                               entries, [])
    ensures Check(limits, userId, "gemini_chat", ChatLimit, now).result.Ok? &&
            !(!isFallback && CacheKey(content) in entries && Truthy(Some(entries[CacheKey(content)].value))) ==>
              r.sent == (if isFallback then [cfg.fallbackPrompt] else [cfg.initialPrompt]) +
                        (if calls.promptReply.Ok? then [content] else []) &&
              (r.result.Ok? <==> calls.promptReply.Ok? && calls.reply.Ok?) &&
              (r.result.Ok? ==> r.result == calls.reply)
  {
    var d := Check(limits, userId, "gemini_chat", ChatLimit, now);
    var key := CacheKey(content);
    var cached := if key in entries then Some(entries[key].value) else None;
    var prompt := if isFallback then cfg.fallbackPrompt else cfg.initialPrompt;
    if d.result.Err? then
      MessageStep(Err(Wrapped("Failed to process message with Gemini", d.result.error)), d.limits, entries, [])
    else if !isFallback && Truthy(cached) then
      MessageStep(Ok(cached.value), d.limits, entries, [])
    else if calls.promptReply.Err? then
      MessageStep(Err(Wrapped("Failed to process message with Gemini", calls.promptReply.error)), d.limits, entries, [prompt])
    else match calls.reply
      case Err(e) =>
        MessageStep(Err(Wrapped("Failed to process message with Gemini", e)), d.limits, entries, [prompt, content])
      case Ok(response) =>
        MessageStep(Ok(response), d.limits,
                    if isFallback then entries else entries[key := Entry(response, ResponseCacheSeconds)],
                    [prompt, content])
  }

  // ---------------------------------------------------------------- processWithFallback

  datatype FallbackStep = FallbackStep(result: Result<Option<string>, Error>, limits: Limits,
                                       entries: map<string, Entry<string>>, sent: seq<string>)

  /** `processWithFallback`: the primary attempt at `now`; the fallback, if needed, at `fallbackNow`. */
  function FallbackOutcome(limits: Limits, entries: map<string, Entry<string>>, cfg: GeminiConfig, userId: string,
                           content: string, now: int, fallbackNow: int,
                           primary: GeminiCalls, fallback: GeminiCalls): (r: FallbackStep)
    ensures r.entries == MessageOutcome(limits, entries, cfg, userId, content, false, now, primary).entries
    ensures r.result.Err? ==> r.result.error == APIError("Both primary and fallback processing failed", 500, "Gemini")
    ensures r.result == Ok(None) ==> MessageOutcome(limits, entries, cfg, userId, content, false, now, primary).result.Ok?
    ensures |r.sent| <= 4
  {
    var p := MessageOutcome(limits, entries, cfg, userId, content, false, now, primary);
    if p.result.Ok? then
      var response := p.result.value;
      FallbackStep(Ok(if response != "" && !Blank(response) && IsActivated(content, cfg) then Some(response) else None),
                   p.limits, p.entries, p.sent)
    else
      var f := MessageOutcome(p.limits, p.entries, cfg, userId, content, true, fallbackNow, fallback);
      if f.result.Ok? then FallbackStep(Ok(Some(f.result.value)), f.limits, f.entries, p.sent + f.sent)
      else FallbackStep(Err(APIError("Both primary and fallback processing failed", 500, "Gemini")),
                        f.limits, f.entries, p.sent + f.sent)
  }

  // ---------------------------------------------------------------- generateImageDescription

  datatype VisionStep = VisionStep(result: Result<string, Error>, limits: Limits)

  function VisionOutcome(limits: Limits, userId: string, now: int, api: Result<string, Error>): (r: VisionStep)
    ensures r.limits == Check(limits, userId, "gemini_vision", VisionLimit, now).limits
    ensures r.result.Ok? <==> Check(limits, userId, "gemini_vision", VisionLimit, now).result.Ok? && api.Ok?
    ensures r.result.Ok? ==> r.result.value == api.value
    ensures r.result.Err? ==> r.result.error.APIError? && r.result.error.source == "Gemini"
  {
    var d := Check(limits, userId, "gemini_vision", VisionLimit, now);
    if d.result.Err? then VisionStep(Err(Wrapped("Failed to generate image description", d.result.error)), d.limits)
    else match api
      case Err(e) => VisionStep(Err(Wrapped("Failed to generate image description", e)), d.limits)
      case Ok(text) => VisionStep(Ok(text), d.limits)
  }

  // ---------------------------------------------------------------- the service's methods

  method ProcessMessage(userId: string, content: string, isFallback: bool, now: int, cfg: GeminiConfig,
                        limiter: RateLimiter, cache: Cache<string>, calls: GeminiCalls)
    returns (r: Result<string, Error>, sent: seq<string>)
    modifies limiter, cache
    ensures MessageStep(r, limiter.limits, cache.entries, sent)
            == MessageOutcome(old(limiter.limits), old(cache.entries), cfg, userId, content, isFallback, now, calls)
  {
    sent := [];
    var checked := limiter.CheckLimit(userId, "gemini_chat", ChatLimit, now);
    if checked.Err? {
      r := Err(Wrapped("Failed to process message with Gemini", checked.error));
      return;
    }
    if !isFallback {
      var cachedResponse := cache.Get(CacheKey(content));
      if Truthy(cachedResponse) {
        r := Ok(cachedResponse.value);
        return;
      }
    }
    var systemPrompt := if isFallback then cfg.fallbackPrompt else cfg.initialPrompt;
    sent := [systemPrompt];
    if calls.promptReply.Err? {
      r := Err(Wrapped("Failed to process message with Gemini", calls.promptReply.error));
      return;
    }
    sent := sent + [content];
    if calls.reply.Err? {
      r := Err(Wrapped("Failed to process message with Gemini", calls.reply.error));
      return;
    }
    var response := calls.reply.value;
    if !isFallback {
      cache.Set(CacheKey(content), response, ResponseCacheSeconds);
    }
    r := Ok(response);
  }

  method ProcessWithFallback(userId: string, content: string, now: int, fallbackNow: int, cfg: GeminiConfig,
                             limiter: RateLimiter, cache: Cache<string>, primary: GeminiCalls, fallback: GeminiCalls)
    returns (r: Result<Option<string>, Error>, sent: seq<string>)
    modifies limiter, cache
    ensures FallbackStep(r, limiter.limits, cache.entries, sent)
            == FallbackOutcome(old(limiter.limits), old(cache.entries), cfg, userId, content, now, fallbackNow,
                               primary, fallback)
  {
    var response, primarySent := ProcessMessage(userId, content, false, now, cfg, limiter, cache, primary);
    if response.Ok? {
      var text := response.value;
      if text != "" && !Blank(text) && IsActivated(content, cfg) {
        r := Ok(Some(text));
      } else {
        r := Ok(None);
      }
      sent := primarySent;
      return;
    }
    var retried, fallbackSent := ProcessMessage(userId, content, true, fallbackNow, cfg, limiter, cache, fallback);
    sent := primarySent + fallbackSent;
    if retried.Ok? {
      r := Ok(Some(retried.value));
    } else {
      r := Err(APIError("Both primary and fallback processing failed", 500, "Gemini"));
    }
  }

  method GenerateImageDescription(imageUrl: string, userId: string, now: int, limiter: RateLimiter,
                                  api: Result<string, Error>)
    returns (r: Result<string, Error>)
    modifies limiter
    ensures VisionStep(r, limiter.limits) == VisionOutcome(old(limiter.limits), userId, now, api)
  {
    var checked := limiter.CheckLimit(userId, "gemini_vision", VisionLimit, now);
    if checked.Err? {
      r := Err(Wrapped("Failed to generate image description", checked.error));
      return;
    }
    if api.Err? {
      r := Err(Wrapped("Failed to generate image description", api.error));
      return;
    }
    r := Ok(api.value);
  }

  // ---------------------------------------------------------------- properties

  /** Any message that contains the activation name, in any ASCII case, activates. */
  lemma ActivatedByName(pre: string, post: string, cfg: GeminiConfig)
    ensures IsActivated(pre + ActivationName(cfg) + post, cfg)
  {
    var name := ActivationName(cfg);
    var low := ToLowerAscii(name);
    ToLowerAsciiAppend(pre + name, post);
    ToLowerAsciiAppend(pre, name);
    var s := ToLowerAscii(pre + name + post);
    assert s == ToLowerAscii(pre) + low + ToLowerAscii(post);
    assert s[|pre|..|pre| + |low|] == low;
    assert OccursAt(s, low, |pre|);
    ContainsOccurrence(s, low);
  }

  /** Activation ignores ASCII case: lower-casing the message first changes nothing. */
  lemma ActivationIgnoresCase(content: string, cfg: GeminiConfig)
    ensures IsActivated(ToLowerAscii(content), cfg) == IsActivated(content, cfg)
  {
    ToLowerAsciiIdempotent(content);
  }

  /** A message activates exactly when the lower-cased name occurs at some position of it. */
  lemma ActivationIsOccurrence(content: string, cfg: GeminiConfig)
    ensures IsActivated(content, cfg) <==>
            exists i :: OccursAt(ToLowerAscii(content), ToLowerAscii(ActivationName(cfg)), i)
  {
    var low := ToLowerAscii(content);
    var name := ToLowerAscii(ActivationName(cfg));
    assert IsActivated(content, cfg) == Contains(low, name);
    ContainsOccurrence(low, name);
    if IsActivated(content, cfg) {
      var i :| OccursAt(low, name, i);
      assert OccursAt(ToLowerAscii(content), ToLowerAscii(ActivationName(cfg)), i);
      assert exists j :: OccursAt(ToLowerAscii(content), ToLowerAscii(ActivationName(cfg)), j);
    } else {
      assert !exists j :: OccursAt(ToLowerAscii(content), ToLowerAscii(ActivationName(cfg)), j);
    }
  }

  /** A refused request sends nothing and leaves the cache alone, even when the answer is cached. */
  lemma RateLimitBeforeCache(limits: Limits, entries: map<string, Entry<string>>, cfg: GeminiConfig, userId: string,
                             content: string, isFallback: bool, now: int, calls: GeminiCalls)
    requires Check(limits, userId, "gemini_chat", ChatLimit, now).result.Err?
    ensures var s := MessageOutcome(limits, entries, cfg, userId, content, isFallback, now, calls);
            s.sent == [] && s.entries == entries && s.limits == limits &&
            s.result == Err(APIError("Failed to process message with Gemini", 500, "Gemini"))
  {
  }

  /** The fallback path neither reads nor writes the cache and sends the fallback prompt; the primary sends the initial one. */
  lemma PromptAndCacheByPath(limits: Limits, entries: map<string, Entry<string>>, cfg: GeminiConfig, userId: string,
                             content: string, isFallback: bool, now: int, calls: GeminiCalls)
    ensures var s := MessageOutcome(limits, entries, cfg, userId, content, isFallback, now, calls);
            (isFallback ==> s.entries == entries) &&
            (|s.sent| > 0 ==> s.sent[0] == (if isFallback then cfg.fallbackPrompt else cfg.initialPrompt)) &&
            (|s.sent| > 1 ==> |s.sent| == 2 && s.sent[1] == content)
  {
  }

  /**
   * An accepted primary request for uncached content whose chat answers `answer` returns it, is cached for
   * 30 minutes, and answers the same content within that time without a chat.
   */
  lemma CacheRoundTrip(limits: Limits, entries: map<string, Entry<string>>, cfg: GeminiConfig, userId: string,
                       content: string, now: int, calls: GeminiCalls, answer: string, later: int, calls2: GeminiCalls)
    requires Check(limits, userId, "gemini_chat", ChatLimit, now).result.Ok?
    requires !(CacheKey(content) in entries && Truthy(Some(entries[CacheKey(content)].value)))
    requires calls.promptReply.Ok? && calls.reply == Ok(answer) && answer != ""
    requires now <= later < now + 1000 * ResponseCacheSeconds
    requires Check(MessageOutcome(limits, entries, cfg, userId, content, false, now, calls).limits,
                   userId, "gemini_chat", ChatLimit, later).result.Ok?
    ensures var s := MessageOutcome(limits, entries, cfg, userId, content, false, now, calls);
            s.result == Ok(answer) && s.sent == [cfg.initialPrompt, content] &&
            s.entries[CacheKey(content)] == Entry(answer, 1800) &&
            var s2 := MessageOutcome(s.limits, s.entries, cfg, userId, content, false, later, calls2);
            s2.sent == [] && s2.result == Ok(answer)
  {
  }

  /** A primary answer is passed on only when it is non-blank and the message activates. */
  lemma PrimaryAnswerGate(limits: Limits, entries: map<string, Entry<string>>, cfg: GeminiConfig, userId: string,
                          content: string, now: int, fallbackNow: int, primary: GeminiCalls, fallback: GeminiCalls)
    requires MessageOutcome(limits, entries, cfg, userId, content, false, now, primary).result.Ok?
    ensures var p := MessageOutcome(limits, entries, cfg, userId, content, false, now, primary);
            var s := FallbackOutcome(limits, entries, cfg, userId, content, now, fallbackNow, primary, fallback);
            s.sent == p.sent && s.limits == p.limits && s.entries == p.entries &&
            (s.result == Ok(Some(p.result.value)) <==> !Blank(p.result.value) && p.result.value != "" && IsActivated(content, cfg)) &&
            (s.result.Ok? && (s.result.value == None <==> Blank(p.result.value) || !IsActivated(content, cfg)))
  {
  }

  /** After a primary failure exactly one fallback attempt follows; its answer is passed on unchecked. */
  lemma FallbackAfterFailure(limits: Limits, entries: map<string, Entry<string>>, cfg: GeminiConfig, userId: string,
                             content: string, now: int, fallbackNow: int, primary: GeminiCalls, fallback: GeminiCalls)
    requires MessageOutcome(limits, entries, cfg, userId, content, false, now, primary).result.Err?
    ensures var p := MessageOutcome(limits, entries, cfg, userId, content, false, now, primary);
            var f := MessageOutcome(p.limits, p.entries, cfg, userId, content, true, fallbackNow, fallback);
            var s := FallbackOutcome(limits, entries, cfg, userId, content, now, fallbackNow, primary, fallback);
            s.sent == p.sent + f.sent && s.limits == f.limits && s.entries == entries &&
            (f.result.Ok? ==> s.result == Ok(Some(f.result.value))) &&
            (f.result.Err? ==> s.result == Err(APIError("Both primary and fallback processing failed", 500, "Gemini")))
  {
    var p := MessageOutcome(limits, entries, cfg, userId, content, false, now, primary);
    assert p.entries == entries;
    PromptAndCacheByPath(p.limits, p.entries, cfg, userId, content, true, fallbackNow, fallback);
  }

  /** A refused description request fails with status 500. */
  lemma VisionRateLimited(limits: Limits, userId: string, now: int, api: Result<string, Error>)
    requires Check(limits, userId, "gemini_vision", VisionLimit, now).result.Err?
    ensures VisionOutcome(limits, userId, now, api)
            == VisionStep(Err(APIError("Failed to generate image description", 500, "Gemini")), limits)
  {
  }
}
