/**
 * src/services/openai.js: image generation behind the rate limiter and the
 * cache, the per-user assistant-thread table with its hourly expiry, the
 * polling loop that waits for an assistant run, and plain chat completions.
 * Every SDK call is an outcome parameter; `now` is the clock.
 */
module OpenAI {
  import opened Wrappers
  import opened JsText
  import opened Errors
  import opened RateLimiting
  import opened KeyValueCache

  const ThreadMaxAgeMs := 3600000
  const ImageCacheSeconds := 3600
  /** config.ai.openai.timeout */
  const AssistantTimeoutMs := 30000

  const ImageLimit := Options(Some(300000), Some(3))
  const ChatLimit := Options(Some(60000), Some(5))
  const CompletionLimit := Options(Some(60000), Some(5))

  /** A `{ role, content }` entry of a chat-completion history. */
  datatype ChatMessage = ChatMessage(role: string, content: string)

  datatype ThreadData = ThreadData(threadId: string, messages: seq<ChatMessage>, lastActivity: int)

  /** A message listed from a thread: its role and the text of its first content part. */
  datatype ThreadMessage = ThreadMessage(role: string, text: string)

  /** One `runs.retrieve`: the run's status (or the SDK's failure) and `Date.now() - startTime` after it. */
  datatype Poll = Poll(status: Result<string, Error>, elapsedMs: int)

  /** What the SDK answers to the calls `processMessage` makes. */
  datatype AssistantCalls = AssistantCalls(
    threadCreated: Result<string, Error>,
    messageAdded: Result<(), Error>,
    runCreated: Result<string, Error>,
    polls: nat -> Poll,
    listing: Result<seq<ThreadMessage>, Error>)

  /** The catch of every public method: `new APIError(message, error.status || 500, 'OpenAI')`. */
  function Wrapped(message: string, e: Error): Error
  {
    APIError(message, StatusOr500(e), "OpenAI")
  }

  // ---------------------------------------------------------------- generateImage

  function ImageKey(prompt: string): string
  {
    "image:" + prompt
  }

  /** The result of `generateImage`, the limiter and cache after it, and whether the API was asked. */
  datatype ImageStep = ImageStep(result: Result<string, Error>, limits: Limits,
                                 entries: map<string, Entry<string>>, requested: bool)

  /** `generateImage`: rate limit, then cache, then the API (`api` lists the URLs of `response.data`). */
  function ImageOutcome(limits: Limits, entries: map<string, Entry<string>>, prompt: string, userId: string,
                        now: int, api: Result<seq<string>, Error>): (r: ImageStep)
    ensures r.limits == Check(limits, userId, "image_generation", ImageLimit, now).limits
    ensures r.requested <==>
              Check(limits, userId, "image_generation", ImageLimit, now).result.Ok? &&
              (ImageKey(prompt) !in entries || !Truthy(Some(entries[ImageKey(prompt)].value)))
    ensures Check(limits, userId, "image_generation", ImageLimit, now).result.Ok? &&
            ImageKey(prompt) in entries && Truthy(Some(entries[ImageKey(prompt)].value)) ==>
              r.result == Ok(entries[ImageKey(prompt)].value)
    ensures r.requested && api.Ok? && |api.value| > 0 ==>
              r == ImageStep(Ok(api.value[0]), Check(limits, userId, "image_generation", ImageLimit, now).limits,
                             entries[ImageKey(prompt) := Entry(api.value[0], ImageCacheSeconds)], true)
    ensures r.result.Err? ==> r.result.error.APIError? && r.result.error.source == "OpenAI" && r.entries == entries
    ensures !r.requested ==> r.entries == entries
    ensures r.requested && r.result.Ok? ==>
              api.Ok? && |api.value| > 0 && r.result == Ok(api.value[0]) && r.entries == entries[ImageKey(prompt) := Entry(api.value[0], ImageCacheSeconds)]
  {
    var d := Check(limits, userId, "image_generation", ImageLimit, now);
    var key := ImageKey(prompt);
    var cached := if key in entries then Some(entries[key].value) else None;
    if d.result.Err? then ImageStep(Err(Wrapped("Failed to generate image", d.result.error)), d.limits, entries, false)
    else if Truthy(cached) then ImageStep(Ok(cached.value), d.limits, entries, false)
    else match api
      case Err(e) => ImageStep(Err(Wrapped("Failed to generate image", e)), d.limits, entries, true)
      case Ok(urls) =>
        if |urls| == 0 then
          ImageStep(Err(Wrapped("Failed to generate image", APIError("No image generated", 500, "OpenAI"))),
                    d.limits, entries, true)
        else
          ImageStep(Ok(urls[0]), d.limits, entries[key := Entry(urls[0], ImageCacheSeconds)], true)
  }

  // ---------------------------------------------------------------- threads

  datatype ThreadStep = ThreadStep(result: Result<ThreadData, Error>, threads: map<string, ThreadData>)

  /** `getOrCreateThread`: `created` is the answer of `threads.create`, asked only when no thread exists. */
  function ThreadOutcome(threads: map<string, ThreadData>, userId: string, now: int,
                         created: Result<string, Error>): (r: ThreadStep)
    ensures r.result.Ok? ==> userId in r.threads && r.threads[userId] == r.result.value && r.result.value.lastActivity == now
    ensures userId in threads ==>
              r.result.Ok? && r.result.value.threadId == threads[userId].threadId &&
              r.result.value.messages == threads[userId].messages
    ensures userId !in threads && created.Ok? ==> r.result == Ok(ThreadData(created.value, [], now))
    ensures r.result.Err? ==> userId !in threads && r.threads == threads
    ensures forall u :: u != userId ==> (u in r.threads <==> u in threads) && (u in threads ==> r.threads[u] == threads[u])
  {
    if userId in threads then
      var data := threads[userId].(lastActivity := now);
      ThreadStep(Ok(data), threads[userId := data])
    else match created
      case Err(e) => ThreadStep(Err(Wrapped("Failed to manage conversation thread", e)), threads)
      case Ok(id) =>
        var data := ThreadData(id, [], now);
        ThreadStep(Ok(data), threads[userId := data])
  }

  /** The threads `cleanupOldThreads` keeps. */
  function FreshThreads(threads: map<string, ThreadData>, now: int): map<string, ThreadData>
  {
    map u | u in threads && !(now - threads[u].lastActivity > ThreadMaxAgeMs) :: threads[u]
  }

  // ---------------------------------------------------------------- waitForCompletion

  /** The runs each poll lets continue: every pass waits one second. */
  ghost predicate Paced(polls: nat -> Poll)
  {
    forall j: nat :: polls(j).elapsedMs >= 1000 * j
  }

  function Budget(timeout: int, i: nat): nat
  {
    if timeout + 1000 - 1000 * i > 0 then timeout + 1000 - 1000 * i else 0
  }

  /** `messages.data.filter(msg => msg.role === 'assistant')` */
  function AssistantMessages(msgs: seq<ThreadMessage>): (r: seq<ThreadMessage>)
    ensures forall m :: m in r <==> m in msgs && m.role == "assistant"
  {
    if |msgs| == 0 then []
    else (if msgs[0].role == "assistant" then [msgs[0]] else []) + AssistantMessages(msgs[1..])
  }

  /** The answer once the run is completed. */
  function Answer(listing: Result<seq<ThreadMessage>, Error>): Result<string, Error>
  {
    match listing
    case Err(e) => Err(e)
    case Ok(msgs) =>
      var a := AssistantMessages(msgs);
      if |a| > 0 then Ok(a[0].text) else Err(PlainError("No assistant messages found"))
  }

  /** The outcome of the polling loop from the `i`-th retrieval on. */
  function Completion(polls: nat -> Poll, timeout: int, listing: Result<seq<ThreadMessage>, Error>, i: nat)
    : Result<string, Error>
    requires Paced(polls)
    decreases Budget(timeout, i)
  {
    match polls(i).status
    case Err(e) => Err(e)
    case Ok(status) =>
      if status == "completed" then Answer(listing)
      else if status == "failed" || polls(i).elapsedMs > timeout then
        Err(PlainError("Assistant run failed or timed out. Status: " + status))
      else Completion(polls, timeout, listing, i + 1)
  }

  // ---------------------------------------------------------------- processMessage

  datatype ProcessStep = ProcessStep(result: Result<string, Error>, limits: Limits, threads: map<string, ThreadData>)

  function ProcessOutcome(limits: Limits, threads: map<string, ThreadData>, userId: string, now: int,
                          calls: AssistantCalls): (r: ProcessStep)
    requires Paced(calls.polls)
    ensures r.limits == Check(limits, userId, "chat", ChatLimit, now).limits
    ensures r.result.Err? ==> r.result.error.APIError? && r.result.error.source == "OpenAI"
    ensures r.result.Ok? ==> r.result == Completion(calls.polls, AssistantTimeoutMs, calls.listing, 0)
    ensures Check(limits, userId, "chat", ChatLimit, now).result.Err? ==> r.result.Err? && r.threads == threads
    ensures Check(limits, userId, "chat", ChatLimit, now).result.Ok? ==>
              r.threads == ThreadOutcome(threads, userId, now, calls.threadCreated).threads
    ensures r.result.Ok? <==>
              Check(limits, userId, "chat", ChatLimit, now).result.Ok? &&
              (userId in threads || calls.threadCreated.Ok?) &&
              calls.messageAdded.Ok? && calls.runCreated.Ok? &&
              Completion(calls.polls, AssistantTimeoutMs, calls.listing, 0).Ok?
  {
    var d := Check(limits, userId, "chat", ChatLimit, now);
    if d.result.Err? then ProcessStep(Err(Wrapped("Failed to process message", d.result.error)), d.limits, threads)
    else
      var t := ThreadOutcome(threads, userId, now, calls.threadCreated);
      if t.result.Err? then ProcessStep(Err(Wrapped("Failed to process message", t.result.error)), d.limits, t.threads)
      else if calls.messageAdded.Err? then
        ProcessStep(Err(Wrapped("Failed to process message", calls.messageAdded.error)), d.limits, t.threads)
      else if calls.runCreated.Err? then
        ProcessStep(Err(Wrapped("Failed to process message", calls.runCreated.error)), d.limits, t.threads)
      else
        var c := Completion(calls.polls, AssistantTimeoutMs, calls.listing, 0);
        if c.Err? then ProcessStep(Err(Wrapped("Failed to process message", c.error)), d.limits, t.threads)
        else ProcessStep(c, d.limits, t.threads)
  }

  // ---------------------------------------------------------------- createChatCompletion

  datatype CompletionStep = CompletionStep(result: Result<string, Error>, limits: Limits)

  /** `createChatCompletion`: `api` is the content of the first choice, or the SDK's failure. */
  function CompletionOutcome(limits: Limits, userId: string, now: int, api: Result<string, Error>): (r: CompletionStep)
    ensures r.limits == Check(limits, userId, "chat_completion", CompletionLimit, now).limits
    ensures r.result.Ok? <==> Check(limits, userId, "chat_completion", CompletionLimit, now).result.Ok? && api.Ok?
    ensures r.result.Ok? ==> r.result.value == api.value
    ensures r.result.Err? ==> r.result.error.APIError? && r.result.error.source == "OpenAI"
  {
    var d := Check(limits, userId, "chat_completion", CompletionLimit, now);
    if d.result.Err? then CompletionStep(Err(Wrapped("Failed to create chat completion", d.result.error)), d.limits)
    else match api
      case Err(e) => CompletionStep(Err(Wrapped("Failed to create chat completion", e)), d.limits)
      case Ok(content) => CompletionStep(Ok(content), d.limits)
  }

  class OpenAIService {
    var activeThreads: map<string, ThreadData>

    constructor ()
      ensures activeThreads == map[]
    {
      activeThreads := map[];
    }

    method GenerateImage(prompt: string, userId: string, now: int, limiter: RateLimiter, cache: Cache<string>,
                         api: Result<seq<string>, Error>)
      returns (r: Result<string, Error>, requested: bool)
      modifies limiter, cache
      ensures ImageStep(r, limiter.limits, cache.entries, requested)
              == ImageOutcome(old(limiter.limits), old(cache.entries), prompt, userId, now, api)
    {
      requested := false;
      var checked := limiter.CheckLimit(userId, "image_generation", ImageLimit, now);
      if checked.Err? {
        r := Err(Wrapped("Failed to generate image", checked.error));
        return;
      }
      var cacheKey := ImageKey(prompt);
      var cachedUrl := cache.Get(cacheKey);
      if Truthy(cachedUrl) {
        r := Ok(cachedUrl.value);
        return;
      }
      requested := true;
      if api.Err? {
        r := Err(Wrapped("Failed to generate image", api.error));
        return;
      }
      var data := api.value;
      if |data| == 0 {
        r := Err(Wrapped("Failed to generate image", APIError("No image generated", 500, "OpenAI")));
        return;
      }
      var imageUrl := data[0];
      cache.Set(cacheKey, imageUrl, ImageCacheSeconds);
      r := Ok(imageUrl);
    }

    method GetOrCreateThread(userId: string, now: int, created: Result<string, Error>)
      returns (r: Result<ThreadData, Error>)
      modifies this
      ensures ThreadStep(r, activeThreads) == ThreadOutcome(old(activeThreads), userId, now, created)
    {
      var threadData: ThreadData;
      if userId !in activeThreads {
        if created.Err? {
          r := Err(Wrapped("Failed to manage conversation thread", created.error));
          return;
        }
        threadData := ThreadData(created.value, [], now);
      } else {
        threadData := activeThreads[userId];
      }
      threadData := threadData.(lastActivity := now);
      activeThreads := activeThreads[userId := threadData];
      r := Ok(threadData);
    }

    method ProcessMessage(userId: string, content: string, now: int, limiter: RateLimiter, calls: AssistantCalls)
      returns (r: Result<string, Error>)
      requires Paced(calls.polls)
      modifies this, limiter
      ensures ProcessStep(r, limiter.limits, activeThreads)
              == ProcessOutcome(old(limiter.limits), old(activeThreads), userId, now, calls)
    {
      var checked := limiter.CheckLimit(userId, "chat", ChatLimit, now);
      if checked.Err? {
        r := Err(Wrapped("Failed to process message", checked.error));
        return;
      }
      var thread := GetOrCreateThread(userId, now, calls.threadCreated);
      if thread.Err? {
        r := Err(Wrapped("Failed to process message", thread.error));
        return;
      }
      if calls.messageAdded.Err? {
        r := Err(Wrapped("Failed to process message", calls.messageAdded.error));
        return;
      }
      if calls.runCreated.Err? {
        r := Err(Wrapped("Failed to process message", calls.runCreated.error));
        return;
      }
      var response := WaitForCompletion(calls.polls, AssistantTimeoutMs, calls.listing);
      if response.Err? {
        r := Err(Wrapped("Failed to process message", response.error));
        return;
      }
      r := response;
    }

    /** The `while (true)` loop: retrieve, then answer, fail, or wait and retrieve again. */
    method WaitForCompletion(polls: nat -> Poll, timeout: int, listing: Result<seq<ThreadMessage>, Error>)
      returns (r: Result<string, Error>)
      requires Paced(polls)
      ensures r == Completion(polls, timeout, listing, 0)
    {
      var i: nat := 0;
      while true
        invariant Completion(polls, timeout, listing, i) == Completion(polls, timeout, listing, 0)
        decreases Budget(timeout, i)
      {
        var runStatus := polls(i);
        if runStatus.status.Err? {
          r := Err(runStatus.status.error);
          return;
        }
        var status := runStatus.status.value;
        if status == "completed" {
          r := Answer(listing);
          return;
        }
        if status == "failed" || runStatus.elapsedMs > timeout {
          r := Err(PlainError("Assistant run failed or timed out. Status: " + status));
          return;
        }
        i := i + 1;
      }
    }

    /** `cleanupOldThreads`: one pass over the table, deleting idle threads. */
    method CleanupOldThreads(now: int)
      modifies this
      ensures activeThreads == FreshThreads(old(activeThreads), now)
    {
      ghost var orig := activeThreads;
      var users := activeThreads.Keys;
      while users != {}
        invariant users <= orig.Keys
        invariant activeThreads.Keys <= orig.Keys
        invariant forall u :: u in activeThreads ==> activeThreads[u] == orig[u]
        invariant forall u :: u in users ==> u in activeThreads
        invariant forall u :: u in orig && u !in users ==>
                    (u in activeThreads <==> !(now - orig[u].lastActivity > ThreadMaxAgeMs))
        decreases users
      {
        var userId :| userId in users;
        if now - activeThreads[userId].lastActivity > ThreadMaxAgeMs {
          activeThreads := activeThreads - {userId};
        }
        users := users - {userId};
      }
    }

    method CreateChatCompletion(messages: seq<ChatMessage>, userId: string, now: int, limiter: RateLimiter,
                                api: Result<string, Error>)
      returns (r: Result<string, Error>)
      modifies limiter
      ensures CompletionStep(r, limiter.limits) == CompletionOutcome(old(limiter.limits), userId, now, api)
    {
      var checked := limiter.CheckLimit(userId, "chat_completion", CompletionLimit, now);
      if checked.Err? {
        r := Err(Wrapped("Failed to create chat completion", checked.error));
        return;
      }
      if api.Err? {
        r := Err(Wrapped("Failed to create chat completion", api.error));
        return;
      }
      r := Ok(api.value);
    }
  }

  // ---------------------------------------------------------------- properties

  /** A refused image request asks neither the cache nor the API, and reaches the caller as a 500. */
  lemma ImageRateLimitedFirst(limits: Limits, entries: map<string, Entry<string>>, prompt: string, userId: string,
                              now: int, api: Result<seq<string>, Error>)
    requires Check(limits, userId, "image_generation", ImageLimit, now).result.Err?
    ensures var s := ImageOutcome(limits, entries, prompt, userId, now, api);
            !s.requested && s.entries == entries && s.limits == limits &&
            s.result == Err(APIError("Failed to generate image", 500, "OpenAI"))
  {
  }

  /** An accepted request with a cached URL answers it without calling the API. */
  lemma ImageCacheHit(limits: Limits, entries: map<string, Entry<string>>, prompt: string, userId: string,
                      now: int, api: Result<seq<string>, Error>)
    requires Check(limits, userId, "image_generation", ImageLimit, now).result.Ok?
    requires ImageKey(prompt) in entries && entries[ImageKey(prompt)].value != ""
    ensures var s := ImageOutcome(limits, entries, prompt, userId, now, api);
            !s.requested && s.entries == entries && s.result == Ok(entries[ImageKey(prompt)].value)
  {
  }

  /** An accepted request for an uncached prompt returns the API's first URL and caches it for an hour. */
  lemma ImageFreshSuccess(limits: Limits, entries: map<string, Entry<string>>, prompt: string, userId: string,
                          now: int, urls: seq<string>)
    requires Check(limits, userId, "image_generation", ImageLimit, now).result.Ok?
    requires !(ImageKey(prompt) in entries && Truthy(Some(entries[ImageKey(prompt)].value)))
    requires |urls| > 0
    ensures ImageOutcome(limits, entries, prompt, userId, now, Ok(urls))
            == ImageStep(Ok(urls[0]), Check(limits, userId, "image_generation", ImageLimit, now).limits,
                         entries[ImageKey(prompt) := Entry(urls[0], 3600)], true)
  {
  }

  /**
   * A URL generated for an uncached prompt is cached for an hour, and the same prompt within that hour gets it
   * back without a request.
   */
  lemma ImageCacheRoundTrip(limits: Limits, entries: map<string, Entry<string>>, prompt: string, userId: string,
                            now: int, urls: seq<string>, later: int, api2: Result<seq<string>, Error>)
    requires Check(limits, userId, "image_generation", ImageLimit, now).result.Ok?
    requires !(ImageKey(prompt) in entries && Truthy(Some(entries[ImageKey(prompt)].value)))
    requires |urls| > 0 && urls[0] != ""
    requires now <= later < now + 1000 * ImageCacheSeconds
    requires Check(ImageOutcome(limits, entries, prompt, userId, now, Ok(urls)).limits,
                   userId, "image_generation", ImageLimit, later).result.Ok?
    ensures var s := ImageOutcome(limits, entries, prompt, userId, now, Ok(urls));
            s.result == Ok(urls[0]) && s.entries[ImageKey(prompt)] == Entry(urls[0], 3600) &&
            var s2 := ImageOutcome(s.limits, s.entries, prompt, userId, later, api2);
            !s2.requested && s2.result == Ok(urls[0])
  {
  }

  /** An SDK failure keeps its HTTP status; everything else reports 500. */
  lemma ImageErrorStatus(limits: Limits, entries: map<string, Entry<string>>, prompt: string, userId: string,
                         now: int, e: Error)
    requires ImageOutcome(limits, entries, prompt, userId, now, Err(e)).requested
    ensures ImageOutcome(limits, entries, prompt, userId, now, Err(e)).result
            == Err(APIError("Failed to generate image", StatusOr500(e), "OpenAI"))
  {
  }

  /** An existing thread keeps its id, whatever `threads.create` would have answered. */
  lemma ThreadReused(threads: map<string, ThreadData>, userId: string, now: int, c1: Result<string, Error>,
                     c2: Result<string, Error>)
    requires userId in threads
    ensures ThreadOutcome(threads, userId, now, c1) == ThreadOutcome(threads, userId, now, c2)
    ensures var s := ThreadOutcome(threads, userId, now, c1);
            s.result.Ok? && s.result.value.threadId == threads[userId].threadId
  {
  }

  /** Every successful lookup stamps the thread with `now`, and only the caller's entry changes. */
  lemma ThreadTouched(threads: map<string, ThreadData>, userId: string, now: int, created: Result<string, Error>)
    ensures var s := ThreadOutcome(threads, userId, now, created);
            (s.result.Ok? <==> userId in threads || created.Ok?) &&
            (s.result.Ok? ==> userId in s.threads && s.threads[userId] == s.result.value &&
                              s.result.value.lastActivity == now) &&
            (userId !in threads && created.Ok? ==> s.result.value == ThreadData(created.value, [], now)) &&
            (forall u :: u != userId ==>
                           ((u in s.threads <==> u in threads) && (u in threads ==> s.threads[u] == threads[u])))
  {
  }

  /** A thread used at `used` survives every cleanup up to an hour later, and is gone after. */
  lemma ThreadExpiry(threads: map<string, ThreadData>, userId: string, used: int, created: Result<string, Error>,
                     now: int)
    requires ThreadOutcome(threads, userId, used, created).result.Ok?
    ensures userId in FreshThreads(ThreadOutcome(threads, userId, used, created).threads, now)
            <==> now - used <= ThreadMaxAgeMs
  {
  }

  /** Cleanup removes exactly the idle threads and leaves the rest as they were. */
  lemma FreshThreadsExact(threads: map<string, ThreadData>, now: int)
    ensures forall u :: u in FreshThreads(threads, now) <==>
                        u in threads && now - threads[u].lastActivity <= ThreadMaxAgeMs
    ensures forall u :: u in FreshThreads(threads, now) ==> FreshThreads(threads, now)[u] == threads[u]
    ensures FreshThreads(FreshThreads(threads, now), now) == FreshThreads(threads, now)
  {
  }

  /** The answer is the text of the first assistant message in the listing. */
  lemma {:induction false} AnswerIsFirstAssistant(msgs: seq<ThreadMessage>, k: nat)
    requires k < |msgs| && msgs[k].role == "assistant"
    requires forall j :: 0 <= j < k ==> msgs[j].role != "assistant"
    ensures Answer(Ok(msgs)) == Ok(msgs[k].text)
  {
    if k > 0 {
      AnswerIsFirstAssistant(msgs[1..], k - 1);
    }
  }

  /** Polls that report neither completion nor failure within the time budget. */
  predicate Running(p: Poll, timeout: int)
  {
    p.status.Ok? && p.status.value != "completed" && p.status.value != "failed" && p.elapsedMs <= timeout
  }

  /** If the run completes at the `k`-th poll after `k` running ones, the loop returns the answer. */
  lemma {:induction false} CompletedAt(polls: nat -> Poll, timeout: int, listing: Result<seq<ThreadMessage>, Error>,
                                       i: nat, k: nat)
    requires Paced(polls)
    requires i <= k
    requires forall j: nat :: i <= j < k ==> Running(polls(j), timeout)
    requires polls(k).status == Ok("completed")
    ensures Completion(polls, timeout, listing, i) == Answer(listing)
    decreases k - i
  {
    if i < k {
      assert Running(polls(i), timeout);
      CompletedAt(polls, timeout, listing, i + 1, k);
    }
  }

  /** The loop succeeds only through a poll that reported 'completed'. */
  lemma {:induction false} SuccessNeedsCompleted(polls: nat -> Poll, timeout: int,
                                                 listing: Result<seq<ThreadMessage>, Error>, i: nat)
    requires Paced(polls)
    requires Completion(polls, timeout, listing, i).Ok?
    ensures listing.Ok? && exists k: nat :: k >= i && polls(k).status == Ok("completed")
    decreases Budget(timeout, i)
  {
    var st := polls(i).status;
    if st.Ok? && st.value != "completed" {
      SuccessNeedsCompleted(polls, timeout, listing, i + 1);
      var k: nat :| k >= i + 1 && polls(k).status == Ok("completed");
    }
  }

  /** The loop never looks past the poll at which the time budget runs out. */
  lemma {:induction false} PollsBounded(polls: nat -> Poll, other: nat -> Poll, timeout: int,
                                        listing: Result<seq<ThreadMessage>, Error>, i: nat)
    requires Paced(polls) && Paced(other)
    requires 1000 * i <= timeout + 1000
    requires forall j: nat :: 1000 * j <= timeout + 1000 ==> other(j) == polls(j)
    ensures Completion(polls, timeout, listing, i) == Completion(other, timeout, listing, i)
    decreases Budget(timeout, i)
  {
    assert other(i) == polls(i);
    var st := polls(i).status;
    if st.Ok? && st.value != "completed" && st.value != "failed" && polls(i).elapsedMs <= timeout {
      PollsBounded(polls, other, timeout, listing, i + 1);
    }
  }

  /** A refused assistant request does not touch the thread table and fails with status 500. */
  lemma ProcessRateLimitedFirst(limits: Limits, threads: map<string, ThreadData>, userId: string, now: int,
                                calls: AssistantCalls)
    requires Paced(calls.polls)
    requires Check(limits, userId, "chat", ChatLimit, now).result.Err?
    ensures ProcessOutcome(limits, threads, userId, now, calls)
            == ProcessStep(Err(APIError("Failed to process message", 500, "OpenAI")), limits, threads)
  {
  }

  /**
   * An accepted request whose thread, message, run and polling all succeed returns the first assistant message,
   * and leaves the caller's thread stamped with `now`.
   */
  lemma ProcessAnswered(limits: Limits, threads: map<string, ThreadData>, userId: string, now: int,
                        calls: AssistantCalls, k: nat)
    requires Paced(calls.polls)
    requires Check(limits, userId, "chat", ChatLimit, now).result.Ok?
    requires userId in threads || calls.threadCreated.Ok?
    requires calls.messageAdded.Ok? && calls.runCreated.Ok?
    requires forall j: nat :: j < k ==> Running(calls.polls(j), AssistantTimeoutMs)
    requires calls.polls(k).status == Ok("completed")
    requires Answer(calls.listing).Ok?
    ensures var s := ProcessOutcome(limits, threads, userId, now, calls);
            s.result == Answer(calls.listing) && userId in s.threads && s.threads[userId].lastActivity == now
  {
    CompletedAt(calls.polls, AssistantTimeoutMs, calls.listing, 0, k);
  }

  /** Every failure of `processMessage` is an APIError from OpenAI. */
  lemma ProcessErrorsAreAPIErrors(limits: Limits, threads: map<string, ThreadData>, userId: string, now: int,
                                  calls: AssistantCalls)
    requires Paced(calls.polls)
    requires ProcessOutcome(limits, threads, userId, now, calls).result.Err?
    ensures var e := ProcessOutcome(limits, threads, userId, now, calls).result.error;
            e.APIError? && e.message == "Failed to process message" && e.source == "OpenAI"
  {
  }

  /** A refused completion fails with status 500, never with the limiter's own 429. */
  lemma CompletionRateLimited(limits: Limits, userId: string, now: int, api: Result<string, Error>)
    requires Check(limits, userId, "chat_completion", CompletionLimit, now).result.Err?
    ensures CompletionOutcome(limits, userId, now, api)
            == CompletionStep(Err(APIError("Failed to create chat completion", 500, "OpenAI")), limits)
  {
  }

  /** An accepted completion returns the SDK's answer or its failure with the failure's status. */
  lemma CompletionAccepted(limits: Limits, userId: string, now: int, api: Result<string, Error>)
    requires Check(limits, userId, "chat_completion", CompletionLimit, now).result.Ok?
    ensures var s := CompletionOutcome(limits, userId, now, api);
            (api.Ok? ==> s.result == api) &&
            (api.Err? ==> s.result == Err(APIError("Failed to create chat completion", StatusOr500(api.error), "OpenAI")))
  {
  }
}
