/**
 * src/events/messageCreate.js: routing of an incoming message. Bot messages
 * are ignored; a user with an active chat session is handed to the chat
 * command; otherwise an activated message is answered by the OpenAI
 * assistant, falling back to Gemini, then to a fixed apology.
 *
 * The services' results are parameters (`assistant` is what
 * `openaiService.processMessage` gives, `gemini` what
 * `geminiService.processWithFallback` gives), and so is every
 * `message.reply`, which may throw.
 */
module MessageRouting {
  import opened Wrappers
  import opened JsText
  import opened Errors
  import opened Gemini

  const ApologyText := "I'm having trouble connecting to my resources right now. " + "Please try again later."

  /** Which `message.reply` calls throw: the assistant answer, the Gemini answer, the apology. */
  datatype ReplyFaults = ReplyFaults(answer: Option<Error>, fallbackAnswer: Option<Error>, apology: Option<Error>)

  datatype Routing =
    | Ignored
      /** passed to `chatCommand.handleMessage` */
    | ToChat
      /** handled here: the services asked and the replies attempted, in order */
    | Handled(askedOpenAI: bool, askedGemini: bool, replies: seq<string>)

  /**
   * The Gemini fallback: reply with a truthy answer; a failure there, or of
   * that reply, gives the apology; a failing apology reaches the outer catch.
   */
  function Fallback(gemini: Result<Option<string>, Error>, faults: ReplyFaults): (replies: seq<string>)
    ensures gemini.Err? ==> |replies| > 0 && replies[0] == ApologyText
    ensures gemini.Ok? ==> (replies != [] <==> Truthy(gemini.value)) && (replies != [] ==> replies[0] == gemini.value.value)
    ensures |replies| <= 3
  {
    var apology := [ApologyText] + (if faults.apology.Some? then [HandleMessageError(faults.apology.value)] else []);
    match gemini
    case Err(_) => apology
    case Ok(answer) =>
      if !Truthy(answer) then []
      else [answer.value] + (if faults.fallbackAnswer.Some? then apology else [])
  }

  /** `execute(message)` */
  function Execute(isBot: bool, hasSession: bool, content: string, cfg: GeminiConfig,
                 assistant: Result<string, Error>, gemini: Result<Option<string>, Error>, faults: ReplyFaults): (r: Routing)
    ensures r.Ignored? <==> isBot
    ensures r.ToChat? <==> !isBot && hasSession
    ensures r.Handled? ==> (r.askedOpenAI <==> IsActivated(content, cfg)) && (r.askedGemini ==> r.askedOpenAI)
    ensures r.Handled? && r.askedOpenAI ==> (r.askedGemini <==> assistant.Err? || faults.answer.Some?)
    ensures r.Handled? && r.askedOpenAI && assistant.Ok? ==> |r.replies| > 0 && r.replies[0] == assistant.value
  {
    if isBot then Ignored
    else if hasSession then ToChat
    else if !IsActivated(content, cfg) then Handled(false, false, [])
    else
      match assistant
      case Err(_) => Handled(true, true, Fallback(gemini, faults))
      case Ok(answer) =>
        if faults.answer.None? then Handled(true, false, [answer])
        else Handled(true, true, [answer] + Fallback(gemini, faults))
  }

  /** A bot's message is ignored whatever it says. */
  lemma BotsIgnored(hasSession: bool, content: string, cfg: GeminiConfig, assistant: Result<string, Error>,
                    gemini: Result<Option<string>, Error>, faults: ReplyFaults)
    ensures Execute(true, hasSession, content, cfg, assistant, gemini, faults) == Ignored
  {
  }

  /** An active session takes precedence: activation is not consulted. */
  lemma SessionFirst(content: string, cfg: GeminiConfig, assistant: Result<string, Error>,
                     gemini: Result<Option<string>, Error>, faults: ReplyFaults)
    ensures Execute(false, true, content, cfg, assistant, gemini, faults) == ToChat
  {
  }

  /** Without a session, a message that does not name the bot asks no service and gets no reply. */
  lemma NotActivatedIsSilent(content: string, cfg: GeminiConfig, assistant: Result<string, Error>,
                             gemini: Result<Option<string>, Error>, faults: ReplyFaults)
    requires !IsActivated(content, cfg)
    ensures Execute(false, false, content, cfg, assistant, gemini, faults) == Handled(false, false, [])
  {
  }

  /** The assistant is asked first for every activated message; when it answers and the reply goes out, Gemini is not asked. */
  lemma AssistantFirst(content: string, cfg: GeminiConfig, answer: string,
                       gemini: Result<Option<string>, Error>, faults: ReplyFaults)
    requires IsActivated(content, cfg) && faults.answer.None?
    ensures Execute(false, false, content, cfg, Ok(answer), gemini, faults) == Handled(true, false, [answer])
  {
  }

  /** After an assistant failure, Gemini's answer is sent exactly when it is truthy, and nothing else is sent first. */
  lemma {:induction false} FallbackReplyIffTruthy(content: string, cfg: GeminiConfig, e: Error, answer: Option<string>, faults: ReplyFaults)
    requires IsActivated(content, cfg)
    ensures Execute(false, false, content, cfg, Err(e), Ok(answer), faults).askedGemini
    ensures |Execute(false, false, content, cfg, Err(e), Ok(answer), faults).replies| > 0 <==> Truthy(answer)
    ensures Truthy(answer) ==> Execute(false, false, content, cfg, Err(e), Ok(answer), faults).replies[0] == answer.value
  {
  }

  /** Both services failing gives the apology as the first and (when it goes out) only reply. */
  lemma BothFailApologise(content: string, cfg: GeminiConfig, e1: Error, e2: Error, faults: ReplyFaults)
    requires IsActivated(content, cfg)
    ensures Execute(false, false, content, cfg, Err(e1), Err(e2), faults).replies[0] == ApologyText
    ensures faults.apology.None? ==> Execute(false, false, content, cfg, Err(e1), Err(e2), faults).replies == [ApologyText]
  {
  }

  /**
   * The assistant's reply sits inside the same try as the request, so a
   * reply that throws sends the message to Gemini as well.
   */
  lemma FailedReplyFallsBack(content: string, cfg: GeminiConfig, answer: string, e: Error, g: string, faults: ReplyFaults)
    requires IsActivated(content, cfg) && faults.answer == Some(e) && faults.fallbackAnswer.None? && g != ""
    ensures Execute(false, false, content, cfg, Ok(answer), Ok(Some(g)), faults) == Handled(true, true, [answer, g])
  {
  }
}
