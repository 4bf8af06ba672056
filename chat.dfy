/**
 * src/commands/chat.js: the table of active chat sessions, the `/chat
 * start` and `/chat end` subcommands, the handling of a message in a
 * session (OpenAI chat completion first; on its failure the session
 * switches to Gemini for good), and the hourly sweep of idle sessions.
 * The two services are represented by what they return for the call.
 */
module Chat {
  import opened Wrappers
  import opened JsText
  import opened Errors
  import opened OpenAI

  const SessionTimeoutMs := 3600000

  datatype Session = Session(messages: seq<ChatMessage>, lastActivity: int, useGemini: bool)

  const AlreadyActiveText := "You already have an active chat session. " + "Use `/chat end` to end it first."
  const StartedText := Join(["🤖 Chat session started! You can now talk to me directly.",
                             "Your messages will be processed until you use `/chat end`.",
                             "",
                             "**Note:** This session will automatically end after 1 hour of inactivity."], "\n")
  const EndedText := "👋 Chat session ended. Thanks for talking with me!"
  const NoSessionText := "You don't have an active chat session."
  const ApologyText := "Sorry, I encountered an error processing your message. " + "Please try again."

  // ---------------------------------------------------------------- execute

  datatype ExecuteStep = ExecuteStep(sessions: map<string, Session>, reply: Option<InteractionReply>)

  /** `execute` for one subcommand; any other name replies nothing. */
  function ExecuteOutcome(sessions: map<string, Session>, subcommand: string, userId: string, now: int): (r: ExecuteStep)
    ensures subcommand != "start" && subcommand != "end" ==> r == ExecuteStep(sessions, None)
    ensures subcommand == "start" ==> userId in r.sessions && r.reply.Some?
    ensures subcommand == "start" && userId in sessions ==> r.sessions == sessions
    ensures subcommand == "end" ==> r.sessions == sessions - {userId} && r.reply.Some? && r.reply.value.ephemeral
    ensures forall u :: u != userId ==> (u in r.sessions <==> u in sessions) && (u in sessions ==> r.sessions[u] == sessions[u])
  {
    if subcommand == "start" then
      if userId in sessions then ExecuteStep(sessions, Some(InteractionReply(Reply, AlreadyActiveText, true)))
      else ExecuteStep(sessions[userId := Session([], now, false)], Some(InteractionReply(Reply, StartedText, false)))
    else if subcommand == "end" then
      if userId in sessions then ExecuteStep(sessions - {userId}, Some(InteractionReply(Reply, EndedText, true)))
      else ExecuteStep(sessions, Some(InteractionReply(Reply, NoSessionText, true)))
    else ExecuteStep(sessions, None)
  }

  // ---------------------------------------------------------------- handleMessage

  /**
   * One message in a session: the session afterwards, the history passed to
   * `createChatCompletion` (if it was called), whether Gemini was asked, and
   * the reply sent.
   */
  datatype MessageStep = MessageStep(session: Session, completionRequest: Option<seq<ChatMessage>>,
                                     askedGemini: bool, reply: string)

  function GeminiReply(gemini: Result<string, Error>): string
  {
    if gemini.Ok? then gemini.value else ApologyText
  }

  function MessageOutcome(s: Session, content: string, now: int, completion: Result<string, Error>,
                          gemini: Result<string, Error>): (r: MessageStep)
    ensures r.session.lastActivity == now
    ensures r.askedGemini <==> s.useGemini || completion.Err?
    ensures r.session.useGemini <==> s.useGemini || completion.Err?
    ensures r.askedGemini ==> r.reply == GeminiReply(gemini)
    ensures !r.askedGemini ==> r.reply == completion.value
    ensures s.useGemini ==> r.session == s.(lastActivity := now) && r.completionRequest.None?
    ensures !s.useGemini ==> r.completionRequest == Some(s.messages + [ChatMessage("user", content)])
  {
    var touched := s.(lastActivity := now);
    if !touched.useGemini then
      var history := touched.messages + [ChatMessage("user", content)];
      match completion
      case Ok(answer) =>
        MessageStep(touched.(messages := history + [ChatMessage("assistant", answer)]), Some(history), false, answer)
      case Err(_) =>
        MessageStep(touched.(useGemini := true, messages := []), Some(history), true, GeminiReply(gemini))
    else
      MessageStep(touched, None, true, GeminiReply(gemini))
  }

  /** The sessions the hourly sweep keeps. */
  function Swept(sessions: map<string, Session>, now: int): (r: map<string, Session>)
    ensures forall u :: u in r <==> u in sessions && now - sessions[u].lastActivity <= SessionTimeoutMs
    ensures forall u :: u in r ==> r[u] == sessions[u]
  {
    map u | u in sessions && !(now - sessions[u].lastActivity > SessionTimeoutMs) :: sessions[u]
  }

  class ChatSessions {
    var activeSessions: map<string, Session>

    constructor ()
      ensures activeSessions == map[]
    {
      activeSessions := map[];
    }

    method Execute(subcommand: string, userId: string, now: int) returns (reply: Option<InteractionReply>)
      modifies this
      ensures ExecuteStep(activeSessions, reply) == ExecuteOutcome(old(activeSessions), subcommand, userId, now)
    {
      reply := None;
      if subcommand == "start" {
        if userId in activeSessions {
          reply := Some(InteractionReply(Reply, AlreadyActiveText, true));
          return;
        }
        activeSessions := activeSessions[userId := Session([], now, false)];
        reply := Some(InteractionReply(Reply, StartedText, false));
      } else if subcommand == "end" {
        if userId in activeSessions {
          activeSessions := activeSessions - {userId};
          reply := Some(InteractionReply(Reply, EndedText, true));
        } else {
          reply := Some(InteractionReply(Reply, NoSessionText, true));
        }
      }
    }

    /** `handleMessage`: nothing at all happens for an author without a session. */
    method HandleMessage(userId: string, content: string, now: int, completion: Result<string, Error>,
                         gemini: Result<string, Error>)
      returns (reply: Option<string>, completionRequest: Option<seq<ChatMessage>>, askedGemini: bool)
      modifies this
      ensures userId !in old(activeSessions) ==>
                activeSessions == old(activeSessions) && reply == None && completionRequest == None && !askedGemini
      ensures userId in old(activeSessions) ==>
                var step := MessageOutcome(old(activeSessions)[userId], content, now, completion, gemini);
                activeSessions == old(activeSessions)[userId := step.session] &&
                reply == Some(step.reply) && completionRequest == step.completionRequest &&
                askedGemini == step.askedGemini
    {
      reply, completionRequest, askedGemini := None, None, false;
      if userId !in activeSessions {
        return;
      }
      var session := activeSessions[userId];
      session := session.(lastActivity := now);
      if !session.useGemini {
        session := session.(messages := session.messages + [ChatMessage("user", content)]);
        completionRequest := Some(session.messages);
        if completion.Ok? {
          session := session.(messages := session.messages + [ChatMessage("assistant", completion.value)]);
          reply := Some(completion.value);
        } else {
          session := session.(useGemini := true, messages := []);
          askedGemini := true;
          reply := Some(GeminiReply(gemini));
        }
      } else {
        askedGemini := true;
        reply := Some(GeminiReply(gemini));
      }
      activeSessions := activeSessions[userId := session];
    }

    /** The body of the hourly `setInterval`. */
    method Sweep(now: int)
      modifies this
      ensures activeSessions == Swept(old(activeSessions), now)
    {
      ghost var orig := activeSessions;
      var users := activeSessions.Keys;
      while users != {}
        invariant users <= orig.Keys
        invariant activeSessions.Keys <= orig.Keys
        invariant forall u :: u in activeSessions ==> activeSessions[u] == orig[u]
        invariant forall u :: u in users ==> u in activeSessions
        invariant forall u :: u in orig && u !in users ==>
                    (u in activeSessions <==> !(now - orig[u].lastActivity > SessionTimeoutMs))
        decreases users
      {
        var userId :| userId in users;
        if now - activeSessions[userId].lastActivity > SessionTimeoutMs {
          activeSessions := activeSessions - {userId};
        }
        users := users - {userId};
      }
    }

    function HasActiveSession(userId: string): (b: bool)
      reads this
      ensures b <==> userId in activeSessions
    {
      userId in activeSessions
    }

    function GetActiveSessionsCount(): (n: nat)
      reads this
      ensures n == |activeSessions|
    {
      |activeSessions|
    }
  }

  // ---------------------------------------------------------------- properties

  /** A history alternates user and assistant entries, a user entry first. */
  predicate Alternating(messages: seq<ChatMessage>)
  {
    |messages| % 2 == 0 &&
    forall i :: 0 <= i < |messages| ==> messages[i].role == (if i % 2 == 0 then "user" else "assistant")
  }

  /** A session as the file's code leaves it: an alternating history, and none once on Gemini. */
  predicate WellFormed(s: Session)
  {
    Alternating(s.messages) && (s.useGemini ==> s.messages == [])
  }

  predicate AllWellFormed(sessions: map<string, Session>)
  {
    forall u :: u in sessions ==> WellFormed(sessions[u])
  }

  /** On OpenAI success the user message, then the answer, are appended, and Gemini is not asked. */
  lemma CompletionAppendsInOrder(s: Session, content: string, now: int, answer: string, gemini: Result<string, Error>)
    requires !s.useGemini
    ensures var step := MessageOutcome(s, content, now, Ok(answer), gemini);
            step.session.messages == s.messages + [ChatMessage("user", content), ChatMessage("assistant", answer)] &&
            step.completionRequest == Some(s.messages + [ChatMessage("user", content)]) &&
            !step.askedGemini && step.reply == answer && !step.session.useGemini &&
            step.session.lastActivity == now
  {
  }

  /** On OpenAI failure the session switches to Gemini with an empty history. */
  lemma FailureSwitchesToGemini(s: Session, content: string, now: int, e: Error, gemini: Result<string, Error>)
    requires !s.useGemini
    ensures var step := MessageOutcome(s, content, now, Err(e), gemini);
            step.session == Session([], now, true) && step.askedGemini &&
            step.reply == (if gemini.Ok? then gemini.value else ApologyText)
  {
  }

  /** A session on Gemini stays there, keeps its history, and never calls OpenAI. */
  lemma GeminiIsFinal(s: Session, content: string, now: int, completion: Result<string, Error>,
                      gemini: Result<string, Error>)
    requires s.useGemini
    ensures var step := MessageOutcome(s, content, now, completion, gemini);
            step.session.useGemini && step.session.messages == s.messages &&
            step.completionRequest == None && step.askedGemini
  {
  }

  /** One message in a conversation: its content, time and the two services' answers. */
  datatype Turn = Turn(content: string, now: int, completion: Result<string, Error>, gemini: Result<string, Error>)

  function Conversation(s: Session, turns: seq<Turn>): Session
    decreases |turns|
  {
    if |turns| == 0 then s
    else
      var t := turns[0];
      Conversation(MessageOutcome(s, t.content, t.now, t.completion, t.gemini).session, turns[1..])
  }

  /** However many messages follow, a session that switched to Gemini never switches back. */
  lemma {:induction false} SwitchIsPermanent(s: Session, turns: seq<Turn>)
    requires s.useGemini
    ensures Conversation(s, turns).useGemini
    decreases |turns|
  {
    if |turns| > 0 {
      var t := turns[0];
      GeminiIsFinal(s, t.content, t.now, t.completion, t.gemini);
      SwitchIsPermanent(MessageOutcome(s, t.content, t.now, t.completion, t.gemini).session, turns[1..]);
    }
  }

  /** Handling a message keeps a session well formed. */
  lemma MessageKeepsWellFormed(s: Session, content: string, now: int, completion: Result<string, Error>,
                               gemini: Result<string, Error>)
    requires WellFormed(s)
    ensures WellFormed(MessageOutcome(s, content, now, completion, gemini).session)
  {
    if !s.useGemini && completion.Ok? {
      var m := s.messages + [ChatMessage("user", content), ChatMessage("assistant", completion.value)];
      assert |m| == |s.messages| + 2;
      forall i | 0 <= i < |m| ensures m[i].role == (if i % 2 == 0 then "user" else "assistant") {
        if i >= |s.messages| {
          assert i == |s.messages| || i == |s.messages| + 1;
        }
      }
      assert MessageOutcome(s, content, now, completion, gemini).session.messages
             == s.messages + [ChatMessage("user", content)] + [ChatMessage("assistant", completion.value)];
      assert s.messages + [ChatMessage("user", content)] + [ChatMessage("assistant", completion.value)] == m;
    }
  }

  /** Every subcommand keeps every session well formed. */
  lemma ExecuteKeepsWellFormed(sessions: map<string, Session>, subcommand: string, userId: string, now: int)
    requires AllWellFormed(sessions)
    ensures AllWellFormed(ExecuteOutcome(sessions, subcommand, userId, now).sessions)
  {
  }

  lemma SweepKeepsWellFormed(sessions: map<string, Session>, now: int)
    requires AllWellFormed(sessions)
    ensures AllWellFormed(Swept(sessions, now))
  {
  }

  /** 'start' with a session refuses and changes nothing; otherwise it opens a fresh OpenAI session. */
  lemma StartRules(sessions: map<string, Session>, userId: string, now: int)
    ensures var step := ExecuteOutcome(sessions, "start", userId, now);
            (userId in sessions ==> step.sessions == sessions && step.reply == Some(InteractionReply(Reply, AlreadyActiveText, true))) &&
            (userId !in sessions ==> step.sessions == sessions[userId := Session([], now, false)] &&
                                     step.reply.Some? && !step.reply.value.ephemeral)
  {
  }

  /** 'end' removes the caller's session; a second 'end' changes nothing more. */
  lemma EndIdempotent(sessions: map<string, Session>, userId: string, now: int, later: int)
    ensures var once := ExecuteOutcome(sessions, "end", userId, now).sessions;
            once == sessions - {userId} &&
            ExecuteOutcome(once, "end", userId, later).sessions == once &&
            ExecuteOutcome(once, "end", userId, later).reply == Some(InteractionReply(Reply, NoSessionText, true))
  {
  }

  /** The sweep removes exactly the sessions idle for more than an hour; a second sweep removes nothing. */
  lemma SweptExact(sessions: map<string, Session>, now: int)
    ensures forall u :: u in Swept(sessions, now) <==>
                        u in sessions && now - sessions[u].lastActivity <= SessionTimeoutMs
    ensures forall u :: u in Swept(sessions, now) ==> Swept(sessions, now)[u] == sessions[u]
    ensures Swept(Swept(sessions, now), now) == Swept(sessions, now)
  {
  }

  /** A message stamps its session, so an active conversation outlives the sweep for an hour. */
  lemma MessageKeepsSessionAlive(s: Session, content: string, now: int, completion: Result<string, Error>,
                                 gemini: Result<string, Error>, sessions: map<string, Session>, userId: string,
                                 sweepAt: int)
    requires now <= sweepAt <= now + SessionTimeoutMs
    ensures userId in Swept(sessions[userId := MessageOutcome(s, content, now, completion, gemini).session], sweepAt)
  {
  }
}
