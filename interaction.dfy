/**
 * src/events/interactionCreate.js: dispatch of a Discord interaction to the
 * registered command. The command's own `execute` and the Discord reply are
 * outcome parameters; `deferred` and `replied` are the interaction's flags
 * as the catch block finds them after the command has run.
 */
module InteractionDispatch {
  import opened Wrappers
  import opened Errors
  import opened Commands

  const UnknownCommandText := "Sorry, I don't recognize that command."

  /** The commands executed, by name, and the replies sent, in order. */
  datatype Outcome = Outcome(runs: seq<string>, replies: seq<InteractionReply>)

  /**
   * `execute(interaction)`: `run` is the outcome of `command.execute`,
   * `unknownReply` the outcome of the 'unknown command' reply.
   */
  function Execute(isChatInput: bool, commandName: string, commands: Registry, run: Result<(), Error>,
                   unknownReply: Result<(), Error>, deferred: bool, replied: bool): (o: Outcome)
    ensures !isChatInput ==> o == Outcome([], [])
    ensures o.runs == (if isChatInput && commandName in commands then [commandName] else [])
    ensures isChatInput && commandName !in commands ==> |o.replies| > 0 && o.replies[0] == InteractionReply(Reply, UnknownCommandText, true)
    ensures isChatInput && commandName in commands ==> (o.replies != [] <==> run.Err?)
  {
    if !isChatInput then Outcome([], [])
    else if commandName !in commands then
      var unknown := InteractionReply(Reply, UnknownCommandText, true);
      match unknownReply
      case Ok(_) => Outcome([], [unknown])
      case Err(e) => Outcome([], [unknown, HandleInteractionError(e, false, false)])
    else
      match run
      case Ok(_) => Outcome([commandName], [])
      case Err(e) => Outcome([commandName], [HandleInteractionError(e, deferred, replied)])
  }

  /** Only chat-input commands are handled: anything else runs nothing and gets no reply. */
  lemma NonChatInputIgnored(commandName: string, commands: Registry, run: Result<(), Error>,
                            unknownReply: Result<(), Error>, deferred: bool, replied: bool)
    ensures Execute(false, commandName, commands, run, unknownReply, deferred, replied) == Outcome([], [])
  {
  }

  /** An unknown name is never executed, and its first reply is the ephemeral 'unknown command' text. */
  lemma UnknownCommandAnswered(commandName: string, commands: Registry, run: Result<(), Error>,
                               unknownReply: Result<(), Error>, deferred: bool, replied: bool)
    requires commandName !in commands
    ensures Execute(true, commandName, commands, run, unknownReply, deferred, replied).runs == []
    ensures Execute(true, commandName, commands, run, unknownReply, deferred, replied).replies[0]
         == InteractionReply(Reply, UnknownCommandText, true)
  {
  }

  /** A registered command runs exactly once; a throw is answered once by `handleInteractionError`, success adds nothing. */
  lemma KnownCommandRunsOnce(commandName: string, commands: Registry, run: Result<(), Error>,
                             unknownReply: Result<(), Error>, deferred: bool, replied: bool)
    requires commandName in commands
    ensures Execute(true, commandName, commands, run, unknownReply, deferred, replied).runs == [commandName]
    ensures run.Ok? ==> Execute(true, commandName, commands, run, unknownReply, deferred, replied).replies == []
    ensures run.Err? ==> (Execute(true, commandName, commands, run, unknownReply, deferred, replied).replies
                          == [HandleInteractionError(run.error, deferred, replied)])
  {
  }

  /** The event handler runs a command exactly when the command handler's own `handleInteraction` would. */
  lemma {:induction false} AgreesWithHandler(h: CommandHandler, isChatInput: bool, commandName: string, run: Result<(), Error>,
                                             unknownReply: Result<(), Error>, deferred: bool, replied: bool)
    ensures |Execute(isChatInput, commandName, h.commands, run, unknownReply, deferred, replied).runs| == 1
        <==> h.HandleInteraction(isChatInput, commandName, run).Ran?
  {
  }
}
