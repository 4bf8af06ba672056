/**
 * src/commands/send_text.js: the `/send_text` command. Its `execute` is a
 * guard chain (service configured, E.164 pattern), then a deferred reply,
 * the send, and an edited reply; an error escaping the body is answered
 * according to whether the interaction was already replied to or deferred.
 *
 * The result is the sequence of calls the command makes. Each Discord call
 * in the body may throw (a `Faults` parameter says which do); the calls made
 * from the final catch block are taken to succeed.
 */
module SendText {
  import opened Wrappers
  import opened JsText
  import opened Errors
  import opened Twilio

  /** The calls `execute` makes, in order: on the interaction, and to the SMS service. */
  datatype Call =
    | ReplyCall(content: string, ephemeral: bool)
    | DeferCall(ephemeral: bool)
    | EditCall(content: string)
      /** `twilioService.sendTextMessage(phoneNumber, messageContent)` */
    | SendCall(to: Option<string>, body: Option<string>)

  /** The two string options, as `interaction.options.getString` returns them. */
  datatype CommandOptions = CommandOptions(phoneNumber: Option<string>, message: Option<string>)

  /**
   * Which Discord calls of the body throw: the guard replies, `deferReply`,
   * the success `editReply`, and the failure `editReply` of the inner catch.
   */
  datatype Faults = Faults(guardReply: bool, defer: bool, successEdit: Option<Error>, failureEdit: bool)

  const NotConfiguredReply := "The SMS service is not configured. " + "Please contact the bot administrator."
  const InvalidFormatReply := "Invalid phone number format. " + "Please use E.164 format (e.g., +12345678900)."
  const UnexpectedReply := "An error occurred while " + "processing your request."
  const FailureFallback := "An unexpected error occurred."

  function SuccessText(phoneNumber: Option<string>): string
  {
    "Message sent successfully to " + Render(phoneNumber) + "!"
  }

  /** `Failed to send message: ${error.message || 'An unexpected error occurred.'}` */
  function FailureText(e: Error): string
  {
    "Failed to send message: " + Or(Some(e.message), FailureFallback)
  }

  /** `/^\+[1-9]\d{1,14}$/.test(phoneNumber)`: a null option is tested as the text "null", which fails. */
  predicate ValidFormat(phoneNumber: Option<string>)
  {
    phoneNumber.Some? && IsE164(phoneNumber.value)
  }

  /** The outer catch: reply if neither replied nor deferred, edit if deferred and not replied, else nothing. */
  function Recover(replied: bool, deferred: bool): (calls: seq<Call>)
    ensures !replied && !deferred ==> calls == [ReplyCall(UnexpectedReply, true)]
    ensures deferred && !replied ==> calls == [EditCall(UnexpectedReply)]
    ensures replied ==> calls == []
  {
    if !replied && !deferred then [ReplyCall(UnexpectedReply, true)]
    else if deferred && !replied then [EditCall(UnexpectedReply)]
    else []
  }

  /** A guard reply, followed by the recovery reply when it throws (nothing was replied or deferred). */
  function GuardReply(content: string, faults: Faults): (calls: seq<Call>)
    ensures calls == [ReplyCall(content, true)] || (faults.guardReply && calls == [ReplyCall(content, true), ReplyCall(UnexpectedReply, true)])
    ensures forall i :: 0 <= i < |calls| ==> calls[i].ReplyCall?
  {
    [ReplyCall(content, true)] + (if faults.guardReply then Recover(false, false) else [])
  }

  /**
   * The calls from `sendTextMessage` on: the success edit, or (when the send
   * or that edit throws) the failure edit, and recovery if that throws too.
   * The interaction is deferred and not replied to throughout.
   */
  function AfterDefer(send: SendStep, opts: CommandOptions, faults: Faults): (calls: seq<Call>)
    ensures |calls| >= 1
    ensures send.result.Ok? ==> calls[0] == EditCall(SuccessText(opts.phoneNumber))
    ensures send.result.Err? ==> calls[0] == EditCall(FailureText(send.result.error))
    ensures send.result.Ok? && faults.successEdit.None? ==> |calls| == 1
    ensures forall i :: 0 <= i < |calls| ==> calls[i].EditCall?
  {
    var failure :=
      if send.result.Err? then Some(send.result.error)
      else faults.successEdit;
    var successEdit := if send.result.Ok? then [EditCall(SuccessText(opts.phoneNumber))] else [];
    match failure
    case None => successEdit
    case Some(e) =>
      successEdit + [EditCall(FailureText(e))] + (if faults.failureEdit then Recover(false, true) else [])
  }

  /** The whole of `execute(interaction)`; `options` is Err when reading an option throws. */
  function Execute(client: Option<Client>, cfg: TwilioConfig, options: Result<CommandOptions, Error>,
                   sdk: Result<Message, Error>, faults: Faults): (calls: seq<Call>)
    ensures |calls| >= 1
    ensures !IsConfigured(client) ==> calls[0] == ReplyCall(NotConfiguredReply, true)
    ensures IsConfigured(client) && options.Ok? && !ValidFormat(options.value.phoneNumber) ==>
              calls[0] == ReplyCall(InvalidFormatReply, true)
    ensures (|calls| >= 2 && calls[1].SendCall?) <==>
              IsConfigured(client) && options.Ok? && ValidFormat(options.value.phoneNumber) && !faults.defer
    ensures |calls| >= 2 && calls[1].SendCall? ==>
              calls[0] == DeferCall(true) && calls[1] == SendCall(options.value.phoneNumber, options.value.message)
  {
    if !IsConfigured(client) then GuardReply(NotConfiguredReply, faults)
    else if options.Err? then Recover(false, false)
    else
      var opts := options.value;
      if !ValidFormat(opts.phoneNumber) then GuardReply(InvalidFormatReply, faults)
      else if faults.defer then [DeferCall(true)] + Recover(false, false)
      else
        var send := SendTextMessage(client, cfg, opts.phoneNumber, opts.message, sdk);
        [DeferCall(true), SendCall(opts.phoneNumber, opts.message)] + AfterDefer(send, opts, faults)
  }

  function SendCount(calls: seq<Call>): (n: nat)
    ensures n <= |calls|
  {
    if |calls| == 0 then 0 else (if calls[0].SendCall? then 1 else 0) + SendCount(calls[1..])
  }

  lemma {:induction false} SendCountAppend(a: seq<Call>, b: seq<Call>)
    ensures SendCount(a + b) == SendCount(a) + SendCount(b)
    decreases |a|
  {
    if |a| > 0 {
      assert (a + b)[0] == a[0];
      assert (a + b)[1..] == a[1..] + b;
      SendCountAppend(a[1..], b);
    } else {
      assert a + b == b;
    }
  }

  lemma {:induction false} NoSendIn(calls: seq<Call>)
    requires forall i :: 0 <= i < |calls| ==> !calls[i].SendCall?
    ensures SendCount(calls) == 0
    decreases |calls|
  {
    if |calls| > 0 {
      NoSendIn(calls[1..]);
    }
  }

  /** Unconfigured: the ephemeral 'not configured' reply comes first and nothing is sent. */
  lemma {:induction false} UnconfiguredSendsNothing(cfg: TwilioConfig, options: Result<CommandOptions, Error>,
                                                    sdk: Result<Message, Error>, faults: Faults)
    ensures Execute(None, cfg, options, sdk, faults)[0] == ReplyCall(NotConfiguredReply, true)
    ensures SendCount(Execute(None, cfg, options, sdk, faults)) == 0
  {
    NoSendIn(Execute(None, cfg, options, sdk, faults));
  }

  /** A number not matching the pattern gets the ephemeral format reply and nothing is sent. */
  lemma {:induction false} InvalidFormatSendsNothing(client: Client, cfg: TwilioConfig, opts: CommandOptions,
                                                     sdk: Result<Message, Error>, faults: Faults)
    requires !ValidFormat(opts.phoneNumber)
    ensures Execute(Some(client), cfg, Ok(opts), sdk, faults)[0] == ReplyCall(InvalidFormatReply, true)
    ensures SendCount(Execute(Some(client), cfg, Ok(opts), sdk, faults)) == 0
  {
    NoSendIn(Execute(Some(client), cfg, Ok(opts), sdk, faults));
  }

  /** At most one send per execution, and only after the ephemeral deferral as the first call. */
  lemma {:induction false} SendOnceAfterDefer(client: Option<Client>, cfg: TwilioConfig, options: Result<CommandOptions, Error>,
                                              sdk: Result<Message, Error>, faults: Faults)
    ensures SendCount(Execute(client, cfg, options, sdk, faults)) <= 1
    ensures SendCount(Execute(client, cfg, options, sdk, faults)) == 1 ==>
              Execute(client, cfg, options, sdk, faults)[0] == DeferCall(true) &&
              Execute(client, cfg, options, sdk, faults)[1].SendCall?
  {
    var calls := Execute(client, cfg, options, sdk, faults);
    if IsConfigured(client) && options.Ok? && ValidFormat(options.value.phoneNumber) && !faults.defer {
      var opts := options.value;
      var send := SendTextMessage(client, cfg, opts.phoneNumber, opts.message, sdk);
      var rest := AfterDefer(send, opts, faults);
      NoSendIn(rest);
      SendCountAppend([DeferCall(true), SendCall(opts.phoneNumber, opts.message)], rest);
      assert SendCount([DeferCall(true), SendCall(opts.phoneNumber, opts.message)]) == 1 by {
        assert [DeferCall(true), SendCall(opts.phoneNumber, opts.message)][1..] == [SendCall(opts.phoneNumber, opts.message)];
      }
    } else {
      NoSendIn(calls);
    }
  }

  /** With nothing failing, a valid request is deferred, sent, and answered with the success text naming the number. */
  lemma HappyPath(client: Client, cfg: TwilioConfig, to: string, body: string, m: Message)
    requires IsE164(to) && body != ""
    ensures Execute(Some(client), cfg, Ok(CommandOptions(Some(to), Some(body))), Ok(m), Faults(false, false, None, false))
         == [DeferCall(true), SendCall(Some(to), Some(body)), EditCall("Message sent successfully to " + to + "!")]
  {
  }

  /** A rejected SMS is reported in the edited reply with the service's own message. */
  lemma SendFailureReported(client: Client, cfg: TwilioConfig, to: string, body: string, e: Error)
    requires IsE164(to) && body != ""
    ensures Execute(Some(client), cfg, Ok(CommandOptions(Some(to), Some(body))), Err(e), Faults(false, false, None, false))
         == [DeferCall(true), SendCall(Some(to), Some(body)), EditCall("Failed to send message: " + FailedPrefix + e.message)]
  {
    var opts := CommandOptions(Some(to), Some(body));
    var send := SendTextMessage(Some(client), cfg, Some(to), Some(body), Err(e));
    assert send.result == Err(PlainError(FailedPrefix + e.message));
    assert FailureText(send.result.error) == "Failed to send message: " + FailedPrefix + e.message by {
      assert |FailedPrefix + e.message| > 0;
    }
    assert AfterDefer(send, opts, Faults(false, false, None, false)) == [EditCall("Failed to send message: " + FailedPrefix + e.message)];
  }

  /** An error reading the options (nothing replied or deferred yet) is answered with the ephemeral generic reply. */
  lemma OptionErrorAnswered(client: Client, cfg: TwilioConfig, e: Error, sdk: Result<Message, Error>, faults: Faults)
    ensures Execute(Some(client), cfg, Err(e), sdk, faults) == [ReplyCall(UnexpectedReply, true)]
  {
  }

  /** Every execution ends with a reply or an edited reply: the user always gets an answer. */
  lemma {:induction false} AlwaysAnswered(client: Option<Client>, cfg: TwilioConfig, options: Result<CommandOptions, Error>,
                                          sdk: Result<Message, Error>, faults: Faults)
    ensures |Execute(client, cfg, options, sdk, faults)| >= 1
    ensures Execute(client, cfg, options, sdk, faults)[|Execute(client, cfg, options, sdk, faults)| - 1].ReplyCall? ||
            Execute(client, cfg, options, sdk, faults)[|Execute(client, cfg, options, sdk, faults)| - 1].EditCall?
  {
  }

  /** The service never warns about the format when called from the command: the command checked it first. */
  lemma {:induction false} CommandNeverTriggersWarning(client: Client, cfg: TwilioConfig, opts: CommandOptions, sdk: Result<Message, Error>)
    requires ValidFormat(opts.phoneNumber)
    ensures !SendTextMessage(Some(client), cfg, opts.phoneNumber, opts.message, sdk).warned
  {
  }
}
