/**
 * src/utils/errors.js: the application's error classes, the two error
 * handlers that turn an error into a user-facing reply, and the environment
 * check. Errors thrown by libraries and SDKs are `External` values carrying
 * the class name they report and the HTTP status they attach, if any.
 */
module Errors {
  import opened Wrappers
  import opened JsText

  /** A `retryAfter` value: whole seconds, or NaN when computed from a missing timestamp. */
  datatype Seconds = Secs(n: int) | NaN

  datatype Error =
    | AppError(message: string, code: int)
    | APIError(message: string, code: int, source: string)
    | RateLimitError(message: string, retryAfter: Seconds)
    | ValidationError(message: string, fields: map<string, string>)
      /** `new Error(message)` */
    | PlainError(message: string)
      /** an error thrown by a library; `status` is the HTTP status it carries */
    | External(className: string, message: string, status: Option<int>)

  /** `error.name`: AppError and its subclasses set it to their class name. */
  function Name(e: Error): string
  {
    match e
    case AppError(_, _) => "AppError"
    case APIError(_, _, _) => "APIError"
    case RateLimitError(_, _) => "RateLimitError"
    case ValidationError(_, _) => "ValidationError"
    case PlainError(_) => "Error"
    case External(n, _, _) => n
  }

  /** `error.statusCode`, defined on AppError and its subclasses only. */
  function StatusCode(e: Error): Option<int>
  {
    match e
    case AppError(_, c) => Some(c)
    case APIError(_, c, _) => Some(c)
    case RateLimitError(_, _) => Some(429)
    case ValidationError(_, _) => Some(400)
    case _ => None
  }

  /**
   * `error.status || 500` (and `error.response?.status || 500`): the
   * application's own errors carry `statusCode`, not `status`, so they give 500.
   */
  function StatusOr500(e: Error): (s: int)
    ensures !e.External? ==> s == 500
    ensures e.External? && e.status.Some? && e.status.value != 0 ==> s == e.status.value
    ensures s == 500 || (e.External? && e.status == Some(s))
  {
    if e.External? && e.status.Some? && e.status.value != 0 then e.status.value else 500
  }

  // ---------------------------------------------------------------- constructors

  /** `new AppError(message, statusCode = 500)` */
  function NewAppError(message: string, statusCode: Option<int>): (e: Error)
    ensures Name(e) == "AppError" && e.message == message
    ensures StatusCode(e) == Some(if statusCode.Some? then statusCode.value else 500)
  {
    AppError(message, if statusCode.Some? then statusCode.value else 500)
  }

  /** `new APIError(message, statusCode = 500, source = 'Unknown')` */
  function NewAPIError(message: string, statusCode: Option<int>, source: Option<string>): (e: Error)
    ensures Name(e) == "APIError" && e.message == message
    ensures StatusCode(e) == Some(if statusCode.Some? then statusCode.value else 500)
    ensures e.source == if source.Some? then source.value else "Unknown"
  {
    APIError(message, if statusCode.Some? then statusCode.value else 500,
             if source.Some? then source.value else "Unknown")
  }

  /** `new RateLimitError(message, retryAfter = 60)`: always status 429. */
  function NewRateLimitError(message: string, retryAfter: Option<Seconds>): (e: Error)
    ensures Name(e) == "RateLimitError" && e.message == message
    ensures StatusCode(e) == Some(429)
    ensures e.retryAfter == if retryAfter.Some? then retryAfter.value else Secs(60)
  {
    RateLimitError(message, if retryAfter.Some? then retryAfter.value else Secs(60))
  }

  /** `new ValidationError(message, fields = {})`: always status 400. */
  function NewValidationError(message: string, fields: Option<map<string, string>>): (e: Error)
    ensures Name(e) == "ValidationError" && e.message == message
    ensures StatusCode(e) == Some(400)
    ensures e.fields == if fields.Some? then fields.value else map[]
  {
    ValidationError(message, if fields.Some? then fields.value else map[])
  }

  // ---------------------------------------------------------------- handlers

  const DefaultErrorText := "An unexpected error occurred. " + "Please try again later."

  /** `${error.retryAfter}`: undefined on every other kind of error. */
  function RetryAfterText(e: Error): string
  {
    if e.RateLimitError? then
      match e.retryAfter
      case Secs(n) => IntToString(n)
      case NaN => "NaN"
    else "undefined"
  }

  /** `${error.source}`: undefined on every kind of error but APIError. */
  function SourceText(e: Error): string
  {
    if e.APIError? then e.source else "undefined"
  }

  function RateLimitText(e: Error): (text: string)
    ensures text != DefaultErrorText
  {
    var text := "You're doing that too fast! Please wait " + RetryAfterText(e) + " seconds.";
    assert text[0] == 'Y' && DefaultErrorText[0] == 'A';
    text
  }

  function APIErrorText(e: Error): (text: string)
    ensures text != DefaultErrorText
  {
    var text := "Service " + SourceText(e) + " is temporarily unavailable. Please try again later.";
    assert text[0] == 'S' && DefaultErrorText[0] == 'A';
    text
  }

  /** The message table of `handleInteractionError`, looked up by `error.name`. */
  function InteractionErrorText(e: Error): (text: string)
    ensures Name(e) == "RateLimitError" ==> text == RateLimitText(e)
    ensures Name(e) == "ValidationError" ==>
              text == "Invalid input provided. Please check your command parameters."
    ensures Name(e) == "APIError" ==> text == APIErrorText(e)
    ensures text == DefaultErrorText <==>
              Name(e) !in {"RateLimitError", "ValidationError", "APIError"}
  {
    var n := Name(e);
    if n == "RateLimitError" then RateLimitText(e)
    else if n == "ValidationError" then "Invalid input provided. Please check your command parameters."
    else if n == "APIError" then APIErrorText(e)
    else DefaultErrorText
  }

  /** The message table of `handleMessageError`: it has no ValidationError entry. */
  function MessageErrorText(e: Error): (text: string)
    ensures Name(e) == "RateLimitError" ==> text == RateLimitText(e)
    ensures Name(e) == "APIError" ==> text == APIErrorText(e)
    ensures text == DefaultErrorText <==> Name(e) !in {"RateLimitError", "APIError"}
  {
    var n := Name(e);
    if n == "RateLimitError" then RateLimitText(e)
    else if n == "APIError" then APIErrorText(e)
    else DefaultErrorText
  }

  /** The two tables agree on every error except a ValidationError. */
  lemma TablesDiffer(e: Error)
    ensures MessageErrorText(e) == InteractionErrorText(e) <==> Name(e) != "ValidationError"
  {
  }

  /** The Discord call used to answer an interaction. */
  datatype ReplyRoute = EditReply | FollowUp | Reply

  /** editReply if deferred, else followUp if already replied, else reply. */
  function ErrorRoute(deferred: bool, replied: bool): (r: ReplyRoute)
    ensures r == EditReply <==> deferred
    ensures r == FollowUp <==> !deferred && replied
    ensures r == Reply <==> !deferred && !replied
  {
    if deferred then EditReply else if replied then FollowUp else Reply
  }

  datatype InteractionReply = InteractionReply(route: ReplyRoute, content: string, ephemeral: bool)

  /**
   * `handleInteractionError`: one ephemeral reply on the route the
   * interaction's state selects; a failing reply is caught, so it never throws.
   */
  function HandleInteractionError(e: Error, deferred: bool, replied: bool): (r: InteractionReply)
    ensures r.ephemeral
    ensures r.route == ErrorRoute(deferred, replied)
    ensures r.content == InteractionErrorText(e)
  {
    InteractionReply(ErrorRoute(deferred, replied), InteractionErrorText(e), true)
  }

  /** `handleMessageError`: the content of the one `message.reply` it makes. */
  function HandleMessageError(e: Error): (content: string)
    ensures content == MessageErrorText(e)
  {
    MessageErrorText(e)
  }

  // ---------------------------------------------------------------- validateEnv

  /** A variable counts as set when it is present and not empty. */
  predicate IsSet(env: map<string, string>, name: string)
  {
    name in env && env[name] != ""
  }

  /** `requiredVars.filter(v => !process.env[v])` */
  function MissingVars(required: seq<string>, env: map<string, string>): (missing: seq<string>)
    ensures forall v :: v in missing <==> v in required && !IsSet(env, v)
    ensures |missing| <= |required|
  {
    if |required| == 0 then []
    else (if IsSet(env, required[0]) then [] else [required[0]]) + MissingVars(required[1..], env)
  }

  /** The missing names keep their input order: the filter distributes over concatenation. */
  lemma {:induction false} MissingVarsAppend(a: seq<string>, b: seq<string>, env: map<string, string>)
    ensures MissingVars(a + b, env) == MissingVars(a, env) + MissingVars(b, env)
  {
    if |a| > 0 {
      assert (a + b)[1..] == a[1..] + b;
      MissingVarsAppend(a[1..], b, env);
    } else {
      assert a + b == b;
    }
  }

  /** `validateEnv`: throws exactly when some required variable is unset. */
  function ValidateEnv(required: seq<string>, env: map<string, string>): (r: Result<(), Error>)
    ensures r.Err? <==> exists v :: v in required && !IsSet(env, v)
    ensures r.Err? ==> r.error == PlainError("Missing required environment variables: "
                                             + Join(MissingVars(required, env), ", "))
  {
    var missing := MissingVars(required, env);
    if |missing| > 0 then
      assert missing[0] in missing;
      Err(PlainError("Missing required environment variables: " + Join(missing, ", ")))
    else Ok(())
  }
}
