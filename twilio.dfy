/**
 * src/services/twilio.js: the Twilio client created once when the module is
 * loaded, the E.164 format test, and the guard sequence of `sendTextMessage`
 * in front of the SDK call. The SDK itself is an outcome parameter: the
 * factory either constructs a client or throws, and `messages.create` either
 * resolves with a message or rejects with an error. Log lines are not modelled.
 */
module Twilio {
  import opened Wrappers
  import opened JsText
  import opened Errors

  /** `config.twilio` */
  datatype TwilioConfig = TwilioConfig(accountSid: Option<string>, authToken: Option<string>, phoneNumber: Option<string>)

  /** A client made by the SDK factory from the account SID and auth token. */
  datatype Client = Client(accountSid: string, authToken: string)

  /** The object passed to `client.messages.create` */
  datatype SmsRequest = SmsRequest(body: string, from: Option<string>, to: string)

  /** The message object the SDK resolves with. */
  datatype Message = Message(sid: string)

  predicate FullyConfigured(cfg: TwilioConfig)
  {
    Truthy(cfg.accountSid) && Truthy(cfg.authToken) && Truthy(cfg.phoneNumber)
  }

  /**
   * The module-level `client`, assigned once at load: null when a credential
   * is falsy or the factory throws (`construct` is the factory's outcome).
   */
  function InitClient(cfg: TwilioConfig, construct: Result<(), Error>): (client: Option<Client>)
    ensures client.Some? <==> FullyConfigured(cfg) && construct.Ok?
    ensures client.Some? ==> client.value.accountSid == cfg.accountSid.value && client.value.authToken == cfg.authToken.value
  {
    if !FullyConfigured(cfg) then None
    else if construct.Err? then None
    else Some(Client(cfg.accountSid.value, cfg.authToken.value))
  }

  /** `isConfigured: () => !!client` */
  predicate IsConfigured(client: Option<Client>)
  {
    client.Some?
  }

  /** The pattern `^\+[1-9]\d{1,14}$`: '+', a digit 1-9, then 1 to 14 digits. */
  predicate IsE164(s: string)
  {
    3 <= |s| <= 16 && s[0] == '+' && '1' <= s[1] <= '9' && AllDigits(s[2..])
  }

  /**
   * The strings the pattern accepts are exactly '+' followed by the decimal
   * rendering of a number of 2 to 15 digits, the length limit of an
   * international number in section 6 of ITU-T Recommendation E.164.
   */
  lemma {:induction false} E164IsNumberOfTwoToFifteenDigits(s: string)
    ensures IsE164(s) <==> exists n: nat :: Pow10(1) <= n < Pow10(15) && s == "+" + NatToString(n)
  {
    if IsE164(s) {
      E164HasNumber(s);
    }
    if exists n: nat :: Pow10(1) <= n < Pow10(15) && s == "+" + NatToString(n) {
      var n: nat :| Pow10(1) <= n < Pow10(15) && s == "+" + NatToString(n);
      NumberIsE164(n);
    }
  }

  lemma {:induction false} E164HasNumber(s: string)
    requires IsE164(s)
    ensures exists n: nat :: Pow10(1) <= n < Pow10(15) && s == "+" + NatToString(n)
  {
    var d := s[1..];
    assert AllDigits(d) by {
      forall i | 0 <= i < |d| ensures IsDigit(d[i]) {
        if i > 0 {
          assert d[i] == s[2..][i - 1];
        }
      }
    }
    DigitsRoundTrip(d);
    var n := DigitsValue(d);
    Pow10Monotone(1, |d| - 1);
    Pow10Monotone(|d|, 15);
    assert s == "+" + NatToString(n);
  }

  lemma {:induction false} NumberIsE164(n: nat)
    requires Pow10(1) <= n < Pow10(15)
    ensures IsE164("+" + NatToString(n))
  {
    var s := "+" + NatToString(n);
    var r := NatToString(n);
    NatToStringShape(n);
    if |r| > 15 {
      Pow10Monotone(15, |r| - 1);
    }
    assert s[2..] == r[1..];
  }

  /** The numbers the command and its tests use as valid and invalid. */
  lemma E164Examples()
    ensures IsE164("+12345678900") && IsE164("+19876543210")
    ensures !IsE164("12345") && !IsE164("+0123456789") && !IsE164("+1")
    ensures IsE164("+123456789012345") && !IsE164("+1234567890123456")
  {
    assert !IsE164("+1234567890123456") by {
      assert |"+1234567890123456"| == 17;
    }
  }

  const NotConfiguredText := "Twilio service is not configured. " + "Please check your environment variables."
  const RequiredText := "Recipient phone number (to) " + "and message body are required."
  const FailedPrefix := "Failed to send SMS via Twilio: "

  /**
   * One call of `sendTextMessage`: what it returns or throws, whether it
   * logged the format warning, and the request it gave the SDK, if any.
   */
  datatype SendStep = SendStep(result: Result<Message, Error>, warned: bool, request: Option<SmsRequest>)

  /**
   * `sendTextMessage(to, body)`: the client check comes first, then the
   * required-fields check; a badly formatted number is only warned about;
   * an SDK rejection is rethrown with the SDK's message appended.
   */
  function SendTextMessage(client: Option<Client>, cfg: TwilioConfig, to: Option<string>, body: Option<string>,
                           sdk: Result<Message, Error>): (s: SendStep)
    ensures s.request.Some? <==> IsConfigured(client) && Truthy(to) && Truthy(body)
    ensures s.request.Some? ==> s.request.value == SmsRequest(body.value, cfg.phoneNumber, to.value)
    ensures s.result.Ok? <==> s.request.Some? && sdk.Ok?
    ensures s.result.Ok? ==> s.result.value == sdk.value
    ensures s.warned ==> s.request.Some?
    ensures s.request.Some? ==> (s.warned <==> !IsE164(to.value))
    ensures s.result.Err? ==> s.result.error.PlainError?
  {
    if client.None? then
      SendStep(Err(PlainError(NotConfiguredText)), false, None)
    else if !Truthy(to) || !Truthy(body) then
      SendStep(Err(PlainError(RequiredText)), false, None)
    else
      var request := SmsRequest(body.value, cfg.phoneNumber, to.value);
      var warned := !IsE164(to.value);
      match sdk
      case Ok(message) => SendStep(Ok(message), warned, Some(request))
      case Err(e) => SendStep(Err(PlainError(FailedPrefix + e.message)), warned, Some(request))
  }

  /** With no client nothing else is checked: even a missing number gives the configuration error. */
  lemma ClientCheckedFirst(cfg: TwilioConfig, to: Option<string>, body: Option<string>, sdk: Result<Message, Error>)
    ensures SendTextMessage(None, cfg, to, body, sdk) == SendStep(Err(PlainError(NotConfiguredText)), false, None)
  {
  }

  /** With a client, a falsy number or body is refused before the SDK is involved, whatever it would do. */
  lemma RequiredFieldsChecked(client: Client, cfg: TwilioConfig, to: Option<string>, body: Option<string>, sdk: Result<Message, Error>)
    requires !Truthy(to) || !Truthy(body)
    ensures SendTextMessage(Some(client), cfg, to, body, sdk) == SendStep(Err(PlainError(RequiredText)), false, None)
  {
  }

  /** A number failing the format test is still sent: the outcome is the one a well-formed number gets. */
  lemma BadFormatStillSent(client: Client, cfg: TwilioConfig, to: string, body: string, sdk: Result<Message, Error>)
    requires to != "" && body != "" && !IsE164(to)
    ensures SendTextMessage(Some(client), cfg, Some(to), Some(body), sdk).warned
    ensures SendTextMessage(Some(client), cfg, Some(to), Some(body), sdk).request == Some(SmsRequest(body, cfg.phoneNumber, to))
    ensures SendTextMessage(Some(client), cfg, Some(to), Some(body), sdk).result.Ok? <==> sdk.Ok?
  {
  }

  /** An SDK failure keeps the SDK's message after the fixed prefix. */
  lemma FailureKeepsMessage(client: Client, cfg: TwilioConfig, to: string, body: string, e: Error)
    requires to != "" && body != ""
    ensures SendTextMessage(Some(client), cfg, Some(to), Some(body), Err(e)).result == Err(PlainError(FailedPrefix + e.message))
  {
  }

  /** A client made at load time sends from a configured, non-empty number. */
  lemma SendsFromConfiguredNumber(cfg: TwilioConfig, construct: Result<(), Error>, to: Option<string>, body: Option<string>, sdk: Result<Message, Error>)
    requires SendTextMessage(InitClient(cfg, construct), cfg, to, body, sdk).request.Some?
    ensures Truthy(SendTextMessage(InitClient(cfg, construct), cfg, to, body, sdk).request.value.from)
  {
  }
}
