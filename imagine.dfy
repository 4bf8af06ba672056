/**
 * src/commands/imagine.js: the `/imagine` command. It defers the reply, asks
 * OpenAI for an image, falls back to a Gemini description, and hands a double
 * failure to `handleInteractionError`.
 *
 * The services' results and the Discord calls' outcomes are parameters:
 * `image` is what `openaiService.generateImage` gives, `description` what
 * `geminiService.generateImageDescription` gives.
 */
module Imagine {
  import opened Wrappers
  import opened JsText
  import opened Errors

  /** The calls `execute` makes, in order. */
  datatype Call =
    | DeferCall
      /** `openaiService.generateImage(prompt, userId)` */
    | ImageCall(prompt: string)
      /** `geminiService.generateImageDescription(prompt, userId)` */
    | DescribeCall(prompt: string)
    | EditCall(content: string, files: seq<string>)
    | ErrorCall(reply: InteractionReply)

  /** Which Discord calls throw: `deferReply`, the image edit, the description edit. */
  datatype Faults = Faults(defer: Option<Error>, imageEdit: Option<Error>, descriptionEdit: Option<Error>)

  const WarningLine := "⚠️ I was unable to generate an image, " + "but here's a description of what it might look like:"
  const BothFailedText := "Failed to generate image or description"
  /** What reading `prompt.length` on a null prompt throws. */
  const NullPrompt := External("TypeError", "Cannot read properties of null (reading 'length')", None)

  function ImageText(url: string): string
  {
    "Here's your image:\n" + url
  }

  function DescriptionText(description: string): string
  {
    Join([WarningLine, "", description], "\n")
  }

  /**
   * From the Gemini fallback on: the description edit, and the thrown
   * 'Failed to generate image or description' when the description or its
   * edit fails. The reply was deferred by then.
   */
  function Fallback(prompt: string, description: Result<string, Error>, faults: Faults): (calls: seq<Call>)
    ensures 2 <= |calls| <= 3 && calls[0] == DescribeCall(prompt)
    ensures forall i :: 1 <= i < |calls| ==> !IsGeneration(calls[i])
    ensures calls[1].EditCall? <==> description.Ok?
    ensures description.Ok? ==> calls[1] == EditCall(DescriptionText(description.value), [])
  {
    var failed := [ErrorCall(HandleInteractionError(PlainError(BothFailedText), true, false))];
    [DescribeCall(prompt)] +
    match description
    case Err(_) => failed
    case Ok(d) => [EditCall(DescriptionText(d), [])] + (if faults.descriptionEdit.Some? then failed else [])
  }

  /** `execute(interaction)` */
  function Execute(prompt: Option<string>, image: Result<string, Error>, description: Result<string, Error>,
                   faults: Faults): (calls: seq<Call>)
    ensures |calls| >= 2 && calls[0] == DeferCall
    ensures faults.defer.Some? || prompt.None? ==> |calls| == 2 && calls[1].ErrorCall?
    ensures faults.defer.None? && prompt.Some? ==>
              |calls| >= 3 && calls[1] == ImageCall(prompt.value) &&
              (calls[2].EditCall? <==> image.Ok?) &&
              (image.Ok? ==> calls[2] == EditCall(ImageText(image.value), [image.value]))
  {
    if faults.defer.Some? then [DeferCall, ErrorCall(HandleInteractionError(faults.defer.value, false, false))]
    else if prompt.None? then [DeferCall, ErrorCall(HandleInteractionError(NullPrompt, true, false))]
    else
      var p := prompt.value;
      [DeferCall, ImageCall(p)] +
      match image
      case Err(_) => Fallback(p, description, faults)
      case Ok(url) =>
        [EditCall(ImageText(url), [url])] + (if faults.imageEdit.Some? then Fallback(p, description, faults) else [])
  }

  predicate IsGeneration(c: Call)
  {
    c.ImageCall? || c.DescribeCall?
  }

  /** The reply is deferred first, before any generation is attempted. */
  lemma DeferFirst(prompt: Option<string>, image: Result<string, Error>, description: Result<string, Error>, faults: Faults)
    ensures Execute(prompt, image, description, faults)[0] == DeferCall
    ensures forall i :: 0 <= i < |Execute(prompt, image, description, faults)| && IsGeneration(Execute(prompt, image, description, faults)[i]) ==> i >= 1
  {
  }

  /** An image from OpenAI is shown with its URL, attached as the one file, and Gemini is not asked. */
  lemma {:induction false} ImageShown(prompt: string, url: string, description: Result<string, Error>, faults: Faults)
    requires faults.defer.None? && faults.imageEdit.None?
    ensures Execute(Some(prompt), Ok(url), description, faults) == [DeferCall, ImageCall(prompt), EditCall("Here's your image:\n" + url, [url])]
    ensures forall i :: 0 <= i < |Execute(Some(prompt), Ok(url), description, faults)| ==> !Execute(Some(prompt), Ok(url), description, faults)[i].DescribeCall?
  {
  }

  /** When OpenAI fails, the description is asked for the same prompt and shown under the warning line. */
  lemma {:induction false} DescriptionShown(prompt: string, e: Error, d: string, faults: Faults)
    requires faults.defer.None? && faults.descriptionEdit.None?
    ensures Execute(Some(prompt), Err(e), Ok(d), faults)
         == [DeferCall, ImageCall(prompt), DescribeCall(prompt), EditCall(WarningLine + "\n\n" + d, [])]
  {
    var lines := [WarningLine, "", d];
    assert lines[1..] == ["", d] && lines[1..][1..] == [d];
    assert Join(lines[1..], "\n") == "" + "\n" + d;
    assert Join(lines, "\n") == WarningLine + "\n" + ("" + "\n" + d);
    assert WarningLine + "\n" + ("" + "\n" + d) == WarningLine + "\n\n" + d;
  }

  /** Both failing ends in one ephemeral edit of the deferred reply with the error handler's generic text. */
  lemma {:induction false} BothFailHandled(prompt: string, e1: Error, e2: Error, faults: Faults)
    requires faults.defer.None?
    ensures Execute(Some(prompt), Err(e1), Err(e2), faults)
         == [DeferCall, ImageCall(prompt), DescribeCall(prompt), ErrorCall(InteractionReply(EditReply, DefaultErrorText, true))]
  {
  }

  /** Each service is asked at most once, OpenAI always before Gemini. */
  lemma {:induction false} EachServiceOnce(prompt: Option<string>, image: Result<string, Error>, description: Result<string, Error>,
                                           faults: Faults, i: nat, j: nat)
    requires i < j < |Execute(prompt, image, description, faults)|
    requires IsGeneration(Execute(prompt, image, description, faults)[i]) && IsGeneration(Execute(prompt, image, description, faults)[j])
    ensures Execute(prompt, image, description, faults)[i].ImageCall? && Execute(prompt, image, description, faults)[j].DescribeCall?
  {
    if faults.defer.None? && prompt.Some? {
      var p := prompt.value;
      var fb := Fallback(p, description, faults);
      FallbackAsksOnce(p, description, faults);
      var calls := Execute(prompt, image, description, faults);
      if image.Err? {
        assert calls == [DeferCall, ImageCall(p)] + fb;
      } else {
        var shown := [DeferCall, ImageCall(p), EditCall(ImageText(image.value), [image.value])];
        if faults.imageEdit.Some? {
          assert calls == shown + fb;
        }
      }
    }
  }

  /** The fallback asks Gemini first and nothing else afterwards. */
  lemma FallbackAsksOnce(prompt: string, description: Result<string, Error>, faults: Faults)
    ensures |Fallback(prompt, description, faults)| >= 2
    ensures Fallback(prompt, description, faults)[0] == DescribeCall(prompt)
    ensures forall k :: 1 <= k < |Fallback(prompt, description, faults)| ==> !IsGeneration(Fallback(prompt, description, faults)[k])
  {
  }
}
