/** The response a handler builds, and the builder that accumulates it. */
module Responses {
  import opened Failures
  import opened Prompts

  /** An argument of str.format: a prompt value, or an address field that may be None. */
  datatype FormatArg = PromptArg(value: PromptValue) | FieldArg(field: Option<string>)

  /** Output speech: plain text, or a template filled by str.format (kept uninterpreted). */
  datatype Speech = Plain(text: string) | Filled(template: string, args: seq<FormatArg>)

  datatype Card = AskForPermissionsConsent(permissions: seq<string>)

  datatype Response = Response(
    speech: Option<Speech>,
    reprompt: Option<string>,
    card: Option<Card>,
    shouldEndSession: Option<bool>)

  const EmptyResponse := Response(None, None, None, None)

  /** The permission scope the skill asks the user to grant. */
  const Permissions: seq<string> := ["read::alexa:device:all:address"]

  /** How a handler ended, and what the shared builder holds afterwards. */
  datatype Step = Step(response: Response, outcome: Outcome)

  /** The response builder shared by a handler and the exception handler: each setter
      overwrites its one field, and `Built()` is the response read at the end. */
  class ResponseBuilder {
    var speech: Option<Speech>
    var reprompt: Option<string>
    var card: Option<Card>
    var shouldEndSession: Option<bool>

    constructor ()
      ensures Built() == EmptyResponse
    {
      speech, reprompt, card, shouldEndSession := None, None, None, None;
    }

    function Built(): Response
      reads this
    {
      Response(speech, reprompt, card, shouldEndSession)
    }

    method Speak(s: Speech)
      modifies this
      ensures Built() == old(Built()).(speech := Some(s))
    {
      speech := Some(s);
    }

    method Ask(text: string)
      modifies this
      ensures Built() == old(Built()).(reprompt := Some(text))
    {
      reprompt := Some(text);
    }

    method SetCard(c: Card)
      modifies this
      ensures Built() == old(Built()).(card := Some(c))
    {
      card := Some(c);
    }

    method SetShouldEndSession(b: bool)
      modifies this
      ensures Built() == old(Built()).(shouldEndSession := Some(b))
    {
      shouldEndSession := Some(b);
    }
  }

  /** Speaking twice keeps only the second speech: the builder is last-write-wins. */
  method SpeakTwice(builder: ResponseBuilder, first: Speech, second: Speech)
    modifies builder
    ensures builder.Built() == old(builder.Built()).(speech := Some(second))
  {
    builder.Speak(first);
    builder.Speak(second);
  }
}
