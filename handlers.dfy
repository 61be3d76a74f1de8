/** The six request handlers and the catch-all exception handler. Each `...Step` function says
    how a handler leaves the shared builder and how it ends; each `Handle...` method is the
    handler's own code over a `HandlerInput`, proved to behave as its step function says. */
module Handlers {
  import opened Failures
  import opened Prompts
  import opened Responses
  import opened Routing
  import opened Input

  /** A full address as the device address service returns it; every field may be None. */
  datatype Address = Address(
    addressLine1: Option<string>,
    stateOrRegion: Option<string>,
    postalCode: Option<string>)

  /** What `get_full_address` does: return an address or None, raise a ServiceException
      with a status code, or fail in any other way. */
  datatype Lookup = Found(address: Option<Address>) | ServiceFailure(statusCode: int) | ClientFailure

  /** The draws of a handler's random.choice calls: for the speech and for the reprompt. */
  datatype Picks = Picks(speech: nat, reprompt: nat)

  /** The non-403 failure branch as the source writes it, and as it is evidently meant. */
  datatype Revision = AsWritten | Intended

  /** `request_attributes["_"]`. */
  function PromptsOf(attrs: Attributes): (r: Result<PromptTable>)
    ensures r.Ok? <==> PromptsKey in attrs
    ensures r.Ok? ==> r.value == attrs[PromptsKey]
    ensures r.Err? ==> r.error == KeyError(PromptsKey)
  {
    if PromptsKey in attrs then Ok(attrs[PromptsKey]) else Err(KeyError(PromptsKey))
  }

  /** The address branch's no-address test: None, or neither line 1 nor region present. */
  predicate NoAddress(addr: Option<Address>)
    ensures addr.Some? && addr.value.addressLine1.Some? ==> !NoAddress(addr)
    ensures addr.Some? && addr.value.stateOrRegion.Some? ==> !NoAddress(addr)
    ensures addr.None? ==> NoAddress(addr)
  {
    addr.None? || (addr.value.addressLine1.None? && addr.value.stateOrRegion.None?)
  }

  function AddressArgs(a: Address): seq<FormatArg> {
    [FieldArg(a.addressLine1), FieldArg(a.stateOrRegion), FieldArg(a.postalCode)]
  }

  // ---- step functions ----

  /** All three prompts are looked up before the builder is touched, so a failure leaves it as it was. */
  function LaunchRequestStep(attrs: Attributes, picks: Picks, before: Response): (s: Step)
    ensures s.outcome.Raised? ==> s.response == before
    ensures s.outcome.Raised? ==> s.outcome.failure.KeyError? || s.outcome.failure == IndexError
    ensures s.outcome == Returned ==> s.response.speech.Some? && s.response.reprompt.Some?
  {
    var prompts := PromptsOf(attrs);
    if prompts.Err? then Step(before, Raised(prompts.error)) else
    var skillName := Get(prompts.value, "SKILL_NAME");
    if skillName.Err? then Step(before, Raised(skillName.error)) else
    var welcome := Pick(prompts.value, "WELCOME", picks.speech);
    if welcome.Err? then Step(before, Raised(welcome.error)) else
    var reprompt := Pick(prompts.value, "WELCOME_REPROMPT", picks.reprompt);
    if reprompt.Err? then Step(before, Raised(reprompt.error)) else
    Step(before.(speech := Some(Filled(welcome.value, [PromptArg(skillName.value)])),
                 reprompt := Some(reprompt.value)), Returned)
  }

  /** Speak `prompts[key]` as it stands. */
  function SpeakText(prompts: PromptTable, key: string, before: Response): Step {
    var t := Text(prompts, key);
    if t.Err? then Step(before, Raised(t.error)) else Step(before.(speech := Some(Plain(t.value))), Returned)
  }

  /** The address intent never ends the session; it leaves a partial response behind only on the
      NameError of the as-written non-403 branch, which has already spoken. */
  function DeviceLocationIntentStep(attrs: Attributes, lookup: Lookup, rev: Revision, before: Response): (s: Step)
    ensures s.response.shouldEndSession == before.shouldEndSession
    ensures s.outcome.Raised? && s.outcome.failure != NameError("LOCATION_FAILURE") ==> s.response == before
    ensures s.outcome == Raised(NameError("LOCATION_FAILURE")) <==>
      PromptsKey in attrs && lookup.ServiceFailure? && lookup.statusCode != 403 && rev == AsWritten &&
      Text(attrs[PromptsKey], "LOCATION_FAILURE").Ok?
    ensures s.response.reprompt != before.reprompt ==> rev.Intended? && lookup.ServiceFailure?
  {
    var prompts := PromptsOf(attrs);
    if prompts.Err? then Step(before, Raised(prompts.error)) else
    match lookup
    case ClientFailure => Step(before, Raised(ClientError))
    case Found(addr) =>
      if NoAddress(addr) then SpeakText(prompts.value, "NO_ADDRESS", before)
      else
        var t := Text(prompts.value, "ADDRESS_AVAILABLE");
        if t.Err? then Step(before, Raised(t.error))
        else Step(before.(speech := Some(Filled(t.value, AddressArgs(addr.value)))), Returned)
    case ServiceFailure(status) =>
      var t := Text(prompts.value, if status == 403 then "NOTIFY_MISSING_PERMISSIONS" else "LOCATION_FAILURE");
      if t.Err? then Step(before, Raised(t.error))
      else
        var spoken := before.(speech := Some(Plain(t.value)));
        if status == 403 then Step(spoken.(card := Some(AskForPermissionsConsent(Permissions))), Returned)
        else if rev == AsWritten then Step(spoken, Raised(NameError("LOCATION_FAILURE")))
        else Step(spoken.(reprompt := Some(t.value)), Returned)
  }

  function CancelOrStopIntentStep(attrs: Attributes, picks: Picks, before: Response): (s: Step)
    ensures s.outcome.Raised? ==> s.response == before
    ensures s.response.reprompt == before.reprompt && s.response.card == before.card
  {
    var prompts := PromptsOf(attrs);
    if prompts.Err? then Step(before, Raised(prompts.error)) else
    var s := Pick(prompts.value, "CANCEL_STOP_RESPONSE", picks.speech);
    if s.Err? then Step(before, Raised(s.error))
    else Step(before.(speech := Some(Plain(s.value)), shouldEndSession := Some(true)), Returned)
  }

  /** Help and Fallback: speech and reprompt each drawn from its own list. */
  function SpeakAndAskStep(attrs: Attributes, speechKey: string, repromptKey: string, picks: Picks, before: Response): (s: Step)
    ensures s.outcome.Raised? ==> s.response == before
    ensures s.response.card == before.card && s.response.shouldEndSession == before.shouldEndSession
  {
    var prompts := PromptsOf(attrs);
    if prompts.Err? then Step(before, Raised(prompts.error)) else
    var s := Pick(prompts.value, speechKey, picks.speech);
    if s.Err? then Step(before, Raised(s.error)) else
    var r := Pick(prompts.value, repromptKey, picks.reprompt);
    if r.Err? then Step(before, Raised(r.error))
    else Step(before.(speech := Some(Plain(s.value)), reprompt := Some(r.value)), Returned)
  }

  function HelpIntentStep(attrs: Attributes, picks: Picks, before: Response): (s: Step)
    ensures s.outcome == Returned <==>
      PromptsKey in attrs && "HELP" in attrs[PromptsKey] && HasChoices(attrs[PromptsKey]["HELP"]) &&
      "HELP_REPROMPT" in attrs[PromptsKey] && HasChoices(attrs[PromptsKey]["HELP_REPROMPT"])
  {
    SpeakAndAskStep(attrs, "HELP", "HELP_REPROMPT", picks, before)
  }

  function FallbackIntentStep(attrs: Attributes, picks: Picks, before: Response): (s: Step)
    ensures s.outcome == Returned <==>
      PromptsKey in attrs && "FALLBACK" in attrs[PromptsKey] && HasChoices(attrs[PromptsKey]["FALLBACK"]) &&
      "FALLBACK_REPROMPT" in attrs[PromptsKey] && HasChoices(attrs[PromptsKey]["FALLBACK_REPROMPT"])
  {
    SpeakAndAskStep(attrs, "FALLBACK", "FALLBACK_REPROMPT", picks, before)
  }

  /** SessionEnded only logs, and returns the response as it stands. */
  function SessionEndedRequestStep(before: Response): (s: Step)
    ensures s.outcome == Returned && s.response == before
  {
    Step(before, Returned)
  }

  /** The handle step of the selected request handler. */
  function HandlerStep(h: HandlerId, attrs: Attributes, lookup: Lookup, picks: Picks, rev: Revision, before: Response): (s: Step)
    ensures h == SessionEndedRequestHandler ==> s == Step(before, Returned)
    ensures h != SessionEndedRequestHandler && PromptsKey !in attrs ==> s == Step(before, Raised(KeyError(PromptsKey)))
  {
    match h
    case LaunchRequestHandler => LaunchRequestStep(attrs, picks, before)
    case DeviceLocationIntentHandler => DeviceLocationIntentStep(attrs, lookup, rev, before)
    case CancelOrStopIntentHandler => CancelOrStopIntentStep(attrs, picks, before)
    case HelpIntentHandler => HelpIntentStep(attrs, picks, before)
    case FallbackIntentHandler => FallbackIntentStep(attrs, picks, before)
    case SessionEndedRequestHandler => SessionEndedRequestStep(before)
  }

  /** CatchAllExceptionHandler.can_handle accepts every request and every failure. */
  predicate CatchAllCanHandle(req: Request, failure: Failure)
    ensures CatchAllCanHandle(req, failure)
  {
    true
  }

  /** The catch-all looks up ERROR and ERROR_REPROMPT, then speaks the one and asks the other;
      speak and ask each fail on a value that is not text, after what came before them took effect. */
  function CatchAllStep(attrs: Attributes, before: Response): (s: Step)
    ensures s.response.card == before.card && s.response.shouldEndSession == before.shouldEndSession
    ensures s.outcome.Raised? ==> s.response.reprompt == before.reprompt
    ensures s.outcome.Raised? ==> s.outcome.failure.KeyError? || s.outcome.failure.NotText?
  {
    var prompts := PromptsOf(attrs);
    if prompts.Err? then Step(before, Raised(prompts.error)) else
    var speech := Get(prompts.value, "ERROR");
    if speech.Err? then Step(before, Raised(speech.error)) else
    var reprompt := Get(prompts.value, "ERROR_REPROMPT");
    if reprompt.Err? then Step(before, Raised(reprompt.error)) else
    if !speech.value.Str? then Step(before, Raised(NotText("ERROR"))) else
    var spoken := before.(speech := Some(Plain(speech.value.text)));
    if !reprompt.value.Str? then Step(spoken, Raised(NotText("ERROR_REPROMPT")))
    else Step(spoken.(reprompt := Some(reprompt.value.text)), Returned)
  }

  // ---- properties of the steps ----

  /** Every handler that raises has left the card and the end-session flag as they were. */
  lemma RaisingKeepsCardAndSession(h: HandlerId, attrs: Attributes, lookup: Lookup, picks: Picks, rev: Revision, before: Response)
    ensures var s := HandlerStep(h, attrs, lookup, picks, rev, before);
      s.outcome.Raised? ==> s.response.card == before.card && s.response.shouldEndSession == before.shouldEndSession
  {
  }

  /** The address branch: None, or an address with neither line 1 nor region, speaks NO_ADDRESS;
      any other address (one of the two fields is enough) speaks ADDRESS_AVAILABLE filled with
      line 1, region and postal code; neither path sets a reprompt, a card or the end-session flag. */
  lemma AddressBranch(attrs: Attributes, addr: Option<Address>, rev: Revision, before: Response)
    requires PromptsKey in attrs
    ensures var s := DeviceLocationIntentStep(attrs, Found(addr), rev, before);
      var prompts := attrs[PromptsKey];
      var key := if NoAddress(addr) then "NO_ADDRESS" else "ADDRESS_AVAILABLE";
      s.response.reprompt == before.reprompt && s.response.card == before.card &&
      s.response.shouldEndSession == before.shouldEndSession &&
      (s.outcome == Returned <==> Text(prompts, key).Ok?) &&
      (s.outcome == Returned ==>
        s.response.speech == Some(if NoAddress(addr) then Plain(Text(prompts, key).value)
                                  else Filled(Text(prompts, key).value, AddressArgs(addr.value))))
  {
  }

  /** An address with only line 1, or only region, counts as available. */
  lemma OneFieldIsEnough(a: Address)
    requires a.addressLine1.Some? != a.stateOrRegion.Some?
    ensures !NoAddress(Some(a))
  {
  }

  /** A 403 speaks NOTIFY_MISSING_PERMISSIONS and attaches the consent card for exactly the address scope. */
  lemma ForbiddenAsksForPermission(attrs: Attributes, rev: Revision, before: Response, notify: string)
    requires PromptsKey in attrs && "NOTIFY_MISSING_PERMISSIONS" in attrs[PromptsKey]
    requires attrs[PromptsKey]["NOTIFY_MISSING_PERMISSIONS"] == Str(notify)
    ensures DeviceLocationIntentStep(attrs, ServiceFailure(403), rev, before)
      == Step(before.(speech := Some(Plain(notify)), card := Some(AskForPermissionsConsent(["read::alexa:device:all:address"]))), Returned)
  {
  }

  /** Within the handlers, only a 403 from the address service sets a card. */
  lemma OnlyForbiddenSetsACard(h: HandlerId, attrs: Attributes, lookup: Lookup, picks: Picks, rev: Revision, before: Response)
    requires before.card.None?
    ensures var s := HandlerStep(h, attrs, lookup, picks, rev, before);
      s.response.card.Some? ==>
        h == DeviceLocationIntentHandler && lookup == ServiceFailure(403) && s.outcome == Returned &&
        s.response.card == Some(AskForPermissionsConsent(Permissions))
  {
  }

  /** As written, a failure other than 403 speaks LOCATION_FAILURE and then raises NameError,
      so the reprompt the branch means to offer is never set. */
  lemma OtherFailureRaisesNameError(attrs: Attributes, status: int, before: Response, failure: string)
    requires status != 403
    requires PromptsKey in attrs && "LOCATION_FAILURE" in attrs[PromptsKey]
    requires attrs[PromptsKey]["LOCATION_FAILURE"] == Str(failure)
    ensures DeviceLocationIntentStep(attrs, ServiceFailure(status), AsWritten, before)
      == Step(before.(speech := Some(Plain(failure))), Raised(NameError("LOCATION_FAILURE")))
  {
  }

  /** As intended, a failure other than 403 speaks LOCATION_FAILURE, asks it again, keeps the
      session open and attaches no card. */
  lemma OtherFailureInvitesRetry(attrs: Attributes, status: int, before: Response, failure: string)
    requires status != 403
    requires PromptsKey in attrs && "LOCATION_FAILURE" in attrs[PromptsKey]
    requires attrs[PromptsKey]["LOCATION_FAILURE"] == Str(failure)
    ensures var s := DeviceLocationIntentStep(attrs, ServiceFailure(status), Intended, before);
      s.outcome == Returned && s.response.speech == Some(Plain(failure)) && s.response.reprompt == Some(failure) &&
      s.response.card == before.card && s.response.shouldEndSession == before.shouldEndSession
  {
  }

  /** The two revisions differ only on a non-403 ServiceException. */
  lemma RevisionsDifferOnlyOnOtherFailures(attrs: Attributes, lookup: Lookup, before: Response)
    requires !(lookup.ServiceFailure? && lookup.statusCode != 403)
    ensures DeviceLocationIntentStep(attrs, lookup, AsWritten, before) == DeviceLocationIntentStep(attrs, lookup, Intended, before)
  {
  }

  /** Launch speaks a WELCOME phrasing filled with SKILL_NAME and reprompts with a WELCOME_REPROMPT
      phrasing. */
  lemma LaunchWelcomes(attrs: Attributes, picks: Picks, before: Response)
    ensures var s := LaunchRequestStep(attrs, picks, before);
      s.outcome == Returned ==>
        PromptsKey in attrs && "SKILL_NAME" in attrs[PromptsKey] && "WELCOME" in attrs[PromptsKey] &&
        "WELCOME_REPROMPT" in attrs[PromptsKey] &&
        s.response.card == before.card && s.response.shouldEndSession == before.shouldEndSession &&
        s.response.reprompt.Some? && ChosenFrom(s.response.reprompt.value, attrs[PromptsKey]["WELCOME_REPROMPT"]) &&
        exists w :: ChosenFrom(w, attrs[PromptsKey]["WELCOME"]) &&
          s.response.speech == Some(Filled(w, [PromptArg(attrs[PromptsKey]["SKILL_NAME"])]))
  {
    var s := LaunchRequestStep(attrs, picks, before);
    if s.outcome == Returned {
      var w := Pick(attrs[PromptsKey], "WELCOME", picks.speech).value;
      assert ChosenFrom(w, attrs[PromptsKey]["WELCOME"]);
    }
  }

  /** Every WELCOME phrasing is the one spoken for some draw of random.choice. */
  lemma {:induction false} EveryWelcomeCanBeSpoken(attrs: Attributes, reprompt: nat, before: Response, w: string)
    requires PromptsKey in attrs && "SKILL_NAME" in attrs[PromptsKey]
    requires "WELCOME" in attrs[PromptsKey] && ChosenFrom(w, attrs[PromptsKey]["WELCOME"])
    requires "WELCOME_REPROMPT" in attrs[PromptsKey] && HasChoices(attrs[PromptsKey]["WELCOME_REPROMPT"])
    ensures exists pick: nat ::
      LaunchRequestStep(attrs, Picks(pick, reprompt), before).response.speech
        == Some(Filled(w, [PromptArg(attrs[PromptsKey]["SKILL_NAME"])]))
  {
    var prompts := attrs[PromptsKey];
    EveryChoiceIsReachable(prompts["WELCOME"], w);
    var pick: nat :| Choose(prompts["WELCOME"], pick) == Ok(w);
    assert Pick(prompts, "WELCOME", pick) == Ok(w);
    assert LaunchRequestStep(attrs, Picks(pick, reprompt), before).response.speech
      == Some(Filled(w, [PromptArg(prompts["SKILL_NAME"])]));
  }

  /** Help and Fallback speak a phrasing of their speech list and reprompt with one of their reprompt list. */
  lemma SpeakAndAskDrawsFromLists(attrs: Attributes, speechKey: string, repromptKey: string, picks: Picks, before: Response)
    ensures var s := SpeakAndAskStep(attrs, speechKey, repromptKey, picks, before);
      s.outcome == Returned ==>
        PromptsKey in attrs && speechKey in attrs[PromptsKey] && repromptKey in attrs[PromptsKey] &&
        s.response.speech.Some? && s.response.speech.value.Plain? &&
        ChosenFrom(s.response.speech.value.text, attrs[PromptsKey][speechKey]) &&
        s.response.reprompt.Some? && ChosenFrom(s.response.reprompt.value, attrs[PromptsKey][repromptKey]) &&
        s.response.card == before.card && s.response.shouldEndSession == before.shouldEndSession
  {
  }

  /** Cancel or stop speaks a CANCEL_STOP_RESPONSE phrasing, ends the session and adds no reprompt. */
  lemma CancelOrStopEndsSession(attrs: Attributes, picks: Picks, before: Response)
    ensures var s := CancelOrStopIntentStep(attrs, picks, before);
      s.outcome == Returned ==>
        PromptsKey in attrs && "CANCEL_STOP_RESPONSE" in attrs[PromptsKey] &&
        s.response.speech.Some? && s.response.speech.value.Plain? &&
        ChosenFrom(s.response.speech.value.text, attrs[PromptsKey]["CANCEL_STOP_RESPONSE"]) &&
        s.response.shouldEndSession == Some(true) && s.response.reprompt == before.reprompt
  {
  }

  /** The catch-all speaks ERROR, reprompts ERROR_REPROMPT and leaves card and end-session alone;
      it raises only when the prompt table or one of those two texts is missing. */
  lemma CatchAllApologises(attrs: Attributes, before: Response)
    ensures var s := CatchAllStep(attrs, before);
      (s.outcome == Returned <==>
        PromptsKey in attrs && Text(attrs[PromptsKey], "ERROR").Ok? && Text(attrs[PromptsKey], "ERROR_REPROMPT").Ok?) &&
      (s.outcome == Returned ==>
        s.response == before.(speech := Some(Plain(attrs[PromptsKey]["ERROR"].text)),
                              reprompt := Some(attrs[PromptsKey]["ERROR_REPROMPT"].text)))
  {
  }

  /** The catch-all fails in the order of its statements: a missing ERROR, then a missing
      ERROR_REPROMPT, both before anything is spoken; then an ERROR that is not text, still before
      anything is spoken; then an ERROR_REPROMPT that is not text, after ERROR has been spoken. */
  lemma CatchAllFailsInSourceOrder(attrs: Attributes, before: Response)
    requires PromptsKey in attrs
    ensures var s := CatchAllStep(attrs, before); var t := attrs[PromptsKey];
      ("ERROR" !in t ==> s == Step(before, Raised(KeyError("ERROR")))) &&
      ("ERROR" in t && "ERROR_REPROMPT" !in t ==> s == Step(before, Raised(KeyError("ERROR_REPROMPT")))) &&
      ("ERROR" in t && "ERROR_REPROMPT" in t && !t["ERROR"].Str? ==> s == Step(before, Raised(NotText("ERROR")))) &&
      ("ERROR" in t && "ERROR_REPROMPT" in t && t["ERROR"].Str? && !t["ERROR_REPROMPT"].Str? ==>
        s == Step(before.(speech := Some(Plain(t["ERROR"].text))), Raised(NotText("ERROR_REPROMPT"))))
  {
  }

  // ---- the handlers' code ----

  method HandleLaunchRequest(input: HandlerInput, picks: Picks) returns (outcome: Outcome)
    modifies input.responseBuilder
    ensures Step(input.responseBuilder.Built(), outcome)
      == LaunchRequestStep(input.requestAttributes, picks, old(input.responseBuilder.Built()))
  {
    if PromptsKey !in input.requestAttributes {
      return Raised(KeyError(PromptsKey));
    }
    var prompts := input.requestAttributes[PromptsKey];
    var skillName := Get(prompts, "SKILL_NAME");
    if skillName.Err? {
      return Raised(skillName.error);
    }
    var welcome := Pick(prompts, "WELCOME", picks.speech);
    if welcome.Err? {
      return Raised(welcome.error);
    }
    var reprompt := Pick(prompts, "WELCOME_REPROMPT", picks.reprompt);
    if reprompt.Err? {
      return Raised(reprompt.error);
    }
    input.responseBuilder.Speak(Filled(welcome.value, [PromptArg(skillName.value)]));
    input.responseBuilder.Ask(reprompt.value);
    outcome := Returned;
  }

  method HandleDeviceLocationIntent(input: HandlerInput, lookup: Lookup, rev: Revision) returns (outcome: Outcome)
    modifies input.responseBuilder
    ensures Step(input.responseBuilder.Built(), outcome)
      == DeviceLocationIntentStep(input.requestAttributes, lookup, rev, old(input.responseBuilder.Built()))
  {
    if PromptsKey !in input.requestAttributes {
      return Raised(KeyError(PromptsKey));
    }
    var prompts := input.requestAttributes[PromptsKey];
    var builder := input.responseBuilder;
    match lookup {
      case ClientFailure =>
        return Raised(ClientError);
      case Found(addr) =>
        if addr.None? {
          var t := Text(prompts, "NO_ADDRESS");
          if t.Err? {
            return Raised(t.error);
          }
          builder.Speak(Plain(t.value));
        } else if addr.value.addressLine1.None? && addr.value.stateOrRegion.None? {
          var t := Text(prompts, "NO_ADDRESS");
          if t.Err? {
            return Raised(t.error);
          }
          builder.Speak(Plain(t.value));
        } else {
          var t := Text(prompts, "ADDRESS_AVAILABLE");
          if t.Err? {
            return Raised(t.error);
          }
          builder.Speak(Filled(t.value, AddressArgs(addr.value)));
        }
        return Returned;
      case ServiceFailure(status) =>
        if status == 403 {
          var t := Text(prompts, "NOTIFY_MISSING_PERMISSIONS");
          if t.Err? {
            return Raised(t.error);
          }
          builder.Speak(Plain(t.value));
          builder.SetCard(AskForPermissionsConsent(Permissions));
          return Returned;
        } else {
          var t := Text(prompts, "LOCATION_FAILURE");
          if t.Err? {
            return Raised(t.error);
          }
          builder.Speak(Plain(t.value));
          if rev == AsWritten {
            return Raised(NameError("LOCATION_FAILURE"));
          }
          builder.Ask(t.value);
          return Returned;
        }
    }
  }

  method HandleCancelOrStopIntent(input: HandlerInput, picks: Picks) returns (outcome: Outcome)
    modifies input.responseBuilder
    ensures Step(input.responseBuilder.Built(), outcome)
      == CancelOrStopIntentStep(input.requestAttributes, picks, old(input.responseBuilder.Built()))
  {
    if PromptsKey !in input.requestAttributes {
      return Raised(KeyError(PromptsKey));
    }
    var speech := Pick(input.requestAttributes[PromptsKey], "CANCEL_STOP_RESPONSE", picks.speech);
    if speech.Err? {
      return Raised(speech.error);
    }
    input.responseBuilder.Speak(Plain(speech.value));
    input.responseBuilder.SetShouldEndSession(true);
    outcome := Returned;
  }

  /** The shared code of HelpIntentHandler.handle and FallbackIntentHandler.handle. */
  method HandleSpeakAndAsk(input: HandlerInput, speechKey: string, repromptKey: string, picks: Picks) returns (outcome: Outcome)
    modifies input.responseBuilder
    ensures Step(input.responseBuilder.Built(), outcome)
      == SpeakAndAskStep(input.requestAttributes, speechKey, repromptKey, picks, old(input.responseBuilder.Built()))
  {
    if PromptsKey !in input.requestAttributes {
      return Raised(KeyError(PromptsKey));
    }
    var prompts := input.requestAttributes[PromptsKey];
    var speech := Pick(prompts, speechKey, picks.speech);
    if speech.Err? {
      return Raised(speech.error);
    }
    var reprompt := Pick(prompts, repromptKey, picks.reprompt);
    if reprompt.Err? {
      return Raised(reprompt.error);
    }
    input.responseBuilder.Speak(Plain(speech.value));
    input.responseBuilder.Ask(reprompt.value);
    outcome := Returned;
  }

  method HandleHelpIntent(input: HandlerInput, picks: Picks) returns (outcome: Outcome)
    modifies input.responseBuilder
    ensures Step(input.responseBuilder.Built(), outcome)
      == HelpIntentStep(input.requestAttributes, picks, old(input.responseBuilder.Built()))
  {
    outcome := HandleSpeakAndAsk(input, "HELP", "HELP_REPROMPT", picks);
  }

  method HandleFallbackIntent(input: HandlerInput, picks: Picks) returns (outcome: Outcome)
    modifies input.responseBuilder
    ensures Step(input.responseBuilder.Built(), outcome)
      == FallbackIntentStep(input.requestAttributes, picks, old(input.responseBuilder.Built()))
  {
    outcome := HandleSpeakAndAsk(input, "FALLBACK", "FALLBACK_REPROMPT", picks);
  }

  method HandleSessionEndedRequest(input: HandlerInput) returns (outcome: Outcome)
    ensures Step(input.responseBuilder.Built(), outcome) == SessionEndedRequestStep(input.responseBuilder.Built())
  {
    outcome := Returned;
  }

  method HandleCatchAll(input: HandlerInput, failure: Failure) returns (outcome: Outcome)
    modifies input.responseBuilder
    ensures Step(input.responseBuilder.Built(), outcome)
      == CatchAllStep(input.requestAttributes, old(input.responseBuilder.Built()))
  {
    if PromptsKey !in input.requestAttributes {
      return Raised(KeyError(PromptsKey));
    }
    var prompts := input.requestAttributes[PromptsKey];
    var speech := Get(prompts, "ERROR");
    if speech.Err? {
      return Raised(speech.error);
    }
    var reprompt := Get(prompts, "ERROR_REPROMPT");
    if reprompt.Err? {
      return Raised(reprompt.error);
    }
    if !speech.value.Str? {
      return Raised(NotText("ERROR"));
    }
    input.responseBuilder.Speak(Plain(speech.value.text));
    if !reprompt.value.Str? {
      return Raised(NotText("ERROR_REPROMPT"));
    }
    input.responseBuilder.Ask(reprompt.value.text);
    outcome := Returned;
  }
}
