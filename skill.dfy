/** One request/response cycle of the skill as registered: the localization interceptor runs
    first, then the first request handler that accepts the request, and any failure goes to the
    catch-all exception handler, which works on the same builder and attributes. */
module Skill {
  import opened Failures
  import opened Prompts
  import opened Responses
  import opened Routing
  import opened Input
  import opened Localization
  import opened Handlers

  /** The attributes the handlers see once the localization interceptor has run. */
  function AttributesAfterLocalization(files: Files, locale: Option<string>): (attrs: Attributes)
    ensures PromptsKey in attrs <==> LoadPrompts(files, locale).Ok?
    ensures PromptsKey in attrs ==> attrs[PromptsKey] == LoadPrompts(files, locale).value
    ensures attrs.Keys <= {PromptsKey}
  {
    match LoadPrompts(files, locale)
    case Ok(t) => map[PromptsKey := t]
    case Err(_) => map[]
  }

  /** The step of the request pipeline: interceptor, then dispatch, then the chosen handler. */
  function RequestStep(req: Request, files: Files, lookup: Lookup, picks: Picks, rev: Revision): (s: Step)
    ensures s.outcome == Returned ==> LoadPrompts(files, req.locale).Ok? && Resolve(Registered, req).Some?
    ensures LoadPrompts(files, req.locale).Err? ==> s == Step(EmptyResponse, Raised(LoadPrompts(files, req.locale).error))
    ensures LoadPrompts(files, req.locale).Ok? && Resolve(Registered, req).None? ==>
      s == Step(EmptyResponse, Raised(NoHandlerFound))
  {
    var loaded := LoadPrompts(files, req.locale);
    if loaded.Err? then Step(EmptyResponse, Raised(loaded.error))
    else match Resolve(Registered, req)
      case None => Step(EmptyResponse, Raised(NoHandlerFound))
      case Some(h) => HandlerStep(h, AttributesAfterLocalization(files, req.locale), lookup, picks, rev, EmptyResponse)
  }

  /** The full cycle: the response sent back, or the failure that escapes the skill. */
  function Cycle(req: Request, files: Files, lookup: Lookup, picks: Picks, rev: Revision): (r: Result<Response>)
    ensures r.Err? ==> r.error.KeyError? || r.error.NotText?
    ensures RequestStep(req, files, lookup, picks, rev).outcome == Returned ==>
      r == Ok(RequestStep(req, files, lookup, picks, rev).response)
  {
    var s := RequestStep(req, files, lookup, picks, rev);
    match s.outcome
    case Returned => Ok(s.response)
    case Raised(f) =>
      if CatchAllCanHandle(req, f) then
        var c := CatchAllStep(AttributesAfterLocalization(files, req.locale), s.response);
        if c.outcome.Returned? then Ok(c.response) else Err(c.outcome.failure)
      else Err(f)
  }

  /** The localization interceptor run on a fresh handler input: its request attributes are the
      ones every handler of the cycle then sees. */
  method Localize(req: Request, files: Files) returns (input: HandlerInput, outcome: Outcome)
    ensures input.request == req && input.responseBuilder.Built() == EmptyResponse
    ensures input.requestAttributes == AttributesAfterLocalization(files, req.locale)
    ensures outcome == if LoadPrompts(files, req.locale).Ok? then Returned else Raised(LoadPrompts(files, req.locale).error)
  {
    input := new HandlerInput(req);
    var store := new ResourceStore(files);
    outcome := Process(input, store);
  }

  /** The apology the catch-all builds from a table, when ERROR and ERROR_REPROMPT are text. */
  predicate HasErrorTexts(t: PromptTable) {
    Text(t, "ERROR").Ok? && Text(t, "ERROR_REPROMPT").Ok?
  }

  function ErrorResponse(t: PromptTable): Response
    requires HasErrorTexts(t)
  {
    EmptyResponse.(speech := Some(Plain(Text(t, "ERROR").value)), reprompt := Some(Text(t, "ERROR_REPROMPT").value))
  }

  /** Handlers only ever run with the prompt table in place: no response is produced unless
      localization succeeded, and when it fails the catch-all itself fails on the missing table. */
  lemma LocalizationComesFirst(req: Request, files: Files, lookup: Lookup, picks: Picks, rev: Revision)
    ensures Cycle(req, files, lookup, picks, rev).Ok? ==> LoadPrompts(files, req.locale).Ok?
    ensures LoadPrompts(files, req.locale).Err? ==> Cycle(req, files, lookup, picks, rev) == Err(KeyError(PromptsKey))
  {
  }

  /** Every failure after localization reaches the catch-all, which answers with the apology
      whenever the table has ERROR and ERROR_REPROMPT as text. */
  lemma EveryFailureIsAnswered(req: Request, files: Files, lookup: Lookup, picks: Picks, rev: Revision)
    requires LoadPrompts(files, req.locale).Ok? && HasErrorTexts(LoadPrompts(files, req.locale).value)
    ensures Cycle(req, files, lookup, picks, rev).Ok?
    ensures RequestStep(req, files, lookup, picks, rev).outcome.Raised? ==>
      Cycle(req, files, lookup, picks, rev).value.speech == ErrorResponse(LoadPrompts(files, req.locale).value).speech &&
      Cycle(req, files, lookup, picks, rev).value.reprompt == ErrorResponse(LoadPrompts(files, req.locale).value).reprompt
  {
  }

  /** A request no handler accepts ("request handler is not found") gets the apology. */
  lemma UnhandledRequestGetsApology(req: Request, files: Files, lookup: Lookup, picks: Picks, rev: Revision)
    requires Route(req) == None
    requires LoadPrompts(files, req.locale).Ok? && HasErrorTexts(LoadPrompts(files, req.locale).value)
    ensures Cycle(req, files, lookup, picks, rev) == Ok(ErrorResponse(LoadPrompts(files, req.locale).value))
  {
    DispatchFollowsRoute(req);
  }

  /** As written, a failed address lookup other than 403 ends in the catch-all's apology: the
      LOCATION_FAILURE speech is overwritten and its reprompt never set. */
  lemma OtherLookupFailureEndsInApology(req: Request, files: Files, status: int, picks: Picks)
    requires IsIntentName(req, "DeviceLocationIntent") && status != 403
    requires LoadPrompts(files, req.locale).Ok? && HasErrorTexts(LoadPrompts(files, req.locale).value)
    ensures Cycle(req, files, ServiceFailure(status), picks, AsWritten) == Ok(ErrorResponse(LoadPrompts(files, req.locale).value))
  {
    DispatchSelectsTheAcceptingHandler(req, DeviceLocationIntentHandler);
  }

  /** As intended, that failure speaks and reprompts LOCATION_FAILURE and keeps the session open. */
  lemma OtherLookupFailureInvitesRetry(req: Request, files: Files, status: int, picks: Picks, failure: string)
    requires IsIntentName(req, "DeviceLocationIntent") && status != 403
    requires LoadPrompts(files, req.locale).Ok?
    requires "LOCATION_FAILURE" in LoadPrompts(files, req.locale).value
    requires LoadPrompts(files, req.locale).value["LOCATION_FAILURE"] == Str(failure)
    ensures Cycle(req, files, ServiceFailure(status), picks, Intended)
      == Ok(EmptyResponse.(speech := Some(Plain(failure)), reprompt := Some(failure)))
  {
    DispatchSelectsTheAcceptingHandler(req, DeviceLocationIntentHandler);
  }

  /** A 403 from the address service yields the missing-permissions speech and the consent
      card for the address scope, on either revision. */
  lemma ForbiddenLookupAsksForConsent(req: Request, files: Files, picks: Picks, rev: Revision, notify: string)
    requires IsIntentName(req, "DeviceLocationIntent")
    requires LoadPrompts(files, req.locale).Ok?
    requires "NOTIFY_MISSING_PERMISSIONS" in LoadPrompts(files, req.locale).value
    requires LoadPrompts(files, req.locale).value["NOTIFY_MISSING_PERMISSIONS"] == Str(notify)
    ensures Cycle(req, files, ServiceFailure(403), picks, rev)
      == Ok(EmptyResponse.(speech := Some(Plain(notify)), card := Some(AskForPermissionsConsent(Permissions))))
  {
    DispatchSelectsTheAcceptingHandler(req, DeviceLocationIntentHandler);
  }

  /** The consent card is sent only for a device-location request whose lookup was refused with 403. */
  lemma OnlyForbiddenLookupSendsACard(req: Request, files: Files, lookup: Lookup, picks: Picks, rev: Revision)
    ensures Cycle(req, files, lookup, picks, rev).Ok? && Cycle(req, files, lookup, picks, rev).value.card.Some? ==>
      IsIntentName(req, "DeviceLocationIntent") && lookup == ServiceFailure(403) &&
      Cycle(req, files, lookup, picks, rev).value.card == Some(AskForPermissionsConsent(Permissions))
  {
    match Resolve(Registered, req)
    case None =>
    case Some(h) =>
      DispatchSelectsTheAcceptingHandler(req, h);
      OnlyForbiddenSetsACard(h, AttributesAfterLocalization(files, req.locale), lookup, picks, rev, EmptyResponse);
      RaisingKeepsCardAndSession(h, AttributesAfterLocalization(files, req.locale), lookup, picks, rev, EmptyResponse);
  }

  /** No response both ends the session and offers a reprompt: only cancel or stop ends it. */
  lemma EndingSessionHasNoReprompt(req: Request, files: Files, lookup: Lookup, picks: Picks, rev: Revision)
    ensures Cycle(req, files, lookup, picks, rev).Ok? && Cycle(req, files, lookup, picks, rev).value.shouldEndSession == Some(true) ==>
      Cycle(req, files, lookup, picks, rev).value.reprompt.None? &&
      Resolve(Registered, req) == Some(CancelOrStopIntentHandler)
  {
    match Resolve(Registered, req)
    case None =>
    case Some(h) =>
      RaisingKeepsCardAndSession(h, AttributesAfterLocalization(files, req.locale), lookup, picks, rev, EmptyResponse);
  }

  /** A launch speaks a WELCOME phrasing filled with SKILL_NAME, reprompts, and leaves the session open. */
  lemma LaunchScenario(files: Files, locale: Option<string>, lookup: Lookup, picks: Picks, rev: Revision)
    requires LoadPrompts(files, locale).Ok?
    requires var t := LoadPrompts(files, locale).value;
      "SKILL_NAME" in t && "WELCOME" in t && HasChoices(t["WELCOME"]) &&
      "WELCOME_REPROMPT" in t && HasChoices(t["WELCOME_REPROMPT"])
    ensures var r := Cycle(Request(LaunchRequest, locale), files, lookup, picks, rev);
      var t := LoadPrompts(files, locale).value;
      r.Ok? && r.value.reprompt.Some? && ChosenFrom(r.value.reprompt.value, t["WELCOME_REPROMPT"]) &&
      r.value.card.None? && r.value.shouldEndSession.None? &&
      exists w :: ChosenFrom(w, t["WELCOME"]) && r.value.speech == Some(Filled(w, [PromptArg(t["SKILL_NAME"])]))
  {
    var req := Request(LaunchRequest, locale);
    DispatchFollowsRoute(req);
    LaunchWelcomes(AttributesAfterLocalization(files, locale), picks, EmptyResponse);
  }

  /** An address lookup that found nothing speaks NO_ADDRESS and attaches no card. */
  lemma NoAddressScenario(req: Request, files: Files, addr: Option<Address>, picks: Picks, rev: Revision, none: string)
    requires IsIntentName(req, "DeviceLocationIntent") && NoAddress(addr)
    requires LoadPrompts(files, req.locale).Ok?
    requires "NO_ADDRESS" in LoadPrompts(files, req.locale).value
    requires LoadPrompts(files, req.locale).value["NO_ADDRESS"] == Str(none)
    ensures Cycle(req, files, Found(addr), picks, rev) == Ok(EmptyResponse.(speech := Some(Plain(none))))
  {
    DispatchSelectsTheAcceptingHandler(req, DeviceLocationIntentHandler);
  }

  /** A session-ended request answers with the empty response. */
  lemma SessionEndedScenario(files: Files, locale: Option<string>, lookup: Lookup, picks: Picks, rev: Revision)
    requires LoadPrompts(files, locale).Ok?
    ensures Cycle(Request(SessionEndedRequest, locale), files, lookup, picks, rev) == Ok(EmptyResponse)
  {
    DispatchFollowsRoute(Request(SessionEndedRequest, locale));
  }
}
