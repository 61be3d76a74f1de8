# Alexa address-information skill: routing, localization and responses

This project models the request-handling core of a Python Alexa skill that reads the user's
full device address and speaks it back (`lambda/lambda_function.py`):

- six request handlers, each a `can_handle` predicate over the request type and intent name,
  registered in a fixed order and dispatched first-match;
- the localization interceptor, which loads `languages/<locale>.json`, falls back once to
  `languages/<locale[:2]>.json`, and stores the prompt table under request attribute `"_"`;
- each handler's response, built on one shared, last-write-wins response builder
  (speech, reprompt, consent card, end-session flag);
- the device-location handler's branch over the lookup outcome (no address, address
  available, 403 permission refusal, any other service failure);
- the catch-all exception handler, which accepts every failure and apologises.

Modules: `Failures` (Option, Result, the Python exception kinds, Outcome), `Prompts` (prompt
values, `table[key]`, `random.choice`), `Responses` (the response value and the
`ResponseBuilder` class), `Routing` (requests, predicates, registration order, first-match
dispatch, an independent decision table), `Input` (the `HandlerInput` class with its request
attributes), `Localization` (paths, the two-attempt load, the `ResourceStore` class and the
interceptor's `Process` method), `Handlers` (one pure step function per handler plus the
handler's imperative code proved equal to it), `Skill` (one whole request cycle).

How the model stands for what it does not run:

- `random.choice(v)` takes its draw as a `nat` parameter (`pick % |v|`); choosing from a
  string returns one of its characters, as Python does. `EveryChoiceIsReachable` shows every
  phrasing can be drawn.
- `str.format` is kept uninterpreted: a filled template is `Filled(template, args)`.
- The device address service is an input value `Lookup`: an address or None, a
  `ServiceException` with its status code, or any other failure.
- `open` and `json.load` are a lookup in a map from path to `Parsed(table)` / `Unparseable`;
  `ResourceStore` records every path opened.
- The skill builder's dispatcher is the control flow its registration implies: request
  interceptors, then the first accepting handler, then, on any failure, the exception handler
  on the same builder and attributes (`Skill.Cycle`).

Where a reading of the skill's intent and its code differ, the model follows the code:

- The no-address test is the code's two `None` checks: an address whose line 1 or region is
  the empty string counts as available, and one with only one of those two fields present
  counts as available too.
- When both language files fail, the failure does reach the catch-all, but the catch-all reads
  `request_attributes["_"]` itself, so a `KeyError` escapes the skill and no response is sent
  (`Skill.LocalizationComesFirst`).
- A non-403 lookup failure does not offer a retry: see Findings.

## Model

| member | source | states |
|---|---|---|
| `Routing.IsIntentName` | lambda/lambda_function.py:56-57 | `is_intent_name(name)` holds only for an intent request carrying exactly that name, never for another request type |
| `Routing.CanHandle` | lambda/lambda_function.py:34-143 | no handler accepts a request of another type; launch and session-ended accept only their own request type, the other four only intent requests |
| `Routing.RegistrationIndex` | lambda/lambda_function.py:211-216 | each handler stands at exactly one position of the registration order `Registered` |
| `Routing.Resolve` | lambda/lambda_function.py:211-216 | dispatch returns a registered handler that accepts the request, with no earlier registered handler accepting it; None exactly when no registered handler accepts it |
| `Routing.FirstMatch` | lambda/lambda_function.py:211-216 | the index returned is the first handler, in registration order, whose predicate accepts the request; None exactly when no registered handler accepts it |
| `Routing.RouteIsExact` | lambda/lambda_function.py:34-143 | the decision table names a handler exactly when that handler's `can_handle` is true, for all six predicates |
| `Routing.HandlersAreDisjoint` | lambda/lambda_function.py:93-95 | no request is accepted by two different handlers |
| `Routing.DispatchFollowsRoute` | lambda/lambda_function.py:211-216 | first-match dispatch over the registration order selects exactly the handler the decision table names |
| `Routing.DispatchSelectsTheAcceptingHandler` | lambda/lambda_function.py:211-216 | dispatch selects handler h if and only if h's predicate accepts the request |
| `Routing.CancelAndStopShareAHandler` | lambda/lambda_function.py:93-95 | both the cancel intent and the stop intent are routed to the cancel-or-stop handler |
| `Routing.UnknownRequestsFindNoHandler` | lambda/lambda_function.py:151-153 | dispatch finds no handler exactly for request types and intents outside the six handlers |
| `Prompts.Get` | lambda/lambda_function.py:40 | `table[key]` yields the stored value, or KeyError exactly when the key is absent |
| `Prompts.Text` | lambda/lambda_function.py:66-72 | a prompt used as text succeeds exactly when the key holds a string; otherwise KeyError or a not-text failure |
| `Prompts.Choose` | lambda/lambda_function.py:42-43 | `random.choice` succeeds exactly on a non-empty value and returns a list element or one character of a string; IndexError otherwise |
| `Prompts.EveryChoiceIsReachable` | lambda/lambda_function.py:99 | every element `random.choice` may return is returned by some draw |
| `Prompts.Pick` | lambda/lambda_function.py:114-115 | `random.choice(table[key])` returns a phrasing of that entry; KeyError when the key is absent, IndexError when it is empty |
| `Responses.ResponseBuilder.constructor` | lambda/lambda_function.py:147 | a fresh builder holds the empty response |
| `Responses.ResponseBuilder.Speak` | lambda/lambda_function.py:47 | speak overwrites the speech and changes nothing else |
| `Responses.ResponseBuilder.Ask` | lambda/lambda_function.py:48 | ask overwrites the reprompt and changes nothing else |
| `Responses.ResponseBuilder.SetCard` | lambda/lambda_function.py:80 | set_card overwrites the card and changes nothing else |
| `Responses.ResponseBuilder.SetShouldEndSession` | lambda/lambda_function.py:104 | set_should_end_session overwrites the flag and changes nothing else |
| `Responses.SpeakTwice` | lambda/lambda_function.py:86-169 | speaking twice leaves only the second speech (last write wins), as when line 86 has spoken LOCATION_FAILURE and the catch-all then speaks ERROR at line 169 |
| `Input.HandlerInput.constructor` | lambda/lambda_function.py:204 | a cycle starts with empty request attributes and an empty response |
| `Localization.LocaleText` | lambda/lambda_function.py:198 | `str(locale)` is the tag itself, or `"None"` for a missing locale |
| `Localization.ExactPath` | lambda/lambda_function.py:198 | the first path is `languages/`, the whole `str(locale)`, then `.json` |
| `Localization.LanguagePath` | lambda/lambda_function.py:201 | the fallback path is `languages/`, `locale[:2]`, then `.json` |
| `Localization.LanguageOf` | lambda/lambda_function.py:201 | `locale[:2]` is the prefix of the tag of length two, or the whole tag when shorter |
| `Localization.ReadTable` | lambda/lambda_function.py:198-199 | opening and parsing a path succeeds exactly when the file exists and parses, with its table |
| `Localization.LoadPrompts` | lambda/lambda_function.py:197-202 | the load succeeds exactly when the full-tag file or the prefix file parses, prefers the full-tag file, and otherwise fails with the prefix file's error (TypeError for a None locale) |
| `Localization.Attempts` | lambda/lambda_function.py:197-202 | one or two paths are opened, the full-tag path first; the prefix path second, only when the first failed and the locale is not None |
| `Localization.NoFurtherFallback` | lambda/lambda_function.py:200-202 | the result and the paths opened depend only on the two candidate files: there is no third fallback |
| `Localization.LoadedFromLastAttempt` | lambda/lambda_function.py:197-202 | the table stored is the one of the last path opened; on failure the last path opened did not parse |
| `Localization.RegionalFallsBackToLanguage` | lambda/lambda_function.py:200-202 | with `fr-CA` missing and `fr` present, the `fr` table is loaded after opening exactly those two paths |
| `Localization.ShortTagRetriesSameFile` | lambda/lambda_function.py:201 | a tag of at most two characters makes the fallback reopen the same file |
| `Localization.ResourceStore.constructor` | lambda/lambda_function.py:198 | a store starts with no path opened |
| `Localization.ResourceStore.Open` | lambda/lambda_function.py:198-199 | opening records the path and yields that file's table or FileError |
| `Localization.Process` | lambda/lambda_function.py:193-204 | the interceptor opens exactly the attempted paths, and stores the loaded table under `"_"` or raises, leaving the attributes unchanged |
| `Handlers.PromptsOf` | lambda/lambda_function.py:38 | `request_attributes["_"]` is the stored table, or KeyError when localization did not store one |
| `Handlers.NoAddress` | lambda/lambda_function.py:66-68 | None counts as no address; an address with line 1 or region present does not |
| `Handlers.LaunchRequestStep` | lambda/lambda_function.py:37-50 | launch fails only with KeyError or IndexError, and then before touching the builder; when it returns it has set speech and reprompt |
| `Handlers.DeviceLocationIntentStep` | lambda/lambda_function.py:59-89 | the address intent never changes the end-session flag; it leaves a partial response only with the NameError, which it raises exactly on a non-403 failure in the as-written revision once LOCATION_FAILURE was spoken; only the intended revision's non-403 branch sets a reprompt |
| `Handlers.CancelOrStopIntentStep` | lambda/lambda_function.py:97-106 | cancel or stop never sets a reprompt or a card, and a failure leaves the builder untouched |
| `Handlers.SpeakAndAskStep` | lambda/lambda_function.py:112-139 | help and fallback never change card or end-session flag, and a failure leaves the builder untouched |
| `Handlers.HelpIntentStep` | lambda/lambda_function.py:112-122 | help returns exactly when HELP and HELP_REPROMPT are present and non-empty |
| `Handlers.FallbackIntentStep` | lambda/lambda_function.py:129-139 | fallback returns exactly when FALLBACK and FALLBACK_REPROMPT are present and non-empty |
| `Handlers.SessionEndedRequestStep` | lambda/lambda_function.py:145-147 | session-ended returns the response as it stands |
| `Handlers.HandlerStep` | lambda/lambda_function.py:37-147 | session-ended always returns untouched; every other handler raises KeyError on a missing `"_"` before touching the builder |
| `Handlers.CatchAllCanHandle` | lambda/lambda_function.py:156-157 | the catch-all accepts every request and every failure |
| `Handlers.CatchAllStep` | lambda/lambda_function.py:159-172 | the catch-all never changes card or end-session flag, sets no reprompt when it fails, and fails only with KeyError or a not-text failure |
| `Handlers.RaisingKeepsCardAndSession` | lambda/lambda_function.py:37-147 | a handler that raises has not touched the card or the end-session flag |
| `Handlers.AddressBranch` | lambda/lambda_function.py:66-73 | None or an address without line 1 and region speaks NO_ADDRESS; any other speaks ADDRESS_AVAILABLE filled with line 1, region and postal code; no reprompt, card or end-session flag is set |
| `Handlers.OneFieldIsEnough` | lambda/lambda_function.py:68 | an address with only line 1 or only region counts as available |
| `Handlers.ForbiddenAsksForPermission` | lambda/lambda_function.py:75-82 | a 403 speaks NOTIFY_MISSING_PERMISSIONS and attaches the consent card for exactly `read::alexa:device:all:address` |
| `Handlers.OnlyForbiddenSetsACard` | lambda/lambda_function.py:27 | among all handlers and lookup outcomes, only a 403 in the device-location handler sets a card, and it is the address-scope consent card |
| `Handlers.OtherFailureRaisesNameError` | lambda/lambda_function.py:83-89 | as written, a non-403 service failure speaks LOCATION_FAILURE and then raises NameError, with no reprompt set |
| `Handlers.OtherFailureInvitesRetry` | lambda/lambda_function.py:83-89 | as intended, a non-403 service failure speaks and reprompts LOCATION_FAILURE without a card or end-session flag |
| `Handlers.RevisionsDifferOnlyOnOtherFailures` | lambda/lambda_function.py:83-89 | the corrected handler agrees with the written one on every lookup outcome except a non-403 service failure |
| `Handlers.LaunchWelcomes` | lambda/lambda_function.py:37-50 | a launch that returns speaks a WELCOME phrasing formatted with SKILL_NAME and reprompts a WELCOME_REPROMPT phrasing, card and end-session untouched |
| `Handlers.EveryWelcomeCanBeSpoken` | lambda/lambda_function.py:42 | every WELCOME phrasing is the launch speech for some draw of `random.choice` |
| `Handlers.SpeakAndAskDrawsFromLists` | lambda/lambda_function.py:112-139 | help and fallback speak a phrasing of their speech list and reprompt one of their reprompt list |
| `Handlers.CancelOrStopEndsSession` | lambda/lambda_function.py:97-106 | cancel or stop speaks a CANCEL_STOP_RESPONSE phrasing, sets end-session true and adds no reprompt |
| `Handlers.CatchAllApologises` | lambda/lambda_function.py:159-172 | the catch-all returns exactly when the table holds ERROR and ERROR_REPROMPT as text, and then sets just those speech and reprompt |
| `Handlers.CatchAllFailsInSourceOrder` | lambda/lambda_function.py:162-170 | a missing ERROR, then a missing ERROR_REPROMPT, raises KeyError before anything is spoken; a non-text ERROR fails before speaking; a non-text ERROR_REPROMPT fails after ERROR has been spoken |
| `Handlers.HandleLaunchRequest` | lambda/lambda_function.py:37-50 | the handler's code leaves the builder and ends as the launch step says |
| `Handlers.HandleDeviceLocationIntent` | lambda/lambda_function.py:59-89 | the handler's code, with its branch order, leaves the builder and ends as the device-location step says |
| `Handlers.HandleCancelOrStopIntent` | lambda/lambda_function.py:97-106 | the handler's code leaves the builder and ends as the cancel-or-stop step says |
| `Handlers.HandleSpeakAndAsk` | lambda/lambda_function.py:112-122 | the code shared by help and fallback leaves the builder and ends as its step says |
| `Handlers.HandleHelpIntent` | lambda/lambda_function.py:112-122 | the help handler behaves as the help step says |
| `Handlers.HandleFallbackIntent` | lambda/lambda_function.py:129-139 | the fallback handler behaves as the fallback step says |
| `Handlers.HandleSessionEndedRequest` | lambda/lambda_function.py:145-147 | the session-ended handler returns the response as it stands |
| `Handlers.HandleCatchAll` | lambda/lambda_function.py:159-172 | the catch-all's code, looking up both texts and then speaking and asking, leaves the builder and ends as the catch-all step says |
| `Skill.AttributesAfterLocalization` | lambda/lambda_function.py:204 | after the interceptor, `"_"` is present exactly when the load succeeded, holding the loaded table, and nothing else is stored |
| `Skill.Localize` | lambda/lambda_function.py:193-204 | running the interceptor on a fresh handler input leaves exactly the attributes every handler of the cycle sees, the builder still empty |
| `Skill.RequestStep` | lambda/lambda_function.py:210-222 | a handler returns only after localization succeeded and dispatch found a handler; a failed load or an unmatched request raises before any handler runs, builder empty |
| `Skill.Cycle` | lambda/lambda_function.py:210-222 | a returned handler response is sent as it is; the only failures that escape the skill are the catch-all's own KeyError or not-text failure |
| `Skill.LocalizationComesFirst` | lambda/lambda_function.py:220-221 | a response is produced only when localization succeeded; when it fails, the catch-all's own read of `"_"` raises KeyError out of the skill |
| `Skill.EveryFailureIsAnswered` | lambda/lambda_function.py:154-172 | with a loaded table holding ERROR and ERROR_REPROMPT, every cycle produces a response, and every failure yields the ERROR speech and ERROR_REPROMPT reprompt |
| `Skill.UnhandledRequestGetsApology` | lambda/lambda_function.py:151-153 | a request no handler accepts gets exactly the catch-all's apology |
| `Skill.OtherLookupFailureEndsInApology` | lambda/lambda_function.py:83-89 | as written, a non-403 lookup failure ends in exactly the catch-all's apology |
| `Skill.OtherLookupFailureInvitesRetry` | lambda/lambda_function.py:83-89 | as intended, it yields LOCATION_FAILURE as speech and reprompt, nothing else |
| `Skill.ForbiddenLookupAsksForConsent` | lambda/lambda_function.py:75-82 | a 403 yields exactly the missing-permissions speech and the consent card |
| `Skill.OnlyForbiddenLookupSendsACard` | lambda/lambda_function.py:27 | a response carries a card only for a device-location intent with a 403 lookup, and that card names exactly the address scope |
| `Skill.EndingSessionHasNoReprompt` | lambda/lambda_function.py:97-106 | a response that ends the session has no reprompt and comes from the cancel-or-stop handler |
| `Skill.LaunchScenario` | lambda/lambda_function.py:37-50 | a launch yields a WELCOME phrasing formatted with SKILL_NAME, a WELCOME_REPROMPT reprompt, no card, session left open |
| `Skill.NoAddressScenario` | lambda/lambda_function.py:66-69 | a lookup with no address yields exactly the NO_ADDRESS speech |
| `Skill.SessionEndedScenario` | lambda/lambda_function.py:141-147 | a session-ended request yields the empty response |

## Left out

- Logging (the `logger` calls, `RequestLogger`, `ResponseLogger`): observation only, not
  modelled; the request logger's registration after the localization interceptor is not
  represented either.
- The skill builder, its API client and `lambda_handler`: library code; only the registration
  order and the control flow it implies are modelled.
- The device address service and its API client: network I/O, replaced by the `Lookup` input.
  Reading the device id is folded into `ClientFailure` when it fails.
- File I/O and JSON parsing: replaced by a map from path to parsed table.
- `str.format`: kept symbolic, so a template whose fields do not match its arguments (which
  Python rejects) is not modelled as a failure, and the rendering of None as `"None"` is left
  to the formatter.
- `Prompts.Text`: a list-valued prompt where text is required is a failure; the model does
  not follow how the SDK's builder would treat such a value, and a list-valued SKILL_NAME is
  passed to the formatter as it is.
- `Responses.ResponseBuilder.Ask`: sets only the reprompt; whatever the SDK's own `ask` does to
  the end-session flag is not modelled.
- Request types other than launch, intent and session-ended are one `OtherRequest` case that
  carries nothing, since no predicate inspects it; the
  session block and the session-ended reason (only logged) are not modelled.
- `Skill.Cycle` does not model the response interceptors running after a handler returns,
  since the only one logs.

## Findings

| source | as written | input that shows it | evidently intended | confidence | as-written member | corrected member |
|---|---|---|---|---|---|---|
| lambda/lambda_function.py:87 | `.ask(LOCATION_FAILURE)` names a global that is never defined, so the branch raises NameError after speaking, and the catch-all's apology replaces the retry prompt | DeviceLocationIntent with a ServiceException of status 500 | `.ask(language_prompts["LOCATION_FAILURE"])`: speak and reprompt the lookup-failure text, keeping the session open for a retry | not executed | `Skill.OtherLookupFailureEndsInApology` | `Skill.OtherLookupFailureInvitesRetry` |

The handlers and the cycle take a `Revision` (`AsWritten` or `Intended`); the two differ only
in this branch (`Handlers.RevisionsDifferOnlyOnOtherFailures`), and every other property
above is proved for both.
