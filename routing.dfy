/** Requests, the six request handlers' predicates, and first-match dispatch. */
module Routing {
  import opened Failures

  /** The request types the skill distinguishes; every other type (a CanFulfillIntentRequest,
      a Display.ElementSelected, ...) is `OtherRequest`, since no predicate looks inside one. */
  datatype RequestType =
    | LaunchRequest
    | IntentRequest(intentName: string)
    | SessionEndedRequest
    | OtherRequest

  datatype Request = Request(requestType: RequestType, locale: Option<string>)

  /** is_intent_name(name): an intent request carrying that intent. */
  predicate IsIntentName(req: Request, name: string)
    ensures IsIntentName(req, name) ==> req.requestType == IntentRequest(name)
    ensures !req.requestType.IntentRequest? ==> !IsIntentName(req, name)
  {
    req.requestType.IntentRequest? && req.requestType.intentName == name
  }

  datatype HandlerId =
    | LaunchRequestHandler
    | DeviceLocationIntentHandler
    | CancelOrStopIntentHandler
    | HelpIntentHandler
    | FallbackIntentHandler
    | SessionEndedRequestHandler

  /** The `can_handle` predicate of each request handler. */
  predicate CanHandle(h: HandlerId, req: Request)
    ensures CanHandle(h, req) ==> !req.requestType.OtherRequest?
    ensures CanHandle(h, req) ==>
      (req.requestType.IntentRequest? <==> h != LaunchRequestHandler && h != SessionEndedRequestHandler)
  {
    match h
    case LaunchRequestHandler => req.requestType == LaunchRequest
    case DeviceLocationIntentHandler => IsIntentName(req, "DeviceLocationIntent")
    case CancelOrStopIntentHandler =>
      IsIntentName(req, "AMAZON.CancelIntent") || IsIntentName(req, "AMAZON.StopIntent")
    case HelpIntentHandler => IsIntentName(req, "AMAZON.HelpIntent")
    case FallbackIntentHandler => IsIntentName(req, "AMAZON.FallbackIntent")
    case SessionEndedRequestHandler => req.requestType == SessionEndedRequest
  }

  /** The request handlers in registration order. */
  const Registered: seq<HandlerId> := [
    LaunchRequestHandler,
    DeviceLocationIntentHandler,
    CancelOrStopIntentHandler,
    HelpIntentHandler,
    FallbackIntentHandler,
    SessionEndedRequestHandler
  ]

  /** Where each handler stands in the registration order. */
  function RegistrationIndex(h: HandlerId): (i: nat)
    ensures i < |Registered| && Registered[i] == h
    ensures forall j :: 0 <= j < |Registered| && Registered[j] == h ==> j == i
  {
    match h
    case LaunchRequestHandler => 0
    case DeviceLocationIntentHandler => 1
    case CancelOrStopIntentHandler => 2
    case HelpIntentHandler => 3
    case FallbackIntentHandler => 4
    case SessionEndedRequestHandler => 5
  }

  /** The position of the first handler in `handlers` whose predicate accepts `req`. */
  function FirstMatch(handlers: seq<HandlerId>, req: Request): (r: Option<nat>)
    ensures r.Some? ==> r.value < |handlers| && CanHandle(handlers[r.value], req)
    ensures r.Some? ==> forall j :: 0 <= j < r.value ==> !CanHandle(handlers[j], req)
    ensures r.None? ==> forall j :: 0 <= j < |handlers| ==> !CanHandle(handlers[j], req)
  {
    if handlers == [] then None
    else if CanHandle(handlers[0], req) then Some(0)
    else match FirstMatch(handlers[1..], req)
      case None => None
      case Some(i) => Some(i + 1)
  }

  /** The handler dispatch selects from `handlers`, or None ("request handler is not found"):
      the first handler in order whose predicate accepts the request. */
  function Resolve(handlers: seq<HandlerId>, req: Request): (r: Option<HandlerId>)
    ensures r.Some? ==> CanHandle(r.value, req)
    ensures r.Some? ==>
      exists i :: 0 <= i < |handlers| && handlers[i] == r.value && forall j :: 0 <= j < i ==> !CanHandle(handlers[j], req)
    ensures r.None? <==> forall h :: h in handlers ==> !CanHandle(h, req)
  {
    match FirstMatch(handlers, req)
    case None => None
    case Some(i) => Some(handlers[i])
  }

  /** An independent decision table: which handler each request belongs to. */
  function Route(req: Request): Option<HandlerId> {
    match req.requestType
    case LaunchRequest => Some(LaunchRequestHandler)
    case SessionEndedRequest => Some(SessionEndedRequestHandler)
    case OtherRequest => None
    case IntentRequest(name) =>
      if name == "DeviceLocationIntent" then Some(DeviceLocationIntentHandler)
      else if name == "AMAZON.CancelIntent" || name == "AMAZON.StopIntent" then Some(CancelOrStopIntentHandler)
      else if name == "AMAZON.HelpIntent" then Some(HelpIntentHandler)
      else if name == "AMAZON.FallbackIntent" then Some(FallbackIntentHandler)
      else None
  }

  /** No request is accepted by two different handlers. */
  lemma HandlersAreDisjoint(h1: HandlerId, h2: HandlerId, req: Request)
    requires CanHandle(h1, req) && CanHandle(h2, req)
    ensures h1 == h2
  {
  }

  /** The decision table names exactly the handlers whose predicates accept the request. */
  lemma RouteIsExact(req: Request, h: HandlerId)
    ensures Route(req) == Some(h) <==> CanHandle(h, req)
  {
  }

  /** First-match dispatch over the registration order agrees with the decision table. */
  lemma {:induction false} DispatchFollowsRoute(req: Request)
    ensures Resolve(Registered, req) == Route(req)
  {
    match FirstMatch(Registered, req)
    case Some(i) =>
      RouteIsExact(req, Registered[i]);
    case None =>
      forall h: HandlerId ensures Route(req) != Some(h) {
        RouteIsExact(req, h);
        assert Registered[RegistrationIndex(h)] == h;
      }
  }

  /** Dispatch selects a handler exactly when that handler's predicate accepts the request. */
  lemma DispatchSelectsTheAcceptingHandler(req: Request, h: HandlerId)
    ensures Resolve(Registered, req) == Some(h) <==> CanHandle(h, req)
  {
    DispatchFollowsRoute(req);
    RouteIsExact(req, h);
  }

  /** Both cancel and stop reach the cancel-or-stop handler. */
  lemma CancelAndStopShareAHandler(req: Request)
    requires IsIntentName(req, "AMAZON.CancelIntent") || IsIntentName(req, "AMAZON.StopIntent")
    ensures Resolve(Registered, req) == Some(CancelOrStopIntentHandler)
  {
    DispatchFollowsRoute(req);
  }

  /** A request of any other type, or any other intent, is accepted by no handler. */
  lemma UnknownRequestsFindNoHandler(req: Request)
    ensures Resolve(Registered, req) == None <==> Route(req) == None
  {
    DispatchFollowsRoute(req);
  }
}
