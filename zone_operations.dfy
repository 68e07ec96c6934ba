/** The zone's four operations as the host calls them. Each checks its
    arguments first; only a call that passes every check reaches the engine.
    What a call does is recorded as a trace of events; the engine's answers
    to blocking calls are parameters. */
module ZoneOperations {
  import opened Wrappers
  import opened JsValues
  import opened RequestBuilder
  import opened ResponseEncoder

  datatype Event =
    | Threw(message: string)                    // an argument check raised a host TypeError
    | HandlerCreated                            // the async completion handler captured the callback
    | BroadcastDispatched(source: string)
    | BroadcastSyncCalled(source: string)
    | ExecuteDispatched(request: ExecuteRequest)
    | ExecuteSyncCalled(request: ExecuteRequest)
    | Returned(value: JsValue)                  // the call's return value was set

  predicate IsEngineCall(e: Event)
  {
    e.BroadcastDispatched? || e.BroadcastSyncCalled? || e.ExecuteDispatched? || e.ExecuteSyncCalled?
  }

  predicate Rejected(trace: seq<Event>)
  {
    exists i :: 0 <= i < |trace| && trace[i].Threw?
  }

  predicate ReachesEngine(trace: seq<Event>)
  {
    exists i :: 0 <= i < |trace| && IsEngineCall(trace[i])
  }

  /** A check that throws ends the call: nothing happens after it. */
  predicate ThrowEndsCall(trace: seq<Event>)
  {
    forall i :: 0 <= i < |trace| && trace[i].Threw? ==> i == |trace| - 1
  }

  const BROADCAST_SOURCE_NOT_STRING := "first argument to zone.broadcast must be the javascript source"
  const BROADCAST_CALLBACK_NOT_FUNCTION := "second argument to zone.broadcast must be the callback"
  const BROADCAST_SYNC_SOURCE_NOT_STRING := "first argument to zone.broadcastSync must be the javascript source"
  const EXECUTE_REQUEST_NOT_OBJECT := "first argument to zone.execute must be the execution request object"
  const EXECUTE_CALLBACK_NOT_FUNCTION := "second argument to zone.execute must be the callback"

  /** `zone.broadcast(source, callback)`. */
  method Broadcast(args: seq<JsValue>) returns (trace: seq<Event>)
    ensures Rejected(trace) <==> !(IsString(ArgAt(args, 0)) && IsFunction(ArgAt(args, 1)))
    ensures ReachesEngine(trace) <==> !Rejected(trace)
    ensures ThrowEndsCall(trace)
    ensures !IsString(ArgAt(args, 0)) ==> trace == [Threw(BROADCAST_SOURCE_NOT_STRING)]
    ensures IsString(ArgAt(args, 0)) && !IsFunction(ArgAt(args, 1)) ==>
      trace == [Threw(BROADCAST_CALLBACK_NOT_FUNCTION)]
    ensures !Rejected(trace) ==> trace == [HandlerCreated, BroadcastDispatched(args[0].s)]
  {
    if !IsString(ArgAt(args, 0)) {
      trace := [Threw(BROADCAST_SOURCE_NOT_STRING)];
      assert trace[0].Threw?;
      return;
    }
    if !IsFunction(ArgAt(args, 1)) {
      trace := [Threw(BROADCAST_CALLBACK_NOT_FUNCTION)];
      assert trace[0].Threw?;
      return;
    }
    var source := ArgAt(args, 0).s;
    trace := [HandlerCreated];
    trace := trace + [BroadcastDispatched(source)];
    assert IsEngineCall(trace[1]);
  }

  /** `zone.broadcastSync(source)`: `engine` is the code the engine answers with. */
  method BroadcastSync(args: seq<JsValue>, engine: string -> uint32) returns (trace: seq<Event>)
    ensures Rejected(trace) <==> !IsString(ArgAt(args, 0))
    ensures ReachesEngine(trace) <==> !Rejected(trace)
    ensures ThrowEndsCall(trace)
    ensures !IsString(ArgAt(args, 0)) ==> trace == [Threw(BROADCAST_SYNC_SOURCE_NOT_STRING)]
    ensures !Rejected(trace) ==>
      trace == [BroadcastSyncCalled(args[0].s), Returned(Number(engine(args[0].s) as int))]
  {
    if !IsString(ArgAt(args, 0)) {
      trace := [Threw(BROADCAST_SYNC_SOURCE_NOT_STRING)];
      assert trace[0].Threw?;
      return;
    }
    var source := ArgAt(args, 0).s;
    var responseCode := engine(source);
    trace := [BroadcastSyncCalled(source), Returned(Number(responseCode as int))];
    assert IsEngineCall(trace[0]);
  }

  /** `zone.execute(request, callback)`. The completion handler is created
      before the request is built, so a request that fails validation still
      leaves a handler behind, one that is never dispatched. */
  method Execute(args: seq<JsValue>) returns (trace: seq<Event>)
    ensures Rejected(trace) <==>
      !(IsObject(ArgAt(args, 0)) && IsFunction(ArgAt(args, 1)) && RequestFrom(ArgAt(args, 0)).Success?)
    ensures ReachesEngine(trace) <==> !Rejected(trace)
    ensures ThrowEndsCall(trace)
    ensures !IsObject(ArgAt(args, 0)) ==> trace == [Threw(EXECUTE_REQUEST_NOT_OBJECT)]
    ensures IsObject(ArgAt(args, 0)) && !IsFunction(ArgAt(args, 1)) ==>
      trace == [Threw(EXECUTE_CALLBACK_NOT_FUNCTION)]
    ensures IsObject(ArgAt(args, 0)) && IsFunction(ArgAt(args, 1)) ==>
      |trace| == 2 && trace[0] == HandlerCreated &&
      trace[1] == match RequestFrom(ArgAt(args, 0))
                  case Success(request) => ExecuteDispatched(request)
                  case Failure(message) => Threw(message)
  {
    if !IsObject(ArgAt(args, 0)) {
      trace := [Threw(EXECUTE_REQUEST_NOT_OBJECT)];
      assert trace[0].Threw?;
      return;
    }
    if !IsFunction(ArgAt(args, 1)) {
      trace := [Threw(EXECUTE_CALLBACK_NOT_FUNCTION)];
      assert trace[0].Threw?;
      return;
    }
    trace := [HandlerCreated];
    var dispatched := CreateRequestAndExecute(ArgAt(args, 0), request => ExecuteDispatched(request));
    match dispatched
    case Success(e) =>
      trace := trace + [e];
      assert IsEngineCall(trace[1]);
    case Failure(message) =>
      trace := trace + [Threw(message)];
      assert !IsEngineCall(trace[0]) && !IsEngineCall(trace[1]) && trace[1].Threw?;
  }

  /** `zone.executeSync(request)`: `engine` is the response the engine
      answers with; the return value is its encoding. */
  method ExecuteSync(args: seq<JsValue>, engine: ExecuteRequest -> ExecuteResponse,
                     parseJson: string -> Option<JsValue>)
    returns (trace: seq<Event>)
    ensures Rejected(trace) <==> !(IsObject(ArgAt(args, 0)) && RequestFrom(ArgAt(args, 0)).Success?)
    ensures ReachesEngine(trace) <==> !Rejected(trace)
    ensures ThrowEndsCall(trace)
    ensures !IsObject(ArgAt(args, 0)) ==> trace == [Threw(EXECUTE_REQUEST_NOT_OBJECT)]
    ensures IsObject(ArgAt(args, 0)) && RequestFrom(ArgAt(args, 0)).Failure? ==>
      trace == [Threw(RequestFrom(ArgAt(args, 0)).error)]
    ensures !Rejected(trace) ==>
      var request := RequestFrom(ArgAt(args, 0)).value;
      trace == [ExecuteSyncCalled(request), Returned(CreateResponseObject(engine(request), parseJson))]
  {
    if !IsObject(ArgAt(args, 0)) {
      trace := [Threw(EXECUTE_REQUEST_NOT_OBJECT)];
      assert trace[0].Threw?;
      return;
    }
    var outcome := CreateRequestAndExecute(ArgAt(args, 0),
      request => [ExecuteSyncCalled(request), Returned(CreateResponseObject(engine(request), parseJson))]);
    match outcome
    case Success(events) =>
      trace := events;
      assert IsEngineCall(trace[0]);
    case Failure(message) =>
      trace := [Threw(message)];
      assert trace[0].Threw?;
  }
}
