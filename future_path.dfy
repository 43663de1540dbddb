/** Properties of the CompletableFuture path (completableFutureInvoke,
    doCompletableFutureInvoke and the whenComplete action). */
module FuturePath {
  import opened Runtime
  import opened Trace
  import opened Engine

  /** The whenComplete action throws from mapResponse, so it delivers nothing. */
  predicate Swallowed(op: SwaggerProducerOperation, inv: Invocation, s: Settlement) {
    s.Normal? && op.responseMapper(inv.status, s.result).Raised?
  }

  /** The whenComplete action signals business-finish once, leaves the context alone, and
      delivers exactly one response (the mapped result, or the translated exception) unless
      mapResponse throws inside it, in which case it delivers none. */
  lemma SettlementShape(op: SwaggerProducerOperation, inv: Invocation, s: Settlement)
    ensures Only(op.OnSettled(inv, s), Lifecycle) == [BusinessFinish]
    ensures Only(op.OnSettled(inv, s), Context) == []
    ensures Swallowed(op, inv, s) ==> Only(op.OnSettled(inv, s), Callback) == []
    ensures s.Normal? && op.responseMapper(inv.status, s.result).Returned? ==>
      Only(op.OnSettled(inv, s), Callback) == [Handle(op.responseMapper(inv.status, s.result).value)]
    ensures s.Exceptional? ==>
      Only(op.OnSettled(inv, s), Callback) == [Handle(op.ProcessException(inv, s.ex))]
  {
    var t := op.OnSettled(inv, s);
    var rest := t[1..];
    assert t == [BusinessFinish] + rest;
    OnlyCons(BusinessFinish, rest, Lifecycle);
    OnlyCons(BusinessFinish, rest, Context);
    OnlyCons(BusinessFinish, rest, Callback);
    match s
    case Normal(result) =>
      var tail := rest[1..];
      assert rest == [MapResponse] + tail;
      OnlyCons(MapResponse, tail, Lifecycle);
      OnlyCons(MapResponse, tail, Context);
      OnlyCons(MapResponse, tail, Callback);
      if tail != [] {
        OnlySingle(tail[0], Lifecycle);
        OnlySingle(tail[0], Context);
        OnlySingle(tail[0], Callback);
        assert tail == [tail[0]];
      }
    case Exceptional(ex) =>
      OnlySingle(rest[0], Lifecycle);
      OnlySingle(rest[0], Context);
      OnlySingle(rest[0], Callback);
      assert rest == [rest[0]];
  }

  /** A catch block signals method-finish, then business-finish. */
  lemma CaughtSignals(op: SwaggerProducerOperation, inv: Invocation, e: Throwable)
    ensures Only(op.Caught(inv, e), Lifecycle) == [BusinessMethodFinish, BusinessFinish]
  {
    var h := Handle(op.CatchResponse(inv, e));
    assert op.Caught(inv, e) == [BusinessMethodFinish] + ([BusinessFinish] + [h]);
    OnlyCons(BusinessMethodFinish, [BusinessFinish] + [h], Lifecycle);
    OnlyCons(BusinessFinish, [h], Lifecycle);
    OnlySingle(h, Lifecycle);
  }

  /** A catch block delivers the translated failure once and leaves the context alone. */
  lemma CaughtDelivers(op: SwaggerProducerOperation, inv: Invocation, e: Throwable)
    ensures Only(op.Caught(inv, e), Boundary) == [Handle(op.CatchResponse(inv, e))]
  {
    var h := Handle(op.CatchResponse(inv, e));
    assert op.Caught(inv, e) == [BusinessMethodFinish] + ([BusinessFinish] + [h]);
    OnlyCons(BusinessMethodFinish, [BusinessFinish] + [h], Boundary);
    OnlyCons(BusinessFinish, [h], Boundary);
    OnlySingle(h, Boundary);
  }

  lemma CaughtHidesContext(op: SwaggerProducerOperation, inv: Invocation, e: Throwable)
    ensures Only(op.Caught(inv, e), Context) == []
  {
    var h := Handle(op.CatchResponse(inv, e));
    assert op.Caught(inv, e) == [BusinessMethodFinish] + ([BusinessFinish] + [h]);
    OnlyCons(BusinessMethodFinish, [BusinessFinish] + [h], Context);
    OnlyCons(BusinessFinish, [h], Context);
    OnlySingle(h, Context);
  }

  /** How each projection sees the context events. */
  lemma ContextProjected()
    ensures Only([SetContext], Lifecycle) == [] && Only([RemoveContext], Lifecycle) == []
    ensures Only([SetContext], Boundary) == [SetContext] && Only([RemoveContext], Boundary) == [RemoveContext]
    ensures Only([SetContext], Callback) == [] && Only([RemoveContext], Callback) == []
    ensures Only([SetContext], Context) == [SetContext] && Only([RemoveContext], Context) == [RemoveContext]
  {
    OnlySingle(SetContext, Context);
    OnlySingle(RemoveContext, Context);
    OnlySingle(SetContext, Lifecycle);
    OnlySingle(RemoveContext, Lifecycle);
    OnlySingle(SetContext, Boundary);
    OnlySingle(RemoveContext, Boundary);
    OnlySingle(SetContext, Callback);
    OnlySingle(RemoveContext, Callback);
  }

  /** How each projection sees the start signal. */
  lemma StartProjected()
    ensures Only([BusinessMethodStart], Lifecycle) == [BusinessMethodStart]
    ensures Only([BusinessMethodStart], Boundary) == [] && Only([BusinessMethodStart], Callback) == []
    ensures Only([BusinessMethodStart], Context) == []
  {
    OnlySingle(BusinessMethodStart, Context);
    OnlySingle(BusinessMethodStart, Lifecycle);
    OnlySingle(BusinessMethodStart, Boundary);
    OnlySingle(BusinessMethodStart, Callback);
  }

  /** After the call, doCompletableFutureInvoke never touches the context. */
  lemma AfterCallHidesContext(op: SwaggerProducerOperation, inv: Invocation, outcome: Outcome<Value>)
    ensures Only(op.AfterCall(inv, outcome).events, Context) == []
    ensures Only(op.AfterCall(inv, outcome).events, Boundary) == Only(op.AfterCall(inv, outcome).events, Callback)
  {
    var after := op.AfterCall(inv, outcome).events;
    assert Only(after, Context) == [] by {
      match outcome
      case Raised(e) =>
        CaughtHidesContext(op, inv, e);
      case Returned(result) =>
        var tail := after[1..];
        assert after == [BusinessMethodFinish] + tail;
        OnlyCons(BusinessMethodFinish, tail, Context);
        match result
        case Future(None) =>
          assert tail == [];
        case Future(Some(s)) =>
          assert tail == op.OnSettled(inv, s);
          SettlementShape(op, inv, s);
        case Null =>
          assert tail == op.Caught(inv, NullPointerException);
          CaughtHidesContext(op, inv, NullPointerException);
        case Obj(_) =>
          assert tail == op.Caught(inv, ClassCastException);
          CaughtHidesContext(op, inv, ClassCastException);
    }
    BoundaryWithoutContext(after);
  }

  /** The call threw: the catch block signals both finishes and delivers the translated failure. */
  lemma AfterCallRaised(op: SwaggerProducerOperation, inv: Invocation, e: Throwable)
    ensures Only(op.AfterCall(inv, Raised(e)).events, Lifecycle) == [BusinessMethodFinish, BusinessFinish]
    ensures Only(op.AfterCall(inv, Raised(e)).events, Boundary) == [Handle(op.CatchResponse(inv, e))]
  {
    CaughtSignals(op, inv, e);
    CaughtDelivers(op, inv, e);
  }

  /** The call returned a pending future: only method-finish is signalled for now. */
  lemma AfterCallPending(op: SwaggerProducerOperation, inv: Invocation)
    ensures Only(op.AfterCall(inv, Returned(Future(None))).events, Lifecycle) == [BusinessMethodFinish]
    ensures Only(op.AfterCall(inv, Returned(Future(None))).events, Boundary) == []
  {
    assert op.AfterCall(inv, Returned(Future(None))).events == [BusinessMethodFinish];
    OnlySingle(BusinessMethodFinish, Lifecycle);
    OnlySingle(BusinessMethodFinish, Boundary);
  }

  /** The call returned a completed future: the action runs at once, after method-finish. */
  lemma AfterCallSettled(op: SwaggerProducerOperation, inv: Invocation, s: Settlement)
    ensures op.AfterCall(inv, Returned(Future(Some(s)))).events == [BusinessMethodFinish] + op.OnSettled(inv, s)
    ensures Only(op.AfterCall(inv, Returned(Future(Some(s)))).events, Lifecycle)
         == [BusinessMethodFinish, BusinessFinish]
    ensures Only(op.AfterCall(inv, Returned(Future(Some(s)))).events, Boundary)
         == Only(op.OnSettled(inv, s), Callback)
  {
    var c := op.OnSettled(inv, s);
    SettlementShape(op, inv, s);
    OnlyCons(BusinessMethodFinish, c, Lifecycle);
    OnlyCons(BusinessMethodFinish, c, Boundary);
    BoundaryWithoutContext(c);
  }

  /** The call returned null or a non-future: the failed cast or dereference sends control to
      the catch block after method-finish was already signalled. */
  lemma AfterCallNotAFuture(op: SwaggerProducerOperation, inv: Invocation, result: Value)
    requires result.Null? || result.Obj?
    ensures Only(op.AfterCall(inv, Returned(result)).events, Lifecycle)
         == [BusinessMethodFinish, BusinessMethodFinish, BusinessFinish]
    ensures Only(op.AfterCall(inv, Returned(result)).events, Boundary)
         == [Handle(op.CatchResponse(inv, if result.Null? then NullPointerException else ClassCastException))]
  {
    var e := if result.Null? then NullPointerException else ClassCastException;
    var c := op.Caught(inv, e);
    assert op.AfterCall(inv, Returned(result)).events == [BusinessMethodFinish] + c;
    CaughtSignals(op, inv, e);
    CaughtDelivers(op, inv, e);
    OnlyCons(BusinessMethodFinish, c, Lifecycle);
    OnlyCons(BusinessMethodFinish, c, Boundary);
  }

  /** With no context events, the boundary projection is the handle projection. */
  lemma {:induction false} BoundaryWithoutContext(s: seq<Event>)
    requires Only(s, Context) == []
    ensures Only(s, Boundary) == Only(s, Callback)
  {
    if s != [] {
      OnlyCons(s[0], s[1..], Context);
      OnlyCons(s[0], s[1..], Boundary);
      OnlyCons(s[0], s[1..], Callback);
      assert s == [s[0]] + s[1..];
      BoundaryWithoutContext(s[1..]);
    }
  }

  /** The synchronous part of the future path through a projection that ignores collaborator
      calls: context set, start signal, what followed the call, context removed. */
  lemma FutureTraceProjected(op: SwaggerProducerOperation, inv: Invocation, v: View)
    ensures Only(op.FutureTrace(inv), v)
         == Only([SetContext], v) + (Only([BusinessMethodStart], v)
            + (Only(op.AfterCall(inv, op.Attempt(inv).outcome).events, v) + Only([RemoveContext], v)))
  {
    var a := op.Attempt(inv).events;
    var after := op.AfterCall(inv, op.Attempt(inv).outcome).events;
    assert op.FutureTrace(inv) == [SetContext] + (a + (after + [RemoveContext]));
    OnlyConcat([SetContext], a + (after + [RemoveContext]), v);
    OnlyConcat(a, after + [RemoveContext], v);
    OnlyConcat(after, [RemoveContext], v);
    op.AttemptProjection(inv, v);
  }

  /** Mapping, an extension or the call itself throws before a future exists: no continuation
      is registered, the three signals fire once each in order, and the one response is
      delivered inside the context, before it is removed. */
  lemma FutureRaisedBeforeReturn(op: SwaggerProducerOperation, inv: Invocation, e: Throwable)
    requires op.Attempt(inv).outcome == Raised(e)
    ensures !op.FutureOutcome(inv).registered
    ensures Only(op.FutureTrace(inv), Lifecycle) == [BusinessMethodStart, BusinessMethodFinish, BusinessFinish]
    ensures Only(op.FutureTrace(inv), Boundary) == [SetContext, Handle(op.CatchResponse(inv, e)), RemoveContext]
  {
    FutureTraceProjected(op, inv, Lifecycle);
    FutureTraceProjected(op, inv, Boundary);
    AfterCallRaised(op, inv, e);
    ContextProjected();
    StartProjected();
  }

  /** When the arguments mapper throws, no hook runs and the method is not called; the catch
      block delivers inside the context, and an IllegalArgumentException is answered with the
      fixed 400 InvocationException through processException. */
  lemma FutureArgumentsRejected(op: SwaggerProducerOperation, inv: Invocation, e: Throwable)
    requires op.argumentsMapper(inv) == Raised(e)
    ensures !op.FutureOutcome(inv).registered
    ensures op.FutureTrace(inv) == [SetContext, BusinessMethodStart, MapArguments, BusinessMethodFinish,
                                    BusinessFinish, Handle(op.CatchResponse(inv, e)), RemoveContext]
    ensures e == IllegalArgumentException ==>
      op.CatchResponse(inv, e) ==
        op.exceptionFactory(inv, InvocationException(400, "", "Parameters not valid or types not match.", e))
  {
    assert op.Attempt(inv).events == [BusinessMethodStart, MapArguments];
  }

  /** The call returns a pending future: method-finish has fired, business-finish and the
      callback have not, and one continuation waits for settlement. */
  lemma FuturePending(op: SwaggerProducerOperation, inv: Invocation)
    requires op.Attempt(inv).outcome == Returned(Future(None))
    ensures op.FutureOutcome(inv).registered
    ensures Only(op.FutureTrace(inv), Lifecycle) == [BusinessMethodStart, BusinessMethodFinish]
    ensures Only(op.FutureTrace(inv), Boundary) == [SetContext, RemoveContext]
    ensures Only(op.FutureTrace(inv), Callback) == []
  {
    AfterCallPending(op, inv);
    AfterCallHidesContext(op, inv, Returned(Future(None)));
    ContextProjected();
    StartProjected();
    FutureTraceProjected(op, inv, Lifecycle);
    FutureTraceProjected(op, inv, Boundary);
    FutureTraceProjected(op, inv, Callback);
  }

  /** The pending future later settles with s: over the whole call the three signals fire
      once each in order, and the callback receives at most one response, all of it after
      the context was removed. */
  lemma FutureSettledLater(op: SwaggerProducerOperation, inv: Invocation, s: Settlement)
    requires op.Attempt(inv).outcome == Returned(Future(None))
    ensures var t := op.FutureTrace(inv) + op.OnSettled(inv, s);
      && Only(t, Lifecycle) == [BusinessMethodStart, BusinessMethodFinish, BusinessFinish]
      && Only(t, Boundary) == [SetContext, RemoveContext] + Only(op.OnSettled(inv, s), Callback)
      && |Only(t, Callback)| == if Swallowed(op, inv, s) then 0 else 1
  {
    FuturePending(op, inv);
    SettlementShape(op, inv, s);
    var t0 := op.FutureTrace(inv);
    var c := op.OnSettled(inv, s);
    OnlyConcat(t0, c, Lifecycle);
    OnlyConcat(t0, c, Boundary);
    OnlyConcat(t0, c, Callback);
    BoundaryWithoutContext(c);
  }

  /** The call returns a future that is already complete: whenComplete runs the action at
      once, so business-finish and the response come before the context is removed, and no
      continuation is left waiting. */
  lemma FutureAlreadySettled(op: SwaggerProducerOperation, inv: Invocation, s: Settlement)
    requires op.Attempt(inv).outcome == Returned(Future(Some(s)))
    ensures !op.FutureOutcome(inv).registered
    ensures op.FutureTrace(inv)
         == [SetContext] + op.Attempt(inv).events + [BusinessMethodFinish] + op.OnSettled(inv, s) + [RemoveContext]
    ensures Only(op.FutureTrace(inv), Lifecycle) == [BusinessMethodStart, BusinessMethodFinish, BusinessFinish]
    ensures Only(op.FutureTrace(inv), Boundary)
         == [SetContext] + Only(op.OnSettled(inv, s), Callback) + [RemoveContext]
  {
    AfterCallSettled(op, inv, s);
    ContextProjected();
    StartProjected();
    FutureTraceProjected(op, inv, Lifecycle);
    FutureTraceProjected(op, inv, Boundary);
  }

  /** The call returns null: dereferencing it for whenComplete throws a NullPointerException
      after method-finish was signalled, and the catch block signals it a second time. */
  lemma FutureReturnsNull(op: SwaggerProducerOperation, inv: Invocation)
    requires op.Attempt(inv).outcome == Returned(Null)
    ensures !op.FutureOutcome(inv).registered
    ensures Only(op.FutureTrace(inv), Lifecycle)
         == [BusinessMethodStart, BusinessMethodFinish, BusinessMethodFinish, BusinessFinish]
    ensures Only(op.FutureTrace(inv), Boundary)
         == [SetContext, Handle(op.CatchResponse(inv, NullPointerException)), RemoveContext]
  {
    AfterCallNotAFuture(op, inv, Null);
    ContextProjected();
    StartProjected();
    FutureTraceProjected(op, inv, Lifecycle);
    FutureTraceProjected(op, inv, Boundary);
  }

  /** The call returns an object that is not a CompletableFuture: the cast throws a
      ClassCastException after method-finish was signalled, and the catch block signals it a
      second time. */
  lemma FutureReturnsNonFuture(op: SwaggerProducerOperation, inv: Invocation, id: int)
    requires op.Attempt(inv).outcome == Returned(Obj(id))
    ensures !op.FutureOutcome(inv).registered
    ensures Only(op.FutureTrace(inv), Lifecycle)
         == [BusinessMethodStart, BusinessMethodFinish, BusinessMethodFinish, BusinessFinish]
    ensures Only(op.FutureTrace(inv), Boundary)
         == [SetContext, Handle(op.CatchResponse(inv, ClassCastException)), RemoveContext]
  {
    AfterCallNotAFuture(op, inv, Obj(id));
    ContextProjected();
    StartProjected();
    FutureTraceProjected(op, inv, Lifecycle);
    FutureTraceProjected(op, inv, Boundary);
  }

  /** What a completableFutureInvoke call makes observable in all: its synchronous part and,
      when it left a continuation waiting, the whenComplete action once the future settles
      with s. */
  function WholeCall(op: SwaggerProducerOperation, inv: Invocation, s: Settlement): seq<Event>
  {
    op.FutureTrace(inv) + Continuation(op, inv, s)
  }

  function Continuation(op: SwaggerProducerOperation, inv: Invocation, s: Settlement): seq<Event>
  {
    if op.FutureOutcome(inv).registered then op.OnSettled(inv, s) else []
  }

  /** The whenComplete action that ran, if any, threw from mapResponse. */
  predicate NothingDelivered(op: SwaggerProducerOperation, inv: Invocation, s: Settlement)
  {
    match op.Attempt(inv).outcome
    case Returned(Future(None)) => Swallowed(op, inv, s)
    case Returned(Future(Some(settled))) => Swallowed(op, inv, settled)
    case _ => false
  }

  /** On every path the context is set once, first, and removed once, as the last step of the
      synchronous part: neither the catch blocks nor the whenComplete action touch it. */
  lemma FutureContextBracketed(op: SwaggerProducerOperation, inv: Invocation, s: Settlement)
    ensures Only(WholeCall(op, inv, s), Context) == [SetContext, RemoveContext]
    ensures WholeCall(op, inv, s)[0] == SetContext
    ensures var t := op.FutureTrace(inv); t[|t| - 1] == RemoveContext
  {
    var c := Continuation(op, inv, s);
    assert Only(op.FutureTrace(inv), Context) == [SetContext, RemoveContext] by {
      AfterCallHidesContext(op, inv, op.Attempt(inv).outcome);
      ContextProjected();
      StartProjected();
      FutureTraceProjected(op, inv, Context);
    }
    assert Only(c, Context) == [] by {
      SettlementShape(op, inv, s);
    }
    OnlyConcat(op.FutureTrace(inv), c, Context);
  }

  /** On every path the callback receives at most one response; it receives none exactly when
      the whenComplete action that ran swallowed a mapResponse failure. */
  lemma FutureCallbackAtMostOnce(op: SwaggerProducerOperation, inv: Invocation, s: Settlement)
    ensures |Only(WholeCall(op, inv, s), Callback)| == if NothingDelivered(op, inv, s) then 0 else 1
  {
    var outcome := op.Attempt(inv).outcome;
    var after := op.AfterCall(inv, outcome).events;
    var c := Continuation(op, inv, s);
    assert Only(op.FutureTrace(inv), Callback) == Only(after, Boundary) by {
      AfterCallHidesContext(op, inv, outcome);
      ContextProjected();
      StartProjected();
      FutureTraceProjected(op, inv, Callback);
    }
    OnlyConcat(op.FutureTrace(inv), c, Callback);
    SettlementShape(op, inv, s);
    match outcome
    case Raised(e) =>
      AfterCallRaised(op, inv, e);
    case Returned(Future(None)) =>
      AfterCallPending(op, inv);
    case Returned(Future(Some(settled))) =>
      AfterCallSettled(op, inv, settled);
      SettlementShape(op, inv, settled);
    case Returned(Null) =>
      AfterCallNotAFuture(op, inv, Null);
    case Returned(Obj(id)) =>
      AfterCallNotAFuture(op, inv, Obj(id));
  }

  /** Unless the call returned something that is not a CompletableFuture, the three signals
      fire once each, in order, over the whole call. */
  lemma FutureLifecycleOnce(op: SwaggerProducerOperation, inv: Invocation, s: Settlement)
    requires !(op.Attempt(inv).outcome.Returned? && op.Attempt(inv).outcome.value.Null?)
    requires !(op.Attempt(inv).outcome.Returned? && op.Attempt(inv).outcome.value.Obj?)
    ensures Only(WholeCall(op, inv, s), Lifecycle) == [BusinessMethodStart, BusinessMethodFinish, BusinessFinish]
  {
    var c := Continuation(op, inv, s);
    OnlyConcat(op.FutureTrace(inv), c, Lifecycle);
    match op.Attempt(inv).outcome
    case Raised(e) =>
      FutureRaisedBeforeReturn(op, inv, e);
    case Returned(Future(None)) =>
      FutureSettledLater(op, inv, s);
    case Returned(Future(Some(settled))) =>
      FutureAlreadySettled(op, inv, settled);
  }
}
