/** Properties of the synchronous path (syncInvoke and doInvoke). */
module SyncPath {
  import opened Runtime
  import opened Trace
  import opened Engine

  /** A projection that ignores collaborator calls sees doInvoke as its three signals. */
  lemma SyncProjection(op: SwaggerProducerOperation, inv: Invocation, v: View)
    ensures Only(op.SyncOutcome(inv).events, v)
         == Only([BusinessMethodStart] + [BusinessMethodFinish, BusinessFinish], v)
  {
    var a := op.Attempt(inv);
    var finish := [BusinessMethodFinish, BusinessFinish];
    var tail := if a.outcome.Raised? then finish else [MapResponse] + finish;
    assert op.SyncOutcome(inv).events == a.events + tail;
    assert Only(tail, v) == Only(finish, v) by {
      OnlyCons(MapResponse, finish, v);
    }
    op.AttemptProjection(inv, v);
    OnlyConcat(a.events, tail, v);
    OnlyConcat([BusinessMethodStart], finish, v);
  }

  /** doInvoke signals start, method-finish and business-finish once each, in that order,
      on every branch, and touches neither the context nor the callback. */
  lemma SyncOutcomeShape(op: SwaggerProducerOperation, inv: Invocation)
    ensures var d := op.SyncOutcome(inv);
      && Only(d.events, Lifecycle) == [BusinessMethodStart, BusinessMethodFinish, BusinessFinish]
      && Only(d.events, Boundary) == []
  {
    SyncProjection(op, inv, Lifecycle);
    SyncProjection(op, inv, Boundary);
    SignalsProjected();
  }

  lemma SignalsProjected()
    ensures var three := [BusinessMethodStart] + [BusinessMethodFinish, BusinessFinish];
      && Only(three, Lifecycle) == [BusinessMethodStart, BusinessMethodFinish, BusinessFinish]
      && Only(three, Boundary) == []
  {
    OnlyCons(BusinessMethodStart, [BusinessMethodFinish, BusinessFinish], Lifecycle);
    OnlyCons(BusinessMethodFinish, [BusinessFinish], Lifecycle);
    OnlySingle(BusinessFinish, Lifecycle);
    OnlyCons(BusinessMethodStart, [BusinessMethodFinish, BusinessFinish], Boundary);
    OnlyCons(BusinessMethodFinish, [BusinessFinish], Boundary);
    OnlySingle(BusinessFinish, Boundary);
    assert [BusinessMethodFinish, BusinessFinish] == [BusinessMethodFinish] + [BusinessFinish];
  }

  /** On every branch of the synchronous path the lifecycle signals fire once each, in order. */
  lemma SyncLifecycleOnce(op: SwaggerProducerOperation, inv: Invocation)
    ensures Only(op.SyncTrace(inv), Lifecycle) == [BusinessMethodStart, BusinessMethodFinish, BusinessFinish]
  {
    var d := op.SyncOutcome(inv);
    SyncOutcomeShape(op, inv);
    OnlyConcat([SetContext] + d.events, [RemoveContext, Handle(d.response)], Lifecycle);
    OnlyConcat([SetContext], d.events, Lifecycle);
  }

  /** The context is set first and removed once; the callback then receives exactly one
      response, the one doInvoke returned, as the very last event. */
  lemma SyncContextThenHandle(op: SwaggerProducerOperation, inv: Invocation)
    ensures var t := op.SyncTrace(inv);
      && Only(t, Boundary) == [SetContext, RemoveContext, Handle(op.SyncOutcome(inv).response)]
      && t[0] == SetContext
      && t[|t| - 2] == RemoveContext
      && t[|t| - 1] == Handle(op.SyncOutcome(inv).response)
  {
    var d := op.SyncOutcome(inv);
    SyncOutcomeShape(op, inv);
    OnlyConcat([SetContext] + d.events, [RemoveContext, Handle(d.response)], Boundary);
    OnlyConcat([SetContext], d.events, Boundary);
  }

  /** When the arguments mapper throws, no extension runs and the producer method is never
      called; an IllegalArgumentException is answered with the fixed 400 InvocationException. */
  lemma SyncArgumentsRejected(op: SwaggerProducerOperation, inv: Invocation, e: Throwable)
    requires op.argumentsMapper(inv) == Raised(e)
    ensures op.SyncTrace(inv) == [SetContext, BusinessMethodStart, MapArguments, BusinessMethodFinish,
                                  BusinessFinish, RemoveContext, Handle(op.CatchResponse(inv, e))]
    ensures e == IllegalArgumentException ==>
      op.SyncOutcome(inv).response ==
        op.exceptionFactory(inv, InvocationException(400, "", "Parameters not valid or types not match.", e))
  {
  }

  /** A hook that throws skips the later hooks and the producer method; the failure is
      answered like any other. */
  lemma SyncExtensionRaised(op: SwaggerProducerOperation, inv: Invocation, args: Args, e: Throwable)
    requires op.argumentsMapper(inv) == Returned(args)
    requires op.RunHooks(inv, args, |op.producerInvokeExtensionList|).outcome == Raised(e)
    ensures var m := |op.RunHooks(inv, args, |op.producerInvokeExtensionList|).events|;
      && 1 <= m <= |op.producerInvokeExtensionList|
      && op.SyncTrace(inv) == [SetContext] + ([BusinessMethodStart, MapArguments] + ExtensionEvents(m)
                              + [BusinessMethodFinish, BusinessFinish]) + [RemoveContext, Handle(op.CatchResponse(inv, e))]
    ensures CallMethod !in op.SyncTrace(inv)
  {
    var n := |op.producerInvokeExtensionList|;
    var h := op.RunHooks(inv, args, n);
    op.HooksRunInOrder(inv, args, n);
    var a := op.Attempt(inv);
    assert a.events == [BusinessMethodStart, MapArguments] + ExtensionEvents(|h.events|);
    assert op.SyncOutcome(inv).events == a.events + [BusinessMethodFinish, BusinessFinish];
  }

  /** All collaborators return: every hook runs in order before the call, and the callback
      receives mapResponse of the invocation status and the result, computed before both
      finish signals. */
  lemma SyncDelivers(op: SwaggerProducerOperation, inv: Invocation, args: Args, finalArgs: Args,
                     result: Value, r: Response)
    requires op.argumentsMapper(inv) == Returned(args)
    requires op.RunHooks(inv, args, |op.producerInvokeExtensionList|).outcome == Returned(finalArgs)
    requires op.producerMethod.invoke(finalArgs) == Returned(result)
    requires op.responseMapper(inv.status, result) == Returned(r)
    ensures op.SyncTrace(inv) == [SetContext, BusinessMethodStart, MapArguments]
                                 + ExtensionEvents(|op.producerInvokeExtensionList|)
                                 + [CallMethod, MapResponse, BusinessMethodFinish, BusinessFinish,
                                    RemoveContext, Handle(r)]
  {
    op.HooksRunInOrder(inv, args, |op.producerInvokeExtensionList|);
  }

  /** The producer method throws: the failure goes to the catch blocks, no response mapping. */
  lemma SyncMethodRaised(op: SwaggerProducerOperation, inv: Invocation, args: Args, finalArgs: Args,
                         e: Throwable)
    requires op.argumentsMapper(inv) == Returned(args)
    requires op.RunHooks(inv, args, |op.producerInvokeExtensionList|).outcome == Returned(finalArgs)
    requires op.producerMethod.invoke(finalArgs) == Raised(e)
    ensures op.SyncTrace(inv) == [SetContext, BusinessMethodStart, MapArguments]
                                 + ExtensionEvents(|op.producerInvokeExtensionList|)
                                 + [CallMethod, BusinessMethodFinish, BusinessFinish,
                                    RemoveContext, Handle(op.CatchResponse(inv, e))]
  {
    op.HooksRunInOrder(inv, args, |op.producerInvokeExtensionList|);
  }

  /** mapResponse itself throws: that failure is caught and translated like any other. */
  lemma SyncMappingRaised(op: SwaggerProducerOperation, inv: Invocation, args: Args, finalArgs: Args,
                          result: Value, e: Throwable)
    requires op.argumentsMapper(inv) == Returned(args)
    requires op.RunHooks(inv, args, |op.producerInvokeExtensionList|).outcome == Returned(finalArgs)
    requires op.producerMethod.invoke(finalArgs) == Returned(result)
    requires op.responseMapper(inv.status, result) == Raised(e)
    ensures op.SyncTrace(inv) == [SetContext, BusinessMethodStart, MapArguments]
                                 + ExtensionEvents(|op.producerInvokeExtensionList|)
                                 + [CallMethod, MapResponse, BusinessMethodFinish, BusinessFinish,
                                    RemoveContext, Handle(op.CatchResponse(inv, e))]
  {
    op.HooksRunInOrder(inv, args, |op.producerInvokeExtensionList|);
  }
}
