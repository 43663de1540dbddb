/** Properties of invoke's choice of path and of the exception translation both paths share. */
module Dispatch {
  import opened Runtime
  import opened Trace
  import opened Engine
  import opened SyncPath
  import opened FuturePath

  /** invoke sets the context first on both paths. The synchronous path ends with the callback
      delivery; the future path ends by removing the context, and only it can leave a
      continuation waiting. */
  lemma InvokeSelectsPath(op: SwaggerProducerOperation, inv: Invocation)
    ensures var t := op.InvokeTrace(inv);
      && t[0] == SetContext
      && (t[|t| - 1].Handle? <==> op.producerMethod.returnType != CompletableFutureClass)
      && (op.Registered(inv) == 1 ==> op.producerMethod.returnType == CompletableFutureClass)
  {
    if op.producerMethod.returnType == CompletableFutureClass {
      FutureContextBracketed(op, inv, Normal(Null));
    } else {
      SyncContextThenHandle(op, inv);
    }
  }

  /** processException strips exactly one InvocationTargetException layer before translating. */
  lemma ProcessExceptionUnwrapsOnce(op: SwaggerProducerOperation, inv: Invocation, e: Throwable)
    ensures op.ProcessException(inv, InvocationTargetException(e)) == op.exceptionFactory(inv, e)
    ensures !e.InvocationTargetException? ==> op.ProcessException(inv, e) == op.exceptionFactory(inv, e)
    ensures op.ProcessException(inv, InvocationTargetException(InvocationTargetException(e)))
         == op.exceptionFactory(inv, InvocationTargetException(e))
  {
  }

  /** The catch blocks: an IllegalArgumentException that reaches them directly (from the
      arguments mapper, a hook or the reflective argument check on both paths, and from
      mapResponse on the synchronous path) becomes the fixed 400 InvocationException; one
      thrown by the business method arrives wrapped in an InvocationTargetException and is
      translated as itself, not as a 400. */
  lemma CatchTranslation(op: SwaggerProducerOperation, inv: Invocation, e: Throwable)
    ensures op.CatchResponse(inv, IllegalArgumentException)
         == op.exceptionFactory(inv, InvocationException(400, "", "Parameters not valid or types not match.",
                                                         IllegalArgumentException))
    ensures op.CatchResponse(inv, InvocationTargetException(e)) == op.exceptionFactory(inv, e)
    ensures !e.IllegalArgumentException? && !e.InvocationTargetException? ==>
      op.CatchResponse(inv, e) == op.exceptionFactory(inv, e)
  {
  }

  /** Arguments that do not fit are answered alike on both paths: whatever the return type,
      the callback receives exactly one response, the factory's translation of the 400
      InvocationException that carries the fixed message and the original exception. */
  lemma ArgumentsRejectedAlike(op: SwaggerProducerOperation, inv: Invocation)
    requires op.argumentsMapper(inv) == Raised(IllegalArgumentException)
    ensures var r := op.exceptionFactory(inv, InvocationException(400, "", "Parameters not valid or types not match.",
                                                                IllegalArgumentException));
      && Handle(r) in op.InvokeTrace(inv)
      && forall ev :: ev in op.InvokeTrace(inv) && ev.Handle? ==> ev == Handle(r)
    ensures |Only(op.InvokeTrace(inv), Callback)| == 1
  {
    if op.producerMethod.returnType == CompletableFutureClass {
      FutureArgumentsRejected(op, inv, IllegalArgumentException);
      FutureCallbackAtMostOnce(op, inv, Normal(Null));
      assert WholeCall(op, inv, Normal(Null)) == op.FutureTrace(inv);
    } else {
      SyncArgumentsRejected(op, inv, IllegalArgumentException);
      var t := op.SyncTrace(inv);
      SyncContextThenHandle(op, inv);
      CallbackWithinBoundary(t);
      OnlySingle(SetContext, Callback);
      OnlyCons(SetContext, [RemoveContext, Handle(op.SyncOutcome(inv).response)], Callback);
      OnlyCons(RemoveContext, [Handle(op.SyncOutcome(inv).response)], Callback);
      OnlySingle(Handle(op.SyncOutcome(inv).response), Callback);
    }
  }
}
