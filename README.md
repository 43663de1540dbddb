# Producer operation dispatch

A verified model of `SwaggerProducerOperation`, the object through which the ServiceComb
Java Chassis runtime calls a producer (server-side) business method. For one invocation it
sets the per-thread invocation context. It turns the swagger-level arguments into the
method's argument array and runs the registered invoke extensions over that array. It then
calls the method, either directly or, when the method returns a `CompletableFuture`, through
a continuation on that future. The result or the failure becomes one `Response` for the
caller's completion callback. Along the way it signals business-method start, business-method
finish and business finish on the invocation.

The model records everything observable as an ordered trace of events
(`trace.dfy`): the three lifecycle signals, setting and removing the context, calls into the
collaborators (arguments mapper, each extension, the method, the response mapper) and each
delivery to the callback. The operations are methods of the class
`SwaggerProducerOperation` (`engine.dfy`). They append to the trace of a `Call` and keep a
count of continuations waiting on a pending future. Each method is proved against a
specification function of the invocation: `SyncTrace`, `FutureTrace`, `OnSettled`, and so on.
The properties are then proved about those functions: `sync_path.dfy` for
`syncInvoke`/`doInvoke`, `future_path.dfy` for the future path, and `dispatch.dfy` for the
path choice and the exception translation. The collaborators are function-valued fields:
the arguments mapper, each extension's `beforeMethodInvoke`, the reflective call
`producerMethod.invoke`, the response mapper and `ExceptionFactory.convertExceptionToResponse`.
Each of them except the exception factory either returns or throws. The factory always
returns a `Response`.

Behaviour of the source that the model keeps as written, and proves:

- In `doInvoke`, an `IllegalArgumentException` from any step inside the try block is
  answered with the fixed 400 `InvocationException`. The steps are the arguments mapper, an
  extension, the reflective argument check and `mapResponse`. In `doCompletableFutureInvoke`
  only the arguments mapper, an extension and the reflective argument check reach that
  branch. There `mapResponse` runs inside the `whenComplete` action, and the future absorbs
  its failure (see the next bullet but one). Both paths answer rejected arguments with the
  same response (`Dispatch.ArgumentsRejectedAlike`). One thrown by the business method
  itself arrives wrapped in an `InvocationTargetException`, so `processException` unwraps it
  and translates it as itself (`Dispatch.CatchTranslation`).
- On the future path a method that returns `null` throws only after
  `onBusinessMethodFinish` was signalled. The catch block then signals it a second time
  (`FuturePath.FutureReturnsNull`). The same happens with a non-future result
  (`FuturePath.FutureReturnsNonFuture`), but `invoke` cannot produce one. It takes the future
  path only when the declared return type is `CompletableFuture`, so the reflective call
  returns null or a future. The `ClassCastException` case arises only when the public
  `completableFutureInvoke` or `doCompletableFutureInvoke` is called directly for a method
  with another return type.
- If `mapResponse` throws inside the `whenComplete` action, the exception completes only the
  future that `whenComplete` returns, which nobody observes, so the callback never receives a
  response (`FuturePath.FutureSettledLater`, `FuturePath.FutureCallbackAtMostOnce`).
- A future that is already complete runs the action inline: the response is delivered
  before the context is removed (`FuturePath.FutureAlreadySettled`). For a pending future it
  is delivered afterwards.

## Model

| member | source | states |
|---|---|---|
| Engine.Call.Register | swagger/swagger-invocation/invocation-core/src/main/java/org/apache/servicecomb/swagger/engine/SwaggerProducerOperation.java:154 | whenComplete on a pending future leaves one more continuation waiting and records nothing yet |
| Engine.Call.Resume | swagger/swagger-invocation/invocation-core/src/main/java/org/apache/servicecomb/swagger/engine/SwaggerProducerOperation.java:154 | settling a pending future takes one waiting continuation; it needs one to be waiting |
| Engine.SwaggerProducerOperation.constructor | swagger/swagger-invocation/invocation-core/src/main/java/org/apache/servicecomb/swagger/engine/SwaggerProducerOperation.java:59-64 | the operation holds the arguments mapper, the response mapper, the bound method and the sorted extension list it was given |
| Engine.SwaggerProducerOperation.ProcessException | swagger/swagger-invocation/invocation-core/src/main/java/org/apache/servicecomb/swagger/engine/SwaggerProducerOperation.java:221-227 | processException: strips one InvocationTargetException layer and hands the rest to the exception factory (proved in Dispatch.ProcessExceptionUnwrapsOnce) |
| Engine.SwaggerProducerOperation.CatchResponse | swagger/swagger-invocation/invocation-core/src/main/java/org/apache/servicecomb/swagger/engine/SwaggerProducerOperation.java:163-216 | the response every catch block builds, on the future path (163-176) and in doInvoke (202-216): the 400 InvocationException for a direct IllegalArgumentException, processException of the exception otherwise (proved in Dispatch.CatchTranslation) |
| Engine.SwaggerProducerOperation.RaisedStops | swagger/swagger-invocation/invocation-core/src/main/java/org/apache/servicecomb/swagger/engine/SwaggerProducerOperation.java:147-149 | once a hook has thrown the loop is left, so considering more hooks changes neither the events nor the exception |
| Engine.SwaggerProducerOperation.HooksRunInOrder | swagger/swagger-invocation/invocation-core/src/main/java/org/apache/servicecomb/swagger/engine/SwaggerProducerOperation.java:147-149 | hooks run in list order starting from the first; if all return, every hook ran; if one throws, it is the first that threw, every earlier hook returned and no later hook ran |
| Engine.SwaggerProducerOperation.HooksShareArguments | swagger/swagger-invocation/invocation-core/src/main/java/org/apache/servicecomb/swagger/engine/SwaggerProducerOperation.java:146-148 | all hooks receive the one array the arguments mapper built, so when no hook writes into it the producer method receives exactly the mapped arguments |
| Engine.SwaggerProducerOperation.AttemptProjection | swagger/swagger-invocation/invocation-core/src/main/java/org/apache/servicecomb/swagger/engine/SwaggerProducerOperation.java:143-151 | apart from calls into collaborators, the shared head of both try blocks is just the start signal, on every branch |
| Engine.SwaggerProducerOperation.AttemptShape | swagger/swagger-invocation/invocation-core/src/main/java/org/apache/servicecomb/swagger/engine/SwaggerProducerOperation.java:144-151 | the shared head signals start once and touches neither the context nor the callback |
| Engine.SwaggerProducerOperation.AttemptCalls | swagger/swagger-invocation/invocation-core/src/main/java/org/apache/servicecomb/swagger/engine/SwaggerProducerOperation.java:144-151 | the shared head starts with the start signal and the argument mapping, and calls the producer method exactly when the mapper and every hook returned |
| Engine.SwaggerProducerOperation.Invoke | swagger/swagger-invocation/invocation-core/src/main/java/org/apache/servicecomb/swagger/engine/SwaggerProducerOperation.java:126-133 | invoke appends the future-path trace exactly when the declared return type is CompletableFuture and the synchronous trace otherwise, and leaves a continuation waiting only on the future path |
| Engine.SwaggerProducerOperation.CompletableFutureInvoke | swagger/swagger-invocation/invocation-core/src/main/java/org/apache/servicecomb/swagger/engine/SwaggerProducerOperation.java:135-139 | sets the context, runs doCompletableFutureInvoke, removes the context |
| Engine.SwaggerProducerOperation.DoCompletableFutureInvoke | swagger/swagger-invocation/invocation-core/src/main/java/org/apache/servicecomb/swagger/engine/SwaggerProducerOperation.java:142-178 | appends the try block or a catch block as the call turned out: a pending future registers one continuation, a completed one runs the action at once, a throw, null or a non-future goes to a catch block |
| Engine.SwaggerProducerOperation.HandleFailure | swagger/swagger-invocation/invocation-core/src/main/java/org/apache/servicecomb/swagger/engine/SwaggerProducerOperation.java:163-177 | a catch block signals method-finish, then business-finish, then delivers the translated failure, with the 400 translation for an IllegalArgumentException |
| Engine.SwaggerProducerOperation.Settle | swagger/swagger-invocation/invocation-core/src/main/java/org/apache/servicecomb/swagger/engine/SwaggerProducerOperation.java:154-162 | when the pending future settles, the waiting continuation is consumed and the whenComplete action runs |
| Engine.SwaggerProducerOperation.RunContinuation | swagger/swagger-invocation/invocation-core/src/main/java/org/apache/servicecomb/swagger/engine/SwaggerProducerOperation.java:155-161 | the whenComplete action signals business-finish, then delivers the mapped result, or the processed exception, or nothing when mapResponse throws |
| Engine.SwaggerProducerOperation.SyncInvoke | swagger/swagger-invocation/invocation-core/src/main/java/org/apache/servicecomb/swagger/engine/SwaggerProducerOperation.java:180-185 | sets the context, runs doInvoke, removes the context and only then hands doInvoke's response to the callback |
| Engine.SwaggerProducerOperation.DoInvoke | swagger/swagger-invocation/invocation-core/src/main/java/org/apache/servicecomb/swagger/engine/SwaggerProducerOperation.java:187-219 | runs the try block or a catch block and returns the mapped result or the translated failure |
| Engine.SwaggerProducerOperation.StartAndCall | swagger/swagger-invocation/invocation-core/src/main/java/org/apache/servicecomb/swagger/engine/SwaggerProducerOperation.java:189-197 | signals start, maps the arguments, runs the hooks in order until one throws, and calls the producer method only if everything before it returned |
| SyncPath.SyncProjection | swagger/swagger-invocation/invocation-core/src/main/java/org/apache/servicecomb/swagger/engine/SwaggerProducerOperation.java:187-219 | apart from collaborator calls, every branch of doInvoke is the start, method-finish and business-finish signals |
| SyncPath.SyncOutcomeShape | swagger/swagger-invocation/invocation-core/src/main/java/org/apache/servicecomb/swagger/engine/SwaggerProducerOperation.java:187-219 | doInvoke signals start, method-finish and business-finish once each in that order on every branch, and touches neither the context nor the callback |
| SyncPath.SyncLifecycleOnce | swagger/swagger-invocation/invocation-core/src/main/java/org/apache/servicecomb/swagger/engine/SwaggerProducerOperation.java:180-219 | over a whole synchronous call the three signals fire exactly once each, in order |
| SyncPath.SyncContextThenHandle | swagger/swagger-invocation/invocation-core/src/main/java/org/apache/servicecomb/swagger/engine/SwaggerProducerOperation.java:180-185 | the context is set first and removed once, then the callback receives exactly one response, the one doInvoke returned, as the last event |
| SyncPath.SyncArgumentsRejected | swagger/swagger-invocation/invocation-core/src/main/java/org/apache/servicecomb/swagger/engine/SwaggerProducerOperation.java:202-210 | when the arguments mapper throws, no hook runs and the method is not called; an IllegalArgumentException is answered with the 400 InvocationException through processException |
| SyncPath.SyncExtensionRaised | swagger/swagger-invocation/invocation-core/src/main/java/org/apache/servicecomb/swagger/engine/SwaggerProducerOperation.java:193-195 | a hook that throws skips the later hooks and the producer method; the failure is translated by the catch blocks |
| SyncPath.SyncDelivers | swagger/swagger-invocation/invocation-core/src/main/java/org/apache/servicecomb/swagger/engine/SwaggerProducerOperation.java:197-201 | when every collaborator returns, all hooks run before the call and the response is mapResponse of the invocation status and the result, computed before both finish signals |
| SyncPath.SyncMethodRaised | swagger/swagger-invocation/invocation-core/src/main/java/org/apache/servicecomb/swagger/engine/SwaggerProducerOperation.java:211-216 | when the producer method throws, there is no response mapping and the callback receives the translated exception |
| SyncPath.SyncMappingRaised | swagger/swagger-invocation/invocation-core/src/main/java/org/apache/servicecomb/swagger/engine/SwaggerProducerOperation.java:198-216 | when mapResponse throws, the finish signals still fire once and the callback receives the translated exception |
| FuturePath.SettlementShape | swagger/swagger-invocation/invocation-core/src/main/java/org/apache/servicecomb/swagger/engine/SwaggerProducerOperation.java:154-162 | the whenComplete action signals business-finish once, leaves the context alone, and delivers the mapped result or the processed exception, or nothing when mapResponse throws inside it |
| FuturePath.CaughtSignals | swagger/swagger-invocation/invocation-core/src/main/java/org/apache/servicecomb/swagger/engine/SwaggerProducerOperation.java:171-176 | a catch block signals method-finish, then business-finish |
| FuturePath.CaughtDelivers | swagger/swagger-invocation/invocation-core/src/main/java/org/apache/servicecomb/swagger/engine/SwaggerProducerOperation.java:163-176 | a catch block delivers exactly one response, the translated failure, and does not touch the context |
| FuturePath.CaughtHidesContext | swagger/swagger-invocation/invocation-core/src/main/java/org/apache/servicecomb/swagger/engine/SwaggerProducerOperation.java:163-176 | a catch block never sets or removes the context |
| FuturePath.AfterCallHidesContext | swagger/swagger-invocation/invocation-core/src/main/java/org/apache/servicecomb/swagger/engine/SwaggerProducerOperation.java:151-177 | after the producer method is called, doCompletableFutureInvoke never touches the context |
| FuturePath.AfterCallRaised | swagger/swagger-invocation/invocation-core/src/main/java/org/apache/servicecomb/swagger/engine/SwaggerProducerOperation.java:163-177 | a throw before a future exists signals both finishes and delivers the translated failure |
| FuturePath.AfterCallPending | swagger/swagger-invocation/invocation-core/src/main/java/org/apache/servicecomb/swagger/engine/SwaggerProducerOperation.java:151-154 | a pending future: only method-finish is signalled for now and nothing is delivered |
| FuturePath.AfterCallSettled | swagger/swagger-invocation/invocation-core/src/main/java/org/apache/servicecomb/swagger/engine/SwaggerProducerOperation.java:151-162 | a completed future: method-finish, then the whenComplete action runs at once |
| FuturePath.AfterCallNotAFuture | swagger/swagger-invocation/invocation-core/src/main/java/org/apache/servicecomb/swagger/engine/SwaggerProducerOperation.java:151-154 | null or a non-future result: method-finish is signalled, then the failed cast or dereference signals method-finish again and delivers the translated NullPointerException or ClassCastException |
| FuturePath.FutureTraceProjected | swagger/swagger-invocation/invocation-core/src/main/java/org/apache/servicecomb/swagger/engine/SwaggerProducerOperation.java:135-139 | apart from collaborator calls, a future-path call is the context set, the start signal, what followed the call, and the context removed |
| FuturePath.FutureRaisedBeforeReturn | swagger/swagger-invocation/invocation-core/src/main/java/org/apache/servicecomb/swagger/engine/SwaggerProducerOperation.java:163-177 | a throw before a future exists: nothing is left waiting, the three signals fire once in order, and the response is delivered before the context is removed |
| FuturePath.FutureArgumentsRejected | swagger/swagger-invocation/invocation-core/src/main/java/org/apache/servicecomb/swagger/engine/SwaggerProducerOperation.java:163-170 | when the arguments mapper throws on the future path, no hook runs, the method is not called, nothing is left waiting, and the translated failure is delivered inside the context; an IllegalArgumentException is answered with the 400 InvocationException carrying the fixed message |
| FuturePath.FuturePending | swagger/swagger-invocation/invocation-core/src/main/java/org/apache/servicecomb/swagger/engine/SwaggerProducerOperation.java:151-154 | a pending future: one continuation is left waiting, only start and method-finish have fired, and nothing has been delivered when the context is removed |
| FuturePath.FutureSettledLater | swagger/swagger-invocation/invocation-core/src/main/java/org/apache/servicecomb/swagger/engine/SwaggerProducerOperation.java:154-162 | a pending future that later settles: over the whole call the signals fire once in order, and at most one response arrives, after the context was removed; none arrives exactly when mapResponse threw inside the action |
| FuturePath.FutureAlreadySettled | swagger/swagger-invocation/invocation-core/src/main/java/org/apache/servicecomb/swagger/engine/SwaggerProducerOperation.java:151-162 | an already completed future: the action runs inline, so business-finish and the response come before the context is removed, and nothing is left waiting |
| FuturePath.FutureReturnsNull | swagger/swagger-invocation/invocation-core/src/main/java/org/apache/servicecomb/swagger/engine/SwaggerProducerOperation.java:151-154 | a null result: method-finish is signalled twice and the callback receives the translated NullPointerException |
| FuturePath.FutureReturnsNonFuture | swagger/swagger-invocation/invocation-core/src/main/java/org/apache/servicecomb/swagger/engine/SwaggerProducerOperation.java:154 | a non-future result: method-finish is signalled twice and the callback receives the translated ClassCastException |
| FuturePath.FutureContextBracketed | swagger/swagger-invocation/invocation-core/src/main/java/org/apache/servicecomb/swagger/engine/SwaggerProducerOperation.java:135-139 | on every future-path call the context is set first and removed once, as the last step of the synchronous part; neither a catch block nor the whenComplete action touches it |
| FuturePath.FutureCallbackAtMostOnce | swagger/swagger-invocation/invocation-core/src/main/java/org/apache/servicecomb/swagger/engine/SwaggerProducerOperation.java:154-176 | on every future-path call the callback receives at most one response, and none exactly when the action that ran threw from mapResponse |
| FuturePath.FutureLifecycleOnce | swagger/swagger-invocation/invocation-core/src/main/java/org/apache/servicecomb/swagger/engine/SwaggerProducerOperation.java:142-178 | unless the method returned null or a non-future, the three signals fire exactly once each, in order, over the whole future-path call |
| Dispatch.InvokeSelectsPath | swagger/swagger-invocation/invocation-core/src/main/java/org/apache/servicecomb/swagger/engine/SwaggerProducerOperation.java:126-133 | both paths set the context first; the trace ends with the callback delivery exactly when the return type is not CompletableFuture, and only the future path can leave a continuation waiting |
| Dispatch.ProcessExceptionUnwrapsOnce | swagger/swagger-invocation/invocation-core/src/main/java/org/apache/servicecomb/swagger/engine/SwaggerProducerOperation.java:221-227 | processException strips exactly one InvocationTargetException layer before the exception factory translates it |
| Dispatch.CatchTranslation | swagger/swagger-invocation/invocation-core/src/main/java/org/apache/servicecomb/swagger/engine/SwaggerProducerOperation.java:202-216 | an IllegalArgumentException thrown directly becomes the 400 InvocationException; one from business code arrives wrapped, is unwrapped and translated as itself; anything else goes to the factory unchanged |
| Dispatch.ArgumentsRejectedAlike | swagger/swagger-invocation/invocation-core/src/main/java/org/apache/servicecomb/swagger/engine/SwaggerProducerOperation.java:208-210 | whatever the return type, arguments the mapper rejects with an IllegalArgumentException yield exactly one callback response: the factory's translation of the 400 InvocationException with the fixed message and the original exception as cause |

## Left out

- Reflection: `producerMethod.invoke` is a collaborator function from the argument array to an outcome. Exceptions thrown by the business method are given as `InvocationTargetException`-wrapped, as `Method.invoke` delivers them.
- The model does not tie the reflective call's result to the declared return type: on the future path it admits a non-future result, which `invoke` itself never produces (a method declared to return `CompletableFuture` returns null or a future).
- Threads and `CompletableFuture` internals: a pending future's settlement is a separate step (`Settle`) that may come at any later time. Concurrent settlement during `whenComplete`, and the thread that runs the action, are not modelled.
- The `ThreadLocal` behind `ContextUtils` is reduced to two events, setting and removing the context. Any context already present on the thread is not modelled.
- Logging (`LOGGER.error`) has no observable effect in the model.
- The lifecycle signals (`onBusinessMethodStart`, `onBusinessMethodFinish`, `onBusinessFinish`), `getStatus` and the two `ContextUtils` calls are taken never to throw. If, say, `onBusinessFinish` threw inside a try block, the generic catch would signal both finishes again, so the once-each lifecycle lemmas rest on this.
- The internals of the arguments mapper, the response mapper, the extensions and `ExceptionFactory` are not part of this model. They are parameters that return or throw. A translator or a callback that itself throws is not modelled.
- `SPIServiceUtils.getSortedService` discovery and sorting: the extension list is given already sorted, through the constructor.
- Getters and setters of the operation (operation id, producer class, swagger operation, parameter types) are plain field access. The constructor stands in for the setters that wire the mappers and the method.
- Status changes that business code makes through the context during the call: `invocation.getStatus()` is read from the invocation as it was passed in.
- The producer instance's own state: calling the method changes nothing the model tracks.
- `CompletionException` wrapping: the exception the action receives is the one the future was completed with.
