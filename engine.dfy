/** The producer-side operation dispatcher (SwaggerProducerOperation): it adapts the
    invocation's arguments, runs the invoke extensions, calls the bound producer method
    directly or through a CompletableFuture, turns the result or the failure into one
    Response, and hands it to the completion callback. */
module Engine {
  import opened Runtime
  import opened Trace

  /** A ProducerInvokeExtension's beforeMethodInvoke: it sees the invocation and the argument
      array, and either returns (leaving the array's contents as given here) or throws. */
  type Hook = (Invocation, Args) -> Outcome<Args>

  /** The bound producer method: its declared return type and what a reflective call does. */
  datatype ProducerMethod = ProducerMethod(returnType: JavaClass, invoke: Args -> Outcome<Value>)

  /** Events of the extension loop and what it ended with: the final argument contents,
      or the exception that stopped it. */
  datatype HookRun = HookRun(events: seq<Event>, outcome: Outcome<Args>)

  /** Events up to and including the producer-method call, and what that part ended with. */
  datatype Attempted = Attempted(events: seq<Event>, outcome: Outcome<Value>)

  /** Events of doInvoke and the Response it returns. */
  datatype Dispatched = Dispatched(events: seq<Event>, response: Response)

  /** Events of doCompletableFutureInvoke, and whether it left a whenComplete continuation
      waiting on a pending future. */
  datatype FutureRun = FutureRun(events: seq<Event>, registered: bool)

  /** The per-call state the dispatcher acts on: the invocation, the ordered trace of what the
      call has made observable so far (lifecycle signals, context slot, collaborator calls,
      callback deliveries), and the number of registered continuations not yet run. */
  class Call {
    const invocation: Invocation
    var trace: seq<Event>
    var pending: nat

    constructor (invocation: Invocation)
      ensures this.invocation == invocation && trace == [] && pending == 0
    {
      this.invocation := invocation;
      trace := [];
      pending := 0;
    }

    method Emit(e: Event)
      modifies this
      ensures trace == old(trace) + [e] && pending == old(pending)
    {
      trace := trace + [e];
    }

    /** whenComplete on a pending future: the continuation waits for settlement. */
    method Register()
      modifies this
      ensures trace == old(trace) && pending == old(pending) + 1
    {
      pending := pending + 1;
    }

    /** A pending future settles: one waiting continuation is taken to run. */
    method Resume()
      requires pending > 0
      modifies this
      ensures trace == old(trace) && pending == old(pending) - 1
    {
      pending := pending - 1;
    }
  }

  class SwaggerProducerOperation {
    const producerMethod: ProducerMethod
    const argumentsMapper: Invocation -> Outcome<Args>
    const responseMapper: (int, Value) -> Outcome<Response>
    /** producerInvokeExtenstionList, already discovered and sorted. */
    const producerInvokeExtensionList: seq<Hook>
    /** ExceptionFactory.convertExceptionToResponse. */
    const exceptionFactory: (Invocation, Throwable) -> Response

    constructor (producerMethod: ProducerMethod, argumentsMapper: Invocation -> Outcome<Args>,
                 responseMapper: (int, Value) -> Outcome<Response>,
                 producerInvokeExtensionList: seq<Hook>,
                 exceptionFactory: (Invocation, Throwable) -> Response)
      ensures this.producerMethod == producerMethod && this.argumentsMapper == argumentsMapper
      ensures this.responseMapper == responseMapper && this.exceptionFactory == exceptionFactory
      ensures this.producerInvokeExtensionList == producerInvokeExtensionList
    {
      this.producerMethod := producerMethod;
      this.argumentsMapper := argumentsMapper;
      this.responseMapper := responseMapper;
      this.producerInvokeExtensionList := producerInvokeExtensionList;
      this.exceptionFactory := exceptionFactory;
    }

    /** processException: strip one InvocationTargetException, then translate. */
    function ProcessException(inv: Invocation, e: Throwable): Response
    {
      var cause := if e.InvocationTargetException? then e.target else e;
      exceptionFactory(inv, cause)
    }

    /** The response of the two catch blocks: an IllegalArgumentException becomes a fixed
        400 InvocationException, anything else goes to processException as it is. */
    function CatchResponse(inv: Invocation, e: Throwable): Response
    {
      if e.IllegalArgumentException? then ProcessException(inv, BadRequest(e))
      else ProcessException(inv, e)
    }

    /** The extension loop over the first k hooks: each hook gets the array as the previous
        one left it, and the first hook that throws ends the loop. */
    function RunHooks(inv: Invocation, args: Args, k: nat): HookRun
      requires k <= |producerInvokeExtensionList|
    {
      if k == 0 then HookRun([], Returned(args))
      else
        var previous := RunHooks(inv, args, k - 1);
        match previous.outcome
        case Raised(_) => previous
        case Returned(current) =>
          HookRun(previous.events + [Extension(k - 1)], producerInvokeExtensionList[k - 1](inv, current))
    }

    /** Once a hook has thrown, running further hooks changes nothing. */
    lemma {:induction false} RaisedStops(inv: Invocation, args: Args, i: nat, k: nat)
      requires i <= k <= |producerInvokeExtensionList|
      requires RunHooks(inv, args, i).outcome.Raised?
      ensures RunHooks(inv, args, k) == RunHooks(inv, args, i)
      decreases k
    {
      if k > i {
        RaisedStops(inv, args, i, k - 1);
      }
    }

    /** Hooks run in list order from the first; on success every hook ran; on failure the
        run stopped at the first hook that threw, all hooks before it having returned. */
    lemma {:induction false} HooksRunInOrder(inv: Invocation, args: Args, k: nat)
      requires k <= |producerInvokeExtensionList|
      ensures var h := RunHooks(inv, args, k);
        && |h.events| <= k
        && h.events == ExtensionEvents(|h.events|)
        && (h.outcome.Returned? ==> |h.events| == k)
        && (h.outcome.Raised? ==>
              && 1 <= |h.events|
              && RunHooks(inv, args, |h.events| - 1).outcome.Returned?
              && RunHooks(inv, args, |h.events|) == h)
    {
      if k > 0 {
        HooksRunInOrder(inv, args, k - 1);
      }
    }

    /** A hook that returns leaves the argument array's contents as it found them. */
    ghost predicate KeepsArguments(hook: Hook) {
      forall inv, a :: hook(inv, a).Returned? ==> hook(inv, a).value == a
    }

    /** When no hook writes into the argument array, every hook and the producer method see
        exactly the array the arguments mapper produced. */
    lemma {:induction false} HooksShareArguments(inv: Invocation, args: Args, k: nat)
      requires k <= |producerInvokeExtensionList|
      requires forall j :: 0 <= j < |producerInvokeExtensionList| ==> KeepsArguments(producerInvokeExtensionList[j])
      ensures RunHooks(inv, args, k).outcome.Returned? ==> RunHooks(inv, args, k).outcome.value == args
    {
      if k > 0 {
        HooksShareArguments(inv, args, k - 1);
        assert KeepsArguments(producerInvokeExtensionList[k - 1]);
      }
    }

    /** The part of the try block both paths share: start signal, argument mapping, the
        extension loop and the producer-method call. */
    function Attempt(inv: Invocation): Attempted
    {
      var head := [BusinessMethodStart, MapArguments];
      match argumentsMapper(inv)
      case Raised(e) => Attempted(head, Raised(e))
      case Returned(args) =>
        var h := RunHooks(inv, args, |producerInvokeExtensionList|);
        match h.outcome
        case Raised(e) => Attempted(head + h.events, Raised(e))
        case Returned(finalArgs) => Attempted(head + h.events + [CallMethod], producerMethod.invoke(finalArgs))
    }

    /** No view shows the argument mapping, the hook chain or the call: each sees the shared
        part as the start signal alone. */
    lemma AttemptProjection(inv: Invocation, v: View)
      ensures Only(Attempt(inv).events, v) == Only([BusinessMethodStart], v)
    {
      var head := [BusinessMethodStart, MapArguments];
      HeadProjection(v);
      match argumentsMapper(inv)
      case Raised(e) =>
      case Returned(args) =>
        var h := RunHooks(inv, args, |producerInvokeExtensionList|);
        ChainProjection(inv, args, v);
        if h.outcome.Returned? {
          OnlyConcat(head + h.events, [CallMethod], v);
          OnlySingle(CallMethod, v);
        }
    }

    lemma HeadProjection(v: View)
      ensures Only([BusinessMethodStart, MapArguments], v) == Only([BusinessMethodStart], v)
    {
      assert [BusinessMethodStart, MapArguments] == [BusinessMethodStart] + [MapArguments];
      OnlyConcat([BusinessMethodStart], [MapArguments], v);
      OnlySingle(MapArguments, v);
    }

    lemma ChainProjection(inv: Invocation, args: Args, v: View)
      ensures Only([BusinessMethodStart, MapArguments] + RunHooks(inv, args, |producerInvokeExtensionList|).events, v)
           == Only([BusinessMethodStart], v)
    {
      var h := RunHooks(inv, args, |producerInvokeExtensionList|);
      HooksRunInOrder(inv, args, |producerInvokeExtensionList|);
      ExtensionEventsHidden(|h.events|, v);
      OnlyConcat([BusinessMethodStart, MapArguments], h.events, v);
      HeadProjection(v);
    }

    /** The shared part signals only the start and never touches the context or the callback. */
    lemma AttemptShape(inv: Invocation)
      ensures var a := Attempt(inv);
        && Only(a.events, Lifecycle) == [BusinessMethodStart]
        && Only(a.events, Context) == []
        && Only(a.events, Callback) == []
    {
      AttemptProjection(inv, Lifecycle);
      AttemptProjection(inv, Context);
      AttemptProjection(inv, Callback);
      OnlySingle(BusinessMethodStart, Lifecycle);
      OnlySingle(BusinessMethodStart, Context);
      OnlySingle(BusinessMethodStart, Callback);
    }

    /** The shared part begins with the start signal and the argument mapping, and calls the
        producer method exactly when the mapping and every hook returned. */
    lemma AttemptCalls(inv: Invocation)
      ensures var a := Attempt(inv);
        && 2 <= |a.events|
        && a.events[..2] == [BusinessMethodStart, MapArguments]
        && (CallMethod in a.events <==>
              argumentsMapper(inv).Returned? &&
              RunHooks(inv, argumentsMapper(inv).value, |producerInvokeExtensionList|).outcome.Returned?)
    {
      var a := Attempt(inv);
      match argumentsMapper(inv)
      case Raised(e) =>
      case Returned(args) =>
        var h := RunHooks(inv, args, |producerInvokeExtensionList|);
        HooksRunInOrder(inv, args, |producerInvokeExtensionList|);
        ExtensionEventsHidden(|h.events|, Callback);
        if h.outcome.Returned? {
          assert a.events[|a.events| - 1] == CallMethod;
        }
    }

    /** doInvoke: the try block, or a catch block, then the Response it returns. */
    function SyncOutcome(inv: Invocation): Dispatched
    {
      var a := Attempt(inv);
      match a.outcome
      case Raised(e) => Dispatched(a.events + [BusinessMethodFinish, BusinessFinish], CatchResponse(inv, e))
      case Returned(result) =>
        var finished := a.events + [MapResponse, BusinessMethodFinish, BusinessFinish];
        match responseMapper(inv.status, result)
        case Returned(r) => Dispatched(finished, r)
        case Raised(e) => Dispatched(finished, CatchResponse(inv, e))
    }

    /** syncInvoke: doInvoke inside the context, then the one callback delivery. */
    function SyncTrace(inv: Invocation): seq<Event>
    {
      var d := SyncOutcome(inv);
      [SetContext] + d.events + [RemoveContext, Handle(d.response)]
    }

    /** The whenComplete action: business-finish, then the mapped result or the translated
        exception. A throw from mapResponse inside the action completes only the future that
        whenComplete returns, which nothing observes, so no response is delivered. */
    function OnSettled(inv: Invocation, s: Settlement): seq<Event>
    {
      match s
      case Normal(result) =>
        (match responseMapper(inv.status, result)
         case Returned(r) => [BusinessFinish, MapResponse, Handle(r)]
         case Raised(_) => [BusinessFinish, MapResponse])
      case Exceptional(ex) => [BusinessFinish, Handle(ProcessException(inv, ex))]
    }

    /** The events of a catch block in doCompletableFutureInvoke. */
    function Caught(inv: Invocation, e: Throwable): seq<Event>
    {
      [BusinessMethodFinish, BusinessFinish, Handle(CatchResponse(inv, e))]
    }

    /** What doCompletableFutureInvoke does once the call has returned or thrown. The
        method-finish signal follows a return at once. Casting null or a non-future to
        CompletableFuture throws inside the try, so a catch block runs after that signal.
        An already completed future runs the whenComplete action immediately. */
    function AfterCall(inv: Invocation, outcome: Outcome<Value>): FutureRun
    {
      match outcome
      case Raised(e) => FutureRun(Caught(inv, e), false)
      case Returned(result) =>
        match result
        case Future(None) => FutureRun([BusinessMethodFinish], true)
        case Future(Some(s)) => FutureRun([BusinessMethodFinish] + OnSettled(inv, s), false)
        case Null => FutureRun([BusinessMethodFinish] + Caught(inv, NullPointerException), false)
        case Obj(_) => FutureRun([BusinessMethodFinish] + Caught(inv, ClassCastException), false)
    }

    /** doCompletableFutureInvoke. */
    function FutureOutcome(inv: Invocation): FutureRun
    {
      var a := Attempt(inv);
      var after := AfterCall(inv, a.outcome);
      FutureRun(a.events + after.events, after.registered)
    }

    /** completableFutureInvoke: doCompletableFutureInvoke inside the context. */
    function FutureTrace(inv: Invocation): seq<Event>
    {
      [SetContext] + FutureOutcome(inv).events + [RemoveContext]
    }

    /** invoke: the future path exactly when the declared return type is CompletableFuture. */
    function InvokeTrace(inv: Invocation): seq<Event>
    {
      if producerMethod.returnType == CompletableFutureClass then FutureTrace(inv) else SyncTrace(inv)
    }

    function Registered(inv: Invocation): nat
    {
      if producerMethod.returnType == CompletableFutureClass && FutureOutcome(inv).registered then 1 else 0
    }

    method Invoke(call: Call)
      modifies call
      ensures call.trace == old(call.trace) + InvokeTrace(call.invocation)
      ensures call.pending == old(call.pending) + Registered(call.invocation)
    {
      if producerMethod.returnType == CompletableFutureClass {
        CompletableFutureInvoke(call);
        return;
      }
      SyncInvoke(call);
    }

    method CompletableFutureInvoke(call: Call)
      modifies call
      ensures call.trace == old(call.trace) + FutureTrace(call.invocation)
      ensures call.pending == old(call.pending) + (if FutureOutcome(call.invocation).registered then 1 else 0)
    {
      call.Emit(SetContext);
      DoCompletableFutureInvoke(call);
      call.Emit(RemoveContext);
    }

    method DoCompletableFutureInvoke(call: Call)
      modifies call
      ensures call.trace == old(call.trace) + FutureOutcome(call.invocation).events
      ensures call.pending == old(call.pending) + (if FutureOutcome(call.invocation).registered then 1 else 0)
    {
      var result := StartAndCall(call);
      if result.Raised? {
        HandleFailure(call, result.error);
        return;
      }
      call.Emit(BusinessMethodFinish);
      match result.value
      case Future(None) => call.Register();
      case Future(Some(s)) => RunContinuation(call, s);
      case Null => HandleFailure(call, NullPointerException);
      case Obj(_) => HandleFailure(call, ClassCastException);
    }

    /** A catch block of doCompletableFutureInvoke. */
    method HandleFailure(call: Call, e: Throwable)
      modifies call
      ensures call.trace == old(call.trace) + Caught(call.invocation, e)
      ensures call.pending == old(call.pending)
    {
      call.Emit(BusinessMethodFinish);
      call.Emit(BusinessFinish);
      call.Emit(Handle(CatchResponse(call.invocation, e)));
    }

    /** The pending future settles with s and the waiting continuation runs. */
    method Settle(call: Call, s: Settlement)
      requires call.pending > 0
      modifies call
      ensures call.trace == old(call.trace) + OnSettled(call.invocation, s)
      ensures call.pending == old(call.pending) - 1
    {
      call.Resume();
      RunContinuation(call, s);
    }

    /** The body of the whenComplete action. */
    method RunContinuation(call: Call, s: Settlement)
      modifies call
      ensures call.trace == old(call.trace) + OnSettled(call.invocation, s)
      ensures call.pending == old(call.pending)
    {
      var inv := call.invocation;
      call.Emit(BusinessFinish);
      match s
      case Normal(result) =>
        call.Emit(MapResponse);
        var mapped := responseMapper(inv.status, result);
        if mapped.Returned? {
          call.Emit(Handle(mapped.value));
        }
      case Exceptional(ex) =>
        call.Emit(Handle(ProcessException(inv, ex)));
    }

    method SyncInvoke(call: Call)
      modifies call
      ensures call.trace == old(call.trace) + SyncTrace(call.invocation)
      ensures call.pending == old(call.pending)
    {
      call.Emit(SetContext);
      var response := DoInvoke(call);
      call.Emit(RemoveContext);
      call.Emit(Handle(response));
    }

    method DoInvoke(call: Call) returns (response: Response)
      modifies call
      ensures call.trace == old(call.trace) + SyncOutcome(call.invocation).events
      ensures response == SyncOutcome(call.invocation).response
      ensures call.pending == old(call.pending)
    {
      var inv := call.invocation;
      var outcome: Outcome<Response>;
      var result := StartAndCall(call);
      if result.Returned? {
        call.Emit(MapResponse);
        outcome := responseMapper(inv.status, result.value);
      } else {
        outcome := Raised(result.error);
      }
      // The try block and both catch blocks signal the two finish markers in this order.
      call.Emit(BusinessMethodFinish);
      call.Emit(BusinessFinish);
      response := if outcome.Returned? then outcome.value else CatchResponse(inv, outcome.error);
    }

    /** The shared head of both try blocks, up to and including producerMethod.invoke. */
    method StartAndCall(call: Call) returns (result: Outcome<Value>)
      modifies call
      ensures call.trace == old(call.trace) + Attempt(call.invocation).events
      ensures result == Attempt(call.invocation).outcome
      ensures call.pending == old(call.pending)
    {
      var inv := call.invocation;
      call.Emit(BusinessMethodStart);
      call.Emit(MapArguments);
      var mapped := argumentsMapper(inv);
      if mapped.Raised? {
        return Raised(mapped.error);
      }
      var args := mapped.value;
      ghost var before := call.trace;
      var hooks: Outcome<Args> := Returned(args);
      var i := 0;
      while i < |producerInvokeExtensionList| && hooks.Returned?
        invariant i <= |producerInvokeExtensionList|
        invariant call.trace == before + RunHooks(inv, args, i).events
        invariant hooks == RunHooks(inv, args, i).outcome
        invariant call.pending == old(call.pending)
      {
        call.Emit(Extension(i));
        hooks := producerInvokeExtensionList[i](inv, hooks.value);
        i := i + 1;
      }
      if hooks.Raised? {
        RaisedStops(inv, args, i, |producerInvokeExtensionList|);
        return Raised(hooks.error);
      }
      call.Emit(CallMethod);
      result := producerMethod.invoke(hooks.value);
    }
  }
}
