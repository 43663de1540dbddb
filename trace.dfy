/** The observable history of one call through the dispatcher: lifecycle signals on the
    invocation, the ambient context slot, calls into collaborators and the completion
    callback, as one ordered sequence of events. */
module Trace {
  import opened Runtime

  datatype Event =
    | SetContext            // ContextUtils.setInvocationContext
    | RemoveContext         // ContextUtils.removeInvocationContext
    | BusinessMethodStart   // invocation.onBusinessMethodStart
    | BusinessMethodFinish  // invocation.onBusinessMethodFinish
    | BusinessFinish        // invocation.onBusinessFinish
    | MapArguments          // argumentsMapper.toProducerArgs
    | Extension(index: nat) // producerInvokeExtenstionList[index].beforeMethodInvoke
    | CallMethod            // producerMethod.invoke
    | MapResponse           // responseMapper.mapResponse
    | Handle(response: Response) // asyncResp.handle

  /** The projections the properties are stated through. None of them shows a call into a
      collaborator. */
  datatype View =
    | Lifecycle // the three signals on the invocation
    | Context   // changes to the ambient context slot
    | Callback  // deliveries to the completion callback
    | Boundary  // context changes and deliveries: what bounds a call from the outside

  predicate Shows(v: View, e: Event) {
    match v
    case Lifecycle => e.BusinessMethodStart? || e.BusinessMethodFinish? || e.BusinessFinish?
    case Context => e.SetContext? || e.RemoveContext?
    case Callback => e.Handle?
    case Boundary => e.SetContext? || e.RemoveContext? || e.Handle?
  }

  /** The subsequence of events the view shows, in their original order. */
  function Only(s: seq<Event>, v: View): (r: seq<Event>)
    ensures |r| <= |s|
  {
    if s == [] then [] else (if Shows(v, s[0]) then [s[0]] else []) + Only(s[1..], v)
  }

  /** The hook events of a chain that ran hooks 0 .. n-1, in list order. */
  function ExtensionEvents(n: nat): (r: seq<Event>)
    ensures |r| == n
    ensures forall k :: 0 <= k < n ==> r[k] == Extension(k)
    ensures forall e :: e in r ==> e.Extension?
  {
    if n == 0 then [] else ExtensionEvents(n - 1) + [Extension(n - 1)]
  }

  lemma {:induction false} OnlyConcat(a: seq<Event>, b: seq<Event>, v: View)
    ensures Only(a + b, v) == Only(a, v) + Only(b, v)
    decreases |a|
  {
    if a == [] {
      assert a + b == b;
    } else {
      var rest := a[1..];
      assert a == [a[0]] + rest;
      assert a + b == [a[0]] + (rest + b);
      OnlyCons(a[0], rest + b, v);
      OnlyCons(a[0], rest, v);
      OnlyConcat(rest, b, v);
    }
  }

  lemma OnlySingle(e: Event, v: View)
    ensures Only([e], v) == if Shows(v, e) then [e] else []
  {
    assert [e][1..] == [];
  }

  lemma OnlyCons(e: Event, s: seq<Event>, v: View)
    ensures Only([e] + s, v) == (if Shows(v, e) then [e] else []) + Only(s, v)
  {
    assert ([e] + s)[0] == e;
    assert ([e] + s)[1..] == s;
  }

  /** Every delivery is a boundary event, so the callback view sees within the boundary view
      exactly what it sees in the whole trace. */
  lemma {:induction false} CallbackWithinBoundary(s: seq<Event>)
    ensures Only(Only(s, Boundary), Callback) == Only(s, Callback)
  {
    if s != [] {
      assert s == [s[0]] + s[1..];
      OnlyCons(s[0], s[1..], Boundary);
      OnlyCons(s[0], s[1..], Callback);
      var head := if Shows(Boundary, s[0]) then [s[0]] else [];
      OnlyConcat(head, Only(s[1..], Boundary), Callback);
      if Shows(Boundary, s[0]) {
        OnlySingle(s[0], Callback);
      }
      CallbackWithinBoundary(s[1..]);
    }
  }

  /** No view shows anything of a hook chain. */
  lemma {:induction false} ExtensionEventsHidden(n: nat, v: View)
    ensures Only(ExtensionEvents(n), v) == []
  {
    if n > 0 {
      ExtensionEventsHidden(n - 1, v);
      OnlyConcat(ExtensionEvents(n - 1), [Extension(n - 1)], v);
      OnlySingle(Extension(n - 1), v);
    }
  }
}
