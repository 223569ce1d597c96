/** The per-screen listener registry and the fan-out of a state-change
    notification to `change`, `focus` and `blur` listeners. */
module Listeners {
  import opened Js
  import opened Routes

  datatype ListenerName = Focus | Blur | Change

  /** A callback, identified by reference. */
  type CallbackId = nat

  /** `_listeners`: an ordered list of callbacks per event name; a name that was
      never added has no list. */
  type Registry = map<ListenerName, seq<CallbackId>>

  /** One call of a listener: the event it was registered for, the callback, and
      its argument (`change` listeners get the new state, the others nothing). */
  datatype Invocation = Invocation(event: ListenerName, callback: CallbackId, arg: Option<Route>)

  /** The list for `name`; an absent list fires nothing, like an empty one. */
  function ListOf(listeners: Registry, name: ListenerName): seq<CallbackId> {
    if name in listeners then listeners[name] else []
  }

  /** `cbs.filter(cb => cb !== callback)`. */
  function Without(cbs: seq<CallbackId>, callback: CallbackId): (r: seq<CallbackId>)
    ensures callback !in r
    ensures |r| <= |cbs|
    ensures forall c :: c != callback ==> multiset(r)[c] == multiset(cbs)[c]
  {
    if cbs == [] then []
    else
      assert cbs == [cbs[0]] + cbs[1..];
      if cbs[0] == callback then Without(cbs[1..], callback)
      else [cbs[0]] + Without(cbs[1..], callback)
  }

  /** Filtering keeps order: it works on the two halves of a list separately. */
  lemma {:induction false} WithoutDistributes(a: seq<CallbackId>, b: seq<CallbackId>, callback: CallbackId)
    ensures Without(a + b, callback) == Without(a, callback) + Without(b, callback)
  {
    if a == [] {
      assert a + b == b;
    } else {
      assert (a + b)[0] == a[0];
      assert (a + b)[1..] == a[1..] + b;
      WithoutDistributes(a[1..], b, callback);
    }
  }

  /** Removing a callback that is not registered changes nothing. */
  lemma {:induction false} WithoutAbsent(cbs: seq<CallbackId>, callback: CallbackId)
    requires callback !in cbs
    ensures Without(cbs, callback) == cbs
  {
    if cbs != [] {
      WithoutAbsent(cbs[1..], callback);
    }
  }

  /** The calls made by `cbs.forEach(cb => cb(arg))`, in list order. */
  function Calls(name: ListenerName, cbs: seq<CallbackId>, arg: Option<Route>): seq<Invocation> {
    seq(|cbs|, i requires 0 <= i < |cbs| => Invocation(name, cbs[i], arg))
  }

  /** Each callback is called as often as it is listed. */
  lemma {:induction false} CallsCount(name: ListenerName, cbs: seq<CallbackId>, arg: Option<Route>, cb: CallbackId)
    ensures multiset(Calls(name, cbs, arg))[Invocation(name, cb, arg)] == multiset(cbs)[cb]
  {
    if cbs != [] {
      assert cbs == [cbs[0]] + cbs[1..];
      assert Calls(name, cbs, arg) == [Invocation(name, cbs[0], arg)] + Calls(name, cbs[1..], arg);
      CallsCount(name, cbs[1..], arg, cb);
    }
  }

  /** `cbs.forEach(cb => cb(arg))`, returning the calls it makes. */
  method Fire(name: ListenerName, cbs: seq<CallbackId>, arg: Option<Route>) returns (fired: seq<Invocation>)
    ensures fired == Calls(name, cbs, arg)
  {
    fired := [];
    for i := 0 to |cbs|
      invariant |fired| == i
      invariant forall j :: 0 <= j < i ==> fired[j] == Invocation(name, cbs[j], arg)
    {
      fired := fired + [Invocation(name, cbs[i], arg)];
    }
  }

  /** The screen is focused when the notified state's active child is its own
      route state; an index outside `routes` reads `undefined`, which is not. */
  predicate Focused(state: Route, own: Route)
    ensures Focused(state, own) <==> state.Container? && 0 <= state.index < |state.routes| && state.routes[state.index] == own
    ensures Focused(state, own) ==> state.Container? && own in state.routes
    ensures !state.Container? ==> !Focused(state, own)
  {
    state.Container? && 0 <= state.index < |state.routes| && state.routes[state.index] == own
  }

  /** Every call one notification makes: all `change` listeners with the new
      state, then the `focus` or else the `blur` listeners. A state without
      `routes` throws before any listener runs. */
  function FanOut(listeners: Registry, state: Route, own: Route): (r: Outcome<seq<Invocation>>)
    ensures r.Threw? <==> !state.Container?
    ensures r.Ok? ==> |r.value| == |ListOf(listeners, Change)|
                      + if Focused(state, own) then |ListOf(listeners, Focus)| else |ListOf(listeners, Blur)|
  {
    if !state.Container? then Threw
    else
      var changes := Calls(Change, ListOf(listeners, Change), Some(state));
      if Focused(state, own) then Ok(changes + Calls(Focus, ListOf(listeners, Focus), None))
      else Ok(changes + Calls(Blur, ListOf(listeners, Blur), None))
  }

  /** Change listeners come first, each once and in order; after them only focus
      listeners fire when focused and only blur listeners otherwise, so one
      notification never fires both. */
  lemma FanOutShape(listeners: Registry, state: Route, own: Route)
    requires state.Container?
    ensures var calls := FanOut(listeners, state, own).value;
            var changes := ListOf(listeners, Change);
            && |changes| <= |calls|
            && calls[..|changes|] == Calls(Change, changes, Some(state))
            && (forall i :: 0 <= i < |calls| && calls[i].event == Focus ==> Focused(state, own))
            && (forall i :: 0 <= i < |calls| && calls[i].event == Blur ==> !Focused(state, own))
            && (forall i :: |changes| <= i < |calls| ==> calls[i].event != Change)
  {
  }

  /** A callback registered `k` times for `name` is called `k` times when `name`
      fires, and not at all when it does not. */
  lemma {:induction false} ListenerCallCount(listeners: Registry, state: Route, own: Route, name: ListenerName, cb: CallbackId)
    requires state.Container?
    ensures var fires := name == Change || (name == Focus && Focused(state, own)) || (name == Blur && !Focused(state, own));
            var arg := if name == Change then Some(state) else None;
            multiset(FanOut(listeners, state, own).value)[Invocation(name, cb, arg)]
              == if fires then multiset(ListOf(listeners, name))[cb] else 0
  {
    var arg := if name == Change then Some(state) else None;
    var target := Invocation(name, cb, arg);
    forall other: ListenerName, cbs: seq<CallbackId>, a: Option<Route> | other != name
      ensures multiset(Calls(other, cbs, a))[target] == 0
    {
      assert target !in Calls(other, cbs, a);
    }
    CallsCount(name, ListOf(listeners, name), arg, cb);
    var changes := Calls(Change, ListOf(listeners, Change), Some(state));
    var focus := Calls(Focus, ListOf(listeners, Focus), None);
    var blur := Calls(Blur, ListOf(listeners, Blur), None);
    assert multiset(changes + focus) == multiset(changes) + multiset(focus);
    assert multiset(changes + blur) == multiset(changes) + multiset(blur);
  }

  /** After `removeListener(name, cb)` the callback is never called for `name`. */
  lemma RemovedListenerNeverFires(listeners: Registry, name: ListenerName, cb: CallbackId, state: Route, own: Route)
    requires state.Container?
    ensures var after := if name in listeners then listeners[name := Without(listeners[name], cb)] else listeners;
            forall inv :: inv in FanOut(after, state, own).value && inv.event == name ==> inv.callback != cb
  {
  }
}
