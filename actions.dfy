/** The actions this component dispatches (`setNavigationParams` and
    `NavigationExtra.replace`), and the navigation object that receives them. */
module Actions {
  import opened Js
  import opened Routes

  /** The argument of a navigate action: `{routeName, params}`. */
  datatype RouteSpec = RouteSpec(routeName: string, params: Option<Params>)

  /** The library's action objects, as built by its action creators. */
  datatype Action =
    | SetParams(params: Params, key: Option<string>)
    | Navigate(route: RouteSpec)
    | Reset(index: int, actions: seq<Action>)

  /** A navigation object: the route state it was given and the log of every
      action passed to its `dispatch`. */
  class Navigation {
    var state: Route
    var dispatched: seq<Action>

    constructor (state: Route)
      ensures this.state == state && dispatched == []
    {
      this.state := state;
      dispatched := [];
    }

    method Dispatch(action: Action)
      modifies this
      ensures state == old(state)
      ensures dispatched == old(dispatched) + [action]
    {
      dispatched := dispatched + [action];
    }
  }

  /** The set-params action of `setNavigationParams`: keyed to the active leaf of
      `state`; reading the key throws when that leaf cannot be reached. */
  function SetParamsAction(state: Route, params: Params): (a: Outcome<Action>)
    ensures a.Ok? <==> ActiveRoute(state).Ok?
    ensures a.Ok? ==> a.value.SetParams? && a.value.params == params
    ensures state.Leaf? ==> a == Ok(SetParams(params, state.key))
  {
    match ActiveRoute(state)
    case Ok(leaf) => Ok(SetParams(params, leaf.key))
    case Threw => Threw
  }

  /** The set-params action names the key of a leaf reached by taking the active
      child at every level of the tree. */
  lemma SetParamsTargetsActiveLeaf(state: Route, params: Params)
    requires SetParamsAction(state, params).Ok?
    ensures exists path :: FollowsIndex(state, path) && NodeAt(state, path).Some?
                           && NodeAt(state, path).value.Leaf?
                           && NodeAt(state, path).value.key == SetParamsAction(state, params).value.key
  {
    ActivePathExists(state);
    var path :| FollowsIndex(state, path) && NodeAt(state, path).Some?
                && (NodeAt(state, path).value.Leaf? || BadIndex(NodeAt(state, path).value));
    ActiveRouteIsEndOfPath(state, path);
  }

  method SetNavigationParams(navigation: Navigation, params: Params) returns (threw: bool)
    modifies navigation
    ensures navigation.state == old(navigation.state)
    ensures threw <==> SetParamsAction(navigation.state, params).Threw?
    ensures !threw ==> navigation.dispatched == old(navigation.dispatched) + [SetParamsAction(navigation.state, params).value]
    ensures threw ==> navigation.dispatched == old(navigation.dispatched)
  {
    var action := SetParamsAction(navigation.state, params);
    if action.Threw? {
      return true;
    }
    navigation.Dispatch(action.value);
    threw := false;
  }

  /** The reset action of `replace`: one navigate action per route, in order, and
      the given index, or the last position when no index is given. */
  function ResetAction(routes: seq<RouteSpec>, index: Option<int>): (a: Action)
    ensures a.Reset? && |a.actions| == |routes|
    ensures forall i :: 0 <= i < |routes| ==> a.actions[i] == Navigate(routes[i])
    ensures index.Some? ==> a.index == index.value
    ensures index.None? ==> a.index == |routes| - 1
  {
    var navigations := seq(|routes|, i requires 0 <= i < |routes| => Navigate(routes[i]));
    Reset(if index.None? then |routes| - 1 else index.value, navigations)
  }

  /** Without an index the reset activates the last of the given routes. */
  lemma ResetActivatesLastRoute(routes: seq<RouteSpec>)
    requires routes != []
    ensures var a := ResetAction(routes, None);
            0 <= a.index < |a.actions| && a.actions[a.index] == Navigate(routes[|routes| - 1])
  {
  }

  /** `replace(routes, index)` on a receiver whose `navigation` is `target`:
      nothing without one, otherwise exactly one reset dispatched to it. */
  method Replace(target: Navigation?, routes: seq<RouteSpec>, index: Option<int>)
    modifies if target == null then {} else {target}
    ensures target != null ==> target.state == old(target.state)
    ensures target != null ==> target.dispatched == old(target.dispatched) + [ResetAction(routes, index)]
  {
    if target == null {
      return;
    }
    target.Dispatch(ResetAction(routes, index));
  }

  /** Replacing with routes A and B and no index activates B. */
  lemma ReplaceTwoRoutes()
    ensures var a, b := RouteSpec("A", None), RouteSpec("B", None);
            ResetAction([a, b], None) == Reset(1, [Navigate(a), Navigate(b)])
  {
  }
}
