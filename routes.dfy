/** The navigation state tree and the lookup of its active leaf
    (`getActiveRouteState` and `NavigationExtra.getState`). */
module Routes {
  import opened Js

  /** The hidden route parameter that carries the screen's update counter. */
  const COUNT_PARAM: string := "__react_navigation_addons_update_count"

  /** A route parameter: the counter is a number, any other value is opaque. */
  datatype Value = Num(n: int) | Opaque(id: nat)

  type Params = map<string, Value>

  /** A route-state object. It is a container exactly when it carries `routes`;
      a missing `key` or `params` is None. */
  datatype Route =
    | Leaf(key: Option<string>, params: Option<Params>)
    | Container(key: Option<string>, params: Option<Params>, routes: seq<Route>, index: int)

  /** The empty object `{}`. */
  const EmptyState: Route := Leaf(None, None)

  /** The active leaf: follow `routes[index]` until a node has no `routes`.
      An index outside `routes` reads `undefined`, and the next step throws. */
  function ActiveRoute(state: Route): (r: Outcome<Route>)
    ensures state.Leaf? ==> r == Ok(state)
    ensures r.Ok? ==> r.value.Leaf?
    ensures state.Container? && !(0 <= state.index < |state.routes|) ==> r == Threw
  {
    match state
    case Leaf(_, _) => Ok(state)
    case Container(_, _, routes, index) =>
      if 0 <= index < |routes| then ActiveRoute(routes[index]) else Threw
  }

  /** `navigation.getState()`: the active leaf of the argument's state if it has
      one, else of the receiver's own state, else `{}`. */
  function GetState(argState: Option<Route>, selfState: Option<Route>): (r: Outcome<Route>)
    ensures r.Ok? ==> r.value.Leaf?
    ensures argState.None? && selfState.None? ==> r == Ok(EmptyState)
    ensures argState.Some? && argState.value.Leaf? ==> r == Ok(argState.value)
    ensures argState.None? && selfState.Some? && selfState.value.Leaf? ==> r == Ok(selfState.value)
    ensures argState.Some? ==> r == ActiveRoute(argState.value)
    ensures argState.None? && selfState.Some? ==> r == ActiveRoute(selfState.value)
  {
    if argState.Some? then ActiveRoute(argState.value)
    else if selfState.Some? then ActiveRoute(selfState.value)
    else Ok(EmptyState)
  }

  // An independent description of the active leaf, by explicit index paths.

  /** The node reached from `state` by taking child `path[0]`, then `path[1]`, and
      so on; None once a step leaves the tree. */
  ghost function NodeAt(state: Route, path: seq<int>): Option<Route>
    decreases |path|
  {
    if path == [] then Some(state)
    else if state.Container? && 0 <= path[0] < |state.routes| then NodeAt(state.routes[path[0]], path[1..])
    else None
  }

  /** `node` is a container whose active index is `step`. */
  ghost predicate IsActiveStep(node: Option<Route>, step: int) {
    node.Some? && node.value.Container? && node.value.index == step
  }

  /** At every level, `path` takes the child that the node there marks active. */
  ghost predicate FollowsIndex(state: Route, path: seq<int>) {
    forall i :: 0 <= i < |path| ==> IsActiveStep(NodeAt(state, path[..i]), path[i])
  }

  /** A container whose active index is outside its routes. */
  ghost predicate BadIndex(node: Route) {
    node.Container? && !(0 <= node.index < |node.routes|)
  }

  lemma NodeAtChild(state: Route, path: seq<int>, i: nat)
    requires state.Container? && path != [] && 0 <= path[0] < |state.routes|
    requires i < |path|
    ensures NodeAt(state, path[..i + 1]) == NodeAt(state.routes[path[0]], path[1..][..i])
  {
    assert path[..i + 1][0] == path[0];
    assert path[..i + 1][1..] == path[1..][..i];
  }

  /** Following the active indices from the root always ends, at a leaf or at a
      container whose index is out of range. */
  lemma {:induction false} ActivePathExists(state: Route)
    ensures exists path :: FollowsIndex(state, path) && NodeAt(state, path).Some?
                           && (NodeAt(state, path).value.Leaf? || BadIndex(NodeAt(state, path).value))
  {
    assert NodeAt(state, []) == Some(state);
    assert FollowsIndex(state, []);
    if state.Container? && 0 <= state.index < |state.routes| {
      var child := state.routes[state.index];
      ActivePathExists(child);
      var rest :| FollowsIndex(child, rest) && NodeAt(child, rest).Some?
                  && (NodeAt(child, rest).value.Leaf? || BadIndex(NodeAt(child, rest).value));
      var path := [state.index] + rest;
      assert path[1..] == rest;
      assert NodeAt(state, path) == NodeAt(child, rest);
      forall i | 0 <= i < |path|
        ensures IsActiveStep(NodeAt(state, path[..i]), path[i])
      {
        if i == 0 {
          assert path[..0] == [];
        } else {
          NodeAtChild(state, path, i - 1);
          assert IsActiveStep(NodeAt(child, rest[..i - 1]), rest[i - 1]);
        }
      }
      assert FollowsIndex(state, path);
    }
  }

  /** The end of an index-following path decides the lookup: a leaf there is the
      result, a container with an out-of-range index there means it throws. */
  lemma {:induction false} ActiveRouteIsEndOfPath(state: Route, path: seq<int>)
    requires FollowsIndex(state, path) && NodeAt(state, path).Some?
    ensures NodeAt(state, path).value.Leaf? ==> ActiveRoute(state) == Ok(NodeAt(state, path).value)
    ensures BadIndex(NodeAt(state, path).value) ==> ActiveRoute(state) == Threw
    decreases |path|
  {
    if path != [] {
      assert path[..0] == [];
      assert IsActiveStep(NodeAt(state, path[..0]), path[0]);
      assert state.Container? && 0 <= path[0] < |state.routes|;
      var child := state.routes[path[0]];
      forall i | 0 <= i < |path[1..]|
        ensures IsActiveStep(NodeAt(child, path[1..][..i]), path[1..][i])
      {
        NodeAtChild(state, path, i);
        assert IsActiveStep(NodeAt(state, path[..i + 1]), path[i + 1]);
        assert path[1..][i] == path[i + 1];
      }
      ActiveRouteIsEndOfPath(child, path[1..]);
    }
  }

  /** The nested example `{routes: [{routes: [{key: 'x'}], index: 0}], index: 0}`. */
  lemma NestedGetState()
    ensures var x := Leaf(Some("x"), None);
            GetState(Some(Container(None, None, [Container(None, None, [x], 0)], 0)), None) == Ok(x)
  {
  }
}
