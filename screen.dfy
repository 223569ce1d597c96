/** The enhanced screen: the statics shared by every instance of one enhanced
    component, the per-instance counter and listener registry, and the
    render-skip rule. */
module Screen {
  import opened Js
  import opened Routes
  import opened Actions
  import opened Listeners
  import opened Options

  /** The parent navigation context, reduced to the state-change handlers
      registered with it (each screen's handler is named by the screen's id). */
  class ParentContext {
    var handlers: set<nat>

    constructor ()
      ensures handlers == {}
    {
      handlers := {};
    }
  }

  /** The value of the hidden counter parameter of `route`, when it is a number. */
  function CountOf(route: Route): Option<int> {
    if route.params.Some? && COUNT_PARAM in route.params.value && route.params.value[COUNT_PARAM].Num?
    then Some(route.params.value[COUNT_PARAM].n)
    else None
  }

  /** `shouldComponentUpdate`: an update whose counter is exactly one more than
      the current one is the echo of `setOptions` and is skipped; any other update
      renders unless both the props and the states are shallow-equal. The two
      shallow comparisons are inputs. */
  function ShouldComponentUpdate(state: Route, nextState: Route, propsShallowEqual: bool, statesShallowEqual: bool): (update: bool)
    ensures CountOf(state).Some? && CountOf(nextState).Some? && CountOf(nextState).value == CountOf(state).value + 1 ==> !update
    ensures !(CountOf(state).Some? && CountOf(nextState).Some? && CountOf(nextState).value == CountOf(state).value + 1)
            ==> (update <==> !propsShallowEqual || !statesShallowEqual)
  {
    if CountOf(state).Some? && CountOf(nextState).Some? && CountOf(nextState).value == CountOf(state).value + 1
    then false
    else !propsShallowEqual || !statesShallowEqual
  }

  /** The library's set-params reducer, which merges the new parameters into the
      route's own; used only to state what the echo of `setOptions` looks like. */
  function WithParams(route: Route, update: Params): Route {
    route.(params := Some((if route.params.Some? then route.params.value else map[]) + update))
  }

  /** The echo of a `setOptions` call that writes one more than the counter the
      screen's route already carries is never rendered, whatever else changed. */
  lemma EchoIsSkipped(state: Route, count: int, propsShallowEqual: bool, statesShallowEqual: bool)
    requires CountOf(state) == Some(count)
    ensures !ShouldComponentUpdate(state, WithParams(state, map[COUNT_PARAM := Num(count + 1)]), propsShallowEqual, statesShallowEqual)
  {
  }

  /** Mounting writes the counter 0 and the first `setOptions` writes 0 again,
      so the echo of the first `setOptions` after mounting is rendered unless
      the shallow comparisons say nothing changed. */
  lemma FirstEchoIsRendered(state: Route, propsShallowEqual: bool, statesShallowEqual: bool)
    requires CountOf(state) == Some(0)
    ensures ShouldComponentUpdate(state, WithParams(state, map[COUNT_PARAM := Num(0)]), propsShallowEqual, statesShallowEqual)
            == (!propsShallowEqual || !statesShallowEqual)
  {
  }

  /** The statics of one enhanced component: the wrapped screen's own
      `navigationOptions` and the override last set by `setOptions`. */
  class EnhancedComponent {
    const staticOptions: OptionsSource
    var routerOptions: OptionsSource

    constructor (screenOptions: OptionsSource)
      ensures staticOptions == screenOptions && routerOptions == NoOptions
    {
      staticOptions := screenOptions;
      routerOptions := NoOptions;
    }

    /** The component's `navigationOptions(config)`. `instance` is the screen
        whose extras are injected (none before one exists); `call` runs the
        author's option functions. Returns the configuration as the function
        leaves it (its `navigation` is reassigned) and the resolved options. */
    method NavigationOptions(config: Config, instance: Option<nat>, call: (nat, Config) -> OptionMap)
      returns (injected: Config, options: OptionMap)
      ensures injected == config.(navigation := Inject(config.navigation, instance))
      ensures var base := Resolve(staticOptions, injected, call);
              var over := Resolve(routerOptions, injected.(navigationOptions := Some(base)), call);
              && options.Keys == base.Keys + over.Keys
              && forall k :: k in options ==>
                   options[k] == WrapIfFunction(k, if k in over then over[k] else base[k], injected.navigation)
    {
      injected := config.(navigation := Inject(config.navigation, instance));
      var base := Resolve(staticOptions, injected, call);
      var over := Resolve(routerOptions, injected.(navigationOptions := Some(base)), call);
      options := Merge(base, over);
      ghost var merged := options;
      RegistryOrderIsRegistry();
      for i := 0 to |RegistryOrder|
        invariant options.Keys == merged.Keys
        invariant forall k :: k in merged ==>
                    options[k] == if k in RegistryOrder[..i] then WrapIfFunction(k, merged[k], injected.navigation) else merged[k]
      {
        var name := RegistryOrder[i];
        assert RegistryOrder[..i + 1] == RegistryOrder[..i] + [name];
        assert name !in RegistryOrder[..i];
        if ScreenNavigationOptions[name] && name in options && options[name].Func? {
          options := options[name := Func(Wrapper(options[name].f, injected.navigation))];
        }
      }
      assert RegistryOrder[..|RegistryOrder|] == RegistryOrder;
    }
  }

  /** One mounted instance of an enhanced screen. */
  class EnhancedScreen {
    /** Identity of the instance, to which its extras and handler are bound. */
    const id: nat
    const component: EnhancedComponent
    /** `this.props.navigation`. */
    const navigation: Navigation
    const context: ParentContext
    var updateCount: nat
    var listeners: Registry

    constructor (id: nat, component: EnhancedComponent, navigation: Navigation, context: ParentContext)
      ensures this.id == id && this.component == component
      ensures this.navigation == navigation && this.context == context
      ensures updateCount == 0 && listeners == map[]
    {
      this.id := id;
      this.component := component;
      this.navigation := navigation;
      this.context := context;
      updateCount := 0;
      listeners := map[];
    }

    /** `componentWillMount`: the library's own `setParams` writes the counter
        under the screen's own route key. */
    method WillMount()
      modifies navigation
      ensures navigation.state == old(navigation.state)
      ensures navigation.dispatched == old(navigation.dispatched) + [Action.SetParams(map[COUNT_PARAM := Num(updateCount)], navigation.state.key)]
    {
      navigation.Dispatch(Action.SetParams(map[COUNT_PARAM := Num(updateCount)], navigation.state.key));
    }

    /** `componentDidMount`: register the state-change handler with the parent. */
    method DidMount()
      modifies context
      ensures context.handlers == old(context.handlers) + {id}
    {
      context.handlers := context.handlers + {id};
    }

    /** `componentWillUnmount`: deregister it, so later notifications from the
        parent no longer reach this instance's listeners. */
    method WillUnmount()
      modifies context
      ensures context.handlers == old(context.handlers) - {id}
      ensures id !in context.handlers
    {
      context.handlers := context.handlers - {id};
    }

    /** The instance's `setParams`: `setNavigationParams` on its navigation. */
    method SetParams(params: Params) returns (threw: bool)
      modifies navigation
      ensures navigation.state == old(navigation.state)
      ensures threw <==> SetParamsAction(navigation.state, params).Threw?
      ensures !threw ==> navigation.dispatched == old(navigation.dispatched) + [SetParamsAction(navigation.state, params).value]
      ensures threw ==> navigation.dispatched == old(navigation.dispatched)
    {
      threw := SetNavigationParams(navigation, params);
    }

    /** `_setOptions`: store the override, write the counter as it was, then
        increase it by one. If writing throws, the counter stays. */
    method SetOptions(options: OptionsSource) returns (threw: bool)
      modifies this, component, navigation
      ensures component.routerOptions == options
      ensures listeners == old(listeners) && navigation.state == old(navigation.state)
      ensures threw <==> ActiveRoute(navigation.state).Threw?
      ensures !threw ==> && updateCount == old(updateCount) + 1
                         && navigation.dispatched == old(navigation.dispatched)
                              + [Action.SetParams(map[COUNT_PARAM := Num(old(updateCount))], ActiveRoute(navigation.state).value.key)]
      ensures threw ==> updateCount == old(updateCount) && navigation.dispatched == old(navigation.dispatched)
    {
      component.routerOptions := options;
      threw := SetParams(map[COUNT_PARAM := Num(updateCount)]);
      if threw {
        return;
      }
      updateCount := updateCount + 1;
    }

    /** `_addListener`: create the list if missing and append the callback. */
    method AddListener(name: ListenerName, callback: CallbackId)
      modifies this
      ensures updateCount == old(updateCount)
      ensures listeners == old(listeners)[name := ListOf(old(listeners), name) + [callback]]
      ensures forall other :: other != name ==> ListOf(listeners, other) == ListOf(old(listeners), other)
    {
      if name !in listeners {
        listeners := listeners[name := []];
      }
      listeners := listeners[name := listeners[name] + [callback]];
    }

    /** `_removeListener`: nothing without a list; otherwise drop every
        occurrence of the callback, keeping the others in order. */
    method RemoveListener(name: ListenerName, callback: CallbackId)
      modifies this
      ensures updateCount == old(updateCount)
      ensures name !in old(listeners) ==> listeners == old(listeners)
      ensures name in old(listeners) ==> listeners == old(listeners)[name := Without(old(listeners)[name], callback)]
    {
      if name !in listeners {
        return;
      }
      listeners := listeners[name := Without(listeners[name], callback)];
    }

    /** `_handleNavigationStateChange`: the listener calls one notification makes. */
    method HandleNavigationStateChange(state: Route) returns (calls: Outcome<seq<Invocation>>)
      ensures calls == FanOut(listeners, state, navigation.state)
    {
      if !state.Container? {
        return Threw;
      }
      var focused := 0 <= state.index < |state.routes| && state.routes[state.index] == navigation.state;
      var fired := [];
      if Change in listeners {
        fired := Fire(Change, listeners[Change], Some(state));
      }
      var more := [];
      if Focus in listeners && focused {
        more := Fire(Focus, listeners[Focus], None);
      }
      if Blur in listeners && !focused {
        more := Fire(Blur, listeners[Blur], None);
      }
      assert fired == Calls(Change, ListOf(listeners, Change), Some(state));
      assert focused == Focused(state, navigation.state);
      assert focused ==> more == Calls(Focus, ListOf(listeners, Focus), None);
      assert !focused ==> more == Calls(Blur, ListOf(listeners, Blur), None);
      calls := Ok(fired + more);
    }
  }

  /** A screen that mounts, sets options twice and is notified: the first echo
      carries 0 like the mount, the second carries 1. */
  method SetOptionsTwice(key: string, first: OptionsSource, second: OptionsSource)
  {
    var navigation := new Navigation(Leaf(Some(key), None));
    var component := new EnhancedComponent(NoOptions);
    var context := new ParentContext();
    var screen := new EnhancedScreen(7, component, navigation, context);
    screen.WillMount();
    screen.DidMount();
    var threw := screen.SetOptions(first);
    assert !threw;
    threw := screen.SetOptions(second);
    assert !threw && screen.updateCount == 2 && component.routerOptions == second;
    var count := map[COUNT_PARAM := Num(0)];
    assert navigation.dispatched == [SetParams(count, Some(key)), SetParams(count, Some(key)),
                                     SetParams(map[COUNT_PARAM := Num(1)], Some(key))];
    screen.WillUnmount();
    assert 7 !in context.handlers;
  }
}
