/** Navigation options: the registry of known option names, the navigation
    extras injected into the configuration, the resolution of one option source,
    the shallow merge, and the wrapper put around function-valued options. */
module Options {
  import opened Js
  import opened Routes

  /** A method on a navigation object: one the library supplies, one of the
      neutral `NavigationExtra` defaults, or one bound to a screen instance. */
  datatype MemberRef = Library(name: string) | DefaultExtra(name: string) | InstanceExtra(instance: nat, name: string)

  /** A navigation object as option resolvers see it: its `state` and its
      methods by name. */
  datatype NavObj = NavObj(state: Option<Route>, members: map<string, MemberRef>)

  /** A function-valued option: a function of the screen's author, or the
      wrapper that calls `inner` with the navigation captured at resolution. */
  datatype Callable = Original(id: nat) | Wrapper(inner: Callable, captured: NavObj)

  datatype OptVal = Plain(value: nat) | Func(f: Callable)

  type OptionMap = map<string, OptVal>

  /** The configuration passed to resolvers and to function-valued options. */
  datatype Config = Config(navigation: NavObj, navigationOptions: Option<OptionMap>, rest: map<string, nat>)

  /** A `navigationOptions` declaration: a function of the configuration, an
      object, or anything else (`undefined`, `null`, a primitive). */
  datatype OptionsSource = Computed(id: nat) | Static(options: OptionMap) | NoOptions

  /** A call of an author's option function with the configuration it receives. */
  datatype OptionCall = OptionCall(fn: nat, config: Config)

  /** `ScreenNavigationOptions`: the known option names, and whether each holds
      a function that must be wrapped. */
  const ScreenNavigationOptions: map<string, bool> := map[
    "title" := false, "headerTitle" := false,
    "header" := true, "headerRight" := true, "headerLeft" := true,
    "tabBarIcon" := true, "tabBarLabel" := true,
    "drawerLabel" := true, "drawerIcon" := true]

  /** The registry's names in declaration order, as `Object.keys` lists them. */
  const RegistryOrder: seq<string> := [
    "title", "headerTitle", "header", "headerRight", "headerLeft",
    "tabBarIcon", "tabBarLabel", "drawerLabel", "drawerIcon"]

  predicate IsFunctionOption(name: string) {
    name in ScreenNavigationOptions && ScreenNavigationOptions[name]
  }

  lemma RegistryOrderIsRegistry()
    ensures forall name :: name in RegistryOrder <==> name in ScreenNavigationOptions
    ensures forall i, j :: 0 <= i < j < |RegistryOrder| ==> RegistryOrder[i] != RegistryOrder[j]
  {
  }

  /** The methods `NavigationExtra` and an instance's `_navigationExtra` add. */
  const ExtraNames: set<string> := {"setOptions", "getParent", "addListener", "removeListener", "setParams", "getState", "replace"}

  /** The extras an instance binds to itself; `getState` and `replace` stay the defaults. */
  const InstanceBound: set<string> := {"setOptions", "getParent", "addListener", "removeListener", "setParams"}

  /** `_instance && _instance._navigationExtra || NavigationExtra`. */
  function Extras(instance: Option<nat>): (m: map<string, MemberRef>)
    ensures m.Keys == ExtraNames
    ensures forall n :: n in m && n !in InstanceBound ==> m[n] == DefaultExtra(n)
    ensures instance.Some? ==> forall n :: n in InstanceBound ==> m[n] == InstanceExtra(instance.value, n)
    ensures instance.None? ==> forall n :: n in m ==> m[n] == DefaultExtra(n)
  {
    var defaults := map n | n in ExtraNames :: DefaultExtra(n);
    match instance
    case None => defaults
    case Some(id) => defaults + map n | n in InstanceBound :: InstanceExtra(id, n)
  }

  /** `{...navigation, ...extras}`: the extras win; the state and every other
      member are kept. */
  function Inject(navigation: NavObj, instance: Option<nat>): (r: NavObj)
    ensures r.state == navigation.state
    ensures r.members.Keys == navigation.members.Keys + ExtraNames
    ensures forall n :: n in ExtraNames ==> r.members[n] == Extras(instance)[n]
    ensures forall n :: n in navigation.members && n !in ExtraNames ==> r.members[n] == navigation.members[n]
  {
    NavObj(navigation.state, navigation.members + Extras(instance))
  }

  /** `getNavigationOptions`: call a function, take an object as it is, and read
      anything else as no options. The author's functions are `call`. */
  function Resolve(source: OptionsSource, config: Config, call: (nat, Config) -> OptionMap): (r: OptionMap)
    ensures source.Computed? ==> r == call(source.id, config)
    ensures source.Static? ==> r == source.options
    ensures source.NoOptions? ==> r == map[]
  {
    match source
    case Computed(id) => call(id, config)
    case Static(options) => options
    case NoOptions => map[]
  }

  /** `{...base, ...over}`: every key of either, the override winning. */
  function Merge(base: OptionMap, over: OptionMap): (r: OptionMap)
    ensures r.Keys == base.Keys + over.Keys
    ensures forall k :: k in over ==> r[k] == over[k]
    ensures forall k :: k in base && k !in over ==> r[k] == base[k]
  {
    base + over
  }

  /** The value option `name` ends with: wrapped when the registry marks it as a
      function and it is one, unchanged otherwise. */
  function WrapIfFunction(name: string, v: OptVal, navigation: NavObj): (r: OptVal)
    ensures !IsFunctionOption(name) || v.Plain? ==> r == v
    ensures IsFunctionOption(name) && v.Func? ==> r == Func(Wrapper(v.f, navigation))
    ensures r.Func? <==> v.Func?
  {
    if IsFunctionOption(name) && v.Func? then Func(Wrapper(v.f, navigation)) else v
  }

  /** Calling a function-valued option with a call-time configuration. A wrapper
      passes the configuration on with its navigation replaced by the captured
      one, except that `state` is the call-time state. */
  function Invoke(f: Callable, config: Config): (c: OptionCall)
    ensures c.config.navigation.state == config.navigation.state
    ensures c.config.navigationOptions == config.navigationOptions && c.config.rest == config.rest
  {
    match f
    case Original(id) => OptionCall(id, config)
    case Wrapper(inner, captured) => Invoke(inner, config.(navigation := captured.(state := config.navigation.state)))
  }

  /** A wrapped option calls the author's function with the captured methods
      and the call-time state. */
  lemma WrappedCallSeesCallState(name: string, id: nat, captured: NavObj, config: Config)
    requires IsFunctionOption(name)
    ensures Invoke(WrapIfFunction(name, Func(Original(id)), captured).f, config)
            == OptionCall(id, config.(navigation := NavObj(config.navigation.state, captured.members)))
  {
  }

  /** `title` and `headerTitle` are never wrapped. */
  lemma TitlesNeverWrapped(v: OptVal, navigation: NavObj)
    ensures WrapIfFunction("title", v, navigation) == v
    ensures WrapIfFunction("headerTitle", v, navigation) == v
  {
  }

  /** Base `{title: 'A', headerRight: f1}` with override `{title: 'B'}` gives
      `{title: 'B', headerRight: wrapped f1}`. */
  lemma MergeExample(a: nat, b: nat, f1: nat, navigation: NavObj)
    ensures var merged := Merge(map["title" := Plain(a), "headerRight" := Func(Original(f1))], map["title" := Plain(b)]);
            && merged.Keys == {"title", "headerRight"}
            && WrapIfFunction("title", merged["title"], navigation) == Plain(b)
            && WrapIfFunction("headerRight", merged["headerRight"], navigation) == Func(Wrapper(Original(f1), navigation))
  {
  }
}
