# enhanceScreen, modelled in Dafny

`enhanceScreen` wraps a React Navigation screen component. The wrapper adds
extra methods to the navigation object the screen receives: `setOptions`,
`getParent`, `addListener`/`removeListener`, `setParams`, `getState` and
`replace`. It also gives the component a `navigationOptions` resolver. That
resolver merges the screen's own declared options with a runtime override.

This project models the sequential logic inside that wrapper:

- **Route tree** (`routes.dfy`, module `Routes`). A route state is a
  `Leaf` or a `Container` with `routes` and an active `index`.
  `ActiveRoute` walks `routes[index]` down to the active leaf. An index
  outside `routes` makes JavaScript read a property of `undefined`, so the
  model returns `Threw`. Two lemmas check this walk against an independent
  description that uses explicit index paths (`NodeAt`, `FollowsIndex`).
  `GetState` models `NavigationExtra.getState`, including its `{}`
  fallback.
- **Actions** (`actions.dfy`, module `Actions`). Actions are datatype
  constructors. A navigation object is a class whose `Dispatch` appends to
  a log. `SetNavigationParams` dispatches a set-params action keyed to the
  active leaf. `Replace` dispatches one reset action built from a route
  list when its receiver has a `navigation` member, and nothing otherwise.
- **Listeners** (`listeners.dfy`, module `Listeners`). The registry maps
  `focus`/`blur`/`change` to ordered callback lists. `Without` is the
  filter used by `removeListener`. `FanOut` states which calls one
  state-change notification makes. `Fire` is the `forEach` loop.
- **Options** (`options.dfy`, module `Options`). This module holds:
  - the option registry and the navigation extras;
  - `Resolve` (`getNavigationOptions`) and `Merge` (the spread merge);
  - the wrapper around function-valued options, and `Invoke`, which says
    what a wrapped option passes to the author's function.
- **Screen** (`screen.dfy`, module `Screen`). This module holds:
  - the component statics (`EnhancedComponent`, with the
    `NavigationOptions` loop that rewrites registry keys);
  - the instance (`EnhancedScreen`, with its update counter, listener
    registry and lifecycle registration with a `ParentContext`);
  - the render-skip predicate `ShouldComponentUpdate`.

`js.dfy` (module `Js`) defines `Option` (JavaScript `undefined`) and
`Outcome` (a value or a thrown TypeError).

`_setOptions` writes the current counter and only then increments it.
Mounting also writes the current value, which is 0. So the first
`setOptions` after mounting writes 0 a second time, and the render-skip rule
does not recognise its echo. `FirstEchoIsRendered` states this case and
`EchoIsSkipped` states the general one. The method `SetOptionsTwice` shows
the resulting log of dispatched counters: 0, 0, 1.

## Model

| member | source | states |
|---|---|---|
| `Routes.ActiveRoute` | src/enhanceScreen.js:248-253 | a leaf resolves to itself; any result is a node without `routes`; a container whose index is outside its routes throws |
| `Routes.ActivePathExists` | src/enhanceScreen.js:248-253 | following `routes[index]` from the root always ends, at a leaf or at a container with an out-of-range index |
| `Routes.ActiveRouteIsEndOfPath` | src/enhanceScreen.js:248-253 | on any path that takes the active child at every level, a leaf at the end is the result of the lookup, and a bad index at the end means the lookup throws |
| `Routes.GetState` | src/enhanceScreen.js:49-52 | the result is always a leaf; with an argument state it is that state's active leaf (or a throw), else the receiver state's active leaf, else `{}` |
| `Routes.NestedGetState` | src/enhanceScreen.js:49-52 | `getState` on `{routes: [{routes: [{key: 'x'}], index: 0}], index: 0}` gives `{key: 'x'}` |
| `Actions.SetParamsAction` | src/enhanceScreen.js:255-258 | the action exists exactly when the active leaf can be reached; it carries the given params; on a leaf state it is keyed to that leaf |
| `Actions.SetParamsTargetsActiveLeaf` | src/enhanceScreen.js:255-258 | the set-params key is the key of a leaf reached by taking the active child at every level |
| `Actions.SetNavigationParams` | src/enhanceScreen.js:255-258 | dispatches exactly that set-params action, or nothing when the lookup throws; the state is unchanged |
| `Actions.ResetAction` | src/enhanceScreen.js:55-57 | one navigate action per route, same length and order; index as given, or the number of routes minus one when absent |
| `Actions.ResetActivatesLastRoute` | src/enhanceScreen.js:56 | without an index, the reset's index points at the navigate action for the last route |
| `Actions.Replace` | src/enhanceScreen.js:53-59 | without a `navigation` nothing is modified; otherwise exactly one reset action is appended to its dispatch log |
| `Actions.ReplaceTwoRoutes` | src/enhanceScreen.js:53-59 | replacing with routes A and B and no index dispatches a reset with index 1 and navigate actions for A then B |
| `Listeners.Without` | src/enhanceScreen.js:158-160 | the removed callback no longer occurs; every other callback keeps its number of occurrences |
| `Listeners.WithoutDistributes` | src/enhanceScreen.js:158-160 | filtering a concatenation is the concatenation of the filtered halves, so the order of the remaining callbacks is kept |
| `Listeners.WithoutAbsent` | src/enhanceScreen.js:153-161 | removing a callback that is not registered leaves the list unchanged |
| `Listeners.CallsCount` | src/enhanceScreen.js:167 | `forEach` calls each callback once for each time it is listed |
| `Listeners.Focused` | src/enhanceScreen.js:164 | focused only when the notified state is a container whose active child is the screen's own route |
| `Listeners.FanOut` | src/enhanceScreen.js:163-177 | throws exactly when the notified state has no `routes`; otherwise makes one call per change listener plus one per focus listener when focused, or per blur listener when not |
| `Listeners.Fire` | src/enhanceScreen.js:167 | the loop makes one call per listed callback, in list order, with the given argument |
| `Listeners.FanOutShape` | src/enhanceScreen.js:163-177 | change listeners come first, once each, in order, with the new state; after them focus calls happen only when focused and blur calls only when not, so both never fire together |
| `Listeners.ListenerCallCount` | src/enhanceScreen.js:163-177 | a callback registered k times for an event is called k times when that event fires and never otherwise; change always fires, focus iff focused, blur iff not |
| `Listeners.RemovedListenerNeverFires` | src/enhanceScreen.js:153-177 | after `removeListener(name, cb)` no notification calls `cb` for `name` |
| `Options.RegistryOrderIsRegistry` | src/enhanceScreen.js:29-41 | the names the options loop visits are exactly the registry's names, each once |
| `Options.Extras` | src/enhanceScreen.js:191-200 | always the seven extra methods; `getState` and `replace` are the defaults; the other five are bound to the instance when there is one, and are the no-op defaults otherwise |
| `Options.Inject` | src/enhanceScreen.js:212-215 | the injected navigation keeps its state and its other members; the extras win on their names |
| `Options.Resolve` | src/enhanceScreen.js:239-246 | a function source is called with the config, an object source is used as it is, and anything else gives no keys |
| `Options.WrapIfFunction` | src/enhanceScreen.js:226-233 | a value is wrapped with the captured navigation exactly when the registry marks its name as a function and it holds a function; otherwise it is unchanged |
| `Options.Merge` | src/enhanceScreen.js:221-224 | the merged options hold the union of the keys, the override winning key by key |
| `Options.Invoke` | src/enhanceScreen.js:230-232 | however deeply wrapped, an option function receives the call-time `state` and the call-time configuration's other keys |
| `Options.WrappedCallSeesCallState` | src/enhanceScreen.js:226-234 | a wrapped registry option calls the original with the captured navigation's methods and the call-time state |
| `Options.TitlesNeverWrapped` | src/enhanceScreen.js:30-31 | `title` and `headerTitle` are never wrapped |
| `Options.MergeExample` | src/enhanceScreen.js:217-234 | base `{title: A, headerRight: f1}` with override `{title: B}` resolves to `{title: B, headerRight: wrapped f1}` |
| `Screen.ShouldComponentUpdate` | src/enhanceScreen.js:105-123 | false when both counters exist and the new one is the old one plus 1; otherwise true exactly when props or states are not shallow-equal |
| `Screen.EchoIsSkipped` | src/enhanceScreen.js:109-116 | the echo of a `setOptions` that writes the route's counter plus one is never rendered |
| `Screen.FirstEchoIsRendered` | src/enhanceScreen.js:137-141 | the first `setOptions` after mounting writes 0 again, so its echo falls through to the shallow comparisons |
| `Screen.EnhancedComponent.constructor` | src/enhanceScreen.js:70-71 | the statics start with the screen's own options and no override |
| `Screen.EnhancedComponent.NavigationOptions` | src/enhanceScreen.js:211-236 | extras are injected into the config; static options are resolved against it and the override against it plus the base options; the result has the union of keys, the override wins, and only registry function options that hold functions are wrapped with the injected navigation |
| `Screen.EnhancedScreen.constructor` | src/enhanceScreen.js:133-134 | the counter starts at 0 and there are no listeners |
| `Screen.EnhancedScreen.WillMount` | src/enhanceScreen.js:95-97 | dispatches the current counter under the hidden parameter, keyed to the screen's route |
| `Screen.EnhancedScreen.DidMount` | src/enhanceScreen.js:99-103 | the screen's handler is registered with the parent context |
| `Screen.EnhancedScreen.WillUnmount` | src/enhanceScreen.js:125-129 | the screen's handler is no longer registered with the parent context |
| `Screen.EnhancedScreen.SetParams` | src/enhanceScreen.js:179-182 | dispatches the set-params action for the active leaf of the screen's navigation state |
| `Screen.EnhancedScreen.SetOptions` | src/enhanceScreen.js:137-141 | stores the override, dispatches the counter value from before the increment, and increases the counter by exactly 1; if the write throws, the counter is unchanged |
| `Screen.EnhancedScreen.AddListener` | src/enhanceScreen.js:145-151 | appends the callback to the name's list, creating the list if missing; other names' lists are unchanged |
| `Screen.EnhancedScreen.RemoveListener` | src/enhanceScreen.js:153-161 | no-op without a list for the name; otherwise that list is filtered by `Without` and every other list is unchanged |
| `Screen.EnhancedScreen.HandleNavigationStateChange` | src/enhanceScreen.js:163-177 | returns exactly the calls of `FanOut` for the current registry and the screen's own route |

## Left out

- The React lifecycle and rendering are left out because they are framework plumbing. This covers `render`, `getChildContext`, the `_navigation` getter, the constructor's `_instance` assignment, `displayName`, `contextTypes` and PropTypes.
- `hoist-non-react-statics` is a foreign library, so it is not modelled.
- `shallowequal` is a foreign library. `ShouldComponentUpdate` receives its two results as boolean inputs.
- The module-level `_instance` variable is not modelled. `NavigationOptions` instead takes the instance's identity as an explicit parameter, where None means no instance exists yet.
- `getParent` / `_getParent` only forwards to the parent context, which is foreign code. Only the parent's set of registered handlers is modelled.
- The `_focused` field is never used meaningfully, so it is not modelled.
- The library's action creators, `dispatch` and reducers are foreign code. Actions are constructors and `dispatch` appends to a log. `WithParams` stands in for the set-params reducer, and only the echo lemmas use it.
- Callbacks, and the author's option functions, are foreign code and are not run. Listener calls are returned as `Invocation` values. Option functions are the parameter `call`, and calls of wrapped options are returned as `OptionCall` values.
- Listener callbacks run synchronously and can change the registry during a notification. For example, a `change` listener can add a `focus` listener that then fires in the same notification. The model computes all calls from the registry as it was when the notification arrived.
- `Listeners.Focused` compares route objects by value. The source compares them by reference (`===`), so two equal but distinct route objects count as focused in the model.
- `Screen.ShouldComponentUpdate` treats a counter that is not a number as no counter. In JavaScript, `+ 1` on a string concatenates, and a string counter could then match a string.
- Numbers are integers. Floating point and `NaN` are not modelled.
- `Options.Resolve` takes the author's function result as an options map. A function whose result is not an options object is not modelled. Most primitives spread to no keys, but a string spreads to its index keys. `null` behaves like `NoOptions`: its `typeof` is `"object"`, but spreading it adds no keys.
- `Options.Invoke`: the call-time configuration is assumed to carry a `navigation`. The wrapper reads `_config.navigation.state` unchecked, so a call without one throws a TypeError in the source; that throw is not modelled.
- `Actions.Replace`: the receiver's `navigation` member is the parameter `target`. On the enhanced navigation object (`{...this.props.navigation, ...this._navigationExtra}`) that member exists only if the library's prop carries one, so `navigation.replace(...)` is usually the no-op branch (`target == null`).
- `Actions.ResetAction`: the index is either given or absent. A `null` index, which JavaScript would pass through unchanged, is not modelled.
- `Screen.EnhancedComponent.NavigationOptions` reassigns `config.navigation` in place. The model returns the updated configuration instead (`injected`), so aliasing of `config` by the caller is not modelled.
