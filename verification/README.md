# flaky in Dafny

A model of the core of *flaky*, a small layer that lets an AngularJS
application be declared with ES classes and decorators. The model covers
four parts:

- **Naming** (`naming.dfy`). The static `Module.normalize*Name` functions
  turn a class name into the names the framework sees. They strip the first
  occurrence of a literal word (`Component`, `Directive`, `Controller`),
  case-fold the first character of the *original* name, and add a prefix
  (`ctrl`, `dt`, `cp`, `$`).
- **Classes** (`classes.dfy`). A JavaScript class is a `Ctor` object with a
  parent constructor and the static lists `$inject`, `$injectConfig` and
  `$injectRun`. It also has `$name`. `abstractInject` gives a class its
  parent's list followed by the new names.
- **Module** (`modules.dfy`). `class Module` holds its eight ordered
  lists (vendors, controllers, routes, services, components, directives,
  filters and sub-modules) and its fluent `addX` methods, plus `addRoute`, `config` and
  `load`. The framework is reduced to the ordered record of calls made on
  it: `Angular.calls`, a sequence of `Registration`. `load` is proved equal
  to `Trace(View())`. `View()` is the module tree as a value. `Trace`
  loads the sub-modules first, in order, then makes the module's own calls.
  Lemmas on `Trace` show that the native modules it creates are exactly
  `Created(t)`: one per module of the tree (per place, for a shared
  sub-tree), the sub-trees' in list order and before their parent's.
- **Decorators and Application**:
  - `coredecorators.dfy` holds the decorators of `src/core/decorators.js`,
    which register classes on the `flaky` module.
  - `decorators.dfy` holds the variant in `src/decorators.js`, which
    registers on `flaky.module`.
  - `app.dfy` holds the `Application` subclass: its four settings and
    setters, its `config`, and the dependency lists it inherits.

Behaviour of the code that the model keeps as it is:

- Only `setUseHtml5Mode` returns the application (src/Application.js:40-43).
  `setRequireBase`, `setRewriteLinks` and `setUrlPrefix` return nothing
  (src/Application.js:45-55).
- The core `filter(name)` decorator calls `addFilter(name, target)`
  (src/core/decorators.js:34-39), and `addFilter` keeps only its first
  argument. The registry thus holds the *string* `name`, and `loadFilters`
  reads `.name` of it (src/Module.js:132-147).
- `normalizeByPatternName` removes the first occurrence of the word
  wherever it is, not only a trailing one (src/Module.js:245).
- `@controller(config)` passes the decorator factory's own function name,
  `controller`, to `addRoute` (src/core/decorators.js:7), so the route is
  named `controller` whatever the class.
- Applying an inject decorator twice to one class overwrites the class's
  own list, since the list is rebuilt from the parent's list each time
  (src/core/decorators.js:59-67).
- `Application` inherits `$injectConfig = ['$stateProvider']` from `Module`
  and appends `'$locationProvider'` (src/Module.js:4, src/Application.js:4).
  The config block therefore injects the state provider first, and
  `Application.config(locationProvider)` receives it (`App.Bootstrap`).

## Model

| member | source | states |
|---|---|---|
| Naming.IndexFromIsFirst | src/Module.js:245 | the index found is the first occurrence of the pattern at or after the start, and none is found only when the pattern does not occur |
| Naming.RemoveFirstSpec | src/Module.js:245 | `replace(new RegExp(p), '')` leaves the string unchanged when `p` does not occur; otherwise re-inserting `p` at the first occurrence gives back the name, and the length drops by `|p|` |
| Naming.NormalizeByPatternNameSpec | src/Module.js:243-257 | the result's first character is the original first character folded by `type` (unchanged for a type other than `lo`/`up`); an empty name gives the empty string; with no pattern, the rest of the name is kept |
| Naming.StripAfterFirstChar | src/Module.js:243-257 | when the pattern first occurs after index 0, the result is the name with that occurrence cut out and the first character folded; its length is `|name| - |p|` |
| Naming.PatternAtStart | src/Module.js:244-256 | when the pattern starts at index 0, the first character still comes from the original name, and the first character after the pattern is lost; a name equal to the pattern gives its folded first character alone |
| Naming.StripSuffixWord | src/Module.js:243-257 | a class name `base + word`, where the word does not occur earlier, gives `base` with its first character folded |
| Naming.RegisteredNamesStartLower | src/Module.js:259-265 | component, directive and route names start with the lower-cased first character of the class name |
| Naming.AliasNamesArePrefixed | src/Module.js:267-277 | controller, directive and component aliases are `ctrl`/`dt`/`cp` followed by the upper-cased first character |
| Naming.ServiceNameSpec | src/Module.js:283-285 | a service name is `$` followed by the class name with only its first character lower-cased, and no word stripped |
| Naming.FilterNameSpec | src/Module.js:287-289 | a filter name keeps its length and every character but the first, which is lower-cased |
| Naming.FilterNameIsUnstripped | src/Module.js:287-289 | filter naming equals pattern naming with no pattern and type `lo` |
| Naming.FooDirectiveNames | test/fixtures/FooDirective.js:3-6 | `FooDirective` is registered as `foo` with alias `dtFoo` |
| Naming.FooComponentNames | src/Module.js:259-277 | `FooComponent` is registered as `foo` with alias `cpFoo` |
| Naming.SomeControllerNames | src/Module.js:267-281 | `SomeController` gives route name `some` and alias `ctrlSome` |
| Naming.ControllerFactoryNames | src/core/decorators.js:7 | `controller`, in which `Controller` does not occur, gives route name `controller` and alias `ctrlController` |
| Naming.WeatherServiceName | src/Module.js:283-285 | `Weather` is registered as the service `$weather` |
| Classes.Ctor.constructor | src/Module.js:4-5 | a new class has its parent and no static lists |
| Classes.Ctor.AncestryBelow | src/core/decorators.js:61 | no class is its own ancestor, so the prototype chain ends |
| Classes.Ctor.Lookup | src/core/decorators.js:61-65 | reading a static list finds the class's own value, else an ancestor's; it is absent only when no class on the chain has one |
| Classes.Ctor.LookupIsNearest | src/core/decorators.js:61-65 | the value found is that of the nearest class on the chain holding the property: no class below it holds one |
| Classes.AbstractInject | src/core/decorators.js:59-68 | the target's list under the key becomes the parent's list (empty when the parent has none) followed by the dependencies; no other key of the target changes, and every parent list is unchanged |
| Classes.InjectTwice | src/core/decorators.js:59-67 | decorating a class twice with the same key keeps only the parent's list and the second dependencies |
| Modules.Extend | src/Module.js:219-221 | `angular.extend` into a fresh object: every key of either map, the second map winning on a shared key |
| Modules.ComponentDefaults | src/Module.js:91-95 | a component's definition has `restrict: 'E'`, `bindToController: true` and controller `N as cpX`, except where the user's options give the key; every user key keeps the user's value |
| Modules.DirectiveDefaults | src/Module.js:108-112 | a directive's definition has `restrict: 'A'`, `bindToController: true` and controller `N as dtX`, with the same override rule |
| Modules.RouteFor | src/Module.js:208-228 | the route fails exactly when no name is given and the controller is not a string; a given name is kept, otherwise it is derived from the controller; with no controller the config is kept as is; otherwise `controller` is added, and the caller's own `controller` key wins |
| Modules.SomeControllerRoute | src/Module.js:208-228 | `addRoute(false, config, "SomeController")` stores route `some` with controller `SomeController as ctrlSome` |
| Modules.ControllerFactoryRoute | src/core/decorators.js:7 | the route the controller decorator adds is `controller`, with controller `controller as ctrlController` unless the config names one |
| Modules.NamesAt | src/Module.js:30-36 | the dependencies `load` collects are the sub-modules' names, in list order |
| Modules.OwnCallsHead | src/Module.js:36-38 | a module's own calls open with its native module, whose dependencies are the vendors followed by the sub-module names, then its config block and then its run block |
| Modules.OwnCallsControllers | src/Module.js:40 | the controllers come next, in list order |
| Modules.OwnCallsComponents | src/Module.js:41 | then the components |
| Modules.OwnCallsDirectives | src/Module.js:42 | then the directives |
| Modules.OwnCallsServices | src/Module.js:43 | then the services |
| Modules.OwnCallsFilters | src/Module.js:44 | then the filters, last |
| Modules.CreateInjectedFunction | src/Module.js:291-294 | returns the callback it was given, carrying exactly `inject` as its `$inject` list |
| Modules.OwnCallsCreateOne | src/Module.js:36-44 | a module's own calls create exactly one native module, its own (its name, the vendors and the sub-module names), and it is the first call |
| Modules.TraceCreatesEachModuleOnce | src/Module.js:29-47 | the native modules loading a tree creates are exactly `Created(t)`, in that order: each module's own, once per place it occurs in the tree, every sub-tree's before its parent's |
| Modules.LoadIsLeafFirst | src/Module.js:29-47 | the calls before the root's native module create exactly the sub-trees' native modules (`SubCreated`), and no call after it creates one |
| Modules.Module.constructor | src/Module.js:7-18 | a new module has its name, no native module and empty registries |
| Modules.Module.AddController | src/Module.js:154-157 | appends the controller, changes no other list, returns the module |
| Modules.Module.AddService | src/Module.js:164-167 | appends the service, changes no other list, returns the module |
| Modules.Module.AddComponent | src/Module.js:175-178 | appends the pair `(component, options)` with options defaulting to `{}`; returns the module |
| Modules.Module.AddDirective | src/Module.js:186-189 | appends the pair `(directive, options)` with options defaulting to `{}`; returns the module |
| Modules.Module.AddFilter | src/Module.js:196-199 | appends the filter, changes no other list, returns the module |
| Modules.Module.AddRoute | src/Module.js:208-231 | appends the route `RouteFor` gives and returns the module, or throws `Not set route name` and leaves the routes as they were |
| Modules.Module.AddModule | src/Module.js:238-241 | appends any module and returns the module; the tree stays well formed (finite, acyclic) when both were and the new sub-module does not contain this one |
| Modules.Module.SetVendors | src/Module.js:301-304 | replaces the vendors and returns the module |
| Modules.Module.Config | src/Module.js:23-27 | one `state(name, config)` call per route, in list order |
| Modules.Module.SubModuleLoadable | src/Module.js:32-34 | each sub-module is valid, loadable, and viewed as the matching sub-tree |
| Modules.Module.InitRunAndConfig | src/Module.js:52-75 | appends a config block and a run block, each carrying the class's inherited list (empty when none) |
| Modules.Module.LoadControllers | src/Module.js:80-84 | appends `ControllerCalls` of the controllers |
| Modules.Module.LoadComponents | src/Module.js:89-101 | appends `ComponentCalls` of the components |
| Modules.Module.LoadDirectives | src/Module.js:106-118 | appends `DirectiveCalls` of the directives |
| Modules.Module.LoadServices | src/Module.js:123-127 | appends `ServiceCalls` of the services |
| Modules.Module.LoadFilters | src/Module.js:132-147 | appends `FilterCalls` of the filters, whose entries must be classes |
| Modules.Module.Load | src/Module.js:29-47 | returns the module's own name, sets its native module, and appends exactly `Trace` of its tree; every module of the tree whose native module changed now refers to its own |
| Modules.Module.LoadSubModules | src/Module.js:30-34 | loads the sub-modules in list order, returns their names, and leaves the tree unchanged; a module whose native module changed refers to its own |
| Modules.Module.LoadSubModule | src/Module.js:33 | loading sub-module `i` appends its trace after those of the sub-modules before it; a module whose native module changed refers to its own |
| Modules.Module.RegisterOwn | src/Module.js:36-44 | appends exactly the module's own calls |
| Modules.Module.LoadRegistries | src/Module.js:40-44 | controllers, components, directives, services and filters, in that order |
| CoreDecorators.Controller | src/core/decorators.js:4-12 | adds the route named after the factory only when a config is given, before the controller; then appends the class as a controller |
| CoreDecorators.Service | src/core/decorators.js:14-18 | appends the class to the services once |
| CoreDecorators.Component | src/core/decorators.js:20-25 | appends `(class, options)` to the components, then the class to the controllers |
| CoreDecorators.Directive | src/core/decorators.js:27-32 | appends `(class, options)` to the directives, then the class to the controllers |
| CoreDecorators.Filter | src/core/decorators.js:34-39 | on any registry: sets the class's `$name` and appends the name string to the filters; a well-formed registry stays well formed and is no longer loadable |
| CoreDecorators.Inject | src/core/decorators.js:53-57 | `$inject` becomes the parent's list followed by the dependencies; parent lists are unchanged |
| CoreDecorators.InjectConfig | src/core/decorators.js:41-45 | the same for `$injectConfig` only |
| CoreDecorators.InjectRun | src/core/decorators.js:47-51 | the same for `$injectRun` only |
| Decorators.Controller | src/decorators.js:10-18 | as the core decorator, on `flaky.module` |
| Decorators.Service | src/decorators.js:24-28 | appends the class to the services of `flaky.module` once |
| Decorators.Component | src/decorators.js:35-40 | appends `(class, options)`, then the class as a controller, on `flaky.module` |
| Decorators.Directive | src/decorators.js:47-52 | appends `(class, options)`, then the class as a controller, on `flaky.module` |
| Decorators.Filter | src/decorators.js:58-62 | on any registry: appends the class itself to the filters; a well-formed registry stays well formed, and a loadable one stays loadable |
| Decorators.FooDirectiveRegistration | test/fixtures/FooDirective.js:3-6 | the fixture is loaded as directive `foo`, restricted to attributes, controller `FooDirective as dtFoo`, template kept |
| App.DefineModuleClass | src/Module.js:4-5 | `Module` carries `$injectConfig = ["$stateProvider"]` and nothing else |
| App.DefineApplicationClass | src/Application.js:4-6 | `Application`'s lists are `Module`'s followed by `$rootScope` (run) and `$locationProvider` (config) |
| App.DefineClasses | src/Application.js:4-6 | `Application.$injectConfig` is `["$stateProvider", "$locationProvider"]`, `$injectRun` is `["$rootScope"]`, and `Module`'s own list is unchanged |
| App.Application.constructor | src/Application.js:8-14 | empty registries, HTML5 mode, base and link rewriting all on, prefix `!` |
| App.Application.SetUseHtml5Mode | src/Application.js:40-43 | sets that flag only and returns the application |
| App.Application.SetRequireBase | src/Application.js:45-47 | sets that flag only, returns nothing |
| App.Application.SetRewriteLinks | src/Application.js:49-51 | sets that flag only, returns nothing |
| App.Application.SetUrlPrefix | src/Application.js:53-55 | sets the prefix only, returns nothing |
| App.Application.Config | src/Application.js:26-32 | `html5Mode` gets exactly `enabled`, `requireBase` and `rewriteLinks` from the three flags, then `hashPrefix` gets the URL prefix |
| App.ConfigArgument | src/Module.js:64-68 | the config callback's first argument is the service named first in its inject list |
| App.NewApplication | src/Application.js:8-14 | a new application's tree holds the inherited lists and nothing else |
| App.BareModuleTrace | src/Module.js:29-47 | a module with no sub-modules and empty registries makes exactly three native calls |
| App.Bootstrap | src/Application.js:26 | loading a new application records the native module, a config block injecting `$stateProvider, $locationProvider` and a run block injecting `$rootScope`; `config` thus applies the HTML5 settings to the `$stateProvider` service |

## Left out

- The AngularJS runtime is left out: the injector, the digest cycle, `$stateProvider.state`, `$locationProvider`, and name resolution. Each native call is an appended `Registration`, and a service is represented by its name.
- `Application.run` and the `onStateChangeStart`/`onStateChangeSuccess` hooks (src/Application.js:16-38) are left out. They are event subscriptions with no observable result in the model. The same holds for the empty `Module.run` and for the bodies of the config and run callbacks. A callback is modelled by its kind and its `$inject` list.
- The filter factory built in `loadFilters` is left out. It is passed as an extra argument to `normalizeFilterName`, which ignores it. Only the derived filter name is modelled.
- `interceptor(type)` (src/decorators.js:69-73) is left out. It calls `addInterceptor`, which `Module` does not define.
- The `flaky` registry module and `Utils` are not part of this model. `flaky` is a `Module` passed in, and `flaky.module` is a field of `Decorators.Flaky`. `isArray` means that a list is present.
- Regular expressions are modelled only as the literal words the source passes. A match is the first occurrence of a literal substring. Case folding is ASCII only.
- `abstractInject` appears in both decorator files with the same behaviour: one reads the parent with `Reflect.getPrototypeOf` and tests it with `angular.isArray`, the other with `Object.getPrototypeOf` and `Utils.isArray` (src/core/decorators.js:61-63, src/decorators.js:116-118). It is modelled once, as `Classes.AbstractInject`. The `inject`, `injectConfig` and `injectRun` decorators of src/decorators.js:80-106 are the members `CoreDecorators.Inject`, `CoreDecorators.InjectConfig` and `CoreDecorators.InjectRun`.
- The directive factory closure is modelled as data (`Factory`). `Definition` gives the object it returns.
- Modules.Module.Load: requires every filter entry in the tree to be a class. With a string entry, which the core `filter(name)` decorator produces, the source throws on `.name`. The model leaves that failure unmodelled.
- Modules.Module.Load: requires `Valid()`, a ghost footprint `Repr` per module that contains every module below it. `AddModule` extends only the receiver's footprint, so the promise covers trees assembled bottom-up: each sub-module complete before it is added. After a module already inside a tree takes a new sub-module (`a.addModule(b); b.addModule(c)`), the modules above it no longer satisfy `Valid()`, and the model says nothing about loading them, though the source loads such a tree leaf-first as well. A module records no link to the modules that contain it, so their footprints cannot be updated.
- Modules.Module.AddModule: promises a well-formed tree only when both modules were well formed and the new sub-module does not already contain the module. The source also accepts a cycle, and then `load` calls itself around the cycle before any native call, until the stack overflows and a `RangeError` is thrown (src/Module.js:32-34). For a module inside a larger tree, see the line on `Load`.
- CoreDecorators.Filter: promises that the module becomes unloadable only for a well-formed registry, for the reason given on the line on `Load`.
- Decorators.Filter: promises that loadability is kept only for a well-formed registry, for the reason given on the line on `Load`.
- Modules.CreateInjectedFunction: the source sets `$inject` on the callback object and returns that same object. Each callback is a fresh arrow function (src/Module.js:64-74), so the model returns an annotated value instead.
- Aliasing is left out. The lists are values, so the model does not capture aliasing with the caller. `setVendors` keeps the caller's array (src/Module.js:301-304). `addComponent` and `addDirective` keep the caller's options object, which is read only at load time (src/Module.js:91-95, 108-112, 175-189). A change the caller makes to such an array or object after the call shows up in the source's registries but not in the model's.
- The getters (src/Module.js:306-340) are left out. They return the live arrays, so a caller can mutate a registry through them; the model's lists are read-only values, and no such mutation is modelled.
