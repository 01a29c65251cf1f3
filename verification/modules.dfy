/**
 * The `Module` class of src/Module.js: eight ordered lists (vendors,
 * controllers, routes, services, components, directives, filters and
 * sub-modules) filled by fluent `addX` calls, and `load()`, which turns them into calls on the
 * native framework. Every native call is recorded, in order, as a
 * `Registration` appended to an `Angular` object.
 */
module Modules {
  import opened Common
  import opened Naming
  import opened Classes

  /** A value held in an options object or a route config. */
  datatype Value = Text(s: string) | Flag(b: bool) | Function(c: Ctor) | Opaque(id: nat)

  /** A plain object: its own enumerable keys and their values. */
  type Options = map<string, Value>

  /**
   * `angular.extend(dst, src)` on a fresh `dst`: a shallow copy of `src`'s keys
   * onto `dst`, where `src` wins on a shared key.
   */
  function Extend(dst: Options, src: Options): (r: Options)
    ensures r.Keys == dst.Keys + src.Keys
    ensures forall k :: k in src ==> r[k] == src[k]
    ensures forall k :: k in dst && k !in src ==> r[k] == dst[k]
  {
    dst + src
  }

  /** A registry entry: a class, or a string where a caller passes one instead. */
  datatype Entry = Class(c: Ctor) | Literal(s: string)

  /** `entry.name`: a class has one; a string has none (`undefined`). */
  function NameOf(e: Entry): Option<string> {
    match e
    case Class(c) => Some(c.name)
    case Literal(_) => None
  }

  /** The `controller` argument of `addRoute`: `false`, a string, or a function. */
  datatype ControllerArg = NoController | ByName(s: string) | ByClass(c: Ctor)

  /** An element `[name, config]` of `_routes`. */
  datatype Route = Route(name: string, config: Options)

  /** The callbacks `initRunAndConfig` hands to the native module, and the filter factory. */
  datatype Callback = ConfigCallback | RunCallback

  /** A callback carrying its `$inject` list, as `createInjectedFunction` returns it. */
  datatype Injected = Injected(callback: Callback, inject: seq<string>)

  /** `Module.createInjectedFunction(callback, inject)`: the callback, annotated with `inject`. */
  function CreateInjectedFunction(callback: Callback, inject: seq<string>): (f: Injected)
    ensures f.callback == callback && f.inject == inject
  {
    Injected(callback, inject)
  }

  /**
   * The factory `loadComponents` and `loadDirectives` pass to `directive(name, factory)`:
   * a function of no arguments returning the definition built for a class and its options.
   */
  datatype Factory = ComponentFactory(component: Ctor, options: Options) | DirectiveFactory(directive: Ctor, options: Options)

  /** One call on the native framework. */
  datatype Registration =
    | NewModule(name: string, dependencies: seq<string>)
    | ConfigBlock(owner: string, fn: Injected)
    | RunBlock(owner: string, fn: Injected)
    | ControllerReg(owner: string, controllerName: Option<string>, controller: Entry)
    | DirectiveReg(owner: string, name: string, factory: Factory)
    | ServiceReg(owner: string, name: string, service: Ctor)
    | FilterReg(owner: string, name: string)

  /** A call `stateProvider.state(name, config)` made by `Module.config`. */
  datatype StateCall = State(provider: string, name: string, config: Options)

  /** The native framework, reduced to the record of calls made on it. */
  class Angular {
    var calls: seq<Registration>

    constructor ()
      ensures calls == []
    {
      calls := [];
    }
  }

  /** The controller `loadControllers` registers for one entry, under the entry's `name`. */
  function ControllerRegistration(h: string, controller: Entry): Registration {
    ControllerReg(h, NameOf(controller), controller)
  }

  /** The calls of `loadControllers` for module `h`: one per controller, in list order. */
  function ControllerCalls(h: string, cs: seq<Entry>): seq<Registration>
  {
    seq(|cs|, i requires 0 <= i < |cs| => ControllerRegistration(h, cs[i]))
  }

  /**
   * The directive definition of a component: element-restricted, bound to
   * its controller as `N as cpX`; the user's options override every default.
   */
  function ComponentOptions(n: string, options: Options): Options
  {
    Extend(map["restrict" := Text("E"), "bindToController" := Flag(true),
               "controller" := Text(n + " as " + NormalizeComponentAsName(n))], options)
  }

  /**
   * The directive definition of a directive: attribute-restricted, bound to
   * its controller as `N as dtX`; the user's options override every default.
   */
  function DirectiveOptions(n: string, options: Options): Options
  {
    Extend(map["restrict" := Text("A"), "bindToController" := Flag(true),
               "controller" := Text(n + " as " + NormalizeDirectiveAsName(n))], options)
  }

  /**
   * Components default to `restrict: 'E'`, `bindToController: true` and controller
   * `N as cpX`; every key the user supplies keeps the user's value.
   */
  lemma ComponentDefaults(n: string, options: Options)
    ensures var o := ComponentOptions(n, options);
            o.Keys == options.Keys + {"restrict", "bindToController", "controller"} &&
            (forall k :: k in options ==> o[k] == options[k]) &&
            ("restrict" !in options ==> o["restrict"] == Text("E")) &&
            ("bindToController" !in options ==> o["bindToController"] == Flag(true)) &&
            ("controller" !in options ==> o["controller"] == Text(n + " as " + NormalizeComponentAsName(n)))
  {
  }

  /**
   * Directives default to `restrict: 'A'`, `bindToController: true` and controller
   * `N as dtX`; every key the user supplies keeps the user's value.
   */
  lemma DirectiveDefaults(n: string, options: Options)
    ensures var o := DirectiveOptions(n, options);
            o.Keys == options.Keys + {"restrict", "bindToController", "controller"} &&
            (forall k :: k in options ==> o[k] == options[k]) &&
            ("restrict" !in options ==> o["restrict"] == Text("A")) &&
            ("bindToController" !in options ==> o["bindToController"] == Flag(true)) &&
            ("controller" !in options ==> o["controller"] == Text(n + " as " + NormalizeDirectiveAsName(n)))
  {
  }

  /** The directive definition object a factory returns. */
  function Definition(f: Factory): Options {
    match f
    case ComponentFactory(c, options) => ComponentOptions(c.name, options)
    case DirectiveFactory(d, options) => DirectiveOptions(d.name, options)
  }

  /** The directive `loadComponents` registers for one `[component, options]` entry. */
  function ComponentRegistration(h: string, entry: (Ctor, Options)): Registration {
    DirectiveReg(h, NormalizeComponentName(entry.0.name), ComponentFactory(entry.0, entry.1))
  }

  /** The directive `loadDirectives` registers for one `[directive, options]` entry. */
  function DirectiveRegistration(h: string, entry: (Ctor, Options)): Registration {
    DirectiveReg(h, NormalizeDirectiveName(entry.0.name), DirectiveFactory(entry.0, entry.1))
  }

  /** The service `loadServices` registers for one class, under its `$`-prefixed name. */
  function ServiceRegistration(h: string, service: Ctor): Registration {
    ServiceReg(h, NormalizeServiceName(service.name), service)
  }

  /** The filter name `loadFilters` registers for one class. */
  function FilterRegistration(h: string, filter: Entry): Registration
    requires filter.Class?
  {
    FilterReg(h, NormalizeFilterName(filter.c.name))
  }

  /** The calls of `loadComponents`: one directive per component, in list order. */
  function ComponentCalls(h: string, cs: seq<(Ctor, Options)>): seq<Registration>
  {
    seq(|cs|, i requires 0 <= i < |cs| => ComponentRegistration(h, cs[i]))
  }

  /** The calls of `loadDirectives`: one directive per entry, in list order. */
  function DirectiveCalls(h: string, ds: seq<(Ctor, Options)>): seq<Registration>
  {
    seq(|ds|, i requires 0 <= i < |ds| => DirectiveRegistration(h, ds[i]))
  }

  /** The calls of `loadServices`: one service per class, in list order. */
  function ServiceCalls(h: string, ss: seq<Ctor>): seq<Registration>
  {
    seq(|ss|, i requires 0 <= i < |ss| => ServiceRegistration(h, ss[i]))
  }

  /** The calls of `loadFilters`: one filter per class, in list order. */
  function FilterCalls(h: string, fs: seq<Entry>): seq<Registration>
    requires forall i :: 0 <= i < |fs| ==> fs[i].Class?
  {
    seq(|fs|, i requires 0 <= i < |fs| => FilterRegistration(h, fs[i]))
  }

  /**
   * The route `addRoute(name, config, controller)` stores, or the error it
   * throws. `name` is `None` where the caller passes `false`.
   */
  function RouteFor(name: Option<string>, config: Options, controller: ControllerArg): (r: Result<Route>)
    ensures r.Err? <==> name.None? && !controller.ByName?
    ensures name.Some? ==> r.Ok? && r.value.name == name.value
    ensures name.None? && controller.ByName? ==> r.Ok? && r.value.name == NormalizeRouteName(controller.s)
    ensures r.Ok? && controller.NoController? ==> r.value.config == config
    ensures r.Ok? && !controller.NoController? ==> r.value.config.Keys == config.Keys + {"controller"}
    ensures r.Ok? ==> forall k :: k in config ==> r.value.config[k] == config[k]
    ensures r.Ok? && controller.ByName? && "controller" !in config ==>
              r.value.config["controller"] == Text(controller.s + " as " + NormalizeControllerAsName(controller.s))
    ensures r.Ok? && controller.ByClass? && "controller" !in config ==>
              r.value.config["controller"] == Function(controller.c)
  {
    var routeName := if controller.ByName? && name.None? then Some(NormalizeRouteName(controller.s)) else name;
    var routeConfig := match controller
      case NoController => config
      case ByName(s) => Extend(map["controller" := Text(s + " as " + NormalizeControllerAsName(s))], config)
      case ByClass(c) => Extend(map["controller" := Function(c)], config);
    if routeName.None? then Err("Not set route name") else Ok(Route(routeName.value, routeConfig))
  }

  /** `addRoute(false, config, "SomeController")` stores route `some` with controller `SomeController as ctrlSome`. */
  lemma SomeControllerRoute(config: Options)
    requires "controller" !in config
    ensures RouteFor(None, config, ByName("SomeController")).Ok?
    ensures var route := RouteFor(None, config, ByName("SomeController")).value;
            route.name == "some" && route.config["controller"] == Text("SomeController" + " as " + "ctrlSome")
  {
    SomeControllerNames();
  }

  /**
   * `addRoute(false, config, "controller")`, as the `controller` decorator
   * calls it: the route is named `controller`, and its controller is
   * `controller as ctrlController` unless `config` names one.
   */
  lemma ControllerFactoryRoute(config: Options)
    ensures RouteFor(None, config, ByName("controller")) ==
              Ok(Route("controller", Extend(map["controller" := Text("controller" + " as " + "ctrlController")], config)))
  {
    ControllerFactoryNames();
  }

  /**
   * A module tree as `load()` sees it: a module's name, its vendors, the
   * dependency lists its class provides for config and run blocks, its
   * registries, and its sub-modules, in list order.
   */
  datatype Tree = Tree(
    name: string,
    vendors: seq<string>,
    injectConfig: seq<string>,
    injectRun: seq<string>,
    controllers: seq<Entry>,
    components: seq<(Ctor, Options)>,
    directives: seq<(Ctor, Options)>,
    services: seq<Ctor>,
    filters: seq<Entry>,
    subs: seq<Tree>)

  /** The names of a list of sub-trees (each `module.load()` returns its name). */
  function Names(ts: seq<Tree>, n: nat): seq<string>
    requires n <= |ts|
  {
    if n == 0 then [] else Names(ts, n - 1) + [ts[n - 1].name]
  }

  /** `Names` lists the names of the first `n` sub-trees, in order. */
  lemma {:induction false} NamesAt(ts: seq<Tree>, n: nat)
    requires n <= |ts|
    ensures |Names(ts, n)| == n
    ensures forall i :: 0 <= i < n ==> Names(ts, n)[i] == ts[i].name
  {
    if n > 0 {
      NamesAt(ts, n - 1);
    }
  }

  /** No filter entry of the tree is a string: `load` reads `.name` of every filter. */
  predicate Loadable(t: Tree)
    decreases t
  {
    (forall i :: 0 <= i < |t.filters| ==> t.filters[i].Class?) &&
    forall i :: 0 <= i < |t.subs| ==> Loadable(t.subs[i])
  }

  /** The calls `load()` makes for a module itself, after its sub-modules. */
  function OwnCalls(t: Tree): seq<Registration>
    requires forall i :: 0 <= i < |t.filters| ==> t.filters[i].Class?
  {
    [NewModule(t.name, t.vendors + Names(t.subs, |t.subs|))]
    + [ConfigBlock(t.name, CreateInjectedFunction(ConfigCallback, t.injectConfig)),
       RunBlock(t.name, CreateInjectedFunction(RunCallback, t.injectRun))]
    + ControllerCalls(t.name, t.controllers) + ComponentCalls(t.name, t.components)
    + DirectiveCalls(t.name, t.directives) + ServiceCalls(t.name, t.services) + FilterCalls(t.name, t.filters)
  }

  /** Every call `load()` makes on a tree: the sub-modules' loads in list order, then its own. */
  function Trace(t: Tree): seq<Registration>
    requires Loadable(t)
    decreases t, 1
  {
    SubTraces(t.subs, |t.subs|) + OwnCalls(t)
  }

  /** The calls of loading the first `n` of a list of sub-trees, one after the other. */
  function SubTraces(ts: seq<Tree>, n: nat): seq<Registration>
    requires n <= |ts| && forall i :: 0 <= i < |ts| ==> Loadable(ts[i])
    decreases ts, n
  {
    if n == 0 then [] else SubTraces(ts, n - 1) + Trace(ts[n - 1])
  }

  /**
   * The native module each module of a tree should get, listed children
   * first: the sub-trees' in list order, then the tree's own. A sub-tree
   * that occurs at several places is listed once per place.
   */
  function Created(t: Tree): seq<Registration>
    decreases t, 1
  {
    SubCreated(t.subs, |t.subs|) + [NewModule(t.name, t.vendors + Names(t.subs, |t.subs|))]
  }

  /** The native modules of the first `n` of a list of sub-trees, one tree after the other. */
  function SubCreated(ts: seq<Tree>, n: nat): seq<Registration>
    requires n <= |ts|
    decreases ts, n
  {
    if n == 0 then [] else SubCreated(ts, n - 1) + Created(ts[n - 1])
  }

  /** Appending to a trace one piece at a time is appending the pieces together. */
  lemma AppendAssoc(a: seq<Registration>, b: seq<Registration>, c: seq<Registration>)
    ensures a + b + c == a + (b + c)
  {
  }

  /** The native modules created in a sequence of calls, in call order. */
  function Creations(calls: seq<Registration>): seq<Registration> {
    if calls == [] then [] else (if calls[0].NewModule? then [calls[0]] else []) + Creations(calls[1..])
  }

  lemma {:induction false} CreationsAppend(a: seq<Registration>, b: seq<Registration>)
    ensures Creations(a + b) == Creations(a) + Creations(b)
  {
    if a == [] {
      assert a + b == b;
    } else {
      assert (a + b)[0] == a[0];
      assert (a + b)[1..] == a[1..] + b;
      CreationsAppend(a[1..], b);
    }
  }

  lemma {:induction false} CreationsNone(calls: seq<Registration>)
    requires NoCreation(calls)
    ensures Creations(calls) == []
  {
    if calls != [] {
      CreationsNone(calls[1..]);
    }
  }

  /** A module's own calls start with its native module and its config and run blocks. */
  lemma OwnCallsHead(t: Tree)
    requires forall i :: 0 <= i < |t.filters| ==> t.filters[i].Class?
    ensures |OwnCalls(t)| == 3 + |t.controllers| + |t.components| + |t.directives| + |t.services| + |t.filters|
    ensures OwnCalls(t)[0] == NewModule(t.name, t.vendors + Names(t.subs, |t.subs|))
    ensures OwnCalls(t)[1] == ConfigBlock(t.name, Injected(ConfigCallback, t.injectConfig))
    ensures OwnCalls(t)[2] == RunBlock(t.name, Injected(RunCallback, t.injectRun))
  {
  }

  /** One more element of a list taken from its front. */
  lemma TakeStep(s: seq<Registration>, i: nat)
    requires i < |s|
    ensures s[..i + 1] == s[..i] + [s[i]]
  {
  }

  /** All of a list taken from its front. */
  lemma TakeAll(s: seq<Registration>)
    ensures s[..|s|] == s
  {
  }

  /** An element of the right-hand part of a concatenation. */
  lemma AppendIndex(x: seq<Registration>, y: seq<Registration>, i: nat)
    requires i < |y|
    ensures (x + y)[|x| + i] == y[i]
  {
  }

  /** An element of the left-hand part of a concatenation. */
  lemma PrefixIndex(x: seq<Registration>, y: seq<Registration>, k: nat)
    requires k < |x|
    ensures (x + y)[k] == x[k]
  {
  }

  /** Then come the controllers, in list order. */
  lemma OwnCallsControllers(t: Tree)
    requires forall i :: 0 <= i < |t.filters| ==> t.filters[i].Class?
    ensures forall i :: 0 <= i < |t.controllers| ==>
              OwnCalls(t)[3 + i] == ControllerRegistration(t.name, t.controllers[i])
  {
    var p0 := [NewModule(t.name, t.vendors + Names(t.subs, |t.subs|))]
              + [ConfigBlock(t.name, CreateInjectedFunction(ConfigCallback, t.injectConfig)),
                 RunBlock(t.name, CreateInjectedFunction(RunCallback, t.injectRun))];
    var p1 := p0 + ControllerCalls(t.name, t.controllers);
    var p2 := p1 + ComponentCalls(t.name, t.components);
    var p3 := p2 + DirectiveCalls(t.name, t.directives);
    var p4 := p3 + ServiceCalls(t.name, t.services);
    assert OwnCalls(t) == p4 + FilterCalls(t.name, t.filters);
    assert |p0| == 3;
    forall i | 0 <= i < |t.controllers|
      ensures OwnCalls(t)[3 + i] == ControllerRegistration(t.name, t.controllers[i])
    {
      PrefixIndex(p4, FilterCalls(t.name, t.filters), |p0| + i);
      PrefixIndex(p3, ServiceCalls(t.name, t.services), |p0| + i);
      PrefixIndex(p2, DirectiveCalls(t.name, t.directives), |p0| + i);
      PrefixIndex(p1, ComponentCalls(t.name, t.components), |p0| + i);
      AppendIndex(p0, ControllerCalls(t.name, t.controllers), i);
    }
  }

  /** Then the components, in list order. */
  lemma OwnCallsComponents(t: Tree)
    requires forall i :: 0 <= i < |t.filters| ==> t.filters[i].Class?
    ensures forall i :: 0 <= i < |t.components| ==>
              OwnCalls(t)[3 + |t.controllers| + i] == ComponentRegistration(t.name, t.components[i])
  {
    var p0 := [NewModule(t.name, t.vendors + Names(t.subs, |t.subs|))]
              + [ConfigBlock(t.name, CreateInjectedFunction(ConfigCallback, t.injectConfig)),
                 RunBlock(t.name, CreateInjectedFunction(RunCallback, t.injectRun))];
    var p1 := p0 + ControllerCalls(t.name, t.controllers);
    var p2 := p1 + ComponentCalls(t.name, t.components);
    var p3 := p2 + DirectiveCalls(t.name, t.directives);
    var p4 := p3 + ServiceCalls(t.name, t.services);
    assert OwnCalls(t) == p4 + FilterCalls(t.name, t.filters);
    assert |p1| == 3 + |t.controllers|;
    forall i | 0 <= i < |t.components|
      ensures OwnCalls(t)[3 + |t.controllers| + i] == ComponentRegistration(t.name, t.components[i])
    {
      PrefixIndex(p4, FilterCalls(t.name, t.filters), |p1| + i);
      PrefixIndex(p3, ServiceCalls(t.name, t.services), |p1| + i);
      PrefixIndex(p2, DirectiveCalls(t.name, t.directives), |p1| + i);
      AppendIndex(p1, ComponentCalls(t.name, t.components), i);
    }
  }

  /** Then the directives, in list order. */
  lemma OwnCallsDirectives(t: Tree)
    requires forall i :: 0 <= i < |t.filters| ==> t.filters[i].Class?
    ensures forall i :: 0 <= i < |t.directives| ==>
              OwnCalls(t)[3 + |t.controllers| + |t.components| + i] == DirectiveRegistration(t.name, t.directives[i])
  {
    var p0 := [NewModule(t.name, t.vendors + Names(t.subs, |t.subs|))]
              + [ConfigBlock(t.name, CreateInjectedFunction(ConfigCallback, t.injectConfig)),
                 RunBlock(t.name, CreateInjectedFunction(RunCallback, t.injectRun))];
    var p1 := p0 + ControllerCalls(t.name, t.controllers);
    var p2 := p1 + ComponentCalls(t.name, t.components);
    var p3 := p2 + DirectiveCalls(t.name, t.directives);
    var p4 := p3 + ServiceCalls(t.name, t.services);
    assert OwnCalls(t) == p4 + FilterCalls(t.name, t.filters);
    assert |p2| == 3 + |t.controllers| + |t.components|;
    forall i | 0 <= i < |t.directives|
      ensures OwnCalls(t)[3 + |t.controllers| + |t.components| + i] == DirectiveRegistration(t.name, t.directives[i])
    {
      PrefixIndex(p4, FilterCalls(t.name, t.filters), |p2| + i);
      PrefixIndex(p3, ServiceCalls(t.name, t.services), |p2| + i);
      AppendIndex(p2, DirectiveCalls(t.name, t.directives), i);
    }
  }

  /** Then the services, in list order. */
  lemma OwnCallsServices(t: Tree)
    requires forall i :: 0 <= i < |t.filters| ==> t.filters[i].Class?
    ensures forall i :: 0 <= i < |t.services| ==>
              OwnCalls(t)[3 + |t.controllers| + |t.components| + |t.directives| + i] == ServiceRegistration(t.name, t.services[i])
  {
    var p0 := [NewModule(t.name, t.vendors + Names(t.subs, |t.subs|))]
              + [ConfigBlock(t.name, CreateInjectedFunction(ConfigCallback, t.injectConfig)),
                 RunBlock(t.name, CreateInjectedFunction(RunCallback, t.injectRun))];
    var p1 := p0 + ControllerCalls(t.name, t.controllers);
    var p2 := p1 + ComponentCalls(t.name, t.components);
    var p3 := p2 + DirectiveCalls(t.name, t.directives);
    var p4 := p3 + ServiceCalls(t.name, t.services);
    assert OwnCalls(t) == p4 + FilterCalls(t.name, t.filters);
    assert |p3| == 3 + |t.controllers| + |t.components| + |t.directives|;
    forall i | 0 <= i < |t.services|
      ensures OwnCalls(t)[3 + |t.controllers| + |t.components| + |t.directives| + i] == ServiceRegistration(t.name, t.services[i])
    {
      PrefixIndex(p4, FilterCalls(t.name, t.filters), |p3| + i);
      AppendIndex(p3, ServiceCalls(t.name, t.services), i);
    }
  }

  /** And last the filters, in list order. */
  lemma OwnCallsFilters(t: Tree)
    requires forall i :: 0 <= i < |t.filters| ==> t.filters[i].Class?
    ensures forall i :: 0 <= i < |t.filters| ==>
              OwnCalls(t)[3 + |t.controllers| + |t.components| + |t.directives| + |t.services| + i] == FilterRegistration(t.name, t.filters[i])
  {
    var p0 := [NewModule(t.name, t.vendors + Names(t.subs, |t.subs|))]
              + [ConfigBlock(t.name, CreateInjectedFunction(ConfigCallback, t.injectConfig)),
                 RunBlock(t.name, CreateInjectedFunction(RunCallback, t.injectRun))];
    var p1 := p0 + ControllerCalls(t.name, t.controllers);
    var p2 := p1 + ComponentCalls(t.name, t.components);
    var p3 := p2 + DirectiveCalls(t.name, t.directives);
    var p4 := p3 + ServiceCalls(t.name, t.services);
    assert OwnCalls(t) == p4 + FilterCalls(t.name, t.filters);
    assert |p4| == 3 + |t.controllers| + |t.components| + |t.directives| + |t.services|;
    forall i | 0 <= i < |t.filters|
      ensures OwnCalls(t)[3 + |t.controllers| + |t.components| + |t.directives| + |t.services| + i] == FilterRegistration(t.name, t.filters[i])
    {
      AppendIndex(p4, FilterCalls(t.name, t.filters), i);
    }
  }

  /** No call of `calls` creates a native module. */
  predicate NoCreation(calls: seq<Registration>) {
    forall i :: 0 <= i < |calls| ==> !calls[i].NewModule?
  }

  lemma NoCreationAppend(a: seq<Registration>, b: seq<Registration>)
    requires NoCreation(a) && NoCreation(b)
    ensures NoCreation(a + b)
  {
    forall i | 0 <= i < |a + b| ensures !(a + b)[i].NewModule? {
      if i >= |a| {
        assert (a + b)[i] == b[i - |a|];
      }
    }
  }

  /** The calls a module makes after creating its native module. */
  function OwnTail(t: Tree): seq<Registration>
    requires forall i :: 0 <= i < |t.filters| ==> t.filters[i].Class?
  {
    [ConfigBlock(t.name, CreateInjectedFunction(ConfigCallback, t.injectConfig)),
     RunBlock(t.name, CreateInjectedFunction(RunCallback, t.injectRun))]
    + ControllerCalls(t.name, t.controllers) + ComponentCalls(t.name, t.components)
    + DirectiveCalls(t.name, t.directives) + ServiceCalls(t.name, t.services) + FilterCalls(t.name, t.filters)
  }

  /** A module's own calls are its native module, then the tail. */
  lemma OwnCallsSplit(t: Tree)
    requires forall i :: 0 <= i < |t.filters| ==> t.filters[i].Class?
    ensures |OwnCalls(t)| > 0 && OwnCalls(t)[1..] == OwnTail(t)
  {
    var create := [NewModule(t.name, t.vendors + Names(t.subs, |t.subs|))];
    var init := [ConfigBlock(t.name, CreateInjectedFunction(ConfigCallback, t.injectConfig)),
                 RunBlock(t.name, CreateInjectedFunction(RunCallback, t.injectRun))];
    var cc := ControllerCalls(t.name, t.controllers);
    var pc := ComponentCalls(t.name, t.components);
    var dc := DirectiveCalls(t.name, t.directives);
    var sc := ServiceCalls(t.name, t.services);
    var fc := FilterCalls(t.name, t.filters);
    assert create + init + cc + pc + dc + sc + fc == create + (init + cc + pc + dc + sc + fc);
  }

  /** No call of the tail creates a native module. */
  lemma OwnTailNoCreation(t: Tree)
    requires forall i :: 0 <= i < |t.filters| ==> t.filters[i].Class?
    ensures NoCreation(OwnTail(t))
  {
    var init := [ConfigBlock(t.name, CreateInjectedFunction(ConfigCallback, t.injectConfig)),
                 RunBlock(t.name, CreateInjectedFunction(RunCallback, t.injectRun))];
    var cc := ControllerCalls(t.name, t.controllers);
    var pc := ComponentCalls(t.name, t.components);
    var dc := DirectiveCalls(t.name, t.directives);
    var sc := ServiceCalls(t.name, t.services);
    var fc := FilterCalls(t.name, t.filters);
    NoCreationAppend(init, cc);
    NoCreationAppend(init + cc, pc);
    NoCreationAppend(init + cc + pc, dc);
    NoCreationAppend(init + cc + pc + dc, sc);
    NoCreationAppend(init + cc + pc + dc + sc, fc);
  }

  /** None of a module's own calls after the first creates a native module. */
  lemma OwnCallsRestCreateNone(t: Tree)
    requires forall i :: 0 <= i < |t.filters| ==> t.filters[i].Class?
    ensures |OwnCalls(t)| > 0 && Creations(OwnCalls(t)[1..]) == []
  {
    OwnCallsSplit(t);
    OwnTailNoCreation(t);
    CreationsNone(OwnTail(t));
  }

  /** A module's own calls create exactly one native module, its own, and it is the first of them. */
  lemma OwnCallsCreateOne(t: Tree)
    requires forall i :: 0 <= i < |t.filters| ==> t.filters[i].Class?
    ensures |OwnCalls(t)| > 0 && OwnCalls(t)[0] == NewModule(t.name, t.vendors + Names(t.subs, |t.subs|))
    ensures Creations(OwnCalls(t)[1..]) == []
    ensures Creations(OwnCalls(t)) == [NewModule(t.name, t.vendors + Names(t.subs, |t.subs|))]
  {
    OwnCallsHead(t);
    OwnCallsRestCreateNone(t);
  }

  /** Appending a module's own calls is appending its steps' calls one after the other. */
  lemma OwnCallsAfter(start: seq<Registration>, t: Tree)
    requires forall i :: 0 <= i < |t.filters| ==> t.filters[i].Class?
    ensures start + OwnCalls(t) ==
              start + [NewModule(t.name, t.vendors + Names(t.subs, |t.subs|))]
              + [ConfigBlock(t.name, CreateInjectedFunction(ConfigCallback, t.injectConfig)),
                 RunBlock(t.name, CreateInjectedFunction(RunCallback, t.injectRun))]
              + ControllerCalls(t.name, t.controllers) + ComponentCalls(t.name, t.components)
              + DirectiveCalls(t.name, t.directives) + ServiceCalls(t.name, t.services)
              + FilterCalls(t.name, t.filters)
  {
    var create := [NewModule(t.name, t.vendors + Names(t.subs, |t.subs|))];
    var init := [ConfigBlock(t.name, CreateInjectedFunction(ConfigCallback, t.injectConfig)),
                 RunBlock(t.name, CreateInjectedFunction(RunCallback, t.injectRun))];
    var own := create + init;
    AppendAssoc(start, create, init);
    var part := ControllerCalls(t.name, t.controllers);
    AppendAssoc(start, own, part);
    own := own + part;
    part := ComponentCalls(t.name, t.components);
    AppendAssoc(start, own, part);
    own := own + part;
    part := DirectiveCalls(t.name, t.directives);
    AppendAssoc(start, own, part);
    own := own + part;
    part := ServiceCalls(t.name, t.services);
    AppendAssoc(start, own, part);
    own := own + part;
    part := FilterCalls(t.name, t.filters);
    AppendAssoc(start, own, part);
    own := own + part;
    assert own == OwnCalls(t);
  }

  /**
   * Loading a tree creates exactly the native modules `Created` lists: each
   * module's own, once per place it occurs, every sub-tree's before its parent's.
   */
  lemma {:induction false} TraceCreatesEachModuleOnce(t: Tree)
    requires Loadable(t)
    ensures Creations(Trace(t)) == Created(t)
    decreases t, 1
  {
    SubTracesCreate(t.subs, |t.subs|);
    OwnCallsCreateOne(t);
    CreationsAppend(SubTraces(t.subs, |t.subs|), OwnCalls(t));
  }

  lemma {:induction false} SubTracesCreate(ts: seq<Tree>, n: nat)
    requires n <= |ts| && forall i :: 0 <= i < |ts| ==> Loadable(ts[i])
    ensures Creations(SubTraces(ts, n)) == SubCreated(ts, n)
    decreases ts, n
  {
    if n > 0 {
      SubTracesCreate(ts, n - 1);
      TraceCreatesEachModuleOnce(ts[n - 1]);
      CreationsAppend(SubTraces(ts, n - 1), Trace(ts[n - 1]));
    }
  }

  /**
   * Loading is leaf-first: a module's native module is created after those
   * of every module below it, which are exactly the sub-trees' own, and no
   * native module is created after it.
   */
  lemma LoadIsLeafFirst(t: Tree)
    requires Loadable(t)
    ensures var calls, k := Trace(t), |SubTraces(t.subs, |t.subs|)|;
            k < |calls| && calls[k] == NewModule(t.name, t.vendors + Names(t.subs, |t.subs|)) &&
            Creations(calls[..k]) == SubCreated(t.subs, |t.subs|) && Creations(calls[k + 1..]) == []
  {
    var calls, k := Trace(t), |SubTraces(t.subs, |t.subs|)|;
    var own := OwnCalls(t);
    OwnCallsCreateOne(t);
    SubTracesCreate(t.subs, |t.subs|);
    assert calls[..k] == SubTraces(t.subs, |t.subs|);
    assert calls[k + 1..] == own[1..];
  }

  class Module {
    const name: string
    /** `this.constructor`: the class the module was made from, read for `$injectConfig` and `$injectRun`. */
    const ctor: Ctor
    /** `_angularModule`, by the name of the native module it refers to. */
    var angularModule: Option<string>
    var vendors: seq<string>
    var controllers: seq<Entry>
    var routes: seq<Route>
    var services: seq<Ctor>
    var components: seq<(Ctor, Options)>
    var directives: seq<(Ctor, Options)>
    var filters: seq<Entry>
    var modules: seq<Module>
    /** The modules of the tree rooted here. */
    ghost var Repr: set<Module>
    /** The classes of every module of the tree, with their ancestors. */
    ghost var Classes: set<Ctor>

    /** The sub-module tree is finite and acyclic (it may share sub-trees). */
    ghost predicate Valid()
      reads this`Repr, this`Classes, Repr`Repr, Repr`Classes, Repr`modules
      ensures Valid() ==> this in Repr
      decreases Repr
    {
      this in Repr && ctor.Wf() && ctor.Ancestry() <= Classes &&
      forall m :: m in modules ==>
        m in Repr && m.Repr <= Repr && this !in m.Repr && m.Classes <= Classes && m.Valid()
    }

    constructor (name: string, ctor: Ctor)
      requires ctor.Wf()
      ensures this.name == name && this.ctor == ctor && angularModule == None
      ensures vendors == [] && controllers == [] && routes == [] && services == []
      ensures components == [] && directives == [] && filters == [] && modules == []
      ensures Valid() && Repr == {this} && Classes == ctor.Ancestry()
    {
      this.name := name;
      this.ctor := ctor;
      angularModule := None;
      vendors, controllers, routes, services := [], [], [], [];
      components, directives, filters, modules := [], [], [], [];
      Repr := {this};
      Classes := ctor.Ancestry();
    }

    method AddController(controller: Entry) returns (self: Module)
      modifies this`controllers
      ensures self == this && controllers == old(controllers) + [controller]
    {
      controllers := controllers + [controller];
      self := this;
    }

    method AddService(service: Ctor) returns (self: Module)
      modifies this`services
      ensures self == this && services == old(services) + [service]
    {
      services := services + [service];
      self := this;
    }

    method AddComponent(component: Ctor, options: Options := map[]) returns (self: Module)
      modifies this`components
      ensures self == this && components == old(components) + [(component, options)]
    {
      components := components + [(component, options)];
      self := this;
    }

    method AddDirective(directive: Ctor, options: Options := map[]) returns (self: Module)
      modifies this`directives
      ensures self == this && directives == old(directives) + [(directive, options)]
    {
      directives := directives + [(directive, options)];
      self := this;
    }

    method AddFilter(filter: Entry) returns (self: Module)
      modifies this`filters
      ensures self == this && filters == old(filters) + [filter]
    {
      filters := filters + [filter];
      self := this;
    }

    /**
     * `addRoute(name, config, controller = false)`: derives the name from a
     * string controller when `name` is `false`, merges the controller into the
     * config, and throws when there is still no name.
     */
    method AddRoute(name: Option<string>, config: Options, controller: ControllerArg := NoController)
      returns (r: Result<Module>)
      modifies this`routes
      ensures RouteFor(name, config, controller).Ok? ==>
                r == Ok(this) && routes == old(routes) + [RouteFor(name, config, controller).value]
      ensures RouteFor(name, config, controller).Err? ==>
                r == Err("Not set route name") && routes == old(routes)
    {
      var routeName, routeConfig := name, config;
      if !controller.NoController? {
        var value;
        if !controller.ByClass? {
          if routeName.None? {
            routeName := Some(NormalizeRouteName(controller.s));
          }
          value := Text(controller.s + " as " + NormalizeControllerAsName(controller.s));
        } else {
          value := Function(controller.c);
        }
        routeConfig := Extend(map["controller" := value], routeConfig);
      }
      if routeName.None? {
        return Err("Not set route name");
      }
      routes := routes + [Route(routeName.value, routeConfig)];
      r := Ok(this);
    }

    /**
     * `addModule(module)`: appends any module. The tree stays well formed when
     * both were and the new sub-module does not contain this module (else
     * `load` would recurse until the stack overflows).
     */
    method AddModule(sub: Module) returns (self: Module)
      modifies this`modules, this`Repr, this`Classes
      ensures self == this && modules == old(modules) + [sub]
      ensures Repr == old(Repr) + sub.Repr && Classes == old(Classes) + sub.Classes
      ensures old(Valid()) && sub.Valid() && this !in sub.Repr ==> Valid()
    {
      ghost var wasValid := Valid() && sub.Valid() && this !in sub.Repr;
      modules := modules + [sub];
      Repr := Repr + sub.Repr;
      Classes := Classes + sub.Classes;
      self := this;
      if wasValid {
        forall m | m in modules
          ensures m in Repr && m.Repr <= Repr && this !in m.Repr && m.Classes <= Classes && m.Valid()
        {
          assert m == sub || m in old(modules);
        }
      }
    }

    /** `setVendors(vendors)` replaces the list of vendor module names. */
    method SetVendors(vendors: seq<string>) returns (self: Module)
      modifies this`vendors
      ensures self == this && this.vendors == vendors
    {
      this.vendors := vendors;
      self := this;
    }

    /** `config(stateProvider)`: one `state(name, config)` call per route, in list order. */
    method Config(stateProvider: string) returns (calls: seq<StateCall>)
      ensures |calls| == |routes|
      ensures forall i :: 0 <= i < |routes| ==> calls[i] == State(stateProvider, routes[i].name, routes[i].config)
    {
      calls := [];
      for i := 0 to |routes|
        invariant |calls| == i
        invariant forall j :: 0 <= j < i ==> calls[j] == State(stateProvider, routes[j].name, routes[j].config)
      {
        calls := calls + [State(stateProvider, routes[i].name, routes[i].config)];
      }
    }

    /** The module tree as it stands: what `load()` reads. */
    ghost function View(): (t: Tree)
      requires Valid()
      reads this`Repr, this`Classes, Repr`Repr, Repr`Classes, Repr`modules, Repr`vendors
      reads Repr`controllers, Repr`components, Repr`directives, Repr`services, Repr`filters, Classes`annotations
      ensures t.name == name && |t.subs| == |modules|
      decreases Repr, 1, 0
    {
      Tree(name, vendors, ListOf(ctor, InjectConfig), ListOf(ctor, InjectRun),
           controllers, components, directives, services, filters, SubViews(|modules|))
    }

    /** The views of the first `n` sub-modules. */
    ghost function SubViews(n: nat): (ts: seq<Tree>)
      requires Valid() && n <= |modules|
      reads this`Repr, this`Classes, Repr`Repr, Repr`Classes, Repr`modules, Repr`vendors
      reads Repr`controllers, Repr`components, Repr`directives, Repr`services, Repr`filters, Classes`annotations
      ensures |ts| == n
      decreases Repr, 0, n
    {
      if n == 0 then [] else SubViews(n - 1) + [modules[n - 1].View()]
    }

    lemma {:induction false} SubViewsAt(n: nat)
      requires Valid() && n <= |modules|
      ensures forall i :: 0 <= i < n ==> SubViews(n)[i] == modules[i].View()
      decreases n
    {
      if n > 0 {
        SubViewsAt(n - 1);
        var prefix, last := SubViews(n - 1), modules[n - 1].View();
        assert SubViews(n) == prefix + [last];
        forall i | 0 <= i < n
          ensures SubViews(n)[i] == modules[i].View()
        {
          if i < n - 1 {
            assert SubViews(n)[i] == prefix[i];
          } else {
            assert |prefix| == n - 1;
            assert SubViews(n)[i] == last;
          }
        }
      }
    }

    /**
     * A change to this module's own registries leaves its sub-modules, which
     * do not contain it, as they were.
     */
    twostate lemma SubViewsKept()
      requires old(Valid()) && unchanged(this`Repr, this`Classes, this`modules)
      requires forall m :: m in old(Repr) && m != this ==> unchanged(m)
      requires forall c :: c in old(Classes) ==> unchanged(c)
      ensures Valid()
      ensures forall i :: 0 <= i < |modules| ==> modules[i].Valid() && modules[i].View() == old(modules[i].View())
    {
      forall m | m in modules
        ensures m.Valid() && m.View() == old(m.View())
      {
        assert m in old(Repr) && this !in m.Repr;
      }
    }

    /** A sub-module of a loadable module is valid, loadable, and viewed as the matching sub-tree. */
    lemma SubModuleLoadable(i: nat)
      requires Valid() && Loadable(View()) && i < |modules|
      ensures modules[i].Valid() && modules[i].View() == View().subs[i] && Loadable(modules[i].View())
    {
      SubViewsAt(|modules|);
    }

    /** `initRunAndConfig()`: a config and a run block carrying the class's inherited lists. */
    method InitRunAndConfig(native: Angular)
      requires angularModule.Some? && ctor.Wf()
      modifies native`calls
      ensures native.calls == old(native.calls) + [
                ConfigBlock(angularModule.value, CreateInjectedFunction(ConfigCallback, old(ListOf(ctor, InjectConfig)))),
                RunBlock(angularModule.value, CreateInjectedFunction(RunCallback, old(ListOf(ctor, InjectRun))))]
    {
      var injectConfig: seq<string> := [];
      var injectRun: seq<string> := [];
      var configList := ctor.Lookup(InjectConfig);
      if configList.Some? {
        injectConfig := injectConfig + configList.value;
      }
      var runList := ctor.Lookup(InjectRun);
      if runList.Some? {
        injectRun := injectRun + runList.value;
      }
      var config := ConfigBlock(angularModule.value, CreateInjectedFunction(ConfigCallback, injectConfig));
      var run := RunBlock(angularModule.value, CreateInjectedFunction(RunCallback, injectRun));
      assert injectConfig == ListOf(ctor, InjectConfig) && injectRun == ListOf(ctor, InjectRun);
      native.calls := native.calls + [config, run];
    }

    method LoadControllers(native: Angular)
      requires angularModule.Some?
      modifies native`calls
      ensures native.calls == old(native.calls) + ControllerCalls(angularModule.value, controllers)
    {
      var h, xs := angularModule.value, controllers;
      var i := 0;
      while i < |xs|
        invariant 0 <= i <= |xs|
        invariant native.calls == old(native.calls) + ControllerCalls(h, xs)[..i]
      {
        native.calls := native.calls + [ControllerRegistration(h, xs[i])];
        TakeStep(ControllerCalls(h, xs), i);
        i := i + 1;
      }
      TakeAll(ControllerCalls(h, xs));
    }

    method LoadComponents(native: Angular)
      requires angularModule.Some?
      modifies native`calls
      ensures native.calls == old(native.calls) + ComponentCalls(angularModule.value, components)
    {
      var h, xs := angularModule.value, components;
      var i := 0;
      while i < |xs|
        invariant 0 <= i <= |xs|
        invariant native.calls == old(native.calls) + ComponentCalls(h, xs)[..i]
      {
        native.calls := native.calls + [ComponentRegistration(h, xs[i])];
        TakeStep(ComponentCalls(h, xs), i);
        i := i + 1;
      }
      TakeAll(ComponentCalls(h, xs));
    }

    method LoadDirectives(native: Angular)
      requires angularModule.Some?
      modifies native`calls
      ensures native.calls == old(native.calls) + DirectiveCalls(angularModule.value, directives)
    {
      var h, xs := angularModule.value, directives;
      var i := 0;
      while i < |xs|
        invariant 0 <= i <= |xs|
        invariant native.calls == old(native.calls) + DirectiveCalls(h, xs)[..i]
      {
        native.calls := native.calls + [DirectiveRegistration(h, xs[i])];
        TakeStep(DirectiveCalls(h, xs), i);
        i := i + 1;
      }
      TakeAll(DirectiveCalls(h, xs));
    }

    method LoadServices(native: Angular)
      requires angularModule.Some?
      modifies native`calls
      ensures native.calls == old(native.calls) + ServiceCalls(angularModule.value, services)
    {
      var h, xs := angularModule.value, services;
      var i := 0;
      while i < |xs|
        invariant 0 <= i <= |xs|
        invariant native.calls == old(native.calls) + ServiceCalls(h, xs)[..i]
      {
        native.calls := native.calls + [ServiceRegistration(h, xs[i])];
        TakeStep(ServiceCalls(h, xs), i);
        i := i + 1;
      }
      TakeAll(ServiceCalls(h, xs));
    }

    /** `loadFilters()`, for the registered names; the filter factory is not modelled. */
    method LoadFilters(native: Angular)
      requires angularModule.Some? && forall i :: 0 <= i < |filters| ==> filters[i].Class?
      modifies native`calls
      ensures native.calls == old(native.calls) + FilterCalls(angularModule.value, filters)
    {
      var h, xs := angularModule.value, filters;
      var i := 0;
      while i < |xs|
        invariant 0 <= i <= |xs|
        invariant native.calls == old(native.calls) + FilterCalls(h, xs)[..i]
      {
        native.calls := native.calls + [FilterRegistration(h, xs[i])];
        TakeStep(FilterCalls(h, xs), i);
        i := i + 1;
      }
      TakeAll(FilterCalls(h, xs));
    }

    /**
     * `load()`: loads the sub-modules first, in list order, creates the
     * native module requiring the vendors and the sub-modules' names, then
     * registers config/run, controllers, components, directives, services
     * and filters, and returns the module's own name.
     */
    method Load(native: Angular) returns (loadedName: string)
      requires Valid() && Loadable(View())
      modifies native`calls, Repr`angularModule
      ensures loadedName == name && angularModule == Some(name)
      ensures native.calls == old(native.calls) + Trace(old(View()))
      ensures forall m :: m in Repr && m.angularModule != old(m.angularModule) ==> m.angularModule == Some(m.name)
      decreases Repr, 2
    {
      ghost var t := View();
      var loaded := LoadSubModules(native);
      RegisterOwn(native, loaded);
      AppendAssoc(old(native.calls), SubTraces(t.subs, |t.subs|), OwnCalls(t));
      loadedName := angularModule.value;
    }

    /** The loop of `load()` over `_modules`: each sub-module is loaded, in list order, and its name kept. */
    method LoadSubModules(native: Angular) returns (loaded: seq<string>)
      requires Valid() && Loadable(View())
      modifies native`calls, Repr`angularModule
      ensures Valid() && View() == old(View())
      ensures loaded == Names(old(View()).subs, |modules|)
      ensures native.calls == old(native.calls) + SubTraces(old(View()).subs, |modules|)
      ensures forall m :: m in Repr && m.angularModule != old(m.angularModule) ==> m.angularModule == Some(m.name)
      decreases Repr, 1
    {
      ghost var t := View();
      ghost var subs := t.subs;
      ghost var start := native.calls;
      loaded := [];
      var i := 0;
      while i < |modules|
        invariant 0 <= i <= |modules|
        invariant Valid() && View() == t
        invariant loaded == Names(subs, i)
        invariant native.calls == start + SubTraces(subs, i)
        invariant forall m :: m in Repr && m.angularModule != old(m.angularModule) ==> m.angularModule == Some(m.name)
      {
        var n := LoadSubModule(native, i, start);
        loaded := loaded + [n];
        i := i + 1;
      }
    }

    /**
     * One step of that loop: `module.load()` for the sub-module at index `i`
     * adds that sub-module's calls after those of the sub-modules before it.
     */
    method LoadSubModule(native: Angular, i: nat, ghost start: seq<Registration>) returns (loadedName: string)
      requires Valid() && Loadable(View()) && i < |modules|
      requires native.calls == start + SubTraces(View().subs, i)
      modifies native`calls, Repr`angularModule
      ensures Valid() && View() == old(View())
      ensures loadedName == old(View()).subs[i].name
      ensures native.calls == start + SubTraces(old(View()).subs, i + 1)
      ensures forall m :: m in Repr && m.angularModule != old(m.angularModule) ==> m.angularModule == Some(m.name)
      decreases Repr, 0
    {
      ghost var subs := View().subs;
      SubModuleLoadable(i);
      loadedName := modules[i].Load(native);
      AppendAssoc(start, SubTraces(subs, i), Trace(subs[i]));
    }

    /** The rest of `load()`: the native module, then this module's own registrations. */
    method RegisterOwn(native: Angular, loaded: seq<string>)
      requires Valid() && Loadable(View()) && loaded == Names(View().subs, |modules|)
      modifies native`calls, this`angularModule
      ensures angularModule == Some(name)
      ensures native.calls == old(native.calls) + OwnCalls(old(View()))
    {
      ghost var t := View();
      ghost var start := native.calls;
      native.calls := native.calls + [NewModule(name, vendors + loaded)];
      angularModule := Some(name);
      assert t.injectConfig == ListOf(ctor, InjectConfig) && t.injectRun == ListOf(ctor, InjectRun);
      InitRunAndConfig(native);
      LoadRegistries(native);
      OwnCallsAfter(start, t);
    }

    /** The five registries of `load()`, in its order: controllers, components, directives, services, filters. */
    method LoadRegistries(native: Angular)
      requires angularModule.Some? && forall i :: 0 <= i < |filters| ==> filters[i].Class?
      modifies native`calls
      ensures native.calls == old(native.calls) + ControllerCalls(angularModule.value, controllers)
                + ComponentCalls(angularModule.value, components) + DirectiveCalls(angularModule.value, directives)
                + ServiceCalls(angularModule.value, services) + FilterCalls(angularModule.value, filters)
    {
      LoadControllers(native);
      LoadComponents(native);
      LoadDirectives(native);
      LoadServices(native);
      LoadFilters(native);
    }
  }
}
