/**
 * The class decorators of src/core/decorators.js. Each one registers the
 * decorated class with the shared registry `flaky`, a `Module`, or sets a
 * static property on the class itself.
 */
module CoreDecorators {
  import opened Common
  import opened Classes
  import opened Modules

  /**
   * `@controller(config)`: when a config is given (`None` stands for the
   * default `false`), first a route built from the decorator factory's own
   * name `controller` rather than the class's, then the class as a
   * controller.
   */
  method Controller(flaky: Module, target: Ctor, config: Option<Options> := None)
    modifies flaky`routes, flaky`controllers
    ensures config.None? ==> flaky.routes == old(flaky.routes)
    ensures config.Some? ==>
              flaky.routes == old(flaky.routes) +
                [Route("controller", Extend(map["controller" := Text("controller" + " as " + "ctrlController")], config.value))]
    ensures flaky.controllers == old(flaky.controllers) + [Class(target)]
  {
    if config.Some? {
      ControllerFactoryRoute(config.value);
      var added := flaky.AddRoute(None, config.value, ByName("controller"));
    }
    var self := flaky.AddController(Class(target));
  }

  /** `@service()`: the class is added once to the services. */
  method Service(flaky: Module, target: Ctor)
    modifies flaky`services
    ensures flaky.services == old(flaky.services) + [target]
  {
    var self := flaky.AddService(target);
  }

  /** `@component(options)`: the class with its options, then the class as a controller. */
  method Component(flaky: Module, target: Ctor, options: Options := map[])
    modifies flaky`components, flaky`controllers
    ensures flaky.components == old(flaky.components) + [(target, options)]
    ensures flaky.controllers == old(flaky.controllers) + [Class(target)]
  {
    var self := flaky.AddComponent(target, options);
    self := flaky.AddController(Class(target));
  }

  /** `@directive(options)`: the class with its options, then the class as a controller. */
  method Directive(flaky: Module, target: Ctor, options: Options := map[])
    modifies flaky`directives, flaky`controllers
    ensures flaky.directives == old(flaky.directives) + [(target, options)]
    ensures flaky.controllers == old(flaky.controllers) + [Class(target)]
  {
    var self := flaky.AddDirective(target, options);
    self := flaky.AddController(Class(target));
  }

  /**
   * `@filter(name)`: sets the class's `$name`, then calls `addFilter(name, target)`.
   * `addFilter` keeps only its first argument, so the registry receives the
   * string, not the class; a later `load()` reads `.name` of that string, so
   * the module is no longer loadable.
   */
  method Filter(flaky: Module, target: Ctor, name: string)
    modifies target`filterName, flaky`filters
    ensures target.filterName == Some(name)
    ensures flaky.filters == old(flaky.filters) + [Literal(name)]
    ensures old(flaky.Valid()) ==> flaky.Valid() && !Loadable(flaky.View())
  {
    target.filterName := Some(name);
    var self := flaky.AddFilter(Literal(name));
    if old(flaky.Valid()) {
      assert flaky.View().filters[|flaky.filters| - 1] == Literal(name);
    }
  }

  /** `@inject(...dependencies)`: `$inject` becomes the parent's list followed by `dependencies`. */
  method Inject(target: Ctor, dependencies: seq<string>)
    requires target.Wf()
    modifies target`annotations
    ensures target.annotations ==
              old(target.annotations)[Classes.Inject := old(ListOf(target.parent, Classes.Inject)) + dependencies]
    ensures forall key :: ListOf(target.parent, key) == old(ListOf(target.parent, key))
    ensures ListOf(target, Classes.Inject) == ListOf(target.parent, Classes.Inject) + dependencies
  {
    AbstractInject(Classes.Inject, target, dependencies);
  }

  /** `@injectConfig(...dependencies)`: the same, under `$injectConfig`. */
  method InjectConfig(target: Ctor, dependencies: seq<string>)
    requires target.Wf()
    modifies target`annotations
    ensures target.annotations ==
              old(target.annotations)[Classes.InjectConfig := old(ListOf(target.parent, Classes.InjectConfig)) + dependencies]
    ensures forall key :: ListOf(target.parent, key) == old(ListOf(target.parent, key))
    ensures ListOf(target, Classes.InjectConfig) == ListOf(target.parent, Classes.InjectConfig) + dependencies
  {
    AbstractInject(Classes.InjectConfig, target, dependencies);
  }

  /** `@injectRun(...dependencies)`: the same, under `$injectRun`. */
  method InjectRun(target: Ctor, dependencies: seq<string>)
    requires target.Wf()
    modifies target`annotations
    ensures target.annotations ==
              old(target.annotations)[Classes.InjectRun := old(ListOf(target.parent, Classes.InjectRun)) + dependencies]
    ensures forall key :: ListOf(target.parent, key) == old(ListOf(target.parent, key))
    ensures ListOf(target, Classes.InjectRun) == ListOf(target.parent, Classes.InjectRun) + dependencies
  {
    AbstractInject(Classes.InjectRun, target, dependencies);
  }
}
