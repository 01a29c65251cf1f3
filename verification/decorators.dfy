/**
 * The class decorators of src/decorators.js: the same registrations as the
 * core decorators, made on `flaky.module` rather than on `flaky` itself, and
 * a `filter()` that registers the class. The `inject`, `injectConfig` and
 * `injectRun` decorators of that file, and its `abstractInject`, are the
 * code of src/core/decorators.js again and are the members of
 * `CoreDecorators` and `Classes`.
 */
module Decorators {
  import opened Common
  import opened Naming
  import opened Classes
  import opened Modules

  /** The registry object `flaky`, through which these decorators reach the current module. */
  class Flaky {
    /** `flaky.module`. */
    var appModule: Module

    constructor (appModule: Module)
      ensures this.appModule == appModule
    {
      this.appModule := appModule;
    }
  }

  /**
   * `@controller(config)`: when a config is given (`None` stands for the
   * default `false`), a route named after the decorator factory, then the
   * class as a controller.
   */
  method Controller(flaky: Flaky, target: Ctor, config: Option<Options> := None)
    modifies flaky.appModule`routes, flaky.appModule`controllers
    ensures config.None? ==> flaky.appModule.routes == old(flaky.appModule.routes)
    ensures config.Some? ==>
              flaky.appModule.routes == old(flaky.appModule.routes) +
                [Route("controller", Extend(map["controller" := Text("controller" + " as " + "ctrlController")], config.value))]
    ensures flaky.appModule.controllers == old(flaky.appModule.controllers) + [Class(target)]
  {
    var m := flaky.appModule;
    if config.Some? {
      ControllerFactoryRoute(config.value);
      var added := m.AddRoute(None, config.value, ByName("controller"));
    }
    var self := m.AddController(Class(target));
  }

  /** `@service()`: the class is added once to the module's services. */
  method Service(flaky: Flaky, target: Ctor)
    modifies flaky.appModule`services
    ensures flaky.appModule.services == old(flaky.appModule.services) + [target]
  {
    var self := flaky.appModule.AddService(target);
  }

  /** `@component(options)`: the class with its options, then the class as a controller. */
  method Component(flaky: Flaky, target: Ctor, options: Options := map[])
    modifies flaky.appModule`components, flaky.appModule`controllers
    ensures flaky.appModule.components == old(flaky.appModule.components) + [(target, options)]
    ensures flaky.appModule.controllers == old(flaky.appModule.controllers) + [Class(target)]
  {
    var m := flaky.appModule;
    var self := m.AddComponent(target, options);
    self := m.AddController(Class(target));
  }

  /** `@directive(options)`: the class with its options, then the class as a controller. */
  method Directive(flaky: Flaky, target: Ctor, options: Options := map[])
    modifies flaky.appModule`directives, flaky.appModule`controllers
    ensures flaky.appModule.directives == old(flaky.appModule.directives) + [(target, options)]
    ensures flaky.appModule.controllers == old(flaky.appModule.controllers) + [Class(target)]
  {
    var m := flaky.appModule;
    var self := m.AddDirective(target, options);
    self := m.AddController(Class(target));
  }

  /**
   * `@filter()`: the class itself is added to the module's filters, so a
   * module that could be loaded still can.
   */
  method Filter(flaky: Flaky, target: Ctor)
    modifies flaky.appModule`filters
    ensures flaky.appModule.filters == old(flaky.appModule.filters) + [Class(target)]
    ensures old(flaky.appModule.Valid()) ==>
              flaky.appModule.Valid() &&
              (old(Loadable(flaky.appModule.View())) ==> Loadable(flaky.appModule.View()))
  {
    var m := flaky.appModule;
    ghost var wasValid := m.Valid();
    ghost var subs: seq<Tree> := [];
    if wasValid {
      subs := m.View().subs;
      m.SubViewsAt(|m.modules|);
    }
    var self := m.AddFilter(Class(target));
    if wasValid {
      m.SubViewsKept();
      m.SubViewsAt(|m.modules|);
      assert m.View().subs == subs;
    }
  }

  /**
   * test/fixtures/FooDirective.js: `@directive({template})` on `class FooDirective`.
   * Once loaded, it is the attribute directive `foo`, whose controller is
   * bound as `dtFoo`, the alias its template reads from, and whose template
   * is kept.
   */
  lemma FooDirectiveRegistration(h: string, c: Ctor, template: string)
    requires c.name == "FooDirective"
    ensures var r := DirectiveRegistration(h, (c, map["template" := Text(template)]));
            r == DirectiveReg(h, "foo", DirectiveFactory(c, map["template" := Text(template)])) &&
            Definition(r.factory) == map["restrict" := Text("A"), "bindToController" := Flag(true),
                                         "controller" := Text("FooDirective" + " as " + "dtFoo"), "template" := Text(template)]
  {
    FooDirectiveNames();
  }
}
