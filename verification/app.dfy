/**
 * The `Application` class of src/Application.js: a `Module` that also
 * configures the location service. It holds four settings, changed by
 * setters and handed by `config` to `html5Mode(...)` and `hashPrefix(...)`.
 * The `$injectConfig` and `$injectRun` lists its class inherits decide which
 * services `config` and `run` are called with.
 */
module App {
  import opened Common
  import opened Classes
  import opened Modules
  import CoreDecorators

  /** The call `config` makes: `provider.html5Mode(mode).hashPrefix(prefix)`. */
  datatype LocationSetup = LocationSetup(provider: string, html5Mode: Options, hashPrefix: string)

  /**
   * `class Module`, decorated with `@injectConfig('$stateProvider')`: a base
   * class whose config blocks ask for the state provider.
   */
  method DefineModuleClass() returns (moduleClass: Ctor)
    ensures fresh(moduleClass) && moduleClass.Wf()
    ensures moduleClass.name == "Module" && moduleClass.parent == null
    ensures moduleClass.annotations == map[InjectConfig := ["$stateProvider"]]
  {
    moduleClass := new Ctor("Module", null);
    assert ListOf(moduleClass.parent, InjectConfig) == [];
    CoreDecorators.InjectConfig(moduleClass, ["$stateProvider"]);
    assert [] + ["$stateProvider"] == ["$stateProvider"];
    assert moduleClass.annotations == map[][InjectConfig := ["$stateProvider"]];
  }

  /**
   * `class Application extends Module` with `@injectConfig('$locationProvider')`
   * above `@injectRun('$rootScope')`: decorators apply from the bottom up, and
   * each list is the parent's followed by the new names.
   */
  method DefineApplicationClass(moduleClass: Ctor) returns (appClass: Ctor)
    requires moduleClass.Wf()
    ensures fresh(appClass) && appClass.Wf()
    ensures appClass.name == "Application" && appClass.parent == moduleClass
    ensures appClass.annotations == map[InjectRun := ListOf(moduleClass, InjectRun) + ["$rootScope"],
                                        InjectConfig := ListOf(moduleClass, InjectConfig) + ["$locationProvider"]]
  {
    appClass := new Ctor("Application", moduleClass);
    CoreDecorators.InjectRun(appClass, ["$rootScope"]);
    CoreDecorators.InjectConfig(appClass, ["$locationProvider"]);
  }

  /**
   * Both class definitions, in module order: `Application` inherits the state
   * provider ahead of its own location provider, and the `Module` class keeps
   * its own list.
   */
  method DefineClasses() returns (moduleClass: Ctor, appClass: Ctor)
    ensures fresh(moduleClass) && fresh(appClass) && appClass.Wf() && appClass.parent == moduleClass
    ensures ListOf(moduleClass, InjectConfig) == ["$stateProvider"] && ListOf(moduleClass, InjectRun) == []
    ensures ListOf(appClass, InjectConfig) == ["$stateProvider", "$locationProvider"]
    ensures ListOf(appClass, InjectRun) == ["$rootScope"]
    ensures ListOf(appClass, Inject) == []
  {
    moduleClass := DefineModuleClass();
    assert ListOf(moduleClass, InjectRun) == [];
    appClass := DefineApplicationClass(moduleClass);
    assert appClass.Lookup(Inject) == moduleClass.Lookup(Inject);
  }

  class Application {
    /** The `Module` part of the object, built by `super(name)`; its class is `Application`. */
    const base: Module
    var useHtml5Mode: bool
    var requireBase: bool
    var rewriteLinks: bool
    var urlPrefix: string

    /** `new Application(name)`: empty registries, HTML5 mode on, base and link rewriting required, prefix `!`. */
    constructor (name: string, appClass: Ctor)
      requires appClass.Wf()
      ensures fresh(base) && base.name == name && base.ctor == appClass && base.angularModule == None
      ensures base.vendors == [] && base.controllers == [] && base.routes == [] && base.services == []
      ensures base.components == [] && base.directives == [] && base.filters == [] && base.modules == []
      ensures base.Valid() && base.Repr == {base} && base.Classes == appClass.Ancestry()
      ensures useHtml5Mode && requireBase && rewriteLinks && urlPrefix == "!"
    {
      base := new Module(name, appClass);
      useHtml5Mode := true;
      requireBase := true;
      rewriteLinks := true;
      urlPrefix := "!";
    }

    /** `setUseHtml5Mode(value)`, the one setter that returns the application. */
    method SetUseHtml5Mode(value: bool) returns (self: Application)
      modifies this`useHtml5Mode
      ensures self == this && useHtml5Mode == value
    {
      useHtml5Mode := value;
      self := this;
    }

    /** `setRequireBase(value)`, which returns nothing. */
    method SetRequireBase(value: bool)
      modifies this`requireBase
      ensures requireBase == value
    {
      requireBase := value;
    }

    /** `setRewriteLinks(value)`, which returns nothing. */
    method SetRewriteLinks(value: bool)
      modifies this`rewriteLinks
      ensures rewriteLinks == value
    {
      rewriteLinks := value;
    }

    /** `setUrlPrefix(value)`, which returns nothing. */
    method SetUrlPrefix(value: string)
      modifies this`urlPrefix
      ensures urlPrefix == value
    {
      urlPrefix := value;
    }

    /**
     * `config(locationProvider)`: HTML5 mode gets exactly the three flags,
     * then the hash prefix is the URL prefix, both on the service `config`
     * was called with.
     */
    function Config(locationProvider: string): (s: LocationSetup)
      reads this
      ensures s.provider == locationProvider && s.hashPrefix == urlPrefix
      ensures s.html5Mode.Keys == {"enabled", "requireBase", "rewriteLinks"}
      ensures s.html5Mode["enabled"] == Flag(useHtml5Mode)
      ensures s.html5Mode["requireBase"] == Flag(requireBase)
      ensures s.html5Mode["rewriteLinks"] == Flag(rewriteLinks)
    {
      LocationSetup(locationProvider,
                    map["enabled" := Flag(useHtml5Mode), "requireBase" := Flag(requireBase),
                        "rewriteLinks" := Flag(rewriteLinks)],
                    urlPrefix)
    }
  }

  /**
   * The config block `load()` records for an application carries the
   * inherited list, so the native injector calls `config` with the service
   * named first in it.
   */
  function ConfigArgument(fn: Injected): (provider: Option<string>)
    ensures provider.Some? <==> |fn.inject| > 0
    ensures provider.Some? ==> provider.value == fn.inject[0]
  {
    if |fn.inject| == 0 then None else Some(fn.inject[0])
  }

  /**
   * `new Application(name)` once both classes are defined: the tree `load()`
   * will see holds the inherited lists and nothing else.
   */
  method NewApplication(name: string) returns (app: Application)
    ensures fresh(app) && fresh(app.base) && app.base.Valid() && app.base.Repr == {app.base}
    ensures app.base.View() == Tree(name, [], ["$stateProvider", "$locationProvider"], ["$rootScope"],
                                    [], [], [], [], [], [])
    ensures app.useHtml5Mode && app.requireBase && app.rewriteLinks && app.urlPrefix == "!"
  {
    var moduleClass, appClass := DefineClasses();
    app := new Application(name, appClass);
    assert app.base.SubViews(0) == [];
  }

  /** A module with no sub-modules and empty registries makes exactly three calls when loaded. */
  lemma BareModuleTrace(t: Tree)
    requires t.subs == [] && t.controllers == [] && t.components == [] && t.directives == []
    requires t.services == [] && t.filters == []
    ensures Loadable(t)
    ensures Trace(t) == [NewModule(t.name, t.vendors), ConfigBlock(t.name, Injected(ConfigCallback, t.injectConfig)),
                         RunBlock(t.name, Injected(RunCallback, t.injectRun))]
  {
    OwnCallsHead(t);
    assert t.vendors + Names(t.subs, |t.subs|) == t.vendors;
    assert SubTraces(t.subs, |t.subs|) == [];
    assert Trace(t) == OwnCalls(t);
  }

  /**
   * Defining both classes, building an application and loading it: the
   * native module comes first, then the config block, whose first
   * dependency, and so the service `config` treats as its location provider,
   * is the state provider inherited from `Module`.
   */
  method Bootstrap(name: string) returns (app: Application, native: Angular, setup: LocationSetup)
    ensures fresh(app) && fresh(native)
    ensures native.calls == [NewModule(name, []),
                             ConfigBlock(name, Injected(ConfigCallback, ["$stateProvider", "$locationProvider"])),
                             RunBlock(name, Injected(RunCallback, ["$rootScope"]))]
    ensures setup == LocationSetup("$stateProvider",
                                   map["enabled" := Flag(true), "requireBase" := Flag(true), "rewriteLinks" := Flag(true)],
                                   "!")
  {
    app := NewApplication(name);
    native := new Angular();
    BareModuleTrace(app.base.View());
    var loadedName := app.base.Load(native);
    var block := native.calls[1];
    var provider := ConfigArgument(block.fn);
    setup := app.Config(provider.value);
  }
}
