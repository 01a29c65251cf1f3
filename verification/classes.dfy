/**
 * JavaScript classes as the decorators see them: a constructor object with a
 * name, a parent constructor (`extends`) and static properties that the
 * decorators assign in place. A static property is looked up along the
 * prototype chain of constructors, so a class sees the nearest ancestor's
 * value when it has none of its own.
 */
module Classes {
  import opened Common

  /** The three static dependency lists: `$inject`, `$injectConfig`, `$injectRun`. */
  datatype InjectKey = Inject | InjectConfig | InjectRun

  /** The property name each key stands for. */
  function PropertyName(k: InjectKey): string {
    match k
    case Inject => "$inject"
    case InjectConfig => "$injectConfig"
    case InjectRun => "$injectRun"
  }

  class Ctor {
    /** The class's `name` property. */
    const name: string
    /** The constructor `Reflect.getPrototypeOf` returns; `null` for a base class. */
    const parent: Ctor?
    /** The length of the chain of parents. */
    const depth: nat
    /** The class's own dependency-list properties, by key. */
    var annotations: map<InjectKey, seq<string>>
    /** The class's own `$name` property, set by the core `filter(name)` decorator. */
    var filterName: Option<string>

    constructor (name: string, parent: Ctor?)
      requires parent != null ==> parent.Wf()
      ensures this.name == name && this.parent == parent
      ensures Wf() && annotations == map[] && filterName == None
    {
      this.name := name;
      this.parent := parent;
      this.depth := if parent == null then 0 else parent.depth + 1;
      annotations := map[];
      filterName := None;
    }

    /** The chain of parents is finite and strictly shorter at every step. */
    predicate Wf()
      decreases depth
    {
      parent != null ==> parent.depth < depth && parent.Wf()
    }

    /** This class and all its ancestors. */
    function Ancestry(): (a: set<Ctor>)
      requires Wf()
      ensures this in a
      decreases depth
    {
      {this} + if parent == null then {} else parent.Ancestry()
    }

    /** No ancestor is deeper than the class itself, so a class is never its own ancestor. */
    lemma {:induction false} AncestryBelow()
      requires Wf()
      ensures forall a :: a in Ancestry() ==> a.depth <= depth
      ensures parent != null ==> this !in parent.Ancestry()
      decreases depth
    {
      if parent != null {
        parent.AncestryBelow();
      }
    }

    /** `C[k]` for a static property: the own value, else the nearest ancestor's. */
    function Lookup(k: InjectKey): (r: Option<seq<string>>)
      requires Wf()
      reads Ancestry()`annotations
      ensures k in annotations ==> r == Some(annotations[k])
      ensures r.Some? ==> exists a :: a in Ancestry() && k in a.annotations && a.annotations[k] == r.value
      ensures r.None? ==> forall a :: a in Ancestry() ==> k !in a.annotations
      decreases depth
    {
      if k in annotations then Some(annotations[k])
      else if parent == null then None
      else parent.Lookup(k)
    }

    /**
     * The value found is that of the nearest class on the chain holding the
     * property: every class below it lacks the property.
     */
    lemma {:induction false} LookupIsNearest(k: InjectKey)
      requires Wf()
      ensures Lookup(k).Some? ==>
                exists a :: a in Ancestry() && k in a.annotations && Lookup(k) == Some(a.annotations[k]) &&
                            forall b :: b in Ancestry() && b.depth > a.depth ==> k !in b.annotations
      decreases depth
    {
      AncestryBelow();
      if k in annotations {
        assert forall b :: b in Ancestry() && b.depth > depth ==> k !in b.annotations;
      } else if parent != null && parent.Lookup(k).Some? {
        parent.LookupIsNearest(k);
        var a :| a in parent.Ancestry() && k in a.annotations && parent.Lookup(k) == Some(a.annotations[k]) &&
                 forall b :: b in parent.Ancestry() && b.depth > a.depth ==> k !in b.annotations;
        forall b | b in Ancestry() && b.depth > a.depth
          ensures k !in b.annotations
        {
          if b != this {
            assert b in parent.Ancestry();
          }
        }
        assert a in Ancestry();
      }
    }
  }

  /**
   * The list a constructor provides under key `k`, where `isArray` fails (no
   * class, or no such property on the chain) giving the empty list.
   */
  function ListOf(c: Ctor?, k: InjectKey): seq<string>
    requires c != null ==> c.Wf()
    reads (if c == null then {} else c.Ancestry())`annotations
  {
    if c == null then []
    else match c.Lookup(k)
      case Some(l) => l
      case None => []
  }

  /**
   * `abstractInject(name, target, dependencies)`: the target's own property
   * becomes the parent's list (or the empty list) followed by `dependencies`.
   * Only that one property of the target changes; the parent's list, which
   * `concat` copies, is left as it was, and the target's earlier value is
   * not read.
   */
  method AbstractInject(k: InjectKey, target: Ctor, dependencies: seq<string>)
    requires target.Wf()
    modifies target`annotations
    ensures target.annotations == old(target.annotations)[k := old(ListOf(target.parent, k)) + dependencies]
    ensures forall key :: ListOf(target.parent, key) == old(ListOf(target.parent, key))
    ensures target.Lookup(k) == Some(ListOf(target.parent, k) + dependencies)
  {
    target.AncestryBelow();
    var targetDependencies: seq<string> := [];
    var extendsProto := target.parent;
    if extendsProto != null {
      var inherited := extendsProto.Lookup(k);
      if inherited.Some? {
        targetDependencies := inherited.value;
      }
    }
    target.annotations := target.annotations[k := targetDependencies + dependencies];
  }

  /**
   * Decorating one class twice with the same inject decorator: the second
   * application reads the parent again, never the target's own list, so only
   * the later dependencies survive.
   */
  method InjectTwice(k: InjectKey, target: Ctor, first: seq<string>, second: seq<string>)
    requires target.Wf()
    modifies target`annotations
    ensures target.annotations == old(target.annotations)[k := old(ListOf(target.parent, k)) + second]
  {
    AbstractInject(k, target, first);
    AbstractInject(k, target, second);
  }
}
