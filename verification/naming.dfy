/**
 * The static naming utilities of `Module` (src/Module.js): pure string
 * transforms that turn a class name into the names the native framework sees.
 *
 * The patterns the source passes to `new RegExp(...)` are the literal words
 * `Component`, `Directive` and `Controller`, so a pattern match is the first
 * occurrence of a literal substring. Case folding is ASCII only.
 */
module Naming {
  import opened Common

  /** The `type` argument of `normalizeByPatternName`: `'lo'`, `'up'`, or any other value. */
  datatype Case = Lo | Up | Keep

  const ComponentWord := "Component"
  const DirectiveWord := "Directive"
  const ControllerWord := "Controller"

  /** ASCII `toLowerCase` of one character. */
  function Lower(c: char): char {
    if 'A' <= c <= 'Z' then (c as int + 32) as char else c
  }

  /** ASCII `toUpperCase` of one character. */
  function Upper(c: char): char {
    if 'a' <= c <= 'z' then (c as int - 32) as char else c
  }

  /** The `switch (type)` of `normalizeByPatternName`: only `'lo'` and `'up'` change the character. */
  function Fold(t: Case, c: char): char {
    match t
    case Lo => Lower(c)
    case Up => Upper(c)
    case Keep => c
  }

  /** `p` occurs in `s` starting at index `i`. */
  predicate OccursAt(s: string, p: string, i: nat) {
    i + |p| <= |s| && s[i..i + |p|] == p
  }

  /** The first index at or after `i` where `p` occurs in `s`, if any. */
  function IndexFrom(s: string, p: string, i: nat): (r: Option<nat>)
    requires i <= |s|
    ensures r.Some? ==> i <= r.value && r.value + |p| <= |s|
    decreases |s| - i
  {
    if OccursAt(s, p, i) then Some(i)
    else if i == |s| then None
    else IndexFrom(s, p, i + 1)
  }

  /** `IndexFrom` finds the earliest occurrence at or after `i`, and finds none only when there is none. */
  lemma {:induction false} IndexFromIsFirst(s: string, p: string, i: nat)
    requires i <= |s|
    ensures var r := IndexFrom(s, p, i);
            (r.Some? ==> OccursAt(s, p, r.value) && forall j :: i <= j < r.value ==> !OccursAt(s, p, j)) &&
            (r.None? ==> forall j :: i <= j ==> !OccursAt(s, p, j))
    decreases |s| - i
  {
    if !OccursAt(s, p, i) && i < |s| {
      IndexFromIsFirst(s, p, i + 1);
    }
  }

  /** The index of the first occurrence of `p` in `s`, as a non-global `RegExp` finds it. */
  function FirstOccurrence(s: string, p: string): Option<nat> {
    IndexFrom(s, p, 0)
  }

  /**
   * `s.replace(new RegExp(p), '')`: the first occurrence of `p` is cut out,
   * and the string is unchanged when `p` does not occur.
   */
  function RemoveFirst(s: string, p: string): string {
    match FirstOccurrence(s, p)
    case None => s
    case Some(i) => s[..i] + s[i + |p|..]
  }

  /**
   * Removing the first occurrence: the string is unchanged when `p` does not
   * occur; otherwise putting `p` back at the index it was found gives `s`.
   */
  lemma RemoveFirstSpec(s: string, p: string)
    ensures (forall j :: !OccursAt(s, p, j)) ==> RemoveFirst(s, p) == s
    ensures FirstOccurrence(s, p).Some? ==>
              var r, i := RemoveFirst(s, p), FirstOccurrence(s, p).value;
              |r| == |s| - |p| && i <= |r| && s == r[..i] + p + r[i..]
  {
    IndexFromIsFirst(s, p, 0);
    match FirstOccurrence(s, p)
    case None =>
    case Some(i) =>
      var r := RemoveFirst(s, p);
      assert r[..i] == s[..i] && r[i..] == s[i + |p|..];
      assert s[i..i + |p|] == p;
      assert s == s[..i] + s[i..i + |p|] + s[i + |p|..];
  }

  /** `s.slice(1)`: everything after the first character, or the empty string. */
  function Slice1(s: string): string {
    if |s| == 0 then [] else s[1..]
  }

  /**
   * `Module.normalizeByPatternName(name, patternRegexp, type)`: the first
   * character of the ORIGINAL name, case-folded by `type`, followed by the
   * pattern-stripped name without its first character. `pattern` is `None`
   * where the source passes `false` (nothing is stripped).
   */
  function NormalizeByPatternName(name: string, pattern: Option<string>, t: Case): string {
    // `name.charAt(0)` is the empty string for an empty name
    var firstChar := if |name| == 0 then [] else [Fold(t, name[0])];
    var stripped := if pattern.Some? then RemoveFirst(name, pattern.value) else name;
    firstChar + Slice1(stripped)
  }

  /**
   * The first character of the result is always the folded first character
   * of the name; with no pattern, the rest of the name is kept as it is.
   */
  lemma NormalizeByPatternNameSpec(name: string, pattern: Option<string>, t: Case)
    ensures var r := NormalizeByPatternName(name, pattern, t);
            (|name| == 0 ==> r == []) &&
            (|name| > 0 ==> |r| > 0 && r[0] == Fold(t, name[0])) &&
            (|name| > 0 && t == Keep ==> r[0] == name[0]) &&
            (pattern.None? ==> |r| == |name| && (|name| > 0 ==> r[1..] == name[1..]))
  {
  }

  /** The name a component is registered under: `Component` stripped, first character lower-cased. */
  function NormalizeComponentName(name: string): string {
    NormalizeByPatternName(name, Some(ComponentWord), Lo)
  }

  /** The name a directive is registered under: `Directive` stripped, first character lower-cased. */
  function NormalizeDirectiveName(name: string): string {
    NormalizeByPatternName(name, Some(DirectiveWord), Lo)
  }

  /** The route name derived from a controller name: `Controller` stripped, first character lower-cased. */
  function NormalizeRouteName(name: string): string {
    NormalizeByPatternName(name, Some(ControllerWord), Lo)
  }

  /** The `controllerAs` alias of a route controller: `ctrl`, then the name with `Controller` stripped. */
  function NormalizeControllerAsName(name: string): string {
    "ctrl" + NormalizeByPatternName(name, Some(ControllerWord), Up)
  }

  /** The alias of a directive's controller: `dt`, then the name with `Directive` stripped. */
  function NormalizeDirectiveAsName(name: string): string {
    "dt" + NormalizeByPatternName(name, Some(DirectiveWord), Up)
  }

  /** The alias of a component's controller: `cp`, then the name with `Component` stripped. */
  function NormalizeComponentAsName(name: string): string {
    "cp" + NormalizeByPatternName(name, Some(ComponentWord), Up)
  }

  /** Registered names start with the lower-cased first character of the class name. */
  lemma RegisteredNamesStartLower(name: string)
    requires |name| > 0
    ensures var c, d, r := NormalizeComponentName(name), NormalizeDirectiveName(name), NormalizeRouteName(name);
            |c| > 0 && c[0] == Lower(name[0]) &&
            |d| > 0 && d[0] == Lower(name[0]) &&
            |r| > 0 && r[0] == Lower(name[0])
  {
    NormalizeByPatternNameSpec(name, Some(ComponentWord), Lo);
    NormalizeByPatternNameSpec(name, Some(DirectiveWord), Lo);
    NormalizeByPatternNameSpec(name, Some(ControllerWord), Lo);
  }

  /**
   * Aliases are the prefix `ctrl`, `dt` or `cp` followed by the upper-cased
   * first character of the class name (the prefix alone for an empty name).
   */
  lemma AliasNamesArePrefixed(name: string)
    ensures var a := NormalizeControllerAsName(name);
            |a| >= 4 && a[..4] == "ctrl" && (|name| > 0 ==> |a| > 4 && a[4] == Upper(name[0]))
    ensures var a := NormalizeDirectiveAsName(name);
            |a| >= 2 && a[..2] == "dt" && (|name| > 0 ==> |a| > 2 && a[2] == Upper(name[0]))
    ensures var a := NormalizeComponentAsName(name);
            |a| >= 2 && a[..2] == "cp" && (|name| > 0 ==> |a| > 2 && a[2] == Upper(name[0]))
  {
    NormalizeByPatternNameSpec(name, Some(ControllerWord), Up);
    NormalizeByPatternNameSpec(name, Some(DirectiveWord), Up);
    NormalizeByPatternNameSpec(name, Some(ComponentWord), Up);
  }

  /** `'$'` followed by the name with its first character lower-cased; no suffix is stripped. */
  function NormalizeServiceName(name: string): string {
    "$" + NormalizeByPatternName(name, None, Lo)
  }

  /** A service name is the class name behind a `$`, only its first character lower-cased. */
  lemma ServiceNameSpec(name: string)
    ensures var r := NormalizeServiceName(name);
            |r| == |name| + 1 && r[0] == '$' &&
            (|name| > 0 ==> r[1] == Lower(name[0]) && r[2..] == name[1..])
  {
    NormalizeByPatternNameSpec(name, None, Lo);
  }

  /** `Module.normalizeFilterName`: lower-case the first character only. */
  function NormalizeFilterName(filterName: string): string {
    (if |filterName| == 0 then [] else [Lower(filterName[0])]) + Slice1(filterName)
  }

  /** A filter name keeps its length and every character but the first, which is lower-cased. */
  lemma FilterNameSpec(filterName: string)
    ensures var r := NormalizeFilterName(filterName);
            |r| == |filterName| &&
            (|filterName| > 0 ==> r[0] == Lower(filterName[0]) && r[1..] == filterName[1..])
  {
  }

  /** Filter naming is pattern naming with no pattern and a lower-cased first character. */
  lemma FilterNameIsUnstripped(filterName: string)
    ensures NormalizeFilterName(filterName) == NormalizeByPatternName(filterName, None, Lo)
  {
  }

  /**
   * When the first occurrence of `p` starts after the first character, the
   * result is `name` with exactly that occurrence cut out and the first
   * character folded: its length is `|name| - |p|`.
   */
  lemma {:induction false} StripAfterFirstChar(name: string, p: string, t: Case, i: nat)
    requires 1 <= i && OccursAt(name, p, i)
    requires forall j :: 0 <= j < i ==> !OccursAt(name, p, j)
    ensures var r := NormalizeByPatternName(name, Some(p), t);
            |r| == |name| - |p| &&
            r == [Fold(t, name[0])] + name[1..i] + name[i + |p|..]
  {
    FirstOccurrenceAt(name, p, i);
    var stripped := RemoveFirst(name, p);
    assert stripped == name[..i] + name[i + |p|..];
    Slice1Concat(name[..i], name[i + |p|..]);
    assert name[..i][1..] == name[1..i];
  }

  /** `FirstOccurrence` finds `i` when `p` occurs there and nowhere before. */
  lemma FirstOccurrenceAt(s: string, p: string, i: nat)
    requires OccursAt(s, p, i)
    requires forall j :: 0 <= j < i ==> !OccursAt(s, p, j)
    ensures FirstOccurrence(s, p) == Some(i)
  {
    IndexFromIsFirst(s, p, 0);
  }

  /** Dropping the first character of `a + b` drops it from `a`. */
  lemma Slice1Concat(a: string, b: string)
    requires |a| >= 1
    ensures Slice1(a + b) == a[1..] + b
  {
  }

  /**
   * The first character always comes from the original name: when `p` starts
   * at index 0, the character that survives is `name[0]` folded, and the
   * first character after the pattern is dropped by `slice(1)`.
   */
  lemma {:induction false} PatternAtStart(name: string, p: string, t: Case)
    requires |p| > 0 && OccursAt(name, p, 0)
    ensures NormalizeByPatternName(name, Some(p), t) == [Fold(t, name[0])] + Slice1(name[|p|..])
    ensures |name| > |p| ==> NormalizeByPatternName(name, Some(p), t) == [Fold(t, name[0])] + name[|p| + 1..]
    ensures |name| == |p| ==> NormalizeByPatternName(name, Some(p), t) == [Fold(t, name[0])]
  {
    assert IndexFrom(name, p, 0) == Some(0);
    assert RemoveFirst(name, p) == name[|p|..];
  }

  /**
   * A class name made of a non-empty `base` followed by the suffix word `p`,
   * where `p` does not occur earlier, loses exactly that suffix and has only
   * its first character case-folded.
   */
  lemma {:induction false} StripSuffixWord(base: string, p: string, t: Case)
    requires |base| > 0
    requires forall j :: 0 <= j < |base| ==> !OccursAt(base + p, p, j)
    ensures NormalizeByPatternName(base + p, Some(p), t) == [Fold(t, base[0])] + base[1..]
  {
    var name := base + p;
    assert name[|base|..|base| + |p|] == p;
    StripAfterFirstChar(name, p, t, |base|);
    assert name[1..|base|] == base[1..];
    assert name[|base| + |p|..] == [];
  }

  /** `p` cannot start at `j` when the character there differs from `p`'s first. */
  lemma NotAtMismatch(s: string, p: string, j: nat)
    requires |p| > 0 && j < |s| && s[j] != p[0]
    ensures !OccursAt(s, p, j)
  {
    if j + |p| <= |s| {
      assert s[j..j + |p|][0] == s[j];
    }
  }

  /** `Foo` followed by `Directive` or `Component` loses that word. */
  lemma FooStripped(word: string, t: Case)
    requires word == DirectiveWord || word == ComponentWord
    ensures NormalizeByPatternName("Foo" + word, Some(word), t) == [Fold(t, 'F')] + "oo"
  {
    var base := "Foo";
    forall j | 0 <= j < |base| ensures !OccursAt(base + word, word, j) {
      NotAtMismatch(base + word, word, j);
    }
    StripSuffixWord(base, word, t);
  }

  /** The directive fixture `FooDirective` is registered as `foo` and bound in templates as `dtFoo`. */
  lemma FooDirectiveNames()
    ensures NormalizeDirectiveName("FooDirective") == "foo"
    ensures NormalizeDirectiveAsName("FooDirective") == "dtFoo"
  {
    assert "Foo" + DirectiveWord == "FooDirective";
    FooStripped(DirectiveWord, Lo);
    assert Fold(Lo, 'F') == 'f' && ['f'] + "oo" == "foo";
    FooStripped(DirectiveWord, Up);
    assert Fold(Up, 'F') == 'F' && "dt" + (['F'] + "oo") == "dtFoo";
  }

  /** `FooComponent` is registered as `foo` with controller alias `cpFoo`. */
  lemma FooComponentNames()
    ensures NormalizeComponentName("FooComponent") == "foo"
    ensures NormalizeComponentAsName("FooComponent") == "cpFoo"
  {
    assert "Foo" + ComponentWord == "FooComponent";
    FooStripped(ComponentWord, Lo);
    assert Fold(Lo, 'F') == 'f' && ['f'] + "oo" == "foo";
    FooStripped(ComponentWord, Up);
    assert Fold(Up, 'F') == 'F' && "cp" + (['F'] + "oo") == "cpFoo";
  }

  /** `SomeController` loses its `Controller` suffix whichever way its first character is folded. */
  lemma SomeControllerStripped(t: Case)
    ensures NormalizeByPatternName("SomeController", Some(ControllerWord), t) == [Fold(t, 'S')] + "ome"
  {
    var base := "Some";
    assert base + ControllerWord == "SomeController";
    forall j | 0 <= j < |base| ensures !OccursAt(base + ControllerWord, ControllerWord, j) {
      NotAtMismatch(base + ControllerWord, ControllerWord, j);
    }
    StripSuffixWord(base, ControllerWord, t);
  }

  /** `SomeController` gives route name `some` and controller alias `ctrlSome`. */
  lemma SomeControllerNames()
    ensures NormalizeRouteName("SomeController") == "some"
    ensures NormalizeControllerAsName("SomeController") == "ctrlSome"
  {
    SomeControllerStripped(Lo);
    SomeControllerStripped(Up);
  }

  /** `controller`, in which `Controller` does not occur, keeps every character after the first. */
  lemma ControllerFactoryStripped(t: Case)
    ensures NormalizeByPatternName("controller", Some(ControllerWord), t) == [Fold(t, 'c')] + "ontroller"
  {
    var name := "controller";
    forall j ensures !OccursAt(name, ControllerWord, j) {
      if j == 0 {
        NotAtMismatch(name, ControllerWord, 0);
      }
    }
    RemoveFirstSpec(name, ControllerWord);
  }

  /**
   * `controller`, the name of the `controller` decorator factory, gives
   * route name `controller` and alias `ctrlController`.
   */
  lemma ControllerFactoryNames()
    ensures NormalizeRouteName("controller") == "controller"
    ensures NormalizeControllerAsName("controller") == "ctrlController"
  {
    ControllerFactoryStripped(Lo);
    assert Fold(Lo, 'c') == 'c' && ['c'] + "ontroller" == "controller";
    ControllerFactoryStripped(Up);
    assert Fold(Up, 'c') == 'C' && "ctrl" + (['C'] + "ontroller") == "ctrlController";
  }

  /** Service names keep any suffix: `Weather` becomes `$weather`. */
  lemma WeatherServiceName()
    ensures NormalizeServiceName("Weather") == "$weather"
  {
  }
}
