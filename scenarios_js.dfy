/**
 * The behaviours that test.js checks against index.js, on a class named `Parent`.
 *
 * Short stories are client methods that build a fresh class and prove what the
 * test asserts from the contracts of MacroableJs alone; longer ones are lemmas
 * about the specification functions those contracts are stated with.
 */
module ScenariosJs {
  import opened ObjectModel
  import opened SharedRegistry
  import opened MacroableJs

  /** A callback that returns the same string on every call. */
  function Bar(callback: CallbackId, receiver: InstanceId, before: nat): Value
  {
    Str("bar")
  }

  /** A callback that returns 0, which is falsy, on every call. */
  function Zero(callback: CallbackId, receiver: InstanceId, before: nat): Value
  {
    Number(0)
  }

  /** `class Parent extends Macroable {}` with `Parent._macros = {}` and `Parent._getters = {}`. */
  method DefineParent(behaviour: Behaviour) returns (parent: Macroable)
    ensures fresh(parent)
    ensures parent.name == "Parent" && parent.behaviour == behaviour
    ensures parent.Snapshot() == Registry(map[], map[], map[])
    ensures parent.instances == [] && parent.calls == []
  {
    parent := new Macroable("Parent", map[], behaviour);
  }

  /** A macro is stored and read by a new instance through the prototype. */
  method MacroIsDefined() returns (r: Outcome<Failure>, stored: Value, seen: Value)
    ensures r == Pass && stored == Function(1) && seen == Function(1)
  {
    var parent := DefineParent(Bar);
    r := parent.Macro("foo", Function(1));
    stored := parent.GetMacro("foo");
    var inst := parent.Construct();
    seen := parent.Read(inst, "foo");
  }

  /** `Parent.macro('foo', 'foo')` throws E_INVALID_PARAMETER and stores nothing. */
  method MacroRejectsNonFunction() returns (r: Outcome<Failure>, stored: Value, onProto: bool)
    ensures r == Fail(InvalidArgument(InvalidParameter(ExpectsFunction("Parent", "macro"), Str("foo"))))
    ensures stored == Undefined && !onProto
  {
    var parent := DefineParent(Bar);
    r := parent.Macro("foo", Str("foo"));
    stored := parent.GetMacro("foo");
    onProto := "foo" in parent.proto;
  }

  /** The text of the exception `Parent.macro('foo', 'foo')` throws. */
  lemma MacroRejectionText()
    ensures InvalidParameter(ExpectsFunction("Parent", "macro"), Str("foo"))
         == Exception("Parent.macro" + ExpectsCallback + " instead received {string}", 500, "E_INVALID_PARAMETER")
  {
    assert "Parent" + "." + "macro" == "Parent.macro";
    assert " instead received {" + TypeOf(Str("foo")) + "}" == " instead received {string}";
  }

  /** The text of the exception `Parent.getter('foo', 'foo')` throws. */
  lemma GetterRejectionText()
    ensures InvalidParameter(ExpectsFunction("Parent", "getter"), Str("foo"))
         == Exception("Parent.getter" + ExpectsCallback + " instead received {string}", 500, "E_INVALID_PARAMETER")
  {
    assert "Parent" + "." + "getter" == "Parent.getter";
    assert " instead received {" + TypeOf(Str("foo")) + "}" == " instead received {string}";
  }

  /** `Parent.getter('foo', 'foo')` throws E_INVALID_PARAMETER and installs nothing. */
  method GetterRejectsNonFunction() returns (r: Outcome<Failure>, has: bool)
    ensures r == Fail(InvalidArgument(InvalidParameter(ExpectsFunction("Parent", "getter"), Str("foo"))))
    ensures !has
  {
    var parent := DefineParent(Bar);
    r := parent.Getter("foo", Str("foo"), false);
    has := parent.HasGetter("foo");
  }

  /**
   * `hasMacro` is false before registration and true after; deleting the property
   * from the prototype makes it false again while `getMacro` still finds it.
   */
  method HasMacroChecksPrototype() returns (before: bool, after: bool, removed: bool, stillStored: Value)
    ensures !before && after && !removed && stillStored == Function(1)
  {
    var parent := DefineParent(Bar);
    before := parent.HasMacro("foo");
    var _ := parent.Macro("foo", Function(1));
    after := parent.HasMacro("foo");
    parent.RemoveFromPrototype("foo");
    removed := parent.HasMacro("foo");
    stillStored := parent.GetMacro("foo");
  }

  /**
   * `hasGetter` is false before registration and true after; deleting the property
   * from the prototype makes it false again while `getGetter` still finds it.
   */
  method HasGetterChecksPrototype() returns (before: bool, after: bool, removed: bool, stillStored: Option<GetterFn>)
    ensures !before && after && !removed && stillStored == Some(Plain(1))
  {
    var parent := DefineParent(Bar);
    before := parent.HasGetter("foo");
    var _ := parent.Getter("foo", Function(1), false);
    after := parent.HasGetter("foo");
    parent.RemoveFromPrototype("foo");
    removed := parent.HasGetter("foo");
    stillStored := parent.GetGetter("foo");
  }

  /** A getter runs with the new instance as `this` when read. */
  method GetterIsDefined() returns (seen: Value, log: seq<Call>)
    ensures seen == Str("bar") && log == [Call(1, 0)]
  {
    var parent := DefineParent(Bar);
    var _ := parent.Getter("foo", Function(1), false);
    var inst := parent.Construct();
    seen := parent.Read(inst, "foo");
    log := parent.calls;
  }

  /** Registering on one class leaves a sibling class untouched. */
  method SiblingsAreIsolated() returns (onFoo: Value, fooProto: bool, onBar: Value, barProto: bool)
    ensures onFoo == Function(1) && fooProto && onBar == Undefined && !barProto
  {
    var foo := new Macroable("Foo", map[], Bar);
    var bar := new Macroable("Bar", map[], Bar);
    var _ := foo.Macro("foo", Function(1));
    onFoo := foo.GetMacro("foo");
    fooProto := "foo" in foo.proto && foo.proto["foo"] == Data(Function(1));
    onBar := bar.GetMacro("foo");
    barProto := "foo" in bar.proto;
  }

  /** `Parent` with the single getter `name` registered for callback `callback`. */
  function WithGetter(name: Name, callback: CallbackId, singleton: bool): Registry<GetterFn>
  {
    RegisterGetter(Registry(map[], map[], map[]), "Parent", name, Function(callback), singleton).after
  }

  /** A plain getter is called every time: two new instances, one read each, two calls. */
  lemma PlainGetterRunsForEveryInstance()
    ensures var proto := WithGetter("foo", 1, false).proto;
      var m := ReadProperty(proto, map[], [], Bar, 0, "foo");
      var m1 := ReadProperty(proto, map[], m.calls, Bar, 1, "foo");
      && m.value == Str("bar") && m1.value == Str("bar")
      && m1.calls == [Call(1, 0), Call(1, 1)]
  {
  }

  /** A singleton getter: two reads on one instance see "bar", and the callback ran once. */
  lemma SingletonRunsOnceScenario()
    ensures var t := ReadTimes(WithGetter("foo", 1, true).proto, map[], [], Bar, 0, "foo", 2);
      && t.values == [Str("bar"), Str("bar")]
      && t.calls == [Call(1, 0)]
      && t.own == map["_foo_" := Own(Str("bar"), true)]
  {
    TruthyResultIsCached(WithGetter("foo", 1, true).proto, map[], [], Bar, 0, "foo", 1, 2);
    assert CacheKey("foo") == "_foo_";
  }

  /** A singleton is instance specific: each of two instances runs the callback once. */
  lemma SingletonPerInstanceScenario()
    ensures var proto := WithGetter("foo", 1, true).proto;
      var m := ReadTimes(proto, map[], [], Bar, 0, "foo", 2);
      var m1 := ReadTimes(proto, map[], m.calls, Bar, 1, "foo", 2);
      && m.values == [Str("bar"), Str("bar")] && m1.values == [Str("bar"), Str("bar")]
      && m1.calls == [Call(1, 0), Call(1, 1)]
  {
    var proto := WithGetter("foo", 1, true).proto;
    TruthyResultIsCached(proto, map[], [], Bar, 0, "foo", 1, 2);
    TruthyResultIsCached(proto, map[], [Call(1, 0)], Bar, 1, "foo", 1, 2);
  }

  /** A singleton whose callback returns 0 runs again on every read. */
  lemma FalsySingletonScenario()
    ensures var t := ReadTimes(WithGetter("foo", 1, true).proto, map[], [], Zero, 0, "foo", 3);
      && t.values == [Number(0), Number(0), Number(0)]
      && t.calls == [Call(1, 0), Call(1, 0), Call(1, 0)]
  {
    FalsyResultIsRecomputed(WithGetter("foo", 1, true).proto, map[], [], Zero, 0, "foo", 1, 3);
  }

  /**
   * `hydrate` after a getter and a macro: both maps are empty and a new instance
   * reads both names as undefined.
   */
  lemma HydrateResetsScenario()
    ensures var r := RegisterMacro(WithGetter("foo", 1, false), "Parent", "bar", Function(2)).after;
      var h := Hydrated(r);
      && h.macros == map[] && h.getters == map[]
      && ReadProperty(h.proto, map[], [], Bar, 0, "foo").value == Undefined
      && ReadProperty(h.proto, map[], [], Bar, 0, "bar").value == Undefined
  {
  }
}
