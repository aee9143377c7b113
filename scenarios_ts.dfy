/**
 * The behaviours that test.ts and tests/macroable.spec.ts check.
 *
 * Short stories are client methods that build a fresh class and prove what the
 * test asserts from the contracts of MacroableTs alone; longer ones are lemmas
 * about the specification functions those contracts are stated with.
 */
module ScenariosTs {
  import opened ObjectModel
  import opened SharedRegistry
  import opened MacroableTs

  /** A callback that bumps a shared counter and returns it: the n-th call returns n. */
  function Counter(callback: CallbackId, receiver: InstanceId, before: nat): Value
  {
    Number(before + 1)
  }

  /** Callback 1 adds one to the shared counter, callback 2 adds two. */
  function Bumps(callback: CallbackId, receiver: InstanceId, before: nat): Value
  {
    if callback == 2 then Number(2 * before + 2) else Number(before + 1)
  }

  /** A callback that returns the same string on every call. */
  function Bar(callback: CallbackId, receiver: InstanceId, before: nat): Value
  {
    Str("bar")
  }

  /** A class whose statics are set, with an empty class body. */
  method DefineParent(behaviour: Behaviour) returns (parent: Macroable)
    ensures fresh(parent) && parent.Valid()
    ensures parent.macrosSet && parent.gettersSet
    ensures parent.Snapshot() == Registry(map[], map[], map[])
    ensures parent.instances == [] && parent.calls == [] && parent.behaviour == behaviour
  {
    parent := new Macroable(map[], behaviour, true, true);
  }

  /** A macro is stored, and read through the prototype without becoming an own property. */
  method MacroIsShared() returns (stored: Value, seenByOld: Value, seenByNew: Value, ownOld: bool, ownNew: bool)
    ensures stored == Function(7) && seenByOld == Function(7) && seenByNew == Function(7)
    ensures !ownOld && !ownNew
  {
    var parent := DefineParent(Counter);
    var before := parent.Construct();
    var _ := parent.Macro("foo", Function(7));
    stored := parent.GetMacro("foo");
    seenByOld := parent.Read(before.value, "foo");
    var after := parent.Construct();
    seenByNew := parent.Read(after.value, "foo");
    ownOld := "foo" in parent.instances[before.value];
    ownNew := "foo" in parent.instances[after.value];
  }

  /** `hasMacro` and `hasGetter` before and after registration; `macro` accepts a non-function. */
  method PresenceChecks() returns (macroBefore: bool, macroAfter: bool, getterBefore: bool, getterAfter: bool, read: Value)
    ensures !macroBefore && macroAfter && !getterBefore && getterAfter
    ensures read == Str("bar")
  {
    var parent := DefineParent(Counter);
    macroBefore := parent.HasMacro("foo");
    var _ := parent.Macro("foo", Str("bar"));
    macroAfter := parent.HasMacro("foo");
    getterBefore := parent.HasGetter("baz");
    parent.Getter("baz", 2, false);
    getterAfter := parent.HasGetter("baz");
    read := parent.GetMacro("foo");
  }

  /** Assigning to a singleton getter's name before any read: the accessor has no setter. */
  method AssignBeforeFirstRead() returns (r: Outcome<AssignError>)
    ensures r == Fail(GetterOnlyProperty)
  {
    var parent := DefineParent(Counter);
    parent.Getter("getCount", 1, true);
    var inst := parent.Construct();
    r := parent.Assign(inst.value, "getCount", Number(2));
  }

  /** Assigning to a singleton getter's name after a read: the cached own property is read-only. */
  method AssignAfterFirstRead() returns (read: Value, r: Outcome<AssignError>)
    ensures read == Number(1) && r == Fail(ReadOnlyProperty)
  {
    var parent := DefineParent(Counter);
    parent.Getter("getCount", 1, true);
    assert parent.proto == map["getCount" := Accessor(DefineOnce(1, "getCount"))];
    var inst := parent.Construct();
    read := parent.Read(inst.value, "getCount");
    assert parent.instances[inst.value] == map["getCount" := Own(Number(1), false)];
    r := parent.Assign(inst.value, "getCount", Number(2));
  }

  /** A macro assigned over an installed getter throws after the map is written. */
  method MacroOverGetter() returns (r: Outcome<AssignError>, stored: Value, installed: Member<GetterFn>)
    ensures r == Fail(GetterOnlyProperty)
    ensures stored == Function(9)
    ensures installed == Accessor(Plain(1))
  {
    var parent := DefineParent(Counter);
    parent.Getter("foo", 1, false);
    r := parent.Macro("foo", Function(9));
    stored := parent.GetMacro("foo");
    installed := parent.proto["foo"];
  }

  /** Registering on one class leaves a sibling class untouched. */
  method SiblingsAreIsolated() returns (onFoo: Value, onBar: Value, fooProto: bool, barProto: bool)
    ensures onFoo == Function(1) && onBar == Undefined && fooProto && !barProto
  {
    var foo := DefineParent(Counter);
    var bar := DefineParent(Counter);
    var _ := foo.Macro("foo", Function(1));
    onFoo := foo.GetMacro("foo");
    onBar := bar.GetMacro("foo");
    fooProto := "foo" in foo.proto;
    barProto := "foo" in bar.proto;
  }

  /** Constructing a class that did not set both static maps fails with the guard's message. */
  method UninitialisedClass() returns (r: Result<InstanceId, string>, partial: Result<InstanceId, string>)
    ensures r == Err(MisconfiguredMessage) && partial == Err(MisconfiguredMessage)
  {
    var foo := new Macroable(map[], Counter, false, false);
    r := foo.Construct();
    var half := new Macroable(map[], Counter, true, false);
    partial := half.Construct();
  }

  /** A class with the single getter `name` holding `callback`. */
  function WithGetter(name: Name, callback: CallbackId, singleton: bool): (r: Registry<GetterFn>)
    ensures Consistent(r)
  {
    InstallGetter(Registry(map[], map[], map[]), name, Wrap(name, callback, singleton))
  }

  /** The plain getter test: three reads see 1, 2, 3, three calls on the instance, no own property. */
  lemma PlainGetterRunsEveryTimeScenario()
    ensures var t := ReadTimes(WithGetter("getCount", 1, false).proto, map[], [], Counter, 0, "getCount", 3);
      && t.values == [Number(1), Number(2), Number(3)]
      && t.calls == [Call(1, 0), Call(1, 0), Call(1, 0)]
      && "getCount" !in t.own
  {
    var proto := WithGetter("getCount", 1, false).proto;
    PlainGetterRunsOnEveryRead(proto, map[], [], Counter, 0, "getCount", 1, 3);
    var t := ReadTimes(proto, map[], [], Counter, 0, "getCount", 3);
    assert t.values[0] == Number(1) && t.values[1] == Number(2) && t.values[2] == Number(3);
  }

  /** Two fresh instances reading a plain getter once each: two calls, one per instance. */
  lemma PlainGetterRunsForEveryInstance()
    ensures var proto := WithGetter("foo", 1, false).proto;
      var m := ReadProperty(proto, map[], [], Bar, 0, "foo");
      var m1 := ReadProperty(proto, map[], m.calls, Bar, 1, "foo");
      && m.value == Str("bar") && m1.value == Str("bar")
      && m1.calls == [Call(1, 0), Call(1, 1)]
  {
  }

  /** The singleton test: three reads see 1, one call, and the instance owns the value. */
  lemma SingletonRunsOnceScenario()
    ensures var t := ReadTimes(WithGetter("getCount", 1, true).proto, map[], [], Counter, 0, "getCount", 3);
      && t.values == [Number(1), Number(1), Number(1)]
      && t.calls == [Call(1, 0)]
      && t.own == map["getCount" := Own(Number(1), false)]
  {
    SingletonGetterRunsOnce(WithGetter("getCount", 1, true).proto, map[], [], Counter, 0, "getCount", 1, 3);
  }

  /** A singleton is instance specific: each of two instances runs the callback once. */
  lemma SingletonPerInstanceScenario()
    ensures var proto := WithGetter("foo", 1, true).proto;
      var m := ReadTimes(proto, map[], [], Bar, 0, "foo", 2);
      var m1 := ReadTimes(proto, map[], m.calls, Bar, 1, "foo", 2);
      && m.values == [Str("bar"), Str("bar")] && m1.values == [Str("bar"), Str("bar")]
      && m1.calls == [Call(1, 0), Call(1, 1)]
  {
    var proto := WithGetter("foo", 1, true).proto;
    SingletonGetterRunsOnce(proto, map[], [], Bar, 0, "foo", 1, 2);
    SingletonGetterRunsOnce(proto, map[], [Call(1, 0)], Bar, 1, "foo", 1, 2);
  }

  /** Re-registering a singleton getter: only the newer callback ever runs, and it runs once. */
  lemma ReassignedGetterScenario()
    ensures var r := InstallGetter(WithGetter("getCount", 1, true), "getCount", Wrap("getCount", 2, true));
      var t := ReadTimes(r.proto, map[], [], Bumps, 0, "getCount", 3);
      && t.values == [Number(2), Number(2), Number(2)]
      && t.calls == [Call(2, 0)]
      && "getCount" in t.own
  {
    var r := InstallGetter(WithGetter("getCount", 1, true), "getCount", Wrap("getCount", 2, true));
    GetterReRegistrationReplaces(Registry(map[], map[], map[]), "getCount", Wrap("getCount", 1, true), Wrap("getCount", 2, true));
    SingletonGetterRunsOnce(r.proto, map[], [], Bumps, 0, "getCount", 2, 3);
  }

  /**
   * `hydrate` after a getter and a macro: both maps are empty, a new instance reads
   * both names as undefined, and members of the class body stay.
   */
  lemma HydrateResetsScenario()
    ensures var body: Registry<GetterFn> := Registry(map[], map[], map["greet" := Data(Str("base"))]);
      var r := DefineMacro(InstallGetter(body, "foo", Plain(1)), "bar", Function(2)).after;
      var h := Hydrated(r);
      && h.macros == map[] && h.getters == map[]
      && ReadProperty(h.proto, map[], [], Counter, 0, "foo").value == Undefined
      && ReadProperty(h.proto, map[], [], Counter, 0, "bar").value == Undefined
      && ReadProperty(h.proto, map[], [], Counter, 0, "greet").value == Str("base")
  {
    var body: Registry<GetterFn> := Registry(map[], map[], map["greet" := Data(Str("base"))]);
    var r := DefineMacro(InstallGetter(body, "foo", Plain(1)), "bar", Function(2)).after;
    assert "greet" !in r.macros && "greet" !in r.getters;
  }

  /** A value a singleton cached before `hydrate` stays readable on that instance only. */
  lemma HydrateKeepsCachedValueScenario()
    ensures var r := WithGetter("foo", 1, true);
      var early := ReadProperty(r.proto, map[], [], Counter, 0, "foo");
      var h := Hydrated(r);
      && ReadProperty(h.proto, early.own, early.calls, Counter, 0, "foo").value == Number(1)
      && ReadProperty(h.proto, map[], early.calls, Counter, 1, "foo").value == Undefined
      && ReadProperty(h.proto, map[], early.calls, Counter, 1, "foo").calls == [Call(1, 0)]
  {
  }
}
