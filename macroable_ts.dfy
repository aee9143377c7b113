/**
 * The Macroable registry of index.ts, for one class that opts in (a subclass such
 * as `Parent` that sets its own static `macros` and `getters`).
 *
 * One object of the Dafny class `Macroable` holds everything that class owns:
 * the two static maps, the own properties of its shared prototype, the own
 * properties of each instance constructed so far, and the log of callback
 * invocations. Two classes are two objects, and every method modifies only
 * `this`, so registering on one class leaves every other class as it was.
 *
 * Each operation is specified by a function on values: DefineMacro,
 * InstallGetter and Hydrated from SharedRegistry, and ReadProperty below; the
 * lemmas state what the library promises about those functions.
 */
module MacroableTs {
  import opened ObjectModel
  import opened SharedRegistry

  /** What `getters[name]` holds, and what the accessor installed on the prototype runs. */
  datatype GetterFn =
    | Plain(callback: CallbackId)
      // the callback itself: it runs on every read
    | DefineOnce(callback: CallbackId, name: Name)
      // the singleton wrapper: runs the callback, then defines the result as an
      // own property `name` of the instance

  const MisconfiguredMessage: string :=
    "Set static properties \"macros = {}\" and \"getters = {}\" on the class for the macroable to work."

  /** The wrapper `getter` stores and installs for a callback. */
  function Wrap(name: Name, callback: CallbackId, singleton: bool): (g: GetterFn)
    ensures g.callback == callback
    ensures g.DefineOnce? <==> singleton
    ensures g.DefineOnce? ==> g.name == name
  {
    if singleton then DefineOnce(callback, name) else Plain(callback)
  }

  /** Every singleton wrapper on the prototype is installed under the name it defines. */
  ghost predicate WrappersNamed(proto: map<Name, Member<GetterFn>>)
  {
    forall n :: n in proto && proto[n].Accessor? && proto[n].getter.DefineOnce? ==> proto[n].getter.name == n
  }

  /**
   * The maps and the prototype agree: every registered getter is the accessor
   * installed under its name, and every registered macro name is on the
   * prototype, as that value unless an accessor stood there when it was assigned.
   */
  ghost predicate Consistent(r: Registry<GetterFn>)
  {
    && (forall n :: n in r.getters ==> n in r.proto && r.proto[n] == Accessor(r.getters[n]))
    && (forall n :: n in r.macros ==> n in r.proto && (r.proto[n] == Data(r.macros[n]) || r.proto[n].Accessor?))
    && WrappersNamed(r.proto)
  }

  /** `macro` keeps the maps and the prototype in agreement. */
  lemma MacroKeepsConsistent(r: Registry<GetterFn>, name: Name, value: Value)
    requires Consistent(r)
    ensures Consistent(DefineMacro(r, name, value).after)
  {
  }

  /** `getter` keeps the maps and the prototype in agreement. */
  lemma GetterKeepsConsistent(r: Registry<GetterFn>, name: Name, callback: CallbackId, singleton: bool)
    requires Consistent(r)
    ensures Consistent(InstallGetter(r, name, Wrap(name, callback, singleton)))
  {
  }

  /** `hydrate` leaves the two maps empty and the prototype's singleton wrappers where they were. */
  lemma HydrateKeepsConsistent(r: Registry<GetterFn>)
    requires Consistent(r)
    ensures Consistent(Hydrated(r))
  {
  }

  /**
   * Defining `value` as the instance's own property `name` with only `configurable`
   * given: a new property is non-writable; an existing (configurable) one keeps its
   * writability.
   */
  function DefineValue(own: map<Name, Own>, name: Name, v: Value): (own': map<Name, Own>)
    ensures own'.Keys == own.Keys + {name} && own'[name].value == v
    ensures name !in own ==> !own'[name].writable
    ensures forall n :: n in own && n != name ==> own'[n] == own[n]
  {
    own[name := Own(v, name in own && own[name].writable)]
  }

  /**
   * Reading `instance[name]` on an instance with own properties `own`: an own
   * property wins; otherwise a prototype value is returned as is; a plain getter
   * runs its callback with the instance as `this`; a singleton wrapper runs it
   * too and then defines the result as an own property of the instance.
   */
  function ReadProperty(proto: map<Name, Member<GetterFn>>, own: map<Name, Own>, calls: seq<Call>,
                        behaviour: Behaviour, inst: InstanceId, name: Name): (r: ReadOutcome)
    ensures calls <= r.calls && |r.calls| <= |calls| + 1
    ensures |r.calls| == |calls| + 1 <==> name !in own && name in proto && proto[name].Accessor?
    ensures |r.calls| == |calls| + 1 ==>
      && r.calls[|calls|] == Call(proto[name].getter.callback, inst)
      && r.value == behaviour(proto[name].getter.callback, inst, |calls|)
    ensures name in own ==> r == ReadOutcome(own[name].value, own, calls)
    ensures name !in own && name in proto && proto[name].Data? ==> r == ReadOutcome(proto[name].value, own, calls)
    ensures name !in own && name !in proto ==> r == ReadOutcome(Undefined, own, calls)
    ensures own.Keys <= r.own.Keys
    ensures r.own != own ==> name !in own && name in proto && proto[name].Accessor? && proto[name].getter.DefineOnce?
  {
    match Resolve(proto, own, name)
    case OwnSlot(x) => ReadOutcome(x, own, calls)
    case ProtoData(x) => ReadOutcome(x, own, calls)
    case NotFound => ReadOutcome(Undefined, own, calls)
    case ProtoAccessor(g) =>
      var v := behaviour(g.callback, inst, |calls|);
      var own' := if g.DefineOnce? then DefineValue(own, g.name, v) else own;
      ReadOutcome(v, own', calls + [Call(g.callback, inst)])
  }

  /** `count` successive reads of `name` on one instance. */
  function ReadTimes(proto: map<Name, Member<GetterFn>>, own: map<Name, Own>, calls: seq<Call>,
                     behaviour: Behaviour, inst: InstanceId, name: Name, count: nat): (t: Trace)
    ensures |t.values| == count
    ensures calls <= t.calls
    decreases count
  {
    if count == 0 then Trace([], own, calls)
    else
      var first := ReadProperty(proto, own, calls, behaviour, inst, name);
      var rest := ReadTimes(proto, first.own, first.calls, behaviour, inst, name, count - 1);
      Trace([first.value] + rest.values, rest.own, rest.calls)
  }

  /** Once an instance has an own property `name`, reading it again changes nothing. */
  lemma {:induction false} OwnReadsAreStable(proto: map<Name, Member<GetterFn>>, own: map<Name, Own>, calls: seq<Call>,
                                             behaviour: Behaviour, inst: InstanceId, name: Name, count: nat)
    requires name in own
    ensures ReadTimes(proto, own, calls, behaviour, inst, name, count) == Trace(seq(count, _ => own[name].value), own, calls)
    decreases count
  {
    if count > 0 {
      OwnReadsAreStable(proto, own, calls, behaviour, inst, name, count - 1);
      assert [own[name].value] + seq(count - 1, _ => own[name].value) == seq(count, _ => own[name].value);
    }
  }

  /**
   * A plain getter runs on every read: `count` reads append `count` calls with the
   * instance as receiver, the j-th read sees the result of the j-th call, and the
   * instance gains no own property.
   */
  lemma {:induction false} PlainGetterRunsOnEveryRead(proto: map<Name, Member<GetterFn>>, own: map<Name, Own>,
                                                      calls: seq<Call>, behaviour: Behaviour, inst: InstanceId,
                                                      name: Name, callback: CallbackId, count: nat)
    requires name !in own && name in proto && proto[name] == Accessor(Plain(callback))
    ensures var t := ReadTimes(proto, own, calls, behaviour, inst, name, count);
      && t.own == own
      && t.calls == calls + seq(count, _ => Call(callback, inst))
      && t.values == Results(behaviour, callback, inst, |calls|, count)
    decreases count
  {
    if count > 0 {
      var first := ReadProperty(proto, own, calls, behaviour, inst, name);
      PlainGetterRunsOnEveryRead(proto, own, first.calls, behaviour, inst, name, callback, count - 1);
      assert first.calls + seq(count - 1, _ => Call(callback, inst)) == calls + seq(count, _ => Call(callback, inst));
    }
  }

  /**
   * A singleton getter runs once per instance: however many reads follow, only the
   * first calls the callback, every read sees that first result, and the instance
   * keeps it as a non-writable own property.
   */
  lemma SingletonGetterRunsOnce(proto: map<Name, Member<GetterFn>>, own: map<Name, Own>, calls: seq<Call>,
                                behaviour: Behaviour, inst: InstanceId, name: Name, callback: CallbackId, count: nat)
    requires name !in own && name in proto && proto[name] == Accessor(DefineOnce(callback, name))
    requires count > 0
    ensures var t := ReadTimes(proto, own, calls, behaviour, inst, name, count);
      var v := behaviour(callback, inst, |calls|);
      && t.values == seq(count, _ => v)
      && t.calls == calls + [Call(callback, inst)]
      && t.own == own[name := Own(v, false)]
  {
    var first := ReadProperty(proto, own, calls, behaviour, inst, name);
    OwnReadsAreStable(proto, first.own, first.calls, behaviour, inst, name, count - 1);
    assert [first.value] + seq(count - 1, _ => first.value) == seq(count, _ => first.value);
  }

  /**
   * After a macro is stored where no getter stands in the way, any instance that
   * does not itself own `name`, created before or after, reads the value through
   * the prototype, gains no own property and runs no callback.
   */
  lemma MacroIsReadThroughPrototype(r: Registry<GetterFn>, own: map<Name, Own>, calls: seq<Call>,
                                    behaviour: Behaviour, inst: InstanceId, name: Name, value: Value)
    requires !(name in r.proto && r.proto[name].Accessor?)
    requires name !in own
    ensures ReadProperty(DefineMacro(r, name, value).after.proto, own, calls, behaviour, inst, name)
         == ReadOutcome(value, own, calls)
  {
  }

  /**
   * A singleton getter's name cannot be assigned on an instance: before the first
   * read the accessor has no setter, and after it the own property the wrapper
   * defined is read-only.
   */
  lemma SingletonNameIsReadOnly(proto: map<Name, Member<GetterFn>>, own: map<Name, Own>, calls: seq<Call>,
                                behaviour: Behaviour, inst: InstanceId, name: Name, callback: CallbackId, v: Value)
    requires name !in own && name in proto && proto[name] == Accessor(DefineOnce(callback, name))
    ensures AssignProperty(proto, own, name, v) == Err(GetterOnlyProperty)
    ensures AssignProperty(proto, ReadProperty(proto, own, calls, behaviour, inst, name).own, name, v)
         == Err(ReadOnlyProperty)
  {
  }

  class Macroable {
    /** Whether the class set its own static `macros` / `getters` to an object. */
    var macrosSet: bool
    var gettersSet: bool
    var macros: map<Name, Value>
    var getters: map<Name, GetterFn>
    /** The own properties of `Class.prototype`. */
    var proto: map<Name, Member<GetterFn>>
    /** The own properties of each instance, indexed by instance id. */
    var instances: seq<map<Name, Own>>
    /** Every callback invocation so far, oldest first. */
    var calls: seq<Call>
    const behaviour: Behaviour

    /** The class-level part of the state, as a value. */
    function Snapshot(): Registry<GetterFn>
      reads this`macros, this`getters, this`proto
    {
      Registry(macros, getters, proto)
    }

    /** A map the class never set stays empty, and the maps agree with the prototype. */
    ghost predicate Valid()
      reads this`macrosSet, this`gettersSet, this`macros, this`getters, this`proto
    {
      && (!macrosSet ==> macros == map[])
      && (!gettersSet ==> getters == map[])
      && Consistent(Snapshot())
    }

    /**
     * The class as defined: `base` are the prototype members of its body, and
     * `macrosSet`/`gettersSet` say whether it ran `Class.macros = {}` / `Class.getters = {}`.
     */
    constructor (base: map<Name, Member<GetterFn>>, behaviour: Behaviour, macrosSet: bool, gettersSet: bool)
      requires WrappersNamed(base)
      ensures Valid()
      ensures this.macrosSet == macrosSet && this.gettersSet == gettersSet
      ensures Snapshot() == Registry(map[], map[], base)
      ensures instances == [] && calls == [] && this.behaviour == behaviour
    {
      this.macrosSet, this.gettersSet := macrosSet, gettersSet;
      macros, getters, proto := map[], map[], base;
      instances, calls := [], [];
      this.behaviour := behaviour;
    }

    /** `new Class()`: the guard in Macroable's constructor, then a fresh instance with no own properties. */
    method Construct() returns (r: Result<InstanceId, string>)
      modifies this`instances
      ensures !(macrosSet && gettersSet) ==> r == Err(MisconfiguredMessage) && instances == old(instances)
      ensures macrosSet && gettersSet ==> r == Ok(|old(instances)|) && instances == old(instances) + [map[]]
    {
      if !macrosSet || !gettersSet {
        return Err(MisconfiguredMessage);
      }
      r := Ok(|instances|);
      instances := instances + [map[]];
    }

    /** `Class.macro(name, value)`, as DefineMacro describes it. */
    method Macro(name: Name, value: Value) returns (r: Outcome<AssignError>)
      requires Valid() && macrosSet
      modifies this`macros, this`proto
      ensures Valid()
      ensures Step(Snapshot(), r) == DefineMacro(old(Snapshot()), name, value)
    {
      macros := macros[name := value];
      match AssignPrototype(proto, name, value)
      case Ok(p) =>
        proto := p;
        r := Pass;
      case Err(e) =>
        r := Fail(e);
    }

    /** `Class.getMacro(name)`: the stored value, `undefined` when none is stored. */
    function GetMacro(name: Name): (v: Value)
      reads this
      requires macrosSet
      ensures name in macros ==> v == macros[name]
      ensures name !in macros ==> v == Undefined
    {
      if name in macros then macros[name] else Undefined
    }

    /** `Class.hasMacro(name)`: whether the stored entry is truthy. */
    function HasMacro(name: Name): (b: bool)
      reads this
      requires macrosSet
      ensures b <==> name in macros && Truthy(macros[name])
    {
      Truthy(GetMacro(name))
    }

    /** `Class.getter(name, callback, singleton)`: installs the wrapper Wrap builds, as InstallGetter describes it. */
    method Getter(name: Name, callback: CallbackId, singleton: bool)
      requires Valid() && gettersSet
      modifies this`getters, this`proto
      ensures Valid()
      ensures Snapshot() == InstallGetter(old(Snapshot()), name, Wrap(name, callback, singleton))
    {
      var wrapped := Wrap(name, callback, singleton);
      getters := getters[name := wrapped];
      proto := proto[name := Accessor(wrapped)];
    }

    /** `Class.getGetter(name)`: the stored (possibly wrapped) callback, if any. */
    function GetGetter(name: Name): (g: Option<GetterFn>)
      reads this
      requires gettersSet
      ensures g.Some? <==> name in getters
      ensures g.Some? ==> g.value == getters[name]
    {
      if name in getters then Some(getters[name]) else None
    }

    /** `Class.hasGetter(name)`: the stored entry is always a function, so this is presence. */
    function HasGetter(name: Name): (b: bool)
      reads this
      requires gettersSet
      ensures b <==> name in getters
    {
      GetGetter(name).Some?
    }

    /**
     * `Class.hydrate()`, as Hydrated describes it: deletes from the prototype every
     * key of `macros`, then every key of `getters`, then resets both maps to `{}`.
     * Instances keep their own properties, so values singletons cached stay readable.
     */
    method Hydrate()
      requires Valid() && macrosSet && gettersSet
      modifies this`macros, this`getters, this`proto
      ensures Valid()
      ensures Snapshot() == Hydrated(old(Snapshot()))
    {
      proto := DeleteKeys(proto, macros.Keys);
      proto := DeleteKeys(proto, getters.Keys);
      macros := map[];
      getters := map[];
    }

    /** Reading `instance[name]`, as ReadProperty describes it. */
    method Read(inst: InstanceId, name: Name) returns (v: Value)
      requires inst < |instances|
      modifies this`instances, this`calls
      ensures |instances| == |old(instances)| && instances == old(instances)[inst := instances[inst]]
      ensures ReadOutcome(v, instances[inst], calls) == ReadProperty(proto, old(instances[inst]), old(calls), behaviour, inst, name)
    {
      match Resolve(proto, instances[inst], name)
      case OwnSlot(x) => v := x;
      case ProtoData(x) => v := x;
      case NotFound => v := Undefined;
      case ProtoAccessor(g) =>
        v := behaviour(g.callback, inst, |calls|);
        calls := calls + [Call(g.callback, inst)];
        if g.DefineOnce? {
          instances := instances[inst := DefineValue(instances[inst], g.name, v)];
        }
    }

    /** Strict-mode `instance[name] = value` by code outside the registry. */
    method Assign(inst: InstanceId, name: Name, value: Value) returns (r: Outcome<AssignError>)
      requires inst < |instances|
      modifies this`instances
      ensures |instances| == |old(instances)|
      ensures match AssignProperty(proto, old(instances[inst]), name, value)
        case Ok(own) => r == Pass && instances == old(instances)[inst := own]
        case Err(e) => r == Fail(e) && instances == old(instances)
    {
      match AssignProperty(proto, instances[inst], name, value)
      case Ok(own) =>
        instances := instances[inst := own];
        r := Pass;
      case Err(e) =>
        r := Fail(e);
    }
  }
}
