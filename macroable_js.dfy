/**
 * The Macroable registry of index.js (the older version), for one class that
 * opts in by setting its own static `_macros` and `_getters`.
 *
 * As in MacroableTs, one Dafny object holds everything the class owns: the two
 * static maps (`_macros` and `_getters` are the fields `macros` and `getters`),
 * the own properties of its prototype, those of each instance, and the log of
 * callback invocations. This version validates callbacks, checks the prototype
 * in `hasMacro`/`hasGetter`, and caches singleton results under `_name_`.
 */
module MacroableJs {
  import opened ObjectModel
  import opened SharedRegistry

  /** What `_getters[name]` holds, and what the accessor installed on the prototype runs. */
  datatype GetterFn =
    | Plain(callback: CallbackId)
      // the callback itself: it runs on every read
    | CacheOnInstance(callback: CallbackId, name: Name)
      // the singleton wrapper: keeps the instance's `_name_` property when it is
      // truthy, and otherwise runs the callback and assigns the result there

  /** The exception value `new InvalidArgumentException(message, status, code)`. */
  datatype Exception = Exception(message: string, status: int, code: string)

  /** Why `macro` or `getter` threw. */
  datatype Failure =
    | InvalidArgument(exception: Exception)
    | TypeError(error: AssignError)

  /**
   * `InvalidArgumentException.invalidParamter(message, actualValue)`: the message,
   * followed by the type of the value received when that value is truthy.
   */
  function InvalidParameter(message: string, actualValue: Value): (e: Exception)
    ensures e.status == 500 && e.code == "E_INVALID_PARAMETER"
    ensures message <= e.message
    ensures |e.message| > |message| <==> Truthy(actualValue)
    ensures Truthy(actualValue) ==> e.message[|message|..] == " instead received {" + TypeOf(actualValue) + "}"
  {
    var text := if Truthy(actualValue) then message + " instead received {" + TypeOf(actualValue) + "}" else message;
    Exception(text, 500, "E_INVALID_PARAMETER")
  }

  /** The message `macro` and `getter` report for a callback that is not a function. */
  function ExpectsFunction(className: string, operation: string): (m: string)
    ensures |m| == |className| + 1 + |operation| + |ExpectsCallback|
    ensures m[..|className|] == className && m[|className|] == '.'
    ensures m[|className| + 1..|className| + 1 + |operation|] == operation
    ensures m[|className| + 1 + |operation|..] == ExpectsCallback
  {
    className + "." + operation + ExpectsCallback
  }

  /** The fixed part of that message, after `<className>.<operation>`. */
  const ExpectsCallback := " expects callback to be a function or an asyncFunction"

  /** The guard at the top of `macro` and `getter`. */
  function CheckCallback(className: string, operation: string, callback: Value): (r: Outcome<Exception>)
    ensures r.Pass? <==> callback.Function?
    ensures r.Fail? ==> r.error == InvalidParameter(ExpectsFunction(className, operation), callback)
  {
    if TypeOf(callback) != "function" then
      Fail(InvalidParameter(ExpectsFunction(className, operation), callback))
    else
      Pass
  }

  /** The wrapper `getter` stores and installs for a callback. */
  function Wrap(name: Name, callback: CallbackId, singleton: bool): (g: GetterFn)
    ensures g.callback == callback
    ensures g.CacheOnInstance? <==> singleton
    ensures g.CacheOnInstance? ==> g.name == name
  {
    if singleton then CacheOnInstance(callback, name) else Plain(callback)
  }

  /**
   * `Class.macro(name, callback)` on the class named `className`: a non-function is
   * rejected before anything is written; otherwise the macro is stored as
   * DefineMacro describes, and a getter in the way surfaces as a TypeError.
   */
  function RegisterMacro(r: Registry<GetterFn>, className: string, name: Name, callback: Value): (m: Step<GetterFn, Failure>)
    ensures !callback.Function? ==>
      m == Step(r, Fail(InvalidArgument(InvalidParameter(ExpectsFunction(className, "macro"), callback))))
    ensures callback.Function? ==>
      && m.after == DefineMacro(r, name, callback).after
      && (m.outcome.Pass? <==> DefineMacro(r, name, callback).outcome.Pass?)
      && (m.outcome.Fail? ==> m.outcome.error == TypeError(GetterOnlyProperty))
  {
    match CheckCallback(className, "macro", callback)
    case Fail(e) => Step(r, Fail(InvalidArgument(e)))
    case Pass =>
      var stored := DefineMacro(r, name, callback);
      Step(stored.after, if stored.outcome.Fail? then Fail(TypeError(stored.outcome.error)) else Pass)
  }

  /**
   * `Class.getter(name, callback, singleton)` on the class named `className`: a
   * non-function is rejected before anything is written; otherwise the wrapper is
   * installed as InstallGetter describes.
   */
  function RegisterGetter(r: Registry<GetterFn>, className: string, name: Name, callback: Value, singleton: bool)
    : (m: Step<GetterFn, Failure>)
    ensures !callback.Function? ==>
      m == Step(r, Fail(InvalidArgument(InvalidParameter(ExpectsFunction(className, "getter"), callback))))
    ensures callback.Function? ==> m == Step(InstallGetter(r, name, Wrap(name, callback.id, singleton)), Pass)
  {
    match CheckCallback(className, "getter", callback)
    case Fail(e) => Step(r, Fail(InvalidArgument(e)))
    case Pass => Step(InstallGetter(r, name, Wrap(name, callback.id, singleton)), Pass)
  }

  /** The instance property a singleton getter registered under `name` caches into. */
  function CacheKey(name: Name): (key: Name)
    ensures |key| == |name| + 2 && key[0] == '_' && key[|key| - 1] == '_'
    ensures key[1..|key| - 1] == name
  {
    "_" + name + "_"
  }

  /** Two getter names never share a cache key. */
  lemma CacheKeyInjective(a: Name, b: Name)
    requires CacheKey(a) == CacheKey(b)
    ensures a == b
  {
    assert a == CacheKey(a)[1..|CacheKey(a)| - 1];
  }

  /** What `this[key]` yields inside the singleton wrapper, when no accessor is involved. */
  function CachedValue(proto: map<Name, Member<GetterFn>>, own: map<Name, Own>, key: Name): (v: Value)
    ensures key in own ==> v == own[key].value
    ensures key !in own && key in proto && proto[key].Data? ==> v == proto[key].value
    ensures key !in own && key !in proto ==> v == Undefined
  {
    match Resolve(proto, own, key)
    case OwnSlot(x) => x
    case ProtoData(x) => x
    case _ => Undefined
  }

  /**
   * Whether a read of `name` that reaches a singleton wrapper finds its cache slot
   * as a plain data property: either a writable own property of the instance, or
   * absent from the instance and not an accessor on the prototype.
   */
  predicate CacheSlotUsable(proto: map<Name, Member<GetterFn>>, own: map<Name, Own>, name: Name)
  {
    match Resolve(proto, own, name)
    case ProtoAccessor(g) =>
      g.CacheOnInstance? ==>
        var slot := CacheKey(g.name);
        && (slot in own ==> own[slot].writable)
        && (slot !in own ==> !(slot in proto && proto[slot].Accessor?))
    case _ => true
  }

  /**
   * Reading `instance[name]`: an own property wins; otherwise a prototype value is
   * returned as is; a plain getter runs its callback with the instance as `this`;
   * the singleton wrapper reads `this._name_`, runs the callback only when that
   * is falsy, assigns the result back to `this._name_` and returns it.
   */
  function ReadProperty(proto: map<Name, Member<GetterFn>>, own: map<Name, Own>, calls: seq<Call>,
                        behaviour: Behaviour, inst: InstanceId, name: Name): (r: ReadOutcome)
    requires CacheSlotUsable(proto, own, name)
    ensures CacheSlotUsable(proto, r.own, name)
    ensures calls <= r.calls && |r.calls| <= |calls| + 1
    ensures name in own ==> r == ReadOutcome(own[name].value, own, calls)
    ensures name !in own && name in proto && proto[name].Data? ==> r == ReadOutcome(proto[name].value, own, calls)
    ensures name !in own && name !in proto ==> r == ReadOutcome(Undefined, own, calls)
    ensures name !in own && name in proto && proto[name].Accessor? && proto[name].getter.Plain? ==>
      var callback := proto[name].getter.callback;
      r == ReadOutcome(behaviour(callback, inst, |calls|), own, calls + [Call(callback, inst)])
    ensures name !in own && name in proto && proto[name].Accessor? && proto[name].getter.CacheOnInstance? ==>
      var g := proto[name].getter;
      var cached := CachedValue(proto, own, CacheKey(g.name));
      && (Truthy(cached) ==> r.value == cached && r.calls == calls)
      && (!Truthy(cached) ==> r.value == behaviour(g.callback, inst, |calls|) && r.calls == calls + [Call(g.callback, inst)])
      && AssignProperty(proto, own, CacheKey(g.name), r.value) == Ok(r.own)
  {
    match Resolve(proto, own, name)
    case OwnSlot(x) => ReadOutcome(x, own, calls)
    case ProtoData(x) => ReadOutcome(x, own, calls)
    case NotFound => ReadOutcome(Undefined, own, calls)
    case ProtoAccessor(g) =>
      if g.Plain? then
        ReadOutcome(behaviour(g.callback, inst, |calls|), own, calls + [Call(g.callback, inst)])
      else
        var slot := CacheKey(g.name);
        var cached := CachedValue(proto, own, slot);
        if Truthy(cached) then
          ReadOutcome(cached, own[slot := Own(cached, true)], calls)
        else
          var v := behaviour(g.callback, inst, |calls|);
          ReadOutcome(v, own[slot := Own(v, true)], calls + [Call(g.callback, inst)])
  }

  /**
   * Singletons under two different names never share a cache slot: reading the
   * singleton `name` leaves the instance's `_other_` slot as it was.
   */
  lemma SingletonReadKeepsOtherSlots(proto: map<Name, Member<GetterFn>>, own: map<Name, Own>, calls: seq<Call>,
                                     behaviour: Behaviour, inst: InstanceId, name: Name, callback: CallbackId,
                                     other: Name)
    requires name !in own && name in proto && proto[name] == Accessor(CacheOnInstance(callback, name))
    requires CacheSlotUsable(proto, own, name)
    requires other != name
    ensures var r := ReadProperty(proto, own, calls, behaviour, inst, name);
      && (CacheKey(other) in r.own <==> CacheKey(other) in own)
      && (CacheKey(other) in own ==> r.own[CacheKey(other)] == own[CacheKey(other)])
  {
    if CacheKey(other) == CacheKey(name) {
      CacheKeyInjective(other, name);
    }
  }

  /** `count` successive reads of `name` on one instance. */
  function ReadTimes(proto: map<Name, Member<GetterFn>>, own: map<Name, Own>, calls: seq<Call>,
                     behaviour: Behaviour, inst: InstanceId, name: Name, count: nat): (t: Trace)
    requires CacheSlotUsable(proto, own, name)
    ensures |t.values| == count
    ensures calls <= t.calls
    decreases count
  {
    if count == 0 then Trace([], own, calls)
    else
      var first := ReadProperty(proto, own, calls, behaviour, inst, name);
      var rest := ReadTimes(proto, first.own, first.calls, behaviour, inst, name, count - 1);
      Trace([first.value] + rest.values, rest.own, rest.calls)
  }

  /** Once `_name_` holds a truthy value, reading the singleton getter changes nothing. */
  lemma {:induction false} CachedReadsAreStable(proto: map<Name, Member<GetterFn>>, own: map<Name, Own>, calls: seq<Call>,
                                                behaviour: Behaviour, inst: InstanceId, name: Name, callback: CallbackId,
                                                count: nat)
    requires name !in own && name in proto && proto[name] == Accessor(CacheOnInstance(callback, name))
    requires CacheKey(name) in own && own[CacheKey(name)].writable && Truthy(own[CacheKey(name)].value)
    ensures ReadTimes(proto, own, calls, behaviour, inst, name, count)
         == Trace(seq(count, _ => own[CacheKey(name)].value), own, calls)
    decreases count
  {
    if count > 0 {
      var v := own[CacheKey(name)].value;
      assert own[CacheKey(name) := Own(v, true)] == own;
      CachedReadsAreStable(proto, own, calls, behaviour, inst, name, callback, count - 1);
      assert [v] + seq(count - 1, _ => v) == seq(count, _ => v);
    }
  }

  /**
   * A singleton getter whose callback returns a truthy value runs once per
   * instance: every read sees the first result, and the instance keeps it,
   * writable, under `_name_`.
   */
  lemma TruthyResultIsCached(proto: map<Name, Member<GetterFn>>, own: map<Name, Own>, calls: seq<Call>,
                             behaviour: Behaviour, inst: InstanceId, name: Name, callback: CallbackId, count: nat)
    requires name !in own && name in proto && proto[name] == Accessor(CacheOnInstance(callback, name))
    requires CacheKey(name) !in own && CacheKey(name) !in proto
    requires Truthy(behaviour(callback, inst, |calls|))
    requires count > 0
    ensures var t := ReadTimes(proto, own, calls, behaviour, inst, name, count);
      var v := behaviour(callback, inst, |calls|);
      && t.values == seq(count, _ => v)
      && t.calls == calls + [Call(callback, inst)]
      && t.own == own[CacheKey(name) := Own(v, true)]
  {
    var first := ReadProperty(proto, own, calls, behaviour, inst, name);
    assert name != CacheKey(name);
    CachedReadsAreStable(proto, first.own, first.calls, behaviour, inst, name, callback, count - 1);
    assert [first.value] + seq(count - 1, _ => first.value) == seq(count, _ => first.value);
  }

  /** A read of a singleton getter whose `_name_` slot is absent or falsy runs the callback. */
  lemma RecomputeStep(proto: map<Name, Member<GetterFn>>, own: map<Name, Own>, calls: seq<Call>,
                      behaviour: Behaviour, inst: InstanceId, name: Name, callback: CallbackId)
    requires name !in own && name in proto && proto[name] == Accessor(CacheOnInstance(callback, name))
    requires CacheKey(name) !in proto
    requires CacheKey(name) in own ==> own[CacheKey(name)].writable && !Truthy(own[CacheKey(name)].value)
    ensures var v := behaviour(callback, inst, |calls|);
      ReadProperty(proto, own, calls, behaviour, inst, name)
        == ReadOutcome(v, own[CacheKey(name) := Own(v, true)], calls + [Call(callback, inst)])
  {
    assert name != CacheKey(name);
  }

  /**
   * While the callback keeps returning falsy values, the `||` in the singleton
   * wrapper recomputes on every read: `count` reads make `count` calls, and the
   * j-th read sees the result of the j-th call.
   */
  lemma {:induction false} FalsyResultIsRecomputed(proto: map<Name, Member<GetterFn>>, own: map<Name, Own>,
                                                   calls: seq<Call>, behaviour: Behaviour, inst: InstanceId,
                                                   name: Name, callback: CallbackId, count: nat)
    requires name !in own && name in proto && proto[name] == Accessor(CacheOnInstance(callback, name))
    requires CacheKey(name) !in proto
    requires CacheKey(name) in own ==> own[CacheKey(name)].writable && !Truthy(own[CacheKey(name)].value)
    requires forall j :: |calls| <= j < |calls| + count ==> !Truthy(behaviour(callback, inst, j))
    ensures var t := ReadTimes(proto, own, calls, behaviour, inst, name, count);
      && t.calls == calls + seq(count, _ => Call(callback, inst))
      && t.values == Results(behaviour, callback, inst, |calls|, count)
    decreases count
  {
    if count > 0 {
      var v := behaviour(callback, inst, |calls|);
      var own' := own[CacheKey(name) := Own(v, true)];
      var calls' := calls + [Call(callback, inst)];
      RecomputeStep(proto, own, calls, behaviour, inst, name, callback);
      FalsyResultIsRecomputed(proto, own', calls', behaviour, inst, name, callback, count - 1);
      assert calls' + seq(count - 1, _ => Call(callback, inst)) == calls + seq(count, _ => Call(callback, inst));
    }
  }

  /**
   * After a macro is stored where no getter stands in the way, any instance that
   * does not itself own `name` reads the callback through the prototype, gains no
   * own property and runs no callback.
   */
  lemma MacroIsReadThroughPrototype(r: Registry<GetterFn>, className: string, own: map<Name, Own>, calls: seq<Call>,
                                    behaviour: Behaviour, inst: InstanceId, name: Name, callback: CallbackId)
    requires !(name in r.proto && r.proto[name].Accessor?)
    requires name !in own
    ensures var p := RegisterMacro(r, className, name, Function(callback)).after.proto;
      && CacheSlotUsable(p, own, name)
      && ReadProperty(p, own, calls, behaviour, inst, name) == ReadOutcome(Function(callback), own, calls)
  {
  }

  class Macroable {
    /** The class's `name`, used in error messages. */
    const name: string
    var macros: map<Name, Value>
    var getters: map<Name, GetterFn>
    /** The own properties of `Class.prototype`. */
    var proto: map<Name, Member<GetterFn>>
    /** The own properties of each instance, indexed by instance id. */
    var instances: seq<map<Name, Own>>
    /** Every callback invocation so far, oldest first. */
    var calls: seq<Call>
    const behaviour: Behaviour

    /** The class-level part of the state, as a value. */
    function Snapshot(): Registry<GetterFn>
      reads this`macros, this`getters, this`proto
    {
      Registry(macros, getters, proto)
    }

    /** The class as defined, with `Class._macros = {}` and `Class._getters = {}` run. */
    constructor (name: string, base: map<Name, Member<GetterFn>>, behaviour: Behaviour)
      ensures this.name == name && this.behaviour == behaviour
      ensures Snapshot() == Registry(map[], map[], base)
      ensures instances == [] && calls == []
    {
      this.name, this.behaviour := name, behaviour;
      macros, getters, proto := map[], map[], base;
      instances, calls := [], [];
    }

    /** `new Class()`: a fresh instance with no own properties. */
    method Construct() returns (inst: InstanceId)
      modifies this`instances
      ensures inst == |old(instances)| && instances == old(instances) + [map[]]
    {
      inst := |instances|;
      instances := instances + [map[]];
    }

    /** `Class.macro(name, callback)`, as RegisterMacro describes it. */
    method Macro(key: Name, callback: Value) returns (r: Outcome<Failure>)
      modifies this`macros, this`proto
      ensures Step(Snapshot(), r) == RegisterMacro(old(Snapshot()), name, key, callback)
    {
      var check := CheckCallback(name, "macro", callback);
      if check.Fail? {
        return Fail(InvalidArgument(check.error));
      }
      macros := macros[key := callback];
      match AssignPrototype(proto, key, callback)
      case Ok(p) =>
        proto := p;
        r := Pass;
      case Err(e) =>
        r := Fail(TypeError(e));
    }

    /** `Class.getMacro(name)`: the stored callback, `undefined` when none is stored. */
    function GetMacro(key: Name): (v: Value)
      reads this
      ensures key in macros ==> v == macros[key]
      ensures key !in macros ==> v == Undefined
    {
      if key in macros then macros[key] else Undefined
    }

    /**
     * `Class.hasMacro(name)`: the stored macro and then the prototype's `name` must
     * both be truthy. The prototype is read only when the stored macro is truthy; an
     * accessor there would run a getter with the prototype as `this`, which is excluded.
     */
    function HasMacro(key: Name): (b: bool)
      reads this
      requires !(key in macros && Truthy(macros[key]) && key in proto && proto[key].Accessor?)
      ensures b <==> key in macros && Truthy(macros[key]) && key in proto && Truthy(proto[key].value)
    {
      Truthy(GetMacro(key)) && key in proto && Truthy(proto[key].value)
    }

    /** `Class.getter(name, callback, singleton)`, as RegisterGetter describes it. */
    method Getter(key: Name, callback: Value, singleton: bool) returns (r: Outcome<Failure>)
      modifies this`getters, this`proto
      ensures Step(Snapshot(), r) == RegisterGetter(old(Snapshot()), name, key, callback, singleton)
    {
      var check := CheckCallback(name, "getter", callback);
      if check.Fail? {
        return Fail(InvalidArgument(check.error));
      }
      var wrapped := Wrap(key, callback.id, singleton);
      getters := getters[key := wrapped];
      proto := proto[key := Accessor(wrapped)];
      r := Pass;
    }

    /** `Class.getGetter(name)`: the stored (possibly wrapped) callback, if any. */
    function GetGetter(key: Name): (g: Option<GetterFn>)
      reads this
      ensures g.Some? <==> key in getters
      ensures g.Some? ==> g.value == getters[key]
    {
      if key in getters then Some(getters[key]) else None
    }

    /** `Class.hasGetter(name)`: a stored getter and an own property of the prototype. */
    function HasGetter(key: Name): (b: bool)
      reads this
      ensures b <==> key in getters && key in proto
    {
      GetGetter(key).Some? && key in proto
    }

    /**
     * `Class.hydrate()`, as Hydrated describes it: deletes from the prototype every
     * key of `_macros`, then every key of `_getters`, then resets both maps to `{}`.
     * Values cached under `_name_` stay on the instances that computed them.
     */
    method Hydrate()
      modifies this`macros, this`getters, this`proto
      ensures Snapshot() == Hydrated(old(Snapshot()))
    {
      proto := DeleteKeys(proto, macros.Keys);
      proto := DeleteKeys(proto, getters.Keys);
      macros := map[];
      getters := map[];
    }

    /** `Reflect.deleteProperty(Class.prototype, name)` by code outside the registry. */
    method RemoveFromPrototype(key: Name)
      modifies this`proto
      ensures proto == old(proto) - {key}
    {
      proto := proto - {key};
    }

    /** Reading `instance[key]`, as ReadProperty describes it. */
    method Read(inst: InstanceId, key: Name) returns (v: Value)
      requires inst < |instances| && CacheSlotUsable(proto, instances[inst], key)
      modifies this`instances, this`calls
      ensures |instances| == |old(instances)| && instances == old(instances)[inst := instances[inst]]
      ensures ReadOutcome(v, instances[inst], calls) == ReadProperty(proto, old(instances[inst]), old(calls), behaviour, inst, key)
    {
      match Resolve(proto, instances[inst], key)
      case OwnSlot(x) => v := x;
      case ProtoData(x) => v := x;
      case NotFound => v := Undefined;
      case ProtoAccessor(g) =>
        if g.Plain? {
          v := behaviour(g.callback, inst, |calls|);
          calls := calls + [Call(g.callback, inst)];
        } else {
          var own := instances[inst];
          var slot := CacheKey(g.name);
          v := CachedValue(proto, own, slot);
          if !Truthy(v) {
            v := behaviour(g.callback, inst, |calls|);
            calls := calls + [Call(g.callback, inst)];
          }
          instances := instances[inst := own[slot := Own(v, true)]];
        }
    }
  }
}
