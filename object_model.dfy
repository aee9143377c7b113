/**
 * The part of the JavaScript object model that the Macroable registry touches:
 * values, truthiness, `typeof`, own-property tables of a prototype and of an
 * instance, strict-mode property assignment, and the opaque callbacks that
 * macros and getters carry.
 */
module ObjectModel {

  type Name = string

  /** The identity of a function object handed to the registry. */
  type CallbackId = nat

  /** The identity of one instance of a class that opts in. */
  type InstanceId = nat

  datatype Value =
    | Undefined
    | Null
    | Bool(b: bool)
    | Number(n: int)
    | Str(s: string)
    | Function(id: CallbackId)
    | Object(ref: nat)

  /** ToBoolean: what `!!v`, `a && b` and `a || b` test. */
  predicate Truthy(v: Value)
    ensures v.Function? || v.Object? ==> Truthy(v)
    ensures v.Undefined? || v.Null? ==> !Truthy(v)
    ensures v.Str? ==> (Truthy(v) <==> |v.s| > 0)
    ensures v.Number? ==> (Truthy(v) <==> v.n != 0)
  {
    match v
    case Undefined => false
    case Null => false
    case Bool(b) => b
    case Number(n) => n != 0
    case Str(s) => s != ""
    case Function(_) => true
    case Object(_) => true
  }

  /** The `typeof` operator. */
  function TypeOf(v: Value): (t: string)
    ensures t == "function" <==> v.Function?
    ensures t == "undefined" <==> v.Undefined?
    ensures t == "object" <==> v.Null? || v.Object?
  {
    match v
    case Undefined => "undefined"
    case Null => "object"
    case Bool(_) => "boolean"
    case Number(_) => "number"
    case Str(_) => "string"
    case Function(_) => "function"
    case Object(_) => "object"
  }

  /** One invocation of a registered callback, and the instance bound as `this`. */
  datatype Call = Call(callback: CallbackId, receiver: InstanceId)

  /**
   * What a callback returns when invoked: left opaque, a function of the callback,
   * its receiver and the number of callback invocations that came before it.
   */
  type Behaviour = (CallbackId, InstanceId, nat) -> Value

  /** What `count` successive calls of `callback` on `receiver` return, after `start` earlier calls. */
  function Results(behaviour: Behaviour, callback: CallbackId, receiver: InstanceId, start: nat, count: nat): (vs: seq<Value>)
    ensures |vs| == count
    ensures forall j :: 0 <= j < count ==> vs[j] == behaviour(callback, receiver, start + j)
    decreases count
  {
    if count == 0 then [] else [behaviour(callback, receiver, start)] + Results(behaviour, callback, receiver, start + 1, count - 1)
  }

  /** An own property of a prototype: a plain value, or an accessor with no setter. */
  datatype Member<G> = Data(value: Value) | Accessor(getter: G)

  /** An own data property of an instance. */
  datatype Own = Own(value: Value, writable: bool)

  /** The two TypeErrors a strict-mode assignment raises. */
  datatype AssignError =
    | ReadOnlyProperty    // "Cannot assign to read only property"
    | GetterOnlyProperty  // "Cannot set property ... which has only a getter"

  /** The value a property read yields, and the instance's own table and the call log after it. */
  datatype ReadOutcome = ReadOutcome(value: Value, own: map<Name, Own>, calls: seq<Call>)

  /** The values seen by successive reads of one name on one instance, and the state after them. */
  datatype Trace = Trace(values: seq<Value>, own: map<Name, Own>, calls: seq<Call>)

  datatype Option<T> = None | Some(value: T)

  datatype Result<T, E> = Ok(value: T) | Err(error: E)

  datatype Outcome<E> = Pass | Fail(error: E)

  /** Where a read of `name` on an instance lands: its own table first, then its prototype. */
  datatype Found<G> = OwnSlot(value: Value) | ProtoData(value: Value) | ProtoAccessor(getter: G) | NotFound

  function Resolve<G>(proto: map<Name, Member<G>>, own: map<Name, Own>, name: Name): (f: Found<G>)
    ensures f.OwnSlot? <==> name in own
    ensures f.OwnSlot? ==> f.value == own[name].value
    ensures f.ProtoData? <==> name !in own && name in proto && proto[name].Data?
    ensures f.ProtoData? ==> f.value == proto[name].value
    ensures f.ProtoAccessor? ==> name !in own && name in proto && f.getter == proto[name].getter
    ensures f.NotFound? <==> name !in own && name !in proto
  {
    if name in own then OwnSlot(own[name].value)
    else if name !in proto then NotFound
    else match proto[name]
      case Data(v) => ProtoData(v)
      case Accessor(g) => ProtoAccessor(g)
  }

  /**
   * Strict-mode `instance[name] = v` on an instance whose prototype has the own
   * properties `proto`: the new own table, or the TypeError raised.
   */
  function AssignProperty<G>(proto: map<Name, Member<G>>, own: map<Name, Own>, name: Name, v: Value)
    : (r: Result<map<Name, Own>, AssignError>)
    ensures r == Err(ReadOnlyProperty) <==> name in own && !own[name].writable
    ensures r == Err(GetterOnlyProperty) <==> name !in own && name in proto && proto[name].Accessor?
    ensures r.Ok? ==> r.value.Keys == own.Keys + {name} && r.value[name] == Own(v, true)
    ensures r.Ok? ==> forall n :: n in own && n != name ==> r.value[n] == own[n]
  {
    if name in own then
      if own[name].writable then Ok(own[name := Own(v, true)]) else Err(ReadOnlyProperty)
    else if name in proto && proto[name].Accessor? then Err(GetterOnlyProperty)
    else Ok(own[name := Own(v, true)])
  }

  /**
   * Strict-mode `prototype[name] = v`: an own accessor has no setter and throws;
   * otherwise the own property becomes (or is overwritten by) the data value.
   */
  function AssignPrototype<G>(proto: map<Name, Member<G>>, name: Name, v: Value)
    : (r: Result<map<Name, Member<G>>, AssignError>)
    ensures r.Err? <==> name in proto && proto[name].Accessor?
    ensures r.Err? ==> r.error == GetterOnlyProperty
    ensures r.Ok? ==> r.value.Keys == proto.Keys + {name} && r.value[name] == Data(v)
    ensures r.Ok? ==> forall n :: n in proto && n != name ==> r.value[n] == proto[n]
  {
    if name in proto && proto[name].Accessor? then Err(GetterOnlyProperty)
    else Ok(proto[name := Data(v)])
  }
}
