/**
 * What both versions of the Macroable registry do the same way, once a callback
 * has been accepted: the class-level state (the two static maps and the own
 * properties of the prototype), storing a macro, installing a getter accessor,
 * and `hydrate`. The type `G` is the version's own notion of a stored getter.
 */
module SharedRegistry {
  import opened ObjectModel

  /** The class-level state: the two static maps and the prototype's own properties. */
  datatype Registry<G> = Registry(
    macros: map<Name, Value>,
    getters: map<Name, G>,
    proto: map<Name, Member<G>>)

  /** The state after a registration, and whether it threw. */
  datatype Step<G, E> = Step(after: Registry<G>, outcome: Outcome<E>)

  /**
   * `macro`, once the value is accepted: the map entry is written first; the
   * assignment of the value to the prototype then throws if an accessor (a getter)
   * is installed under `name`.
   */
  function DefineMacro<G>(r: Registry<G>, name: Name, value: Value): (m: Step<G, AssignError>)
    ensures m.after.macros == r.macros[name := value] && m.after.getters == r.getters
    ensures m.outcome.Fail? <==> name in r.proto && r.proto[name].Accessor?
    ensures m.outcome.Fail? ==> m.outcome == Fail(GetterOnlyProperty) && m.after.proto == r.proto
    ensures m.outcome.Pass? ==> m.after.proto.Keys == r.proto.Keys + {name} && m.after.proto[name] == Data(value)
    ensures forall n :: n != name && n in r.proto ==> m.after.proto[n] == r.proto[n]
  {
    var macros := r.macros[name := value];
    match AssignPrototype(r.proto, name, value)
    case Ok(p) => Step(Registry(macros, r.getters, p), Pass)
    case Err(e) => Step(Registry(macros, r.getters, r.proto), Fail(e))
  }

  /**
   * `getter`, once the wrapper is built: the map entry is written, then the wrapper
   * is defined as a configurable, enumerable accessor of the prototype, replacing
   * whatever the prototype held under `name`.
   */
  function InstallGetter<G>(r: Registry<G>, name: Name, wrapped: G): (g: Registry<G>)
    ensures g.macros == r.macros
    ensures g.getters.Keys == r.getters.Keys + {name} && g.proto.Keys == r.proto.Keys + {name}
    ensures g.getters[name] == wrapped && g.proto[name] == Accessor(wrapped)
    ensures forall n :: n != name && n in r.getters ==> g.getters[n] == r.getters[n]
    ensures forall n :: n != name && n in r.proto ==> g.proto[n] == r.proto[n]
  {
    Registry(r.macros, r.getters[name := wrapped], r.proto[name := Accessor(wrapped)])
  }

  /**
   * `hydrate()`: every key of either map is deleted from the prototype (all its
   * own properties are configurable, so each deletion succeeds), and then both
   * maps are empty.
   */
  function Hydrated<G>(r: Registry<G>): (h: Registry<G>)
    ensures h.macros == map[] && h.getters == map[]
    ensures forall n :: n in h.proto <==> n in r.proto && n !in r.macros && n !in r.getters
    ensures forall n :: n in h.proto ==> h.proto[n] == r.proto[n]
  {
    Registry(map[], map[], r.proto - r.macros.Keys - r.getters.Keys)
  }

  /** Deletes from the prototype's members each key of one static map, one key at a time. */
  method DeleteKeys<G>(members: map<Name, Member<G>>, keys: set<Name>) returns (rest: map<Name, Member<G>>)
    ensures rest.Keys == members.Keys - keys
    ensures forall n :: n in rest ==> rest[n] == members[n]
  {
    rest := members;
    var todo := keys;
    while todo != {}
      invariant todo <= keys
      invariant rest.Keys == members.Keys - (keys - todo)
      invariant forall n :: n in rest ==> rest[n] == members[n]
      decreases todo
    {
      var key :| key in todo;
      rest := rest - {key};
      todo := todo - {key};
    }
  }

  /** Registering a getter again under the same name replaces the entry and the accessor outright. */
  lemma GetterReRegistrationReplaces<G>(r: Registry<G>, name: Name, first: G, second: G)
    ensures InstallGetter(InstallGetter(r, name, first), name, second) == InstallGetter(r, name, second)
  {
    assert r.getters[name := first][name := second] == r.getters[name := second];
    assert r.proto[name := Accessor(first)][name := Accessor(second)] == r.proto[name := Accessor(second)];
  }

  /**
   * Storing two macros under one name is storing only the second: the map holds the
   * second value, and the prototype and the outcome are those of the second store,
   * also when a getter stands in the way and both throw.
   */
  lemma MacroReRegistrationReplaces<G>(r: Registry<G>, name: Name, first: Value, second: Value)
    ensures DefineMacro(DefineMacro(r, name, first).after, name, second) == DefineMacro(r, name, second)
  {
    assert r.macros[name := first][name := second] == r.macros[name := second];
    assert r.proto[name := Data(first)][name := Data(second)] == r.proto[name := Data(second)];
  }

  /** Hydrating twice is hydrating once. */
  lemma HydrateIsIdempotent<G>(r: Registry<G>)
    ensures Hydrated(Hydrated(r)) == Hydrated(r)
  {
  }
}
