# Macroable registry, in Dafny

A model of the Macroable registry of poppinss/macroable, and proofs about it. A class that extends
`Macroable` can add members to its prototype at run time:

- `macro(name, value)` stores a value and assigns it onto the prototype;
- `getter(name, callback, singleton)` stores a callback and installs it as a prototype accessor. When
  `singleton` is set, it is wrapped so that each instance keeps the first result. In index.ts the
  callback then runs once per instance. In index.js it runs once per instance only while its result is
  truthy; a falsy result is computed again on every read;
- `getMacro`, `hasMacro`, `getGetter` and `hasGetter` look things up;
- `hydrate` deletes every registered name from the prototype and empties both maps.

Two versions are modelled side by side:

- `index.ts`, the newer one, with a construction guard that demands the static `macros` and `getters` maps;
- `index.js`, the older one, which validates callbacks with `E_INVALID_PARAMETER`, checks the prototype in
  `hasMacro`/`hasGetter`, and caches singleton results on the instance under `_name_`.

Files, one module each:

- `object_model.dfy` (`ObjectModel`): the host-language facts the registry relies on. These are JavaScript
  values, truthiness, `typeof`, own and inherited property lookup, and strict-mode assignment, which throws
  on a non-writable property or an accessor without a setter.
- `shared_registry.dfy` (`SharedRegistry`): the class-level state both versions share, namely the two
  static maps and the prototype's own properties. It also holds the value-level specification of storing a
  macro, installing a getter and `hydrate`, the loop that deletes registered keys, and the
  re-registration and idempotence lemmas.
- `macroable_ts.dfy` (`MacroableTs`): `index.ts`. The class `Macroable` is one class that opts in. Its
  fields are the two static maps, the prototype, every instance's own properties and the log of callback
  invocations. Each method is proved against a specification function on values: DefineMacro,
  InstallGetter, Hydrated and ReadProperty.
- `macroable_js.dfy` (`MacroableJs`): `index.js`, in the same shape, with RegisterMacro and RegisterGetter
  adding callback validation in front of the shared functions.
- `scenarios_ts.dfy`, `scenarios_js.dfy`: the behaviours the repository's tests assert, either as client
  methods on a fresh class or as lemmas about the specification functions.

A callback is an opaque id. What it returns is the parameter `behaviour(callback, receiver, callsBefore)`,
where `callsBefore` counts the earlier invocations of every callback on the class. So `before + 1` models
a counter-incrementing callback only while it is the only callback that has run on the class; callbacks
that share one counter need a behaviour written for that mix, as `ScenariosTs.Bumps` is. Every invocation
is recorded in the call log, which is what lets the model count calls. Two classes are two objects, and
every method modifies only fields of its own object, so registering on one class leaves a sibling class
as it was.

A `macro` whose name already holds a getter does not overwrite the getter. The class body runs in strict
mode, so the assignment to the prototype throws a TypeError (the accessor has no setter) after the map
entry was written (index.ts:87-88, index.js:60-61).

## Model

| member | source | states |
|---|---|---|
| ObjectModel.Truthy | index.js:132 | JavaScript's ToBoolean, as `!!`, logical and, logical or and the ternary use it (index.ts:102, 159; index.js:15, 90, 170): functions and objects are truthy, undefined and null are falsy, a string is truthy exactly when it is non-empty, and a number exactly when it is not 0 |
| ObjectModel.TypeOf | index.js:55 | `typeof` is "function" exactly for functions, "undefined" exactly for undefined, "object" exactly for null and objects |
| ObjectModel.Resolve | index.js:132 | a property read finds the instance's own value exactly when the instance has the name; otherwise the prototype's data value exactly when the prototype holds data there, or the prototype's accessor when it holds one; and nothing exactly when neither has the name |
| ObjectModel.AssignProperty | tests/macroable.spec.ts:170 | strict-mode assignment on an instance fails as read-only exactly on a non-writable own property, and fails as getter-only exactly when the name comes from a prototype accessor; otherwise it leaves a writable own property holding the value and changes nothing else |
| ObjectModel.AssignPrototype | index.ts:88 | assigning onto the prototype fails with the getter-only TypeError exactly when an accessor stands there; otherwise the name holds the value as data and the other members are kept |
| SharedRegistry.DefineMacro | index.ts:87-88 | storing a macro always writes the map entry; it throws exactly when the prototype holds an accessor under the name, leaving the prototype unchanged; otherwise the prototype holds the value and nothing else changes |
| SharedRegistry.InstallGetter | index.ts:139-145 | the getters map and the prototype both gain the wrapper under the name, replacing any previous member; the macros and all other names are unchanged |
| SharedRegistry.Hydrated | index.ts:165-170 | both maps end empty; a name stays on the prototype exactly when it was there and is registered in neither map, with its member unchanged |
| SharedRegistry.DeleteKeys | index.ts:166-167 | after deleting each key of a map from the prototype, one at a time, the prototype holds exactly its other names, with their members unchanged |
| SharedRegistry.GetterReRegistrationReplaces | index.ts:139-145 | registering a getter twice under one name leaves the same state as registering only the second |
| SharedRegistry.MacroReRegistrationReplaces | index.ts:87-88 | storing two macros under one name is the same as storing only the second, outcome included, for every registry: with a getter in the way, the map holds the second value, the prototype is unchanged and the TypeError is the same |
| SharedRegistry.HydrateIsIdempotent | index.ts:165-170 | hydrating twice is hydrating once |
| MacroableTs.Wrap | index.ts:131-137 | the stored getter runs the given callback; it is the singleton wrapper exactly when `singleton` is set, and then it defines the registered name |
| MacroableTs.Consistent | index.ts:139-145 | the invariant the registry keeps: every registered getter is the accessor installed under its name; every registered macro name is on the prototype, as its value unless an accessor stood there when it was assigned; every singleton wrapper sits under the name it defines |
| MacroableTs.MacroKeepsConsistent | index.ts:87-88 | storing a macro keeps every registered getter as the accessor under its name and every registered macro on the prototype |
| MacroableTs.GetterKeepsConsistent | index.ts:139-145 | installing a getter keeps the maps and the prototype in agreement |
| MacroableTs.HydrateKeepsConsistent | index.ts:165-170 | `hydrate` keeps the maps and the prototype in agreement |
| MacroableTs.DefineValue | index.ts:134 | defining the cached value creates a non-writable own property when the name is new, and keeps the other own properties |
| MacroableTs.ReadProperty | index.ts:131-145 | a read calls a callback exactly when the name is not an own property and the prototype holds an accessor, and then the call is logged with the instance as receiver and its result is returned; own properties and prototype data are returned as they are; a missing name reads as undefined; only a singleton wrapper changes the instance |
| MacroableTs.ReadTimes | index.ts:131-145 | n successive reads of one name on one instance give n values, each read starting from the state the previous one left, and the call log only grows |
| MacroableTs.OwnReadsAreStable | index.ts:134 | once the instance owns the name, any number of reads return that value and change nothing |
| MacroableTs.PlainGetterRunsOnEveryRead | index.ts:137-145 | n reads of a plain getter log n calls on the instance, the j-th read returns the j-th call's result, and the instance gains no own property |
| MacroableTs.SingletonGetterRunsOnce | index.ts:131-136 | n reads of a singleton getter log exactly one call, every read returns its result, and the instance then owns it as a non-writable property |
| MacroableTs.MacroIsReadThroughPrototype | index.ts:88 | after a macro is stored, any instance not owning the name reads the value without gaining a property or running a callback |
| MacroableTs.SingletonNameIsReadOnly | index.ts:131-145 | assigning to a singleton getter's name fails as getter-only before the first read and as read-only after it |
| MacroableTs.Macroable.Valid | index.ts:58-59 | the class object's invariant: a static map the class never set stays empty, and the maps agree with the prototype as Consistent says; the constructor establishes it and Macro, Getter and Hydrate keep it |
| MacroableTs.Macroable.constructor | index.ts:57-59 | a class starts with empty maps and the prototype its body defines, and records whether it set each static map |
| MacroableTs.Macroable.Construct | index.ts:61-67 | construction fails with the guard's message unless both static maps are set; otherwise a fresh instance with no own properties is added |
| MacroableTs.Macroable.Macro | index.ts:82-89 | the new class state and the outcome are those DefineMacro gives, and the maps stay consistent with the prototype |
| MacroableTs.Macroable.GetMacro | index.ts:94-96 | the stored value, or undefined when the name is not stored (never stored, or removed by `hydrate`) |
| MacroableTs.Macroable.HasMacro | index.ts:101-103 | true exactly when a truthy value is stored under the name |
| MacroableTs.Macroable.Getter | index.ts:125-146 | the new class state is InstallGetter with the wrapper Wrap builds |
| MacroableTs.Macroable.GetGetter | index.ts:151-153 | the stored wrapper, present exactly when the name is registered |
| MacroableTs.Macroable.HasGetter | index.ts:158-160 | true exactly when a getter is registered under the name |
| MacroableTs.Macroable.Hydrate | index.ts:165-170 | the new class state is Hydrated of the old one; instances keep their own properties |
| MacroableTs.Macroable.Read | index.ts:131-145 | the value read, the reading instance's new own properties and the new call log are those ReadProperty gives; other instances are unchanged |
| MacroableTs.Macroable.Assign | tests/macroable.spec.ts:170 | an assignment on an instance succeeds or fails as AssignProperty says, and changes the instance only when it succeeds |
| MacroableJs.InvalidParameter | index.js:14-17 | status 500 and code E_INVALID_PARAMETER; the message begins with the given text, and is longer exactly when the received value is truthy, by " instead received {" and its `typeof` and "}" |
| MacroableJs.ExpectsFunction | index.js:57 | the rejection message is the class name, a dot, the operation (`macro` or `getter`, index.js:57 and 122) and then the fixed text `ExpectsCallback`, " expects callback to be a function or an asyncFunction" |
| MacroableJs.CheckCallback | index.js:55-58 | accepts exactly function values; otherwise fails with the E_INVALID_PARAMETER exception naming the class and operation |
| MacroableJs.Wrap | index.js:130-134 | the stored getter runs the given callback; it is the caching wrapper exactly when `singleton` is set, and then it caches under the registered name |
| MacroableJs.RegisterMacro | index.js:54-62 | a non-function is rejected with the E_INVALID_PARAMETER exception and the state unchanged; a function is stored as DefineMacro says, and a getter in the way surfaces as the getter-only TypeError |
| MacroableJs.RegisterGetter | index.js:119-142 | a non-function is rejected with the E_INVALID_PARAMETER exception and the state unchanged; a function is wrapped and installed as InstallGetter says |
| MacroableJs.CacheKey | index.js:131 | the cache key is the name with one underscore before and one after |
| MacroableJs.CacheKeyInjective | index.js:131 | two names with the same cache key are the same name |
| MacroableJs.SingletonReadKeepsOtherSlots | index.js:130-133 | reading the singleton under one name leaves the cache slot of any other name on that instance as it was |
| MacroableJs.CachedValue | index.js:132 | reading the cache slot returns the instance's own value, else the prototype's data value, else undefined |
| MacroableJs.ReadProperty | index.js:130-141 | own properties and prototype data are returned as they are; a missing name reads as undefined; a plain getter logs one call on the instance and returns its result; the caching wrapper returns a truthy cached value without a call, and otherwise calls the callback; it assigns the result to the cache slot by strict-mode assignment, which succeeds, and the slot stays usable |
| MacroableJs.ReadTimes | index.js:130-141 | n successive reads of one name on one instance give n values, each read starting from the state the previous one left, and the call log only grows |
| MacroableJs.CachedReadsAreStable | index.js:132-133 | once the cache slot holds a truthy value, any number of reads return it and change nothing |
| MacroableJs.TruthyResultIsCached | index.js:130-134 | with a truthy first result, n reads log exactly one call, all return that result, and the instance owns it, writable, under the cache key |
| MacroableJs.RecomputeStep | index.js:132 | a read whose cache slot is absent or falsy logs one call and stores its result in the slot |
| MacroableJs.FalsyResultIsRecomputed | index.js:132 | while the callback returns falsy values, n reads log n calls and the j-th read returns the j-th call's result |
| MacroableJs.MacroIsReadThroughPrototype | index.js:61 | after a function macro is stored, any instance not owning the name reads it without gaining a property or running a callback |
| MacroableJs.Macroable.constructor | index.js:28 | a class starts with its name, empty maps and the prototype its body defines |
| MacroableJs.Macroable.Construct | index.js:28 | a fresh instance with no own properties is added |
| MacroableJs.Macroable.Macro | index.js:54-62 | the new class state and the outcome are those RegisterMacro gives for the class's own name |
| MacroableJs.Macroable.GetMacro | index.js:74-76 | the stored callback, or undefined when the name is not stored (never stored, or removed by `hydrate`) |
| MacroableJs.Macroable.HasMacro | index.js:89-91 | true exactly when a truthy value is stored under the name and the prototype holds a truthy value under it |
| MacroableJs.Macroable.Getter | index.js:119-142 | the new class state and the outcome are those RegisterGetter gives for the class's own name |
| MacroableJs.Macroable.GetGetter | index.js:154-156 | the stored wrapper, present exactly when the name is registered |
| MacroableJs.Macroable.HasGetter | index.js:169-171 | true exactly when a getter is registered and the prototype has an own property under the name |
| MacroableJs.Macroable.Hydrate | index.js:181-187 | the new class state is Hydrated of the old one; cached values stay on instances |
| MacroableJs.Macroable.RemoveFromPrototype | test.js:38 | deleting a name from the prototype outside the registry removes exactly that name |
| MacroableJs.Macroable.Read | index.js:130-141 | the value read, the reading instance's new own properties and the new call log are those ReadProperty gives; other instances are unchanged |
| ScenariosTs.DefineParent | test.ts:13-15 | a class that sets both static maps starts empty and valid |
| ScenariosTs.MacroIsShared | tests/macroable.spec.ts:19-26 | a macro is readable through the prototype by an instance made before it and by one made after, and neither instance owns it |
| ScenariosTs.PresenceChecks | test.ts:29-53 | `hasMacro` and `hasGetter` are false before registration and true after; a non-function macro is stored as given |
| ScenariosTs.AssignBeforeFirstRead | tests/macroable.spec.ts:173-191 | assigning to an unread singleton getter fails as getter-only |
| ScenariosTs.AssignAfterFirstRead | tests/macroable.spec.ts:152-171 | the first read returns 1, and assigning afterwards fails as read-only |
| ScenariosTs.MacroOverGetter | index.ts:87-88 | a macro over an installed getter throws the getter-only TypeError, yet the map holds the new value and the accessor stays |
| ScenariosTs.SiblingsAreIsolated | test.ts:79-93 | a macro on one class is stored there and on its prototype, and absent from a sibling class |
| ScenariosTs.UninitialisedClass | test.ts:136-140 | constructing a class that did not set both maps fails with the guard's message |
| ScenariosTs.PlainGetterRunsEveryTimeScenario | tests/macroable.spec.ts:61-79 | three reads of a counting getter see 1, 2, 3, log three calls on the instance and create no own property |
| ScenariosTs.PlainGetterRunsForEveryInstance | test.ts:55-65 | one read on each of two new instances returns "bar" twice and logs two calls |
| ScenariosTs.SingletonRunsOnceScenario | tests/macroable.spec.ts:81-103 | three reads of a counting singleton see 1 each time, log one call, and the instance owns a read-only 1 |
| ScenariosTs.SingletonPerInstanceScenario | test.ts:114-134 | two reads on each of two instances return "bar", with one call per instance |
| ScenariosTs.ReassignedGetterScenario | tests/macroable.spec.ts:119-150 | after re-registering a singleton, three reads see 2, only the newer callback runs, and it runs once |
| ScenariosTs.HydrateResetsScenario | test.ts:67-77 | after `hydrate` both maps are empty, the registered names read as undefined, and a member of the class body remains |
| ScenariosTs.HydrateKeepsCachedValueScenario | index.ts:165-170 | a value a singleton cached before `hydrate` stays readable on that instance, while a new instance reads undefined and runs nothing |
| ScenariosJs.DefineParent | test.js:5-7 | the class `Parent` starts with empty maps and a prototype with no registered members (its own `constructor` is not modelled) |
| ScenariosJs.MacroIsDefined | test.js:14-19 | a function macro is stored and read by a new instance |
| ScenariosJs.MacroRejectsNonFunction | test.js:21-25 | `macro` with a string throws the E_INVALID_PARAMETER exception for `Parent.macro`, and nothing is stored |
| ScenariosJs.MacroRejectionText | test.js:21-25 | that exception's message is "Parent.macro" followed by the fixed text and " instead received {string}", with status 500 |
| ScenariosJs.GetterRejectsNonFunction | test.js:76-80 | `getter` with a string throws the E_INVALID_PARAMETER exception for `Parent.getter`, and no getter is registered |
| ScenariosJs.GetterRejectionText | test.js:76-80 | that exception's message is "Parent.getter" followed by the fixed text and " instead received {string}", with status 500 |
| ScenariosJs.HasMacroChecksPrototype | test.js:27-40 | `hasMacro` is false before registration and true after; deleting the name from the prototype makes it false while `getMacro` still returns the callback |
| ScenariosJs.HasGetterChecksPrototype | test.js:49-62 | `hasGetter` is false before registration and true after; deleting the name from the prototype makes it false while `getGetter` still returns the getter |
| ScenariosJs.GetterIsDefined | test.js:42-47 | a getter returns "bar" with the new instance as receiver |
| ScenariosJs.SiblingsAreIsolated | test.js:92-106 | a macro on one class is stored there and on its prototype, and absent from a sibling class |
| ScenariosJs.PlainGetterRunsForEveryInstance | test.js:64-74 | one read on each of two new instances returns "bar" twice and logs two calls |
| ScenariosJs.SingletonRunsOnceScenario | test.js:108-118 | two reads of a singleton return "bar", log one call, and leave the value under `_foo_` |
| ScenariosJs.SingletonPerInstanceScenario | test.js:120-133 | two reads on each of two instances return "bar", with one call per instance |
| ScenariosJs.FalsySingletonScenario | index.js:132 | a singleton whose callback returns 0 runs on each of three reads |
| ScenariosJs.HydrateResetsScenario | test.js:82-90 | after `hydrate` both maps are empty and the registered names read as undefined |

## Left out

- TypeScript's type-level machinery (index.ts:13-46) and the compile-time checks in the tests. These are types, not behaviour.
- Callback bodies. A callback is an id, and its result is the `behaviour` parameter, a function of the callback, the receiver and the number of earlier calls. What it does besides returning a value is not modelled, and neither are exceptions it might throw.
- Arrow-function `this` (tests/macroable.spec.ts:45-57). A macro's value is stored and read, but never called.
- Property descriptors beyond "data or accessor" on the prototype and "value and writable" on instances. Enumerability, configurability and getters on instances are not modelled. Every prototype member is configurable, so `hydrate`'s deletions always succeed.
- Names inherited from `Object.prototype` (such as `toString`). A name that is neither an own property of the instance nor of the class prototype reads as undefined.
- The same inherited names in the static maps. The maps are `{}` literals, so in the source `getMacro('toString')` returns a function and `hasMacro('toString')` is true with nothing registered (index.ts:95, 102; index.js:75, 90). The model's maps hold only registered names, so these lookups give undefined and false.
- The prototype's own `constructor` property. Every class prototype owns it, so on a fresh index.js class `hasMacro('constructor')` and `hasGetter('constructor')` are true. The model's prototype holds only the members it is given, and the scenarios' `Parent` starts with none.
- A JS class that never ran `_macros = {}` and `_getters = {}`. The JS model builds only classes that set both maps. In the source, a class that set neither throws a TypeError at index.js:60, 75, 136, 155 and 182, from reading a property of undefined. A subclass that did not set its own maps shares its parent's instead.
- Inheritance of static maps along a subclass chain. Whether a class set its own maps is the pair of flags `macrosSet`/`gettersSet`.
- The classes in tests/macroable.spec.ts set no static maps. With index.ts as given, constructing them would fail the guard. The scenarios from that file therefore run on a class that sets both maps.
- The base class of node-exceptions (index.js:12). Its message prefix and stack are not modelled; the exception is the message, status and code it is given.
- The module's export shape (index.js:190).
- Class-field initialisers. A new instance starts with no own properties in both versions of Construct. In the source, fields declared in the class body, such as `bar = 'bar'` at tests/macroable.spec.ts:32, are own properties of every new instance; they would shadow a prototype macro or getter of the same name. The read lemmas still cover such instances, because they take any own table, but the classes the model builds never start with one.
- NaN. `Number` holds an integer, so there is no NaN value. NaN is falsy, so a singleton whose callback returns NaN is also recomputed at index.js:132, like one returning 0.
- The `singleton` argument is a boolean in the model. index.js:130 and index.ts:131 test it for truthiness, so any truthy value selects the wrapper.
- MacroableTs.Macroable.Macro, Getter, Hydrate, GetMacro, HasMacro, GetGetter, HasGetter: these require the corresponding static map to be set. In the source, calling them without it throws a TypeError from reading a property of undefined, and that path is not modelled.
- MacroableJs.Macroable.HasMacro: excludes the case where a truthy macro is stored and the prototype holds an accessor under the same name. There, index.js:90 would run that getter with the prototype as `this`.
- MacroableJs.ReadProperty: requires the singleton's `_name_` slot to be a writable own property, or absent from the instance and not an accessor on the prototype. When the slot is read-only or an accessor, the assignment at index.js:132 would throw, and that is not modelled. The same precondition carries over to MacroableJs.ReadTimes and MacroableJs.Macroable.Read.
- MacroableJs.Macroable.Read: the singleton wrapper's strict-mode assignment is modelled only when it succeeds (see above).
