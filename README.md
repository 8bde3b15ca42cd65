# stringable: converter resolution, modelled in Dafny

The Go package `stringable` turns a pointer to a value into a `Stringable`, an
object with `ToString() (string, error)` and `FromString(string) error`. This
project models how the package picks that converter and proves properties of it.
The resolution runs in a fixed order:

1. A value that is already Stringable is returned as it is (`Namespace.New` only).
2. A value must be a pointer (`ErrNotPointer`) and must not be nil (`ErrNilPointer`).
3. A custom adaptor registered for the pointee type on the namespace or factory.
4. A builtin adaptor from the package-wide table. The package's `init` fills that
   table for the 18 builtin types.
5. A *hybrid*: two slots. The render slot is filled from the type's `ToString` or
   else its `MarshalText`. The populate slot is filled from `FromString` or else
   `UnmarshalText`. The option bits `NoHybrid` and `CompleteHybrid` gate this step.
6. Otherwise `ErrUnsupportedType`.

Modules, following the package's files:

- `Reflect` (reflect.dfy). Runtime types and values as the resolver sees them,
  plus the helpers of helper.go.
  - A type is a base type carrying the probed methods of its value and pointer
    receivers, a pointer type or an array type.
  - A value is the untyped nil, a plain value or a pointer with an optional target.
- `Hybrids` (hybrid.dfy). The hybrid converter, its text wrapper, composition and
  the completeness check. What the user's own four methods do is a parameter
  (`Behaviour`).
- `Adaptors` (adaptor.dfy). Converters, typed and type-erased adaptors, and the
  builtin table as a class.
- `OptionSet` (option.dfy). The `uint8` option mask and the `options` struct as a
  class.
- `Namespaces` (namespace.dfy). The builtin registrations, the `Namespace` class
  and its resolution chain.
- `Factories` (factory.dfy). The older `Factory` class: no short-circuit and no
  options.
- `Scenarios` (scenarios.dfy). The test fixtures (apple, banana, orange,
  pineapple, cherry) and the outcomes the package's tests expect.
- `Errors` and `Wrappers`. The error kinds of errors.go, compared by kind, and `Option`.

Decisions where this snapshot of the package leaves a gap or reads two ways:

- `validateAsComplete` is called at namespace.go:98, but no file of this snapshot
  of the package defines it. The model fails exactly when a slot is empty. It
  names the missing half with `ErrNotStringMarshaler` (render empty, checked
  first) or `ErrNotStringUnmarshaler`, as namespace_test.go:67,72 expect.
  errors.go:12-13 also declares `ErrMissingMarshaler` and `ErrMissingUnmarshaler`;
  the model never returns them.
- A "complete" hybrid has both slots filled, from any source. The doc comment at
  namespace.go:52-56 asks only that the hybrid implement both FromString and
  ToString. A text-sourced half counts: the pineapple fixture, with native
  `ToString` and text `UnmarshalText`, is accepted (namespace_test.go:74-77).
- factory.go:67 and namespace.go:125 both declare `unsupportedType`, so this
  snapshot mixes two versions of the package. `Factory` and `Namespace` are
  separate classes that share the builtin table.

## Model

| member | source | states |
|---|---|---|
| Reflect.IsNil | helper.go:8-15 | false for every non-nillable kind and for the untyped nil; for a pointer, true exactly when it is nil; for a nillable plain value, its own nil-ness |
| Reflect.StripPointers | helper.go:35-41 | the result is never a pointer type, and a non-pointer type is returned unchanged |
| Reflect.StripLayers | helper.go:37-39 | removing pointer layers from `t` under any number of pointer layers gives what it gives for `t` |
| Reflect.DereferencedObject | helper.go:35-41 | Object, *Object, **Object and ***Object all dereference to Object |
| Reflect.StripPointersIdempotent | helper.go:37-40 | dereferencing the already dereferenced type changes nothing |
| Reflect.DereferencedType | helper.go:35-41 | the loop, peeling one pointer layer per step, returns the fully dereferenced type of the value's type, never a pointer; it is defined when no layer is a nil pointer |
| Reflect.ZeroInterfaceHasNoType | helper.go:25-28 | the zero value of an interface type, put into an `any`, has no type and every other zero value has its own type; this is why typeOf goes through an array |
| Reflect.TypeOfParam | helper.go:25-28 | the element type of a `[0]T` value is T, for every T including interface types |
| Reflect.Pointerize | helper.go:30-32 | the result is a non-nil pointer of type `*T` with `*p == v`, well-typed when v is |
| Hybrids.TextToString | hybrid.go:71-77 | the error of MarshalText is passed on unchanged; on success the bytes are the text, on failure the text is empty |
| Hybrids.HybridToString | hybrid.go:13-18 | an empty render slot gives ("", ErrNotStringMarshaler); a filled one gives its delegate's result unchanged |
| Hybrids.HybridFromString | hybrid.go:20-25 | an empty populate slot gives ErrNotStringUnmarshaler; a filled one gives its delegate's error unchanged |
| Hybrids.ImplementsStringable | namespace.go:58 | the `v.(Stringable)` test: the value's own method set has both ToString and FromString; Namespace.New's first ensures and Scenarios.CherryIsStringable rely on it |
| Hybrids.TextFromString | hybrid.go:79-81 | textMarshaler.FromString hands the string's bytes unchanged to UnmarshalText; it has no contract of its own, and Hybrids.ComposedFromString states its effect through a composed hybrid |
| Hybrids.IsValid | hybrid.go:27-29 | the only invalid hybrid is the one with both slots nil; Hybrids.Compose ensures every hybrid it returns is valid |
| Hybrids.Compose | hybrid.go:36-64 | nil exactly when the type has none of the four methods; otherwise a valid hybrid whose text wrappers have the needed half; native ToString is chosen over MarshalText, native FromString over UnmarshalText, and each slot independently |
| Hybrids.ValidateAsComplete | namespace.go:97-101 | no error exactly when both slots are filled; an empty render slot gives ErrNotStringMarshaler, an empty populate slot (render filled) ErrNotStringUnmarshaler |
| Hybrids.ComposedToString | hybrid.go:39-47 | rendering a composed hybrid calls native ToString if present, else MarshalText through the wrapper, else fails with ErrNotStringMarshaler |
| Hybrids.ComposedFromString | hybrid.go:49-57 | populating a composed hybrid calls native FromString if present, else UnmarshalText with the same bytes, else fails with ErrNotStringUnmarshaler |
| Hybrids.MarshalTextErrorPropagates | hybrid.go:71-77 | a failing MarshalText reaches the hybrid's caller as an empty string with the same error |
| Hybrids.NativeRenderWithTextPopulate | hybrid.go:39-57 | native ToString with text UnmarshalText gives a hybrid with a native render slot and a text populate slot, and it passes the completeness check |
| Adaptors.ToAnyStringableAdaptor | adaptor.go:11-19 | the returned key is typeOf[T]() |
| Adaptors.ErasedAdaptorApplied | adaptor.go:12-18 | the erased adaptor passes a `*T` (nil included) to the typed adaptor and returns its result unchanged; anything else gets (nil, ErrTypeMismatch) |
| Adaptors.BuiltinTable.constructor | adaptor.go:21 | the builtin table starts empty |
| Adaptors.BuiltinTable.Register | adaptor.go:23-26 | builtinStringable stores the erased adaptor under typeOf[T]() and leaves every other key unchanged |
| OptionSet.Options.Default | option.go:21-23 | defaultOptions has a zero mask |
| OptionSet.Options.Opt | option.go:25-27 | Opt ORs `uint8(v)` into the mask and changes nothing else |
| OptionSet.Options.Apply | option.go:5-15 | the NoHybrid and CompleteHybrid closures each OR their own flag into the mask |
| OptionSet.Holds | option.go:29-31 | options.Has on a mask: it holds only when the mask is non-zero and `uint8(v)` is non-zero; DefaultHasNeither, OptThenHas and AccumulateHas characterise it |
| OptionSet.Accumulate | namespace.go:62-65 | the mask left by applying the options in order to defaultOptions(); it has no contract of its own, and Namespace.New's loop is proved equal to it, while AccumulateByMembership, AccumulateHas, AccumulateBounded and AccumulateOrderIrrelevant characterise it |
| OptionSet.DefaultHasNeither | option.go:21-31 | Has is false for both flags on the default options |
| OptionSet.OptThenHas | option.go:25-31 | after Opt(v), Has(v) holds when `uint8(v)` is not zero; Opt only adds bits, and repeating it changes nothing |
| OptionSet.FlagsIndependent | option.go:35-38 | NoHybrid sets bit 1 only and CompleteHybrid bit 2 only, so neither implies the other |
| OptionSet.MaskStep | option.go:25-27 | applying one option to a mask of two flags sets exactly that option's flag |
| OptionSet.AccumulateByMembership | namespace.go:62-65 | the mask after applying a list of options depends only on which options occur in it |
| OptionSet.AccumulateHas | option.go:29-31 | after applying a list, Has answers true for a flag exactly when an option setting it was in the list |
| OptionSet.AccumulateBounded | option.go:17-19 | a mask built from the two options stays within 0..3 |
| OptionSet.AccumulateOrderIrrelevant | namespace.go:62-65 | lists of options that are permutations of each other give the same mask |
| OptionSet.AccumulateIdempotent | option.go:26 | applying an option a second time changes nothing |
| Namespaces.Builtins | namespace.go:129-148 | the builtin table after init: the 18 types, each with its erased codec adaptor; it has no contract of its own, and RegisterBuiltins ensures init builds exactly this map, while BuiltinEntry and BuiltinAdaptorOutcome state what each entry does |
| Namespaces.BuiltinEntry | namespace.go:130-147 | each builtin entry is the erased codec adaptor for its own key, and its codec is the one registered for that type |
| Namespaces.BuiltinStructIsTime | namespace.go:146 | time.Time is the only builtin of struct kind |
| Namespaces.RegisterBuiltins | namespace.go:129-148 | the init registrations, run on the empty table, leave exactly the 18 builtin entries |
| Namespaces.BuiltinAdaptorOutcome | namespace.go:130-147 | a builtin adaptor given a pointer to its own type returns its codec over that pointer with no error; given anything else, ErrTypeMismatch |
| Namespaces.Namespace.constructor | namespace.go:22-26 | a new namespace has no custom adaptors |
| Namespaces.Namespace.Adapt | namespace.go:121-123 | the adaptor is stored under the given type (the last write wins), and every other key stays as it was |
| Namespaces.Namespace.CreateStringable | namespace.go:69-107 | whenever no adaptor is consulted, exactly one of converter and error is returned |
| Namespaces.Namespace.New | namespace.go:57-67 | a Stringable argument is returned unchanged with no error, whatever the options; otherwise the loop over the options yields their accumulated mask and the chain runs with it |
| Namespaces.PointerChecksFirst | namespace.go:74-79 | a non-pointer gives ErrNotPointer and a nil pointer ErrNilPointer, before any adaptor lookup and whatever the options |
| Namespaces.CustomAdaptorWins | namespace.go:83-86 | a custom adaptor for the pointee type decides the outcome, its error included |
| Namespaces.BuiltinOnCustomMiss | namespace.go:88-91 | without a custom adaptor, a non-nil `*T` whose T is builtin gets its codec with no error, whatever the options |
| Namespaces.NoHybridRejects | namespace.go:93-106 | with NoHybrid among the options, a type with no adaptor gets ErrUnsupportedType even if it has text methods |
| Namespaces.HybridFallback | namespace.go:93-104 | without NoHybrid, a type with no adaptor and some probed method gets its hybrid; with CompleteHybrid a partial one is refused with the error naming the missing half, not ErrUnsupportedType |
| Namespaces.NoCapabilityUnsupported | namespace.go:106 | without an adaptor or any probed method, the result is (nil, ErrUnsupportedType) under every option mask |
| Namespaces.UnsupportedExactly | namespace.go:93-106 | for a non-nil pointer without an adaptor, ErrUnsupportedType comes back exactly when NoHybrid is set or composition finds nothing |
| Namespaces.AdaptedTypedAdaptorReached | adaptor.go:12-16 | an adaptor registered through ToAnyStringableAdaptor for T under its own key, reached by a non-nil `*T`, does not report a type mismatch: the typed adaptor's result is returned |
| Namespaces.TimeUsesBuiltinCodec | namespace.go:146 | a `*time.Time` would form a complete hybrid, yet it gets the builtin codec, because builtin lookup comes first |
| Factories.Factory.constructor | factory.go:16-20 | a new factory has no custom adaptors |
| Factories.Factory.Adapt | factory.go:63-65 | the adaptor is stored under the given type, and every other key stays as it was |
| Factories.Factory.New | factory.go:23-53 | whenever no adaptor is consulted, exactly one of converter and error is returned |
| Factories.FactoryPointerChecks | factory.go:28-33 | a non-pointer gives ErrNotPointer, even if it implements Stringable (no short-circuit), and a nil pointer ErrNilPointer |
| Factories.FactoryTiers | factory.go:37-45 | the custom adaptor is consulted before the builtin one and wins unchanged; without one, a non-nil `*T` whose T is builtin gets its codec |
| Factories.FactoryHybridUngated | factory.go:47-52 | without an adaptor, any hybrid, a partial one included, is returned with no option gating; without a hybrid, ErrUnsupportedType |
| Factories.FactoryAgreesWithNamespace | factory.go:35-52 | over the same custom map, Factory.New and createStringable with the default options agree on every value |
| Scenarios.NoHybridFixtures | namespace_test.go:42-53 | the apple (MarshalText only) and the banana (UnmarshalText only) are not Stringable, so New runs the chain, and with NoHybrid both are unsupported |
| Scenarios.CherryIsStringable | namespace_test.go:55-58 | the cherry pointer implements Stringable, so New returns it whatever the options |
| Scenarios.CompleteHybridApple | namespace_test.go:64-67 | the apple is not Stringable, and with CompleteHybrid it is refused with ErrNotStringUnmarshaler |
| Scenarios.CompleteHybridBanana | namespace_test.go:69-72 | the banana is not Stringable, and with CompleteHybrid it is refused with ErrNotStringMarshaler |
| Scenarios.CompleteHybridPineapple | namespace_test.go:74-77 | the pineapple is not Stringable, and with CompleteHybrid it gives a hybrid with native render and text populate |
| Scenarios.FactoryOrange | factory_test.go:26-40 | a fresh factory gives the orange a hybrid of two text wrappers, which renders with MarshalText and populates with UnmarshalText |
| Scenarios.ZeroInterfaceHasNoHybrid | hybrid_test.go:120-126 | a plain zeroInterface value, which has none of the four methods, gives no hybrid, and neither does a pointer to one |

## Left out

- Unwrapping a `reflect.Value` argument versus an `any` (namespace.go:70-73, factory.go:24-27). `Implements`, `rv.Interface()` and the unexported-field case of hybrid_test.go:109-118 are left out too. A type's method set is given directly as flags.
- Namespaces.Namespace.New: the Stringable test is on the value's own method set. A `reflect.Value` passed as the argument is not distinguished from the value it wraps.
- The internal codecs (`internal.Int`, `internal.Time`, `internal.ByteSlice` and the others) are not part of this model. A builtin converter is the codec's name plus the pointer it views, so round trips through them are not stated.
- What the user's ToString, FromString, MarshalText and UnmarshalText do is a parameter; only their results are modelled. None of them changes the pointee in the model, because values carry no contents beyond their type and nil-ness. Pointer identity and aliasing are not modelled either.
- Hybrids.Compose: createHybridStringable allocates a struct and fills its two fields one after the other before testing it. Nothing observes the struct before it is returned, so the model builds the finished value in one step.
- panicOnError (helper.go:17-21): a fatal abort that plays no part in resolution.
- Error messages built with `fmt.Errorf`; errors are compared by kind only.
- The package globals `defaultNS` and `defaultFactory`, the order of `init`, and unsynchronised concurrent use of the maps.
- Hybrids.TextFromString, Hybrids.DelegateToString and Hybrids.DelegateFromString are plain dispatch. Their behaviour is stated through ComposedToString and ComposedFromString rather than by their own contracts.
- Namespaces.RegisterBuiltins requires the table to be empty, as it is when the package starts; re-running init on a filled table is not modelled.
- The `YesNo` fixture of namespace_test.go:9-24 and factory_test.go:9-24 is not part of this model, since it is defined in no file of this snapshot of the package. The lowercase orange name in factory_test.go:29 is stale; the scenario uses the orange fixture as hybrid_test.go defines it.
- Nil function values. Go accepts a nil `AnyStringableAdaptor` in Adapt and a nil `Option` in New's variadic list. Calling the first panics at namespace.go:85 or factory.go:39, and calling the second panics at namespace.go:64. The model's `Adaptor` and `OptionSet.Option` cannot be nil, so these panics are not modelled.
- Defined pointer types such as `type IntPtr *int`. Every pointer type in the model is `*T` for its element type T. In Go, a non-nil `IntPtr` passes the pointer checks (namespace.go:74-79), and its `Elem()` is `int` (namespace.go:81). So it reaches the builtin int adaptor, or a custom one built with `ToAnyStringableAdaptor[int]`. That adaptor's `v.(*int)` test rejects the dynamic type `IntPtr`, and the result is `ErrTypeMismatch` (adaptor.go:13-16). A defined pointer type also has an empty method set, so without an adaptor it composes no hybrid and gets `ErrUnsupportedType`. Apart from an adaptor registered under the wrong type, this is how `ErrTypeMismatch` reaches a caller of `New`. Namespaces.BuiltinOnCustomMiss, Namespaces.AdaptedTypedAdaptorReached and Factories.FactoryTiers therefore speak only of pointers whose type is exactly `*T`.
- Namespaces.Namespace.Adapt, Factories.Factory.Adapt: only registries made by `NewNamespace` or `NewFactory` are modelled, since a Dafny object exists only through its constructor, which makes an empty map. `Namespace` and `Factory` are exported structs, so a caller can also declare a zero value (`var ns stringable.Namespace`, `&stringable.Factory{}`), whose `adaptors` map is nil. `New` still works on such a registry, because a lookup in a nil map is a miss (namespace.go:84, factory.go:38). `Adapt` on it panics with an assignment to an entry in a nil map (namespace.go:122, factory.go:64), and that panic is not modelled.
