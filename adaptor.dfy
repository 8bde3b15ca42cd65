/**
 * Converters, adaptors and the builtin adaptor table (adaptor.go, with the
 * Stringable interface of stringable.go).
 */
module Adaptors {
  import opened Wrappers
  import opened Errors
  import opened Reflect
  import opened Hybrids

  /** A Stringable as the core can produce it: a value that already implements
      Stringable (a user's type, or a pointer a custom adaptor converted), one of the
      builtin codecs of the internal package viewing a pointer, or a hybrid. */
  datatype Converter =
    | Itself(v: Value)
    | Builtin(codec: string, ptr: Value)
    | Composite(h: Hybrid)

  /** The `(Stringable, error)` pair an adaptor or a resolver returns. */
  datatype Resolved = Resolved(conv: Option<Converter>, err: Option<Error>)

  /** AnyStringableAdaptor: takes any value. */
  type Adaptor = Value -> Resolved

  /** StringableAdaptor[T]: written for a `*T` argument. */
  type TypedAdaptor = Value -> Resolved

  const Mismatch := Resolved(None, Some(TypeMismatch))

  /** ToAnyStringableAdaptor[T]: the key typeOf[T]() and a type-erased adaptor that
      hands a `*T` (a nil one included) to `adapt` and rejects anything else with
      ErrTypeMismatch. */
  function ToAnyStringableAdaptor(t: Type, adapt: TypedAdaptor): (r: (Type, Adaptor))
    ensures r.0 == t
  {
    (TypeOfParam(t), (v: Value) => if TypeOf(v) == Some(PointerTo(t)) then adapt(v) else Mismatch)
  }

  /** The erased adaptor hands a `*T` to the typed one verbatim and answers
      anything else with (nil, ErrTypeMismatch). */
  lemma ErasedAdaptorApplied(t: Type, adapt: TypedAdaptor, v: Value)
    ensures TypeOf(v) == Some(PointerTo(t)) ==> ToAnyStringableAdaptor(t, adapt).1(v) == adapt(v)
    ensures TypeOf(v) != Some(PointerTo(t)) ==> ToAnyStringableAdaptor(t, adapt).1(v) == Mismatch
  {
  }

  /** The package-level `builtinStringableAdaptors` map. */
  class BuiltinTable {
    var adaptors: map<Type, Adaptor>

    constructor ()
      ensures adaptors == map[]
    {
      adaptors := map[];
    }

    /** builtinStringable[T]: erase `adaptor` and store it under typeOf[T](),
        replacing only that key. */
    method Register(t: Type, adaptor: TypedAdaptor)
      modifies this
      ensures adaptors == old(adaptors)[t := ToAnyStringableAdaptor(t, adaptor).1]
    {
      var entry := ToAnyStringableAdaptor(t, adaptor);
      adaptors := adaptors[entry.0 := entry.1];
    }
  }
}
