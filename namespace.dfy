/**
 * The registry of namespace.go: the builtin registrations made by the package's
 * init, the Namespace class with its custom adaptor map, and the resolution chain
 * short-circuit -> pointer checks -> custom adaptor -> builtin adaptor -> hybrid.
 */
module Namespaces {
  import opened Wrappers
  import opened Errors
  import opened Reflect
  import opened Hybrids
  import opened Adaptors
  import OptionSet

  function Scalar(name: string): Type {
    Base(name, Kind.Scalar, NoMethods, NoMethods)
  }

  const StringType := Base("string", Kind.String, NoMethods, NoMethods)
  const BoolType := Scalar("bool")
  const IntType := Scalar("int")
  const Int8Type := Scalar("int8")
  const Int16Type := Scalar("int16")
  const Int32Type := Scalar("int32")
  const Int64Type := Scalar("int64")
  const UintType := Scalar("uint")
  const Uint8Type := Scalar("uint8")
  const Uint16Type := Scalar("uint16")
  const Uint32Type := Scalar("uint32")
  const Uint64Type := Scalar("uint64")
  const Float32Type := Scalar("float32")
  const Float64Type := Scalar("float64")
  const Complex64Type := Scalar("complex64")
  const Complex128Type := Scalar("complex128")
  /** time.Time has MarshalText on its value and UnmarshalText on its pointer. */
  const TimeType := Base("time.Time", Struct, MethodSet(false, false, true, false), MethodSet(false, false, false, true))
  const ByteSliceType := Base("[]uint8", Slice, NoMethods, NoMethods)

  /** The builtin adaptor written for one type: convert the pointer to the internal
      codec's pointer type, never failing. */
  function CodecAdaptor(codec: string): TypedAdaptor {
    (v: Value) => Resolved(Some(Builtin(codec, v)), None)
  }

  /** The 18 builtin types and the internal codec each one is converted to. */
  const BuiltinCodecs: map<Type, string> := map[
    StringType := "internal.String",
    BoolType := "internal.Bool",
    IntType := "internal.Int",
    Int8Type := "internal.Int8",
    Int16Type := "internal.Int16",
    Int32Type := "internal.Int32",
    Int64Type := "internal.Int64",
    UintType := "internal.Uint",
    Uint8Type := "internal.Uint8",
    Uint16Type := "internal.Uint16",
    Uint32Type := "internal.Uint32",
    Uint64Type := "internal.Uint64",
    Float32Type := "internal.Float32",
    Float64Type := "internal.Float64",
    Complex64Type := "internal.Complex64",
    Complex128Type := "internal.Complex128",
    TimeType := "internal.Time",
    ByteSliceType := "internal.ByteSlice"
  ]

  /** The builtin adaptor table once init has run. It is the same table as
      BuiltinCodecs, key for key, with each codec wrapped as an erased adaptor
      (BuiltinEntry); it is written out as a display because the solver handles
      a display of these 18 entries far more cheaply than a comprehension. */
  function Builtins(): map<Type, Adaptor> {
    map[
    StringType := ToAnyStringableAdaptor(StringType, CodecAdaptor("internal.String")).1,
    BoolType := ToAnyStringableAdaptor(BoolType, CodecAdaptor("internal.Bool")).1,
    IntType := ToAnyStringableAdaptor(IntType, CodecAdaptor("internal.Int")).1,
    Int8Type := ToAnyStringableAdaptor(Int8Type, CodecAdaptor("internal.Int8")).1,
    Int16Type := ToAnyStringableAdaptor(Int16Type, CodecAdaptor("internal.Int16")).1,
    Int32Type := ToAnyStringableAdaptor(Int32Type, CodecAdaptor("internal.Int32")).1,
    Int64Type := ToAnyStringableAdaptor(Int64Type, CodecAdaptor("internal.Int64")).1,
    UintType := ToAnyStringableAdaptor(UintType, CodecAdaptor("internal.Uint")).1,
    Uint8Type := ToAnyStringableAdaptor(Uint8Type, CodecAdaptor("internal.Uint8")).1,
    Uint16Type := ToAnyStringableAdaptor(Uint16Type, CodecAdaptor("internal.Uint16")).1,
    Uint32Type := ToAnyStringableAdaptor(Uint32Type, CodecAdaptor("internal.Uint32")).1,
    Uint64Type := ToAnyStringableAdaptor(Uint64Type, CodecAdaptor("internal.Uint64")).1,
    Float32Type := ToAnyStringableAdaptor(Float32Type, CodecAdaptor("internal.Float32")).1,
    Float64Type := ToAnyStringableAdaptor(Float64Type, CodecAdaptor("internal.Float64")).1,
    Complex64Type := ToAnyStringableAdaptor(Complex64Type, CodecAdaptor("internal.Complex64")).1,
    Complex128Type := ToAnyStringableAdaptor(Complex128Type, CodecAdaptor("internal.Complex128")).1,
    TimeType := ToAnyStringableAdaptor(TimeType, CodecAdaptor("internal.Time")).1,
    ByteSliceType := ToAnyStringableAdaptor(ByteSliceType, CodecAdaptor("internal.ByteSlice")).1
    ]
  }

  /** Each builtin entry is the erased codec adaptor for its own key. */
  lemma BuiltinEntry(t: Type)
    requires t in Builtins()
    ensures t in BuiltinCodecs && Builtins()[t] == ToAnyStringableAdaptor(t, CodecAdaptor(BuiltinCodecs[t])).1
  {
  }

  /** The only builtin type of struct kind is time.Time. */
  lemma BuiltinStructIsTime(t: Type)
    requires t in Builtins() && t.Base? && t.kind == Struct
    ensures t == TimeType
  {
  }

  /** The package init, run on the freshly made map: register each builtin type's
      codec adaptor. */
  method RegisterBuiltins(table: BuiltinTable)
    requires table.adaptors == map[]
    modifies table
    ensures table.adaptors == Builtins()
  {
    table.Register(StringType, CodecAdaptor("internal.String"));
    table.Register(BoolType, CodecAdaptor("internal.Bool"));
    table.Register(IntType, CodecAdaptor("internal.Int"));
    table.Register(Int8Type, CodecAdaptor("internal.Int8"));
    table.Register(Int16Type, CodecAdaptor("internal.Int16"));
    table.Register(Int32Type, CodecAdaptor("internal.Int32"));
    table.Register(Int64Type, CodecAdaptor("internal.Int64"));
    table.Register(UintType, CodecAdaptor("internal.Uint"));
    table.Register(Uint8Type, CodecAdaptor("internal.Uint8"));
    table.Register(Uint16Type, CodecAdaptor("internal.Uint16"));
    table.Register(Uint32Type, CodecAdaptor("internal.Uint32"));
    table.Register(Uint64Type, CodecAdaptor("internal.Uint64"));
    table.Register(Float32Type, CodecAdaptor("internal.Float32"));
    table.Register(Float64Type, CodecAdaptor("internal.Float64"));
    table.Register(Complex64Type, CodecAdaptor("internal.Complex64"));
    table.Register(Complex128Type, CodecAdaptor("internal.Complex128"));
    table.Register(TimeType, CodecAdaptor("internal.Time"));
    table.Register(ByteSliceType, CodecAdaptor("internal.ByteSlice"));
  }

  /** Every builtin adaptor, given a pointer to its own type, returns its codec
      over that pointer with no error; given anything else, ErrTypeMismatch. */
  lemma BuiltinAdaptorOutcome(t: Type, v: Value)
    requires t in Builtins()
    ensures TypeOf(v) == Some(PointerTo(t)) ==> Builtins()[t](v) == Resolved(Some(Builtin(BuiltinCodecs[t], v)), None)
    ensures TypeOf(v) != Some(PointerTo(t)) ==> Builtins()[t](v) == Mismatch
  {
    BuiltinEntry(t);
    ErasedAdaptorApplied(t, CodecAdaptor(BuiltinCodecs[t]), v);
  }

  /** A namespace: its own map of custom adaptors, consulted before the builtin table. */
  class Namespace {
    var adaptors: map<Type, Adaptor>

    /** NewNamespace: an empty custom map. */
    constructor ()
      ensures adaptors == map[]
    {
      adaptors := map[];
    }

    /** Adapt: insert or replace the custom adaptor for `t` only. */
    method Adapt(t: Type, adaptor: Adaptor)
      modifies this
      ensures adaptors == old(adaptors)[t := adaptor]
    {
      adaptors := adaptors[t := adaptor];
    }

    /**
     * createStringable with the option mask `opts`. Only an adaptor can return
     * both a converter and an error, or neither; every outcome of the chain itself
     * is exactly one of the two.
     */
    function CreateStringable(v: Value, opts: bv8): (r: Resolved)
      reads this
      ensures !(v.Pointer? && v.target.Some? && (v.elem in adaptors || v.elem in Builtins())) ==>
        (r.conv.Some? <==> r.err.None?)
    {
      if !v.Pointer? then Resolved(None, Some(NotPointer))
      else if v.target.None? then Resolved(None, Some(NilPointer))
      else if v.elem in adaptors then adaptors[v.elem](v)
      else if v.elem in Builtins() then Builtins()[v.elem](v)
      else if !OptionSet.Holds(opts, OptionSet.OptionNoHybrid) && Compose(v).Some? then
        var h := Compose(v).value;
        if OptionSet.Holds(opts, OptionSet.OptionCompleteHybrid) && ValidateAsComplete(h).Some? then
          Resolved(None, ValidateAsComplete(h))
        else
          Resolved(Some(Composite(h)), None)
      else Resolved(None, Some(UnsupportedType))
    }

    /** New: a value that already implements Stringable comes back unchanged,
        whatever the options; otherwise the options are applied in order to the
        default mask and the chain runs with the result. */
    method New(v: Value, opts: seq<OptionSet.Option>) returns (r: Resolved)
      ensures ImplementsStringable(v) ==> r == Resolved(Some(Itself(v)), None)
      ensures !ImplementsStringable(v) ==> r == CreateStringable(v, OptionSet.Accumulate(opts))
    {
      if ImplementsStringable(v) {
        return Resolved(Some(Itself(v)), None);
      }
      var options := new OptionSet.Options.Default();
      for i := 0 to |opts|
        invariant options.value == OptionSet.Accumulate(opts[..i])
      {
        assert opts[..i + 1][..i] == opts[..i];
        options.Apply(opts[i]);
      }
      assert opts[..|opts|] == opts;
      r := CreateStringable(v, options.value);
    }
  }

  /** A non-pointer yields ErrNotPointer and a nil pointer ErrNilPointer, whatever
      the adaptor maps and options hold. */
  lemma PointerChecksFirst(ns: Namespace, v: Value, opts: bv8)
    ensures !v.Pointer? ==> ns.CreateStringable(v, opts) == Resolved(None, Some(NotPointer))
    ensures v.Pointer? && v.target.None? ==> ns.CreateStringable(v, opts) == Resolved(None, Some(NilPointer))
  {
  }

  /** A custom adaptor for the pointee type decides the outcome, error included. */
  lemma CustomAdaptorWins(ns: Namespace, v: Value, opts: bv8)
    requires v.Pointer? && v.target.Some? && v.elem in ns.adaptors
    ensures ns.CreateStringable(v, opts) == ns.adaptors[v.elem](v)
  {
  }

  /** On a custom miss, a non-nil `*T` whose T is builtin gets its codec with no
      error, whatever the options: its dynamic type is exactly `*T`, so the erased
      builtin adaptor accepts it. */
  lemma BuiltinOnCustomMiss(ns: Namespace, v: Value, opts: bv8)
    requires v.Pointer? && v.target.Some? && v.elem !in ns.adaptors && v.elem in Builtins()
    ensures ns.CreateStringable(v, opts) == Resolved(Some(Builtin(BuiltinCodecs[v.elem], v)), None)
  {
    BuiltinAdaptorOutcome(v.elem, v);
  }

  /** With NoHybrid among the options, a type with no adaptor is unsupported even if
      it has text or string methods. */
  lemma NoHybridRejects(ns: Namespace, v: Value, opts: seq<OptionSet.Option>)
    requires v.Pointer? && v.target.Some? && v.elem !in ns.adaptors && v.elem !in Builtins()
    requires OptionSet.NoHybrid in opts
    ensures ns.CreateStringable(v, OptionSet.Accumulate(opts)) == Resolved(None, Some(UnsupportedType))
  {
    OptionSet.AccumulateHas(opts);
  }

  /** Without NoHybrid, a type with no adaptor and at least one probed method gets a
      hybrid; with CompleteHybrid a partial one is refused with the error naming the
      missing half, never with ErrUnsupportedType. */
  lemma HybridFallback(ns: Namespace, v: Value, opts: seq<OptionSet.Option>)
    requires v.Pointer? && v.target.Some? && v.elem !in ns.adaptors && v.elem !in Builtins()
    requires OptionSet.NoHybrid !in opts && Compose(v).Some?
    ensures var h := Compose(v).value; var r := ns.CreateStringable(v, OptionSet.Accumulate(opts));
      if OptionSet.CompleteHybrid in opts && !(h.render.Some? && h.populate.Some?) then
        r.conv.None? && r.err == Some(if h.render.None? then NotStringMarshaler else NotStringUnmarshaler)
      else
        r == Resolved(Some(Composite(h)), None)
  {
    OptionSet.AccumulateHas(opts);
  }

  /** A type with no adaptor and none of the four probed methods is unsupported
      under every option mask. */
  lemma NoCapabilityUnsupported(ns: Namespace, v: Value, opts: bv8)
    requires v.Pointer? && v.target.Some? && v.elem !in ns.adaptors && v.elem !in Builtins()
    requires MethodsOf(ValueType(v)) == NoMethods
    ensures ns.CreateStringable(v, opts) == Resolved(None, Some(UnsupportedType))
  {
  }

  /** ErrUnsupportedType comes from the chain itself exactly when a non-nil pointer
      found no adaptor and composition was switched off or found nothing. */
  lemma UnsupportedExactly(ns: Namespace, v: Value, opts: bv8)
    requires v.Pointer? && v.target.Some? && v.elem !in ns.adaptors && v.elem !in Builtins()
    ensures ns.CreateStringable(v, opts) == Resolved(None, Some(UnsupportedType)) <==>
      (OptionSet.Holds(opts, OptionSet.OptionNoHybrid) || Compose(v).None?)
  {
  }

  /** An adaptor registered through ToAnyStringableAdaptor for T, under its own
      key, is reached by a non-nil `*T` only, so its erasing wrapper does not report
      a type mismatch: the outcome is the typed adaptor's own. */
  lemma AdaptedTypedAdaptorReached(ns: Namespace, t: Type, adapt: TypedAdaptor, v: Value, opts: bv8)
    requires t in ns.adaptors && ns.adaptors[t] == ToAnyStringableAdaptor(t, adapt).1
    requires v.Pointer? && v.elem == t && v.target.Some?
    ensures ns.CreateStringable(v, opts) == adapt(v)
  {
  }

  /** A pointer to a builtin type that also has text methods (time.Time) still gets
      its builtin codec: builtin lookup comes before composition. */
  lemma TimeUsesBuiltinCodec(ns: Namespace, v: Value, opts: bv8)
    requires v.Pointer? && v.elem == TimeType && v.target.Some? && TimeType !in ns.adaptors
    ensures Compose(v).Some? && ValidateAsComplete(Compose(v).value).None?
    ensures ns.CreateStringable(v, opts) == Resolved(Some(Builtin("internal.Time", v)), None)
  {
    BuiltinAdaptorOutcome(TimeType, v);
  }
}
