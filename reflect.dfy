/**
 * What the resolver needs to know about Go's runtime types and values, and the
 * reflection helpers of helper.go.
 *
 * A type carries the part of its method set that the resolver probes:
 * ToString, FromString, MarshalText and UnmarshalText. A value carries its
 * dynamic type and, for a pointer, what it points to; the contents of
 * non-pointer values are never inspected by the core and are not modelled.
 */
module Reflect {
  import opened Wrappers

  /** Which of the four probed methods a method set contains. */
  datatype MethodSet = MethodSet(toString: bool, fromString: bool, marshalText: bool, unmarshalText: bool)

  const NoMethods := MethodSet(false, false, false, false)

  function Union(a: MethodSet, b: MethodSet): MethodSet {
    MethodSet(a.toString || b.toString, a.fromString || b.fromString,
              a.marshalText || b.marshalText, a.unmarshalText || b.unmarshalText)
  }

  /** reflect.Kind, restricted to what the core distinguishes; Scalar covers the
      boolean, integer, floating-point and complex kinds. The unnamed pointer and
      array types come from the Type constructors below. A defined array type
      (`type Digest [32]byte`), which can carry methods, is a `Base`: give it any
      kind that is neither nillable nor Interface (Scalar, say), since only
      Nillable and the interface test read a kind. */
  datatype Kind = Scalar | String | Struct | Chan | Func | Map | Interface | Slice

  /**
   * A runtime type (reflect.Type). `Base` is any type not built by the pointer or
   * array constructor, named as reflect prints it (`int`, `time.Time`, `[]uint8`);
   * it lists the methods declared with a value receiver and those declared with a
   * pointer receiver. Two identifiers are equal exactly when they denote the same type.
   */
  datatype Type =
    | Base(name: string, kind: Kind, valueMethods: MethodSet, pointerMethods: MethodSet)
    | PointerTo(elem: Type)
    | ArrayOf(length: nat, elem: Type)

  /** The method set of a type: a base type has its value-receiver methods; a pointer
      to a non-interface base type has both kinds; every other pointer and every
      array type has none. */
  function MethodsOf(t: Type): MethodSet {
    match t
    case Base(_, _, vm, _) => vm
    case PointerTo(Base(_, k, vm, pm)) => if k == Interface then NoMethods else Union(vm, pm)
    case PointerTo(_) => NoMethods
    case ArrayOf(_, _) => NoMethods
  }

  /** Kinds whose values can be nil: chan, func, map, pointer, interface, slice. */
  predicate Nillable(t: Type) {
    match t
    case PointerTo(_) => true
    case ArrayOf(_, _) => false
    case Base(_, k, _, _) => k == Chan || k == Func || k == Map || k == Interface || k == Slice
  }

  /**
   * A Go value as an `any` sees it. `NilInterface` is the untyped nil; `Plain` a
   * value of a non-pointer type, with `nilRef` telling whether a nillable one is nil;
   * `Pointer` a pointer to `elem`, whose target is `None` for a nil pointer.
   */
  datatype Value =
    | NilInterface
    | Plain(typ: Type, nilRef: bool)
    | Pointer(elem: Type, target: Option<Value>)

  /** The dynamic type of a value that has one. */
  function ValueType(v: Value): Type
    requires v != NilInterface
  {
    match v
    case Plain(t, _) => t
    case Pointer(e, _) => PointerTo(e)
  }

  /** reflect.TypeOf: the untyped nil has no type. */
  function TypeOf(v: Value): (r: Option<Type>)
    ensures r.None? <==> v == NilInterface
  {
    if v == NilInterface then None else Some(ValueType(v))
  }

  /** The values a Go program can build: plain values are not of pointer type, only
      nillable kinds can be nil, and a pointer's target has the pointer's element type. */
  predicate WellTyped(v: Value) {
    match v
    case NilInterface => true
    case Plain(t, n) => !t.PointerTo? && (n ==> Nillable(t))
    case Pointer(e, target) =>
      target.Some? ==> target.value != NilInterface && ValueType(target.value) == e && WellTyped(target.value)
  }

  /** isNil: false for every non-nillable kind (and for the invalid reflect.Value of
      the untyped nil), the value's own nil-ness for the nillable kinds. */
  function IsNil(v: Value): (r: bool)
    ensures r ==> v != NilInterface && Nillable(ValueType(v))
    ensures v.Pointer? ==> (r <==> v.target.None?)
    ensures v.Plain? && Nillable(v.typ) ==> (r <==> v.nilRef)
  {
    match v
    case NilInterface => false
    case Plain(t, n) => if Nillable(t) then n else false
    case Pointer(_, target) => target.None?
  }

  /** The type left after removing every pointer layer. */
  function StripPointers(t: Type): (r: Type)
    ensures !r.PointerTo?
    ensures !t.PointerTo? ==> r == t
  {
    if t.PointerTo? then StripPointers(t.elem) else t
  }

  /** `t` under `n` pointer layers. */
  function Layers(n: nat, t: Type): Type {
    if n == 0 then t else PointerTo(Layers(n - 1, t))
  }

  lemma {:induction false} StripLayers(n: nat, t: Type)
    ensures StripPointers(Layers(n, t)) == StripPointers(t)
  {
    if n > 0 {
      StripLayers(n - 1, t);
    }
  }

  /** Object, *Object, **Object and ***Object all dereference to Object. */
  lemma DereferencedObject(o: Type)
    requires o.Base?
    ensures StripPointers(o) == o
    ensures StripPointers(PointerTo(o)) == o
    ensures StripPointers(PointerTo(PointerTo(o))) == o
    ensures StripPointers(PointerTo(PointerTo(PointerTo(o)))) == o
  {
    StripLayers(3, o);
  }

  lemma StripPointersIdempotent(t: Type)
    ensures StripPointers(StripPointers(t)) == StripPointers(t)
  {
  }

  /** No pointer on the way down from `v` is nil. */
  predicate NoNilLayer(v: Value) {
    match v
    case Pointer(_, target) => target.Some? && NoNilLayer(target.value)
    case _ => true
  }

  /** dereferencedType: follow pointers one layer per step until a non-pointer is
      reached. The source panics on the untyped nil and on a nil layer (reflect.Value
      Type() of an invalid value), hence the precondition. */
  method DereferencedType(v: Value) returns (t: Type)
    requires v != NilInterface && WellTyped(v) && NoNilLayer(v)
    ensures t == StripPointers(ValueType(v))
    ensures !t.PointerTo?
  {
    var rv := v;
    while rv.Pointer?
      invariant rv != NilInterface && WellTyped(rv) && NoNilLayer(rv)
      invariant StripPointers(ValueType(rv)) == StripPointers(ValueType(v))
      decreases rv
    {
      rv := rv.target.value;
    }
    t := ValueType(rv);
  }

  /** The zero value of type `t` after conversion to `any`: a nil pointer for a pointer
      type, the untyped nil for an interface type, a (nil where nillable) plain value
      otherwise. */
  function ZeroAsAny(t: Type): Value {
    match t
    case PointerTo(e) => Pointer(e, None)
    case Base(_, k, _, _) => if k == Interface then NilInterface else Plain(t, Nillable(t))
    case ArrayOf(_, _) => Plain(t, false)
  }

  /** reflect.TypeOf of a zero value loses an interface type; this is why typeOf goes
      through a zero-length array. */
  lemma ZeroInterfaceHasNoType(t: Type)
    ensures TypeOf(ZeroAsAny(t)) == None <==> (t.Base? && t.kind == Interface)
    ensures TypeOf(ZeroAsAny(t)).Some? ==> TypeOf(ZeroAsAny(t)) == Some(t)
  {
  }

  /** typeOf[T](): the element type of the type of a `[0]T` value, which is T for
      every T, interface types included. */
  function TypeOfParam(t: Type): (r: Type)
    ensures r == t
  {
    var zero := ZeroAsAny(ArrayOf(0, t));
    TypeOf(zero).value.elem
  }

  /** pointerize: a pointer to (a copy of) `v`. */
  function Pointerize(v: Value): (p: Value)
    requires v != NilInterface
    ensures p.Pointer? && p.target.Some? && Deref(p) == v
    ensures TypeOf(p) == Some(PointerTo(ValueType(v)))
    ensures !IsNil(p)
    ensures WellTyped(v) ==> WellTyped(p)
  {
    Pointer(ValueType(v), Some(v))
  }

  /** `*p` for a non-nil pointer. */
  function Deref(p: Value): Value
    requires p.Pointer? && p.target.Some?
  {
    p.target.value
  }
}
