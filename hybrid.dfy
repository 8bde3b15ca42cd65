/**
 * The capability composer of hybrid.go: a converter assembled from whichever of
 * the four probed methods a pointer's type provides, one slot for rendering
 * (ToString) and one for populating (FromString).
 */
module Hybrids {
  import opened Wrappers
  import opened Errors
  import opened Reflect

  type byte = bv8

  /** A Go string is an immutable byte sequence, so `string(b)` and `[]byte(s)`
      copy the bytes unchanged: both are the same sequence here. */
  type GoString = seq<byte>

  /** A `(string, error)` or `([]byte, error)` pair as a Go method returns it. */
  datatype Rendered = Rendered(text: GoString, err: Option<Error>)

  /** What the caller's own methods do when invoked on a value. Populating methods
      update their receiver's target; the model keeps only the error they return. */
  datatype Behaviour = Behaviour(
    toString: Value -> Rendered,
    fromString: (Value, GoString) -> Option<Error>,
    marshalText: Value -> Rendered,
    unmarshalText: (Value, GoString) -> Option<Error>)

  /** Whether a value's dynamic type implements Stringable: both ToString and FromString. */
  predicate ImplementsStringable(v: Value) {
    v != NilInterface && MethodsOf(ValueType(v)).toString && MethodsOf(ValueType(v)).fromString
  }

  /** The `textMarshaler` wrapper: an encoding.TextMarshaler and an
      encoding.TextUnmarshaler, either of which may be nil. */
  datatype TextCodec = TextCodec(marshaler: Option<Value>, unmarshaler: Option<Value>)

  /** What fills a slot: the probed value itself through its own ToString or
      FromString, or a text wrapper around it. */
  datatype Delegate = Own(v: Value) | Text(codec: TextCodec)

  /** The `hybrid` struct: a render slot (its StringMarshaler) and a populate slot
      (its StringUnmarshaler), each empty when nil. */
  datatype Hybrid = Hybrid(render: Option<Delegate>, populate: Option<Delegate>)

  /** A text wrapper in the render slot has its marshaler and one in the populate
      slot its unmarshaler, so delegating never calls through a nil interface. */
  predicate CanDelegate(h: Hybrid) {
    && (h.render.Some? && h.render.value.Text? ==> h.render.value.codec.marshaler.Some?)
    && (h.populate.Some? && h.populate.value.Text? ==> h.populate.value.codec.unmarshaler.Some?)
  }

  /** textMarshaler.ToString: the marshaled bytes as a string, or "" and the error. */
  function TextToString(w: TextCodec, b: Behaviour): (r: Rendered)
    requires w.marshaler.Some?
    ensures r.err == b.marshalText(w.marshaler.value).err
    ensures r.err.None? ==> r.text == b.marshalText(w.marshaler.value).text
    ensures r.err.Some? ==> r.text == []
  {
    var res := b.marshalText(w.marshaler.value);
    if res.err.Some? then Rendered([], res.err) else Rendered(res.text, None)
  }

  /** textMarshaler.FromString: hands the string's bytes to UnmarshalText. */
  function TextFromString(w: TextCodec, b: Behaviour, s: GoString): Option<Error>
    requires w.unmarshaler.Some?
  {
    b.unmarshalText(w.unmarshaler.value, s)
  }

  function DelegateToString(d: Delegate, b: Behaviour): Rendered
    requires d.Text? ==> d.codec.marshaler.Some?
  {
    match d
    case Own(v) => b.toString(v)
    case Text(w) => TextToString(w, b)
  }

  function DelegateFromString(d: Delegate, b: Behaviour, s: GoString): Option<Error>
    requires d.Text? ==> d.codec.unmarshaler.Some?
  {
    match d
    case Own(v) => b.fromString(v, s)
    case Text(w) => TextFromString(w, b, s)
  }

  /** hybrid.ToString: delegate to the render slot, verbatim, or fail with
      ("", ErrNotStringMarshaler) when it is empty. */
  function HybridToString(h: Hybrid, b: Behaviour): (r: Rendered)
    requires CanDelegate(h)
    ensures h.render.None? ==> r == Rendered([], Some(NotStringMarshaler))
    ensures h.render.Some? ==> r == DelegateToString(h.render.value, b)
  {
    if h.render.Some? then DelegateToString(h.render.value, b)
    else Rendered([], Some(NotStringMarshaler))
  }

  /** hybrid.FromString: delegate to the populate slot, verbatim, or fail with
      ErrNotStringUnmarshaler when it is empty. */
  function HybridFromString(h: Hybrid, b: Behaviour, s: GoString): (r: Option<Error>)
    requires CanDelegate(h)
    ensures h.populate.None? ==> r == Some(NotStringUnmarshaler)
    ensures h.populate.Some? ==> r == DelegateFromString(h.populate.value, b, s)
  {
    if h.populate.Some? then DelegateFromString(h.populate.value, b, s)
    else Some(NotStringUnmarshaler)
  }

  /** hybrid.IsValid: at least one slot is filled, so the only invalid hybrid is
      the one with both slots nil. */
  predicate IsValid(h: Hybrid)
    ensures IsValid(h) <==> h != Hybrid(None, None)
  {
    h.render.Some? || h.populate.Some?
  }

  /** The render slot: the value's own ToString if it has one, else a text wrapper
      around its MarshalText, else empty. */
  function RenderSlot(v: Value): Option<Delegate>
    requires v != NilInterface
  {
    var m := MethodsOf(ValueType(v));
    if m.toString then Some(Own(v))
    else if m.marshalText then Some(Text(TextCodec(Some(v), None)))
    else None
  }

  /** The populate slot: the value's own FromString if it has one, else a text
      wrapper around its UnmarshalText, else empty. */
  function PopulateSlot(v: Value): Option<Delegate>
    requires v != NilInterface
  {
    var m := MethodsOf(ValueType(v));
    if m.fromString then Some(Own(v))
    else if m.unmarshalText then Some(Text(TextCodec(None, Some(v))))
    else None
  }

  /**
   * createHybridStringable: fill the two slots independently and return the hybrid
   * when at least one is filled, nil otherwise. The source needs a value with a
   * type (reflect.Value.Type panics on the invalid value of the untyped nil).
   */
  function Compose(v: Value): (r: Option<Hybrid>)
    requires v != NilInterface
    ensures var m := MethodsOf(ValueType(v));
      r.None? <==> !(m.toString || m.fromString || m.marshalText || m.unmarshalText)
    ensures r.Some? ==> IsValid(r.value) && CanDelegate(r.value)
    ensures r.Some? ==> var m := MethodsOf(ValueType(v));
      && (m.toString ==> r.value.render == Some(Own(v)))
      && (!m.toString && m.marshalText ==> r.value.render == Some(Text(TextCodec(Some(v), None))))
      && (!m.toString && !m.marshalText ==> r.value.render.None?)
      && (m.fromString ==> r.value.populate == Some(Own(v)))
      && (!m.fromString && m.unmarshalText ==> r.value.populate == Some(Text(TextCodec(None, Some(v)))))
      && (!m.fromString && !m.unmarshalText ==> r.value.populate.None?)
  {
    var h := Hybrid(RenderSlot(v), PopulateSlot(v));
    if IsValid(h) then Some(h) else None
  }

  /** validateAsComplete: succeed only when both slots are filled, otherwise name
      the missing half. */
  function ValidateAsComplete(h: Hybrid): (r: Option<Error>)
    ensures r.None? <==> h.render.Some? && h.populate.Some?
    ensures h.render.None? ==> r == Some(NotStringMarshaler)
    ensures h.render.Some? && h.populate.None? ==> r == Some(NotStringUnmarshaler)
  {
    if h.render.None? then Some(NotStringMarshaler)
    else if h.populate.None? then Some(NotStringUnmarshaler)
    else None
  }

  /** Rendering a composed hybrid calls the native ToString when the type has one,
      MarshalText (through the wrapper) only when it has no ToString, and fails with
      ErrNotStringMarshaler when it has neither. */
  lemma ComposedToString(v: Value, b: Behaviour)
    requires v != NilInterface && Compose(v).Some?
    ensures var m := MethodsOf(ValueType(v));
      HybridToString(Compose(v).value, b) ==
        if m.toString then b.toString(v)
        else if m.marshalText then TextToString(TextCodec(Some(v), None), b)
        else Rendered([], Some(NotStringMarshaler))
  {
  }

  /** Populating a composed hybrid calls the native FromString when the type has
      one, UnmarshalText with the same bytes only when it has no FromString, and
      fails with ErrNotStringUnmarshaler when it has neither. */
  lemma ComposedFromString(v: Value, b: Behaviour, s: GoString)
    requires v != NilInterface && Compose(v).Some?
    ensures var m := MethodsOf(ValueType(v));
      HybridFromString(Compose(v).value, b, s) ==
        if m.fromString then b.fromString(v, s)
        else if m.unmarshalText then b.unmarshalText(v, s)
        else Some(NotStringUnmarshaler)
  {
  }

  /** A failing MarshalText reaches the caller of the hybrid's ToString with an
      empty string and the very same error. */
  lemma MarshalTextErrorPropagates(v: Value, b: Behaviour)
    requires v != NilInterface && Compose(v).Some?
    requires !MethodsOf(ValueType(v)).toString && MethodsOf(ValueType(v)).marshalText
    requires b.marshalText(v).err.Some?
    ensures HybridToString(Compose(v).value, b) == Rendered([], b.marshalText(v).err)
  {
  }

  /** Native ToString paired with a text-sourced FromString: the two slots are
      chosen independently, and validation accepts the result as complete. */
  lemma NativeRenderWithTextPopulate(v: Value)
    requires v != NilInterface
    requires MethodsOf(ValueType(v)).toString && !MethodsOf(ValueType(v)).fromString
    requires MethodsOf(ValueType(v)).unmarshalText
    ensures Compose(v) == Some(Hybrid(Some(Own(v)), Some(Text(TextCodec(None, Some(v))))))
    ensures ValidateAsComplete(Compose(v).value).None?
  {
  }
}
