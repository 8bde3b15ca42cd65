/**
 * The fixtures of the package's tests, as types: struct types whose probed
 * methods all have pointer receivers, and the outcomes the tests expect of them.
 */
module Scenarios {
  import opened Wrappers
  import opened Errors
  import opened Reflect
  import opened Hybrids
  import opened Adaptors
  import opened Namespaces
  import opened Factories
  import OptionSet

  function Fixture(name: string, methods: MethodSet): Type {
    Base(name, Struct, NoMethods, methods)
  }

  const Apple := Fixture("TextMarshalerApple", MethodSet(false, false, true, false))
  const Banana := Fixture("TextUnmarshalerBanana", MethodSet(false, false, false, true))
  const Orange := Fixture("TextMarshalerAndUnmarshalerOrange", MethodSet(false, false, true, true))
  const Pineapple := Fixture("StringMarshalerAndTextUnmarshalerPineapple", MethodSet(true, false, false, true))
  const Cherry := Fixture("StringMarshalerAndStringUnmarshalerCherry", MethodSet(true, true, false, false))
  const ZeroInterface := Fixture("zeroInterface", NoMethods)

  /** A non-nil pointer to a fresh value of a fixture type. */
  function PointerToNew(t: Type): (p: Value)
    requires t.Base? && t.kind != Interface
    ensures p.Pointer? && p.elem == t && p.target.Some? && WellTyped(p)
  {
    Pointerize(Plain(t, false))
  }

  /** A fixture is not one of the builtin types. */
  lemma FixtureNotBuiltin(t: Type)
    requires t.Base? && t.kind == Struct && t.name != "time.Time"
    ensures t !in Builtins()
  {
    if t in Builtins() {
      BuiltinStructIsTime(t);
    }
  }

  /** With NoHybrid, an apple and a banana are unsupported. Neither is Stringable,
      so New runs the chain on them. */
  lemma NoHybridFixtures(ns: Namespace)
    requires ns.adaptors == map[]
    ensures !ImplementsStringable(PointerToNew(Apple)) && !ImplementsStringable(PointerToNew(Banana))
    ensures ns.CreateStringable(PointerToNew(Apple), OptionSet.Accumulate([OptionSet.NoHybrid])) ==
      Resolved(None, Some(UnsupportedType))
    ensures ns.CreateStringable(PointerToNew(Banana), OptionSet.Accumulate([OptionSet.NoHybrid])) ==
      Resolved(None, Some(UnsupportedType))
  {
    FixtureNotBuiltin(Apple);
    FixtureNotBuiltin(Banana);
    NoHybridRejects(ns, PointerToNew(Apple), [OptionSet.NoHybrid]);
    NoHybridRejects(ns, PointerToNew(Banana), [OptionSet.NoHybrid]);
  }

  /** A cherry is Stringable itself, so New returns it before options matter. */
  lemma CherryIsStringable()
    ensures ImplementsStringable(PointerToNew(Cherry))
  {
  }

  /** With CompleteHybrid, an apple lacks the populate half. */
  lemma CompleteHybridApple(ns: Namespace)
    requires ns.adaptors == map[]
    ensures !ImplementsStringable(PointerToNew(Apple))
    ensures ns.CreateStringable(PointerToNew(Apple), OptionSet.Accumulate([OptionSet.CompleteHybrid])) ==
      Resolved(None, Some(NotStringUnmarshaler))
  {
    FixtureNotBuiltin(Apple);
    HybridFallback(ns, PointerToNew(Apple), [OptionSet.CompleteHybrid]);
  }

  /** With CompleteHybrid, a banana lacks the render half. */
  lemma CompleteHybridBanana(ns: Namespace)
    requires ns.adaptors == map[]
    ensures !ImplementsStringable(PointerToNew(Banana))
    ensures ns.CreateStringable(PointerToNew(Banana), OptionSet.Accumulate([OptionSet.CompleteHybrid])) ==
      Resolved(None, Some(NotStringMarshaler))
  {
    FixtureNotBuiltin(Banana);
    HybridFallback(ns, PointerToNew(Banana), [OptionSet.CompleteHybrid]);
  }

  /** With CompleteHybrid, a pineapple (native ToString, text UnmarshalText) is
      complete and comes back as a hybrid. */
  lemma CompleteHybridPineapple(ns: Namespace)
    requires ns.adaptors == map[]
    ensures !ImplementsStringable(PointerToNew(Pineapple))
    ensures var p := PointerToNew(Pineapple);
      ns.CreateStringable(p, OptionSet.Accumulate([OptionSet.CompleteHybrid])) ==
        Resolved(Some(Composite(Hybrid(Some(Own(p)), Some(Text(TextCodec(None, Some(p))))))), None)
  {
    FixtureNotBuiltin(Pineapple);
    HybridFallback(ns, PointerToNew(Pineapple), [OptionSet.CompleteHybrid]);
  }

  /** A fresh factory turns an orange into a hybrid whose two halves are text
      wrappers, and the hybrid renders with MarshalText and populates with
      UnmarshalText. */
  lemma FactoryOrange(f: Factory, b: Behaviour, s: GoString)
    requires f.adaptors == map[]
    ensures var p := PointerToNew(Orange); var r := f.New(p);
      && r == Resolved(Some(Composite(Hybrid(Some(Text(TextCodec(Some(p), None))), Some(Text(TextCodec(None, Some(p))))))), None)
      && HybridToString(r.conv.value.h, b) == TextToString(TextCodec(Some(p), None), b)
      && HybridFromString(r.conv.value.h, b, s) == b.unmarshalText(p, s)
  {
    var p := PointerToNew(Orange);
    FixtureNotBuiltin(Orange);
    FactoryHybridUngated(f, p);
    ComposedToString(p, b);
    ComposedFromString(p, b, s);
  }

  /** A zeroInterface value, which has none of the four methods, yields no hybrid;
      neither does a pointer to one. */
  lemma ZeroInterfaceHasNoHybrid()
    ensures Compose(Plain(ZeroInterface, false)).None?
    ensures Compose(PointerToNew(ZeroInterface)).None?
  {
  }
}
