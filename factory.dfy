/**
 * The older registry of factory.go: the same tiers as Namespace, but without the
 * Stringable short-circuit and without options (composition always runs and a
 * partial hybrid is returned as it is). It shares the builtin table.
 */
module Factories {
  import opened Wrappers
  import opened Errors
  import opened Reflect
  import opened Hybrids
  import opened Adaptors
  import opened Namespaces

  class Factory {
    var adaptors: map<Type, Adaptor>

    /** NewFactory: an empty custom map. */
    constructor ()
      ensures adaptors == map[]
    {
      adaptors := map[];
    }

    /** Adapt: insert or replace the custom adaptor for `t` only. */
    method Adapt(t: Type, adaptor: Adaptor)
      modifies this
      ensures adaptors == old(adaptors)[t := adaptor]
    {
      adaptors := adaptors[t := adaptor];
    }

    /** New: pointer checks, then custom adaptor, builtin adaptor, hybrid. When no
        adaptor is involved the outcome is exactly one of converter and error. */
    function New(v: Value): (r: Resolved)
      reads this
      ensures !(v.Pointer? && v.target.Some? && (v.elem in adaptors || v.elem in Builtins())) ==>
        (r.conv.Some? <==> r.err.None?)
    {
      if !v.Pointer? then Resolved(None, Some(NotPointer))
      else if v.target.None? then Resolved(None, Some(NilPointer))
      else if v.elem in adaptors then adaptors[v.elem](v)
      else if v.elem in Builtins() then Builtins()[v.elem](v)
      else if Compose(v).Some? then Resolved(Some(Composite(Compose(v).value)), None)
      else Resolved(None, Some(UnsupportedType))
    }
  }

  /** No short-circuit: a value that implements Stringable but is not a pointer is
      still rejected with ErrNotPointer, and a nil pointer with ErrNilPointer. */
  lemma FactoryPointerChecks(f: Factory, v: Value)
    ensures !v.Pointer? ==> f.New(v) == Resolved(None, Some(NotPointer))
    ensures v.Pointer? && v.target.None? ==> f.New(v) == Resolved(None, Some(NilPointer))
  {
  }

  /** Custom before builtin before hybrid; the first hit is returned verbatim. A
      non-nil `*T` whose T is builtin gets its codec with no error. */
  lemma FactoryTiers(f: Factory, v: Value)
    requires v.Pointer? && v.target.Some?
    ensures v.elem in f.adaptors ==> f.New(v) == f.adaptors[v.elem](v)
    ensures v.elem !in f.adaptors && v.elem in Builtins() ==>
      f.New(v) == Resolved(Some(Builtin(BuiltinCodecs[v.elem], v)), None)
  {
    if v.elem !in f.adaptors && v.elem in Builtins() {
      BuiltinAdaptorOutcome(v.elem, v);
    }
  }

  /** Composition is never gated: without an adaptor, any hybrid, a partial one
      included, is returned; with none the type is unsupported. */
  lemma FactoryHybridUngated(f: Factory, v: Value)
    requires v.Pointer? && v.target.Some? && v.elem !in f.adaptors && v.elem !in Builtins()
    ensures Compose(v).Some? ==> f.New(v) == Resolved(Some(Composite(Compose(v).value)), None)
    ensures Compose(v).None? ==> f.New(v) == Resolved(None, Some(UnsupportedType))
  {
  }

  /** For every value, Factory.New behaves as Namespace's createStringable with the
      default options over the same custom map. */
  lemma FactoryAgreesWithNamespace(f: Factory, ns: Namespace, v: Value)
    requires f.adaptors == ns.adaptors
    ensures f.New(v) == ns.CreateStringable(v, OptionSet.Accumulate([]))
  {
    OptionSet.DefaultHasNeither();
  }
}
