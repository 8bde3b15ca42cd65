/**
 * The option bitmask of option.go: two flags accumulated with OR into a uint8.
 */
module OptionSet {

  const OptionNoHybrid: int := 1
  const OptionCompleteHybrid: int := 2

  /** An `Option`: one of the two closures the package hands out, NoHybrid() and
      CompleteHybrid(), each of which sets its flag on the options it is applied to. */
  datatype Option = NoHybrid | CompleteHybrid

  function FlagOf(o: Option): int {
    match o
    case NoHybrid => OptionNoHybrid
    case CompleteHybrid => OptionCompleteHybrid
  }

  /** Go's `uint8(v)` for an int: the low eight bits, two's complement included. */
  function Truncate(v: int): bv8 {
    (v % 256) as bv8
  }

  /** options.Has(v) on an options value whose mask is `bits`: some bit of
      `uint8(v)` is set in the mask. An empty mask, or a `v` whose low eight bits
      are all zero, never holds. */
  predicate Holds(bits: bv8, v: int)
    ensures Holds(bits, v) ==> bits != 0 && Truncate(v) != 0
  {
    bits & Truncate(v) != 0
  }

  /** The mask obtained by applying `opts`, in order, to defaultOptions(). */
  function Accumulate(opts: seq<Option>): bv8 {
    if opts == [] then 0 else Accumulate(opts[..|opts| - 1]) | Truncate(FlagOf(opts[|opts| - 1]))
  }

  /** The `options` struct. */
  class Options {
    var value: bv8

    /** defaultOptions(): no flag set. */
    constructor Default()
      ensures value == 0
    {
      value := 0;
    }

    /** Opt: OR the truncated flag into the mask. */
    method Opt(v: int)
      modifies this
      ensures value == old(value) | Truncate(v)
    {
      value := value | Truncate(v);
    }

    /** Run the closure `o` on this options value. */
    method Apply(o: Option)
      modifies this
      ensures value == old(value) | Truncate(FlagOf(o))
    {
      Opt(FlagOf(o));
    }
  }

  /** defaultOptions() answers Has with false for both flags. */
  lemma DefaultHasNeither()
    ensures !Holds(0, OptionNoHybrid) && !Holds(0, OptionCompleteHybrid)
  {
  }

  /** After Opt(v), Has(v) holds, provided uint8(v) keeps a bit of v: Opt(256), for
      one, sets nothing. Opt only adds bits and repeating it changes nothing. */
  lemma OptThenHas(bits: bv8, v: int)
    ensures Truncate(v) != 0 ==> Holds(bits | Truncate(v), v)
    ensures (bits | Truncate(v)) & bits == bits
    ensures (bits | Truncate(v)) | Truncate(v) == bits | Truncate(v)
  {
  }

  /** NoHybrid sets bit 1 only and CompleteHybrid bit 2 only. */
  lemma FlagsIndependent()
    ensures Accumulate([NoHybrid]) == 1 && Accumulate([CompleteHybrid]) == 2
    ensures Holds(Accumulate([NoHybrid]), OptionNoHybrid) && !Holds(Accumulate([NoHybrid]), OptionCompleteHybrid)
    ensures Holds(Accumulate([CompleteHybrid]), OptionCompleteHybrid) && !Holds(Accumulate([CompleteHybrid]), OptionNoHybrid)
  {
    assert [NoHybrid][..0] == [];
    assert [CompleteHybrid][..0] == [];
  }

  /** The mask with bit 1 for `noHybrid` and bit 2 for `complete`. */
  function Mask(noHybrid: bool, complete: bool): bv8 {
    (if noHybrid then 1 else 0) | (if complete then 2 else 0)
  }

  /** Adding one flag to a mask of two booleans. */
  lemma MaskStep(n: bool, c: bool, o: Option)
    ensures Mask(n, c) | Truncate(FlagOf(o)) == Mask(n || o == NoHybrid, c || o == CompleteHybrid)
  {
  }

  /** The mask depends only on which options occur in the list. */
  lemma {:induction false} AccumulateByMembership(opts: seq<Option>)
    ensures Accumulate(opts) == Mask(NoHybrid in opts, CompleteHybrid in opts)
  {
    if opts != [] {
      var init, last := opts[..|opts| - 1], opts[|opts| - 1];
      AccumulateByMembership(init);
      assert opts == init + [last];
      assert NoHybrid in opts <==> NoHybrid in init || last == NoHybrid;
      assert CompleteHybrid in opts <==> CompleteHybrid in init || last == CompleteHybrid;
      MaskStep(NoHybrid in init, CompleteHybrid in init, last);
    }
  }

  /** Has answers for a flag exactly when an option setting it was applied. */
  lemma AccumulateHas(opts: seq<Option>)
    ensures Holds(Accumulate(opts), OptionNoHybrid) <==> NoHybrid in opts
    ensures Holds(Accumulate(opts), OptionCompleteHybrid) <==> CompleteHybrid in opts
  {
    AccumulateByMembership(opts);
  }

  /** The mask stays within 0..3. */
  lemma AccumulateBounded(opts: seq<Option>)
    ensures Accumulate(opts) <= 3
  {
    AccumulateByMembership(opts);
  }

  /** Options may be given in any order. */
  lemma AccumulateOrderIrrelevant(a: seq<Option>, b: seq<Option>)
    requires multiset(a) == multiset(b)
    ensures Accumulate(a) == Accumulate(b)
  {
    AccumulateByMembership(a);
    AccumulateByMembership(b);
    assert NoHybrid in a <==> NoHybrid in multiset(a);
    assert NoHybrid in b <==> NoHybrid in multiset(b);
    assert CompleteHybrid in a <==> CompleteHybrid in multiset(a);
    assert CompleteHybrid in b <==> CompleteHybrid in multiset(b);
  }

  /** Applying an option that was already applied changes nothing. */
  lemma AccumulateIdempotent(opts: seq<Option>, o: Option)
    requires o in opts
    ensures Accumulate(opts + [o]) == Accumulate(opts)
  {
    AccumulateByMembership(opts);
    AccumulateByMembership(opts + [o]);
    assert forall x :: x in opts + [o] <==> x in opts || x == o;
  }
}
