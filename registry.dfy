/** `ProcessorRegistry`: a map from type tag to processor, filled once by
    the constructor from the processors it is given. */
module Registry {
  import opened Wrappers
  import opened Processors

  /** The map after putting each processor under its tag, in order; a later
      processor with the same tag replaces an earlier one. */
  function Registered(processors: seq<CouponProcessor>): map<string, CouponProcessor> {
    if processors == [] then map[]
    else
      var last := processors[|processors| - 1];
      Registered(processors[..|processors| - 1])[Type(last) := last]
  }

  /** Every tag is filed under the processor that reports it. */
  predicate Consistent(registry: map<string, CouponProcessor>) {
    forall t :: t in registry ==> Type(registry[t]) == t
  }

  /** The tags registered are exactly those of the processors given, and
      each is filed under a processor reporting it. */
  lemma {:induction false} RegisteredTags(processors: seq<CouponProcessor>, t: string)
    ensures t in Registered(processors) <==> exists i :: 0 <= i < |processors| && Type(processors[i]) == t
    ensures t in Registered(processors) ==> Type(Registered(processors)[t]) == t
  {
    if processors != [] {
      var init := processors[..|processors| - 1];
      RegisteredTags(init, t);
      if exists i :: 0 <= i < |init| && Type(init[i]) == t {
        var i :| 0 <= i < |init| && Type(init[i]) == t;
        assert processors[i] == init[i];
      }
      if exists i :: 0 <= i < |processors| && Type(processors[i]) == t {
        var i :| 0 <= i < |processors| && Type(processors[i]) == t;
        if i < |init| {
          assert init[i] == processors[i];
        }
      }
    }
  }

  lemma RegisteredConsistent(processors: seq<CouponProcessor>)
    ensures Consistent(Registered(processors))
  {
    forall t | t in Registered(processors) ensures Type(Registered(processors)[t]) == t {
      RegisteredTags(processors, t);
    }
  }

  class ProcessorRegistry {
    var registry: map<string, CouponProcessor>

    ghost predicate Valid()
      reads this
    {
      Consistent(registry)
    }

    /** Puts every processor under its `type()`, in the order given. */
    constructor (processors: seq<CouponProcessor>)
      ensures registry == Registered(processors)
      ensures Valid()
    {
      registry := map[];
      new;
      for i := 0 to |processors|
        invariant registry == Registered(processors[..i])
      {
        assert processors[..i + 1][..i] == processors[..i];
        registry := registry[Type(processors[i]) := processors[i]];
      }
      assert processors[..|processors|] == processors;
      RegisteredConsistent(processors);
    }

    /** `getProcessor`: the processor filed under `t`, or none (`null`). In a
        valid registry the processor found reports `t`. */
    function GetProcessor(t: string): (r: Option<CouponProcessor>)
      reads this
      ensures r.Some? <==> t in registry
      ensures Valid() && r.Some? ==> Type(r.value) == t
    {
      if t in registry then Some(registry[t]) else None
    }
  }

  /** A registry built from the three processors supports exactly the three
      tags, each with its own processor. */
  lemma AllThreeRegistered(t: string)
    ensures var r := Registered([CartWiseProcessor, ProductWiseProcessor, BxGyProcessor]);
            && (t in r <==> OfType(t).Some?)
            && (t in r ==> r[t] == OfType(t).value)
  {
    var ps := [CartWiseProcessor, ProductWiseProcessor, BxGyProcessor];
    RegisteredTags(ps, t);
    OfTypeInverse(t);
    if OfType(t).Some? {
      var p := OfType(t).value;
      assert Type(p) == t;
      assert p == ps[0] || p == ps[1] || p == ps[2];
    }
  }
}
