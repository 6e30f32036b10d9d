/**
 * `clearObject`: every key of every target object is deleted in place. A
 * target is a record object, modelled as an object holding its fields in a
 * map; one object alone counts as a list of one.
 */
module Shared {

  class Record<V> {
    var fields: map<string, V>

    constructor(fields: map<string, V>)
      ensures this.fields == fields
    {
      this.fields := fields;
    }
  }

  /** What `clearObject` accepts: one object or a list of them. */
  datatype Targets<V> = One(target: Record<V>) | Many(targets: seq<Record<V>>)

  /** `castArray`. */
  function CastArray<V>(t: Targets<V>): (r: seq<Record<V>>)
    ensures t.One? ==> r == [t.target]
    ensures t.Many? ==> r == t.targets
  {
    match t
    case One(o) => [o]
    case Many(os) => os
  }

  /** `clearObject`: afterwards every target has no keys; objects that are not targets are left alone. */
  method ClearObject<V>(targets: Targets<V>)
    modifies CastArray(targets)
    ensures forall o :: o in CastArray(targets) ==> o.fields == map[]
  {
    var list := CastArray(targets);
    for i := 0 to |list|
      invariant forall j :: 0 <= j < i ==> list[j].fields == map[]
    {
      var target := list[i];
      var keys := target.fields.Keys;
      while keys != {}
        invariant target.fields.Keys == keys
        invariant forall j :: 0 <= j < i ==> list[j].fields == map[]
        decreases keys
      {
        var key :| key in keys;
        target.fields := map k | k in target.fields && k != key :: target.fields[k];
        keys := keys - {key};
      }
    }
  }

  /** Example: clearing twice is clearing once; clearing no targets or another object touches nothing else. */
  method ClearingScenario() {
    var a := new Record(map["x" := 1, "y" := 2]);
    var b := new Record(map["z" := 3]);
    ClearObject(One(a));
    assert a.fields == map[] && b.fields == map["z" := 3];
    ClearObject(Many([a, a]));
    assert a.fields == map[];
    var none: seq<Record<int>> := [];
    ClearObject(Many(none));
    assert b.fields == map["z" := 3];
  }
}
