/** The two free helpers at the top of surfnperf.js: `defaults` and `contains`. */
module Helpers {

  /** `defaults(o, d)`: every property of `d` that `o` does not have yet is copied
      into `o`; a property `o` already has keeps its value. The object is returned
      as the updated map. */
  method Defaults<K, V>(o: map<K, V>, d: map<K, V>) returns (r: map<K, V>)
    ensures r.Keys == o.Keys + d.Keys
    ensures forall k :: k in o ==> r[k] == o[k]
    ensures forall k :: k in d && k !in o ==> r[k] == d[k]
  {
    r := o;
    var todo := d.Keys;
    while todo != {}
      invariant todo <= d.Keys
      invariant r.Keys == o.Keys + (d.Keys - todo)
      invariant forall k :: k in o ==> r[k] == o[k]
      invariant forall k :: k in d && k !in todo && k !in o ==> r[k] == d[k]
      decreases todo
    {
      var prop :| prop in todo;
      if prop !in r {
        r := r[prop := d[prop]];
      }
      todo := todo - {prop};
    }
  }

  /** `contains(array, value)`, written as the linear scan of its fallback branch
      (the `indexOf` branch answers the same question). The functions of the
      model, which cannot call a method, write this membership test as `in`;
      the contract below is what makes the two the same. */
  method Contains<T(==)>(a: seq<T>, value: T) returns (found: bool)
    ensures found <==> value in a
  {
    var i := 0;
    while i < |a|
      invariant 0 <= i <= |a|
      invariant value !in a[..i]
    {
      if a[i] == value {
        return true;
      }
      i := i + 1;
    }
    return false;
  }
}
