/** Go ranges over a map in an unspecified order. A slice built by such a
    loop holds every key exactly once, in some order; this module names that
    property and computes one such slice. */
module MapOrder {

  /** `s` lists each element of `keys` exactly once. */
  predicate IsEnumeration<K>(s: seq<K>, keys: set<K>)
  {
    && (forall i :: 0 <= i < |s| ==> s[i] in keys)
    && (forall k :: k in keys ==> k in s)
    && (forall i, j :: 0 <= i < j < |s| ==> s[i] != s[j])
  }

  /** `for k := range m { s = append(s, k) }`, with the iteration order left
      to the choice of each step. */
  method Enumerate<K>(keys: set<K>) returns (s: seq<K>)
    ensures IsEnumeration(s, keys)
    ensures |s| == |keys|
  {
    s := [];
    var rest := keys;
    while rest != {}
      invariant rest <= keys
      invariant forall i :: 0 <= i < |s| ==> s[i] in keys - rest
      invariant forall k :: k in keys - rest ==> k in s
      invariant forall i, j :: 0 <= i < j < |s| ==> s[i] != s[j]
      invariant |s| + |rest| == |keys|
      decreases rest
    {
      var k :| k in rest;
      s := s + [k];
      rest := rest - {k};
    }
  }
}
