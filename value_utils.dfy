/**
 * Membership by value (`elementInSet`, `elementInArray`): a linear search that
 * compares with deep structural equality, which on Dafny datatypes is `==`.
 * A JavaScript `Set` of objects is modelled by the sequence of its members in
 * insertion order; two members may be structurally equal, since the set itself
 * compares by reference.
 */
module ValueUtils {

  /** True iff some member of `s`, visited in insertion order, equals `element`. */
  function ElementInSet<T(==)>(element: T, s: seq<T>): (found: bool)
    ensures found <==> exists i :: 0 <= i < |s| && s[i] == element
    ensures s == [] ==> !found
  {
    if s == [] then false
    else if s[0] == element then true
    else ElementInSet(element, s[1..])
  }

  /** The same search over an array. */
  function ElementInArray<T(==)>(element: T, a: seq<T>): (found: bool)
    ensures found <==> element in a
    ensures a == [] ==> !found
  {
    if |a| == 0 then false
    else if a[0] == element then true
    else ElementInArray(element, a[1..])
  }
}
