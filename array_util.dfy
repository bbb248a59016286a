/**
 * The linear membership search used to mark which search results already
 * belong to a whiteboard.
 */
module ArrayUtil {
  import opened Common

  /**
   * Scans `items` from the front and answers as soon as an element equals
   * `id`. An absent list behaves like an empty one (`array?.length` is
   * undefined, so the loop never runs). `probes` is the number of elements
   * compared: the index of the first match plus one, or the whole length.
   */
  method CheckContains<T(==)>(items: Option<seq<T>>, id: T) returns (found: bool, ghost probes: nat)
    ensures found <==> items.Some? && id in items.value
    ensures items.None? ==> probes == 0
    ensures items.Some? && found ==> 0 < probes <= |items.value| && items.value[probes - 1] == id
    ensures items.Some? && found ==> forall k :: 0 <= k < probes - 1 ==> items.value[k] != id
    ensures items.Some? && !found ==> probes == |items.value|
  {
    probes := 0;
    if items.None? {
      return false, 0;
    }
    var a := items.value;
    var i := 0;
    while i < |a|
      invariant 0 <= i <= |a|
      invariant forall k :: 0 <= k < i ==> a[k] != id
    {
      if a[i] == id {
        return true, i + 1;
      }
      i := i + 1;
    }
    return false, |a|;
  }
}
