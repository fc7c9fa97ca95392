/** Sequences that list the members of a set once each, in some order.

    Both sides of the bridge iterate over hash-based collections (the service's
    node set, the plugin's connection table) whose iteration order is not
    specified; the order they happen to produce is described as an enumeration
    of the set.
 */
module Enumeration {

  /** The set of elements occurring in `s`. */
  function Elems<T>(s: seq<T>): set<T>
  {
    set x | x in s
  }

  predicate NoDuplicates<T(==)>(s: seq<T>)
  {
    forall i, j :: 0 <= i < j < |s| ==> s[i] != s[j]
  }

  /** `s` lists every member of `S` exactly once. */
  predicate Enumerates<T(==)>(s: seq<T>, S: set<T>)
  {
    NoDuplicates(s) && Elems(s) == S
  }

  /** An enumeration has exactly as many entries as the set has members. */
  lemma {:induction false} EnumerationSize<T>(s: seq<T>, S: set<T>)
    requires Enumerates(s, S)
    ensures |s| == |S|
  {
    if s != [] {
      var last := s[|s| - 1];
      var init := s[..|s| - 1];
      assert s == init + [last];
      assert last !in init by {
        forall i | 0 <= i < |init| ensures init[i] != last {
          assert s[i] != s[|s| - 1];
        }
      }
      assert Elems(init) == S - {last} by {
        forall x ensures x in Elems(init) <==> x in S - {last} {
          if x in init {
            var i :| 0 <= i < |init| && init[i] == x;
            assert s[i] == x;
          }
          if x in S && x != last {
            var i :| 0 <= i < |s| && s[i] == x;
            assert i < |s| - 1;
            assert init[i] == x;
          }
        }
      }
      EnumerationSize(init, S - {last});
    }
  }

  /** Appending a member not yet listed extends the enumeration by that member. */
  lemma EnumeratesSnoc<T>(s: seq<T>, S: set<T>, x: T)
    requires Enumerates(s, S) && x !in S
    ensures Enumerates(s + [x], S + {x})
  {
  }
}
