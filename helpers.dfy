/** The diff predicates and the not-found test shared by the controllers. */
module Helpers {
  import opened Strings
  import opened Constants

  /** What both list comparisons decide: the lists have the same length and every
      element of `second` occurs somewhere in `first`. Order and multiplicity are not
      compared. */
  ghost predicate MembershipEqual<T>(first: seq<T>, second: seq<T>)
  {
    |first| == |second| && forall x :: x in second ==> x in first
  }

  /** No element occurs twice. */
  ghost predicate NoDuplicates<T>(s: seq<T>)
  {
    forall i, j :: 0 <= i < j < |s| ==> s[i] != s[j]
  }

  /** No key occurs twice. */
  ghost predicate UniqueKeys(vars: seq<ProjectVariable>)
  {
    forall i, j :: 0 <= i < j < |vars| ==> vars[i].key != vars[j].key
  }

  /** AreTagsEqual: a length check, then a lookup table filled from `tags1`, then a scan
      of `tags2` that stops at the first tag missing from the table. */
  method AreTagsEqual(tags1: seq<string>, tags2: seq<string>) returns (equal: bool)
    ensures |tags1| != |tags2| ==> !equal
    ensures equal <==> MembershipEqual(tags1, tags2)
  {
    if |tags1| != |tags2| {
      return false;
    }
    var tagMap: map<string, bool> := map[];
    for i := 0 to |tags1|
      invariant forall t :: t in tagMap <==> t in tags1[..i]
      invariant forall t :: t in tagMap ==> tagMap[t]
    {
      tagMap := tagMap[tags1[i] := true];
    }
    assert tags1[..|tags1|] == tags1;
    for j := 0 to |tags2|
      invariant forall k :: 0 <= k < j ==> tags2[k] in tags1
    {
      // A missing key reads as Go's zero value, false.
      var present := tags2[j] in tagMap && tagMap[tags2[j]];
      if !present {
        return false;
      }
    }
    return true;
  }

  /** AreSlicesEqual, specialised to the key/value variables it is called with: the
      same comparison with the whole pair as the element. */
  method AreSlicesEqual(slice1: seq<ProjectVariable>, slice2: seq<ProjectVariable>) returns (equal: bool)
    ensures |slice1| != |slice2| ==> !equal
    ensures equal <==> MembershipEqual(slice1, slice2)
  {
    if |slice1| != |slice2| {
      return false;
    }
    var elementsMap: map<ProjectVariable, bool> := map[];
    var i := 0;
    while i < |slice1|
      invariant 0 <= i <= |slice1|
      invariant forall v :: v in elementsMap <==> v in slice1[..i]
      invariant forall v :: v in elementsMap ==> elementsMap[v]
    {
      elementsMap := elementsMap[slice1[i] := true];
      i := i + 1;
    }
    assert slice1[..|slice1|] == slice1;
    i := 0;
    while i < |slice2|
      invariant 0 <= i <= |slice2|
      invariant forall k :: 0 <= k < i ==> slice2[k] in slice1
    {
      if !(slice2[i] in elementsMap && elementsMap[slice2[i]]) {
        return false;
      }
      i := i + 1;
    }
    return true;
  }

  /** IsResourceNotFoundErr, on the error's message: the message mentions
      "<resourceName> not found" or "404". */
  function IsResourceNotFoundErr(message: string, resourceName: string): (r: bool)
    ensures r <==> Occurs(resourceName + " not found", message) || Occurs("404", message)
  {
    Contains(message, resourceName + " not found") || Contains(message, "404")
  }

  /** Reordering either list never changes the verdict, and a list compares equal to
      every reordering of itself. */
  lemma PermutationInvariant<T>(a: seq<T>, a': seq<T>, b: seq<T>)
    requires multiset(a) == multiset(a')
    ensures MembershipEqual(a, a') && MembershipEqual(a', a)
    ensures MembershipEqual(a, b) <==> MembershipEqual(a', b)
    ensures MembershipEqual(b, a) <==> MembershipEqual(b, a')
  {
    assert |a| == |multiset(a)| == |multiset(a')| == |a'|;
    forall x
      ensures x in a <==> x in a'
    {
      assert x in a <==> x in multiset(a);
      assert x in a' <==> x in multiset(a');
    }
  }

  /** The comparison is membership-based, not multiset-based, so it is not symmetric. */
  lemma NotSymmetric()
    ensures MembershipEqual(["a", "b"], ["a", "a"])
    ensures !MembershipEqual(["a", "a"], ["a", "b"])
  {
    assert "b" in ["a", "b"];
    assert "b" !in ["a", "a"];
  }

  /** The set of elements of a list. */
  ghost function Elems<T>(s: seq<T>): set<T>
  {
    set x | x in s
  }

  lemma {:induction false} ElemsCardinality<T>(s: seq<T>)
    ensures |Elems(s)| <= |s|
    ensures |Elems(s)| == |s| <==> NoDuplicates(s)
  {
    if s == [] {
      assert Elems(s) == {};
    } else {
      var t := s[1..];
      ElemsCardinality(t);
      assert Elems(s) == {s[0]} + Elems(t);
      if s[0] in t {
        assert Elems(s) == Elems(t);
        var k :| 0 <= k < |t| && t[k] == s[0];
        assert s[0] == s[k + 1];
        assert !NoDuplicates(s);
      } else {
        assert |Elems(s)| == |Elems(t)| + 1;
        if NoDuplicates(t) {
          forall i, j | 0 <= i < j < |s|
            ensures s[i] != s[j]
          {
            if i == 0 {
              assert s[j] == t[j - 1];
            } else {
              assert s[i] == t[i - 1] && s[j] == t[j - 1];
            }
          }
        } else {
          var i, j :| 0 <= i < j < |t| && t[i] == t[j];
          assert s[i + 1] == s[j + 1];
        }
      }
    }
  }

  lemma {:induction false} DistinctMultiplicity<T>(s: seq<T>, x: T)
    requires NoDuplicates(s)
    ensures multiset(s)[x] == if x in s then 1 else 0
  {
    if s != [] {
      var t := s[1..];
      assert s == [s[0]] + t;
      assert NoDuplicates(t) by {
        forall i, j | 0 <= i < j < |t| ensures t[i] != t[j] {
          assert t[i] == s[i + 1] && t[j] == s[j + 1];
        }
      }
      DistinctMultiplicity(t, x);
      assert s[0] !in t by {
        forall k | 0 <= k < |t| ensures t[k] != s[0] {
          assert t[k] == s[k + 1];
        }
      }
      assert multiset(s) == multiset{s[0]} + multiset(t);
    }
  }

  /** When the second list has no duplicates, the comparison is exactly "the two lists
      are reorderings of each other". */
  lemma DistinctSecondIffPermutation<T>(first: seq<T>, second: seq<T>)
    requires NoDuplicates(second)
    ensures MembershipEqual(first, second) <==> multiset(first) == multiset(second)
  {
    if multiset(first) == multiset(second) {
      PermutationInvariant(first, second, second);
    }
    if MembershipEqual(first, second) {
      ElemsCardinality(first);
      ElemsCardinality(second);
      var e1, e2 := Elems(first), Elems(second);
      assert e2 <= e1;
      assert e1 == e2 by {
        assert e1 == e2 + (e1 - e2);
        assert |e1| == |e2| + |e1 - e2|;
      }
      assert NoDuplicates(first);
      forall x
        ensures multiset(first)[x] == multiset(second)[x]
      {
        DistinctMultiplicity(first, x);
        DistinctMultiplicity(second, x);
        assert x in first <==> x in e1;
        assert x in second <==> x in e2;
      }
      assert multiset(first) == multiset(second);
    }
  }

  /** With unique keys, giving one key a different value makes the lists compare
      unequal, whichever list is taken as the reference. */
  lemma ChangedValueUnequal(vars: seq<ProjectVariable>, i: int, v: string)
    requires UniqueKeys(vars)
    requires 0 <= i < |vars| && v != vars[i].value
    ensures !MembershipEqual(vars, vars[i := ProjectVariable(vars[i].key, v)])
    ensures !MembershipEqual(vars[i := ProjectVariable(vars[i].key, v)], vars)
  {
    var changed := vars[i := ProjectVariable(vars[i].key, v)];
    forall j | 0 <= j < |vars|
      ensures vars[j] != changed[i] && changed[j] != vars[i]
    {
      if j != i {
        if j < i {
          assert vars[j].key != vars[i].key;
        } else {
          assert vars[i].key != vars[j].key;
        }
      }
    }
    assert changed[i] in changed && changed[i] !in vars;
    assert vars[i] in vars && vars[i] !in changed;
  }
}
