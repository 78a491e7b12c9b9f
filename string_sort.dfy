/**
 * sort.Strings (ascending order by Go's `<`), and the sorted list of the keys
 * of a set. Sorting is what fixes the order in which the listing visits the
 * groups of a map, whose own iteration order Go leaves unspecified.
 */
module StringSort {
  import opened GoStrings

  /** Each element is at most its right neighbour. */
  predicate Sorted(s: seq<string>)
  {
    forall k :: 0 < k < |s| ==> LessEq(s[k - 1], s[k])
  }

  /** Every element is at most every element to its right. */
  ghost predicate Ordered(s: seq<string>)
  {
    forall i, j :: 0 <= i < j < |s| ==> LessEq(s[i], s[j])
  }

  lemma {:induction false} SortedIsOrdered(s: seq<string>)
    requires Sorted(s)
    ensures Ordered(s)
  {
    if |s| > 1 {
      var t := s[..|s| - 1];
      assert Sorted(t);
      SortedIsOrdered(t);
      forall i | 0 <= i < |s| - 1
        ensures LessEq(s[i], s[|s| - 1])
      {
        assert t[i] == s[i];
        if i < |s| - 2 {
          assert t[|s| - 2] == s[|s| - 2];
          LessEqTransitive(s[i], s[|s| - 2], s[|s| - 1]);
        }
      }
    }
  }

  /** Two sorted sequences holding the same elements start with the same element. */
  lemma SameHead(s: seq<string>, t: seq<string>)
    requires |s| > 0 && |t| > 0
    requires Ordered(s) && Ordered(t)
    requires multiset(s) == multiset(t)
    ensures s[0] == t[0]
  {
    assert s[0] in multiset(t);
    var k :| 0 <= k < |t| && t[k] == s[0];
    assert t[0] in multiset(s);
    var m :| 0 <= m < |s| && s[m] == t[0];
    if k > 0 { assert LessEq(t[0], t[k]); } else { LessEqReflexive(t[0]); }
    if m > 0 { assert LessEq(s[0], s[m]); } else { LessEqReflexive(s[0]); }
    LessEqAntisymmetric(s[0], t[0]);
  }

  /** Removing the first element removes one occurrence of it. */
  lemma TailMultiset(s: seq<string>)
    requires |s| > 0
    ensures multiset(s[1..]) == multiset(s) - multiset{s[0]}
  {
    assert s == [s[0]] + s[1..];
    assert multiset(s) == multiset{s[0]} + multiset(s[1..]);
  }

  lemma SortedTail(s: seq<string>)
    requires |s| > 0 && Sorted(s)
    ensures Sorted(s[1..])
  {
    forall k | 0 < k < |s| - 1
      ensures LessEq(s[1..][k - 1], s[1..][k])
    {
      assert s[1..][k - 1] == s[k] && s[1..][k] == s[k + 1];
    }
  }

  /**
   * Sorting has one answer: two sorted sequences holding the same elements,
   * counted with multiplicity, are equal.
   */
  lemma {:induction false} SortedUnique(s: seq<string>, t: seq<string>)
    requires Sorted(s) && Sorted(t)
    requires multiset(s) == multiset(t)
    ensures s == t
  {
    if |s| == 0 {
      assert |multiset(t)| == 0;
    } else {
      assert |t| == |multiset(t)| == |multiset(s)| == |s|;
      SortedIsOrdered(s);
      SortedIsOrdered(t);
      SameHead(s, t);
      TailMultiset(s);
      TailMultiset(t);
      SortedTail(s);
      SortedTail(t);
      SortedUnique(s[1..], t[1..]);
      assert s == [s[0]] + s[1..] && t == [t[0]] + t[1..];
    }
  }

  /** Exchanges two elements of `a`, keeping the same elements. */
  method Swap(a: array<string>, i: nat, j: nat)
    requires i < a.Length && j < a.Length
    modifies a
    ensures a[..] == old(a[..])[i := old(a[j])][j := old(a[i])]
    ensures multiset(a[..]) == multiset(old(a[..]))
  {
    a[i], a[j] := a[j], a[i];
  }

  /**
   * sort.Strings: sorts `a` in place into ascending order, keeping exactly
   * the same elements (an insertion sort).
   */
  method SortStrings(a: array<string>)
    modifies a
    ensures Sorted(a[..])
    ensures multiset(a[..]) == multiset(old(a[..]))
  {
    for i := 0 to a.Length
      invariant forall k :: 0 < k < i ==> LessEq(a[k - 1], a[k])
      invariant multiset(a[..]) == multiset(old(a[..]))
    {
      var j := i;
      while j > 0 && !LessEq(a[j - 1], a[j])
        invariant 0 <= j <= i
        invariant forall k :: 0 < k < j ==> LessEq(a[k - 1], a[k])
        invariant forall k :: j < k <= i ==> LessEq(a[k - 1], a[k])
        invariant 0 < j < i ==> LessEq(a[j - 1], a[j + 1])
        invariant multiset(a[..]) == multiset(old(a[..]))
      {
        LessEqTotal(a[j - 1], a[j]);
        Swap(a, j - 1, j);
        j := j - 1;
      }
    }
    assert a[..] == a[..a.Length];
  }

  /** Go's choices of a smallest key in a non-empty set. */
  lemma {:induction false} SmallestExists(keys: set<string>)
    requires keys != {}
    ensures exists m :: m in keys && forall k :: k in keys ==> LessEq(m, k)
  {
    var x :| x in keys;
    if keys == {x} {
      LessEqReflexive(x);
      assert forall k :: k in keys ==> k == x;
    } else {
      SmallestExists(keys - {x});
      var m :| m in keys - {x} && forall k :: k in keys - {x} ==> LessEq(m, k);
      LessEqTotal(m, x);
      if LessEq(m, x) {
        assert forall k :: k in keys ==> LessEq(m, k);
      } else {
        forall k | k in keys
          ensures LessEq(x, k)
        {
          if k == x { LessEqReflexive(x); } else { LessEqTransitive(x, m, k); }
        }
      }
    }
  }

  /**
   * The keys of a set in ascending order: the smallest key first, then the
   * rest in ascending order. Every key occurs exactly once.
   */
  ghost function SortedKeys(keys: set<string>): (r: seq<string>)
    ensures Sorted(r)
    ensures multiset(r) == multiset(keys)
    decreases |keys|
  {
    if keys == {} then []
    else
      SmallestExists(keys);
      var m :| m in keys && forall k :: k in keys ==> LessEq(m, k);
      var rest := SortedKeys(keys - {m});
      assert |rest| > 0 ==> rest[0] in multiset(keys - {m});
      assert multiset(keys) == multiset{m} + multiset(keys - {m});
      [m] + rest
  }

  /** The sorted keys are exactly the keys of the set, one entry per key. */
  lemma SortedKeysMembers(keys: set<string>)
    ensures |SortedKeys(keys)| == |keys|
    ensures forall k :: k in SortedKeys(keys) <==> k in keys
  {
    var r := SortedKeys(keys);
    assert |r| == |multiset(r)| == |multiset(keys)| == |keys|;
    forall k
      ensures k in r <==> k in keys
    {
      assert k in r <==> k in multiset(r);
    }
  }

  /** The sorted keys are strictly ascending: no key occurs twice. */
  lemma SortedKeysStrict(keys: set<string>)
    ensures forall i, j :: 0 <= i < j < |SortedKeys(keys)| ==>
              LessEq(SortedKeys(keys)[i], SortedKeys(keys)[j]) && SortedKeys(keys)[i] != SortedKeys(keys)[j]
  {
    var r := SortedKeys(keys);
    SortedIsOrdered(r);
    forall i, j | 0 <= i < j < |r|
      ensures r[i] != r[j]
    {
      Distinct(r, keys, i, j);
    }
  }

  lemma Distinct(r: seq<string>, keys: set<string>, i: nat, j: nat)
    requires multiset(r) == multiset(keys)
    requires i < j < |r|
    ensures r[i] != r[j]
  {
    var x := r[j];
    assert r == r[..j] + r[j..];
    assert x in r[j..];
    assert multiset(r)[x] == multiset(r[..j])[x] + multiset(r[j..])[x];
    assert multiset(keys)[x] <= 1;
    assert x !in r[..j];
    assert r[i] in r[..j];
  }
}
