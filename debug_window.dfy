/**
 * engine/debugWindow.go: the package-level `debug` map from label to the
 * text shown for it, the two calls that edit it, and `debugLists`, which
 * returns the labels sorted with their values alongside. The imgui drawing
 * in `displayDebug` is not modelled; `fmt.Sprint(value)` is the string the
 * caller passes.
 */
module DebugWindow {

  /**
   * Go's `<=` on strings: byte-wise lexicographic order. Runes are compared
   * by code point, which is the order of their UTF-8 encodings.
   */
  predicate LessEq(a: string, b: string)
    decreases |a|
  {
    |a| == 0 || (|b| > 0 && (a[0] < b[0] || (a[0] == b[0] && LessEq(a[1..], b[1..]))))
  }

  lemma {:induction false} LessEqReflexive(a: string)
    ensures LessEq(a, a)
    decreases |a|
  {
    if |a| > 0 {
      LessEqReflexive(a[1..]);
    }
  }

  lemma {:induction false} LessEqTotal(a: string, b: string)
    ensures LessEq(a, b) || LessEq(b, a)
    decreases |a|
  {
    if |a| > 0 && |b| > 0 && a[0] == b[0] {
      LessEqTotal(a[1..], b[1..]);
    }
  }

  lemma {:induction false} LessEqTransitive(a: string, b: string, c: string)
    requires LessEq(a, b) && LessEq(b, c)
    ensures LessEq(a, c)
    decreases |a|
  {
    if |a| > 0 && a[0] == b[0] && b[0] == c[0] {
      LessEqTransitive(a[1..], b[1..], c[1..]);
    }
  }

  lemma {:induction false} LessEqAntisymmetric(a: string, b: string)
    requires LessEq(a, b) && LessEq(b, a)
    ensures a == b
    decreases |a|
  {
    if |a| > 0 {
      LessEqAntisymmetric(a[1..], b[1..]);
      assert a == [a[0]] + a[1..] && b == [b[0]] + b[1..];
    }
  }

  /** Every earlier element is at most every later one. */
  predicate Sorted(s: seq<string>)
  {
    forall p, q :: 0 <= p < q < |s| ==> LessEq(s[p], s[q])
  }

  /**
   * sort.Strings leaves the slice in ascending order with the same elements;
   * since the order is total and antisymmetric, that fixes the result, so the
   * insertion sort below and Go's own algorithm end in the same slice.
   */
  lemma {:induction false} SortedPermutationUnique(s: seq<string>, t: seq<string>)
    requires Sorted(s) && Sorted(t) && multiset(s) == multiset(t)
    ensures s == t
    decreases |s|
  {
    assert |t| == |multiset(t)| == |multiset(s)| == |s|;
    if |s| > 0 {
      SameHead(s, t);
      DropHead(s, t);
      SortedPermutationUnique(s[1..], t[1..]);
      assert s == [s[0]] + s[1..] && t == [t[0]] + t[1..];
    }
  }

  /** Two sorted permutations of each other start with the same element: each first element is at most the other. */
  lemma SameHead(s: seq<string>, t: seq<string>)
    requires Sorted(s) && Sorted(t) && multiset(s) == multiset(t) && |s| > 0
    ensures |t| > 0 && s[0] == t[0]
  {
    assert s[0] in multiset(t) && |t| > 0 && t[0] in multiset(s);
    var i :| 0 <= i < |t| && t[i] == s[0];
    var j :| 0 <= j < |s| && s[j] == t[0];
    assert LessEq(t[0], s[0]) by {
      if i > 0 { assert LessEq(t[0], t[i]); } else { LessEqReflexive(t[0]); }
    }
    assert LessEq(s[0], t[0]) by {
      if j > 0 { assert LessEq(s[0], s[j]); } else { LessEqReflexive(s[0]); }
    }
    LessEqAntisymmetric(s[0], t[0]);
  }

  /** Removing a shared head keeps both sorted and permutations of each other. */
  lemma DropHead(s: seq<string>, t: seq<string>)
    requires Sorted(s) && Sorted(t) && multiset(s) == multiset(t) && |s| > 0 && |t| > 0 && s[0] == t[0]
    ensures Sorted(s[1..]) && Sorted(t[1..]) && multiset(s[1..]) == multiset(t[1..])
  {
    assert s == [s[0]] + s[1..] && t == [t[0]] + t[1..];
    assert multiset(s[1..]) == multiset(s) - multiset([s[0]]);
    assert multiset(t[1..]) == multiset(t) - multiset([t[0]]);
    SortedTail(s);
    SortedTail(t);
  }

  lemma SortedTail(s: seq<string>)
    requires Sorted(s) && |s| > 0
    ensures Sorted(s[1..])
  {
    forall p, q | 0 <= p < q < |s| - 1
      ensures LessEq(s[1..][p], s[1..][q])
    {
      assert s[1..][p] == s[p + 1] && s[1..][q] == s[q + 1];
    }
  }

  /** sort.Strings on the slice: in place, ascending, a permutation of what was there. */
  method SortStrings(a: array<string>)
    modifies a
    ensures Sorted(a[..])
    ensures multiset(a[..]) == multiset(old(a[..]))
  {
    if a.Length <= 1 {
      return;
    }
    var i := 1;
    while i < a.Length
      invariant 1 <= i <= a.Length
      invariant Sorted(a[..i])
      invariant multiset(a[..]) == multiset(old(a[..]))
    {
      InsertAt(a, i);
      i := i + 1;
    }
    assert a[..a.Length] == a[..];
  }

  /**
   * The insertion step's picture while a[i] is on its way left to j: a[..i+1]
   * without position j is in order, and the element at j is at most every
   * element after it.
   */
  predicate Inserting(s: seq<string>, i: nat, j: nat)
    requires j <= i < |s|
  {
    (forall p, q :: 0 <= p < q <= i && p != j && q != j ==> LessEq(s[p], s[q])) &&
    (forall q :: j < q <= i ==> LessEq(s[j], s[q]))
  }

  /** Swapping a[j] with a larger a[j - 1] moves the picture one place left. */
  lemma SwapLeft(s: seq<string>, i: nat, j: nat)
    requires 0 < j <= i < |s| && Inserting(s, i, j) && !LessEq(s[j - 1], s[j])
    ensures Inserting(s[j - 1 := s[j]][j := s[j - 1]], i, j - 1)
  {
    LessEqTotal(s[j - 1], s[j]);
    var t := s[j - 1 := s[j]][j := s[j - 1]];
    forall q | j - 1 < q <= i
      ensures LessEq(t[j - 1], t[q])
    {
      if q > j {
        assert LessEq(s[j - 1], s[q]);
        LessEqTransitive(s[j], s[j - 1], s[q]);
      }
    }
  }

  /** Once the element at j is not below its left neighbour (or j is 0), a[..i+1] is sorted. */
  lemma Inserted(s: seq<string>, i: nat, j: nat)
    requires j <= i < |s| && Inserting(s, i, j) && (j == 0 || LessEq(s[j - 1], s[j]))
    ensures Sorted(s[..i + 1])
  {
    forall p, q | 0 <= p < q <= i
      ensures LessEq(s[p], s[q])
    {
      if q == j && p < j - 1 {
        LessEqTransitive(s[p], s[j - 1], s[j]);
      }
    }
  }

  /** One insertion step: moves a[i] left past every larger element, so a[..i+1] becomes sorted. */
  method InsertAt(a: array<string>, i: nat)
    requires i < a.Length && Sorted(a[..i])
    modifies a
    ensures Sorted(a[..i + 1]) && a[i + 1..] == old(a[i + 1..])
    ensures multiset(a[..]) == multiset(old(a[..]))
  {
    var j := i;
    assert Inserting(a[..], i, j);
    while j > 0 && !LessEq(a[j - 1], a[j])
      invariant 0 <= j <= i
      invariant Inserting(a[..], i, j)
      invariant a[i + 1..] == old(a[i + 1..])
      invariant multiset(a[..]) == multiset(old(a[..]))
    {
      ghost var prev := a[..];
      SwapLeft(prev, i, j);
      a[j - 1], a[j] := a[j], a[j - 1];
      assert a[..] == prev[j - 1 := prev[j]][j := prev[j - 1]];
      j := j - 1;
    }
    Inserted(a[..], i, j);
  }

  class Debug {
    var debug: map<string, string>

    constructor ()
      ensures debug == map[]
    {
      debug := map[];
    }

    /** AddDebugInfo: sets or overwrites the text of one label, leaving every other label as it was. */
    method AddDebugInfo(key: string, shown: string)
      modifies this
      ensures debug == old(debug)[key := shown]
    {
      debug := debug[key := shown];
    }

    /** RemoveDebugInfo: deletes the label; an absent label leaves the map as it was. */
    method RemoveDebugInfo(key: string)
      modifies this
      ensures debug == old(debug) - {key}
      ensures key !in old(debug) ==> debug == old(debug)
    {
      debug := debug - {key};
    }

    /**
     * debugLists: every label exactly once, in ascending order, with its text
     * at the same position. The map is only read, and the keys' visiting
     * order (Go randomises it) does not matter: see SortedPermutationUnique.
     */
    method DebugLists() returns (labels: seq<string>, values: seq<string>)
      ensures forall l :: l in labels <==> l in debug
      ensures |labels| == |debug| && forall p, q :: 0 <= p < q < |labels| ==> labels[p] != labels[q]
      ensures Sorted(labels)
      ensures |values| == |labels| && forall k :: 0 <= k < |labels| ==> values[k] == debug[labels[k]]
    {
      labels := SortedKeys(debug.Keys);
      values := [];
      var i := 0;
      while i < |labels|
        invariant 0 <= i <= |labels| && |values| == i
        invariant forall k :: 0 <= k < i ==> values[k] == debug[labels[k]]
      {
        values := values + [debug[labels[i]]];
        i := i + 1;
      }
    }
  }

  /** The labels slice of debugLists: the keys collected, copied into a slice and sorted in place. */
  method SortedKeys(keys: set<string>) returns (labels: seq<string>)
    ensures forall l :: l in labels <==> l in keys
    ensures |labels| == |keys| && forall p, q :: 0 <= p < q < |labels| ==> labels[p] != labels[q]
    ensures Sorted(labels)
  {
    var found := CollectKeys(keys);
    var a := new string[|found|](k => if 0 <= k < |found| then found[k] else "");
    assert a[..] == found;
    SortStrings(a);
    labels := a[..];
    assert forall l :: l in labels <==> l in multiset(found);
    Distinct(found, labels);
  }

  /** The `for k := range debug` loop: every key once, in whatever order the map yields them. */
  method CollectKeys(keys: set<string>) returns (found: seq<string>)
    ensures forall l :: l in found <==> l in keys
    ensures |found| == |keys| && forall p, q :: 0 <= p < q < |found| ==> found[p] != found[q]
  {
    found := [];
    var rest := keys;
    while rest != {}
      invariant rest <= keys
      invariant forall l :: l in found <==> l in keys && l !in rest
      invariant |found| + |rest| == |keys|
      invariant forall p, q :: 0 <= p < q < |found| ==> found[p] != found[q]
      decreases |rest|
    {
      var k :| k in rest;
      found := found + [k];
      rest := rest - {k};
    }
  }

  /** A permutation of a sequence without repeats has none either. */
  lemma Distinct(s: seq<string>, t: seq<string>)
    requires multiset(s) == multiset(t)
    requires forall p, q :: 0 <= p < q < |s| ==> s[p] != s[q]
    ensures |t| == |s| && forall p, q :: 0 <= p < q < |t| ==> t[p] != t[q]
  {
    assert |t| == |multiset(t)| == |multiset(s)| == |s|;
    forall p, q | 0 <= p < q < |t|
      ensures t[p] != t[q]
    {
      if t[p] == t[q] {
        TwiceCounted(t, p, q);
        OnlyOnce(s, t[p]);
        assert false;
      }
    }
  }

  lemma {:induction false} OnlyOnce(s: seq<string>, l: string)
    requires forall p, q :: 0 <= p < q < |s| ==> s[p] != s[q]
    ensures multiset(s)[l] <= 1
  {
    if |s| > 0 {
      var init := s[..|s| - 1];
      assert s == init + [s[|s| - 1]];
      OnlyOnce(init, l);
      if s[|s| - 1] == l {
        forall p | 0 <= p < |init|
          ensures init[p] != l
        {
          assert init[p] == s[p];
        }
      }
    }
  }

  lemma TwiceCounted(t: seq<string>, p: nat, q: nat)
    requires p < q < |t| && t[p] == t[q]
    ensures multiset(t)[t[p]] >= 2
  {
    assert t == t[..p] + [t[p]] + t[p + 1..q] + [t[q]] + t[q + 1..];
  }
}
