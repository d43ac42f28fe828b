/** The <algorithm>/<vector> operations the core applies to its lists,
    stated over sequences: std::find, vector::erase at a found position,
    std::iter_swap of two found positions, and filtering. */
module Sequences {

  ghost predicate NoDup<T>(s: seq<T>) {
    forall i, j :: 0 <= i < j < |s| ==> s[i] != s[j]
  }

  /** A duplicate-free sequence has as many distinct elements as positions. */
  lemma {:induction false} DistinctCard<T>(s: seq<T>)
    requires NoDup(s)
    ensures |set x | x in s| == |s|
  {
    if s != [] {
      var rest := s[1..];
      assert NoDup(rest) by {
        forall i, j | 0 <= i < j < |rest| ensures rest[i] != rest[j] {
          assert rest[i] == s[i + 1] && rest[j] == s[j + 1];
        }
      }
      DistinctCard(rest);
      assert s[0] !in rest by {
        forall k | 0 <= k < |rest| ensures rest[k] != s[0] {
          assert rest[k] == s[k + 1];
        }
      }
      assert (set x | x in s) == {s[0]} + (set x | x in rest) by {
        assert s == [s[0]] + rest;
      }
    }
  }

  /** std::find: the position of the first occurrence of x, or |s| (end()). */
  function IndexOf<T(==)>(s: seq<T>, x: T): (i: nat)
    ensures i <= |s|
    ensures i < |s| ==> s[i] == x
    ensures forall j :: 0 <= j < i ==> s[j] != x
    ensures i == |s| ==> x !in s
  {
    if s == [] then 0
    else if s[0] == x then 0
    else 1 + IndexOf(s[1..], x)
  }

  /** vector::erase at position i. */
  function RemoveAt<T>(s: seq<T>, i: nat): (r: seq<T>)
    requires i < |s|
    ensures |r| == |s| - 1
  {
    s[..i] + s[i + 1..]
  }

  /** Erasing position i shifts the tail down by one and takes exactly one
      copy of s[i] out of the multiset of elements. */
  lemma RemoveAtElements<T>(s: seq<T>, i: nat)
    requires i < |s|
    ensures forall k :: 0 <= k < i ==> RemoveAt(s, i)[k] == s[k]
    ensures forall k :: i <= k < |s| - 1 ==> RemoveAt(s, i)[k] == s[k + 1]
    ensures multiset(RemoveAt(s, i)) == multiset(s) - multiset{s[i]}
  {
    assert s == s[..i] + [s[i]] + s[i + 1..];
    assert multiset(s) == multiset(s[..i]) + multiset{s[i]} + multiset(s[i + 1..]);
  }

  /** Erasing behind a known head leaves the head in place. */
  lemma RemoveAtCons<T>(a: T, w: seq<T>, j: nat)
    requires j < |w|
    ensures RemoveAt([a] + w, j + 1) == [a] + RemoveAt(w, j)
  {
    var s := [a] + w;
    assert s[..j + 1] == [a] + w[..j];
    assert s[j + 2..] == w[j + 1..];
  }

  /** erase(find(begin, end, x)) guarded by "found": drop the first occurrence of x. */
  function RemoveFirst<T(==)>(s: seq<T>, x: T): seq<T> {
    var i := IndexOf(s, x);
    if i == |s| then s else RemoveAt(s, i)
  }

  lemma RemoveFirstAbsent<T>(s: seq<T>, x: T)
    requires x !in s
    ensures RemoveFirst(s, x) == s
  {
  }

  /** Removing the first occurrence takes exactly one copy of x out of the
      multiset of elements and keeps every other element in its order. */
  lemma RemoveFirstPresent<T>(s: seq<T>, x: T)
    requires x in s
    ensures var i := IndexOf(s, x);
      |RemoveFirst(s, x)| == |s| - 1 &&
      (forall k :: 0 <= k < i ==> RemoveFirst(s, x)[k] == s[k]) &&
      (forall k :: i <= k < |s| - 1 ==> RemoveFirst(s, x)[k] == s[k + 1])
    ensures multiset(RemoveFirst(s, x)) == multiset(s) - multiset{x}
  {
    RemoveAtElements(s, IndexOf(s, x));
  }

  /** std::find on a sequence with a known head. */
  lemma IndexOfCons<T>(a: T, w: seq<T>, v: T)
    ensures IndexOf([a] + w, v) == if a == v then 0 else 1 + IndexOf(w, v)
  {
    assert ([a] + w)[1..] == w;
  }

  /** find/erase on a sequence with a known head. */
  lemma RemoveFirstCons<T>(a: T, w: seq<T>, v: T)
    ensures RemoveFirst([a] + w, v) == if a == v then w else [a] + RemoveFirst(w, v)
  {
    IndexOfCons(a, w, v);
    if a == v {
      assert ([a] + w)[1..] == w;
    } else if IndexOf(w, v) < |w| {
      RemoveAtCons(a, w, IndexOf(w, v));
    }
  }

  /** std::iter_swap on the first occurrences of a and b when both are found;
      otherwise the sequence is left alone. */
  function SwapFirst<T(==)>(s: seq<T>, a: T, b: T): (r: seq<T>)
    ensures |r| == |s|
  {
    var i, j := IndexOf(s, a), IndexOf(s, b);
    if i < |s| && j < |s| then s[i := b][j := a] else s
  }

  /** A swap exchanges the two found positions and touches nothing else. */
  lemma SwapFirstPositions<T>(s: seq<T>, a: T, b: T)
    requires a in s && b in s
    ensures var i, j := IndexOf(s, a), IndexOf(s, b);
      SwapFirst(s, a, b)[i] == b && SwapFirst(s, a, b)[j] == a &&
      forall k :: 0 <= k < |s| && k != i && k != j ==> SwapFirst(s, a, b)[k] == s[k]
  {
  }

  lemma SwapFirstAbsent<T>(s: seq<T>, a: T, b: T)
    requires a !in s || b !in s
    ensures SwapFirst(s, a, b) == s
  {
  }

  /** A swap is a pure reorder: the multiset of elements is unchanged. */
  lemma SwapFirstMultiset<T>(s: seq<T>, a: T, b: T)
    ensures multiset(SwapFirst(s, a, b)) == multiset(s)
  {
    var i, j := IndexOf(s, a), IndexOf(s, b);
    if i < |s| && j < |s| && i != j {
      var t := s[i := b];
      UpdateMultiset(s, i, b);
      UpdateMultiset(t, j, a);
    }
  }

  lemma UpdateMultiset<T>(s: seq<T>, k: nat, v: T)
    requires k < |s|
    ensures multiset(s[k := v]) == multiset(s) - multiset{s[k]} + multiset{v}
  {
    assert s == s[..k] + [s[k]] + s[k + 1..];
    assert s[k := v] == s[..k] + [v] + s[k + 1..];
  }

  /** The elements of s that satisfy p, in their order in s. */
  function Filter<T>(s: seq<T>, p: T -> bool): (r: seq<T>)
    ensures |r| <= |s|
    ensures forall k :: 0 <= k < |r| ==> r[k] in s && p(r[k])
    ensures forall k :: 0 <= k < |s| && p(s[k]) ==> s[k] in r
  {
    if s == [] then []
    else if p(s[0]) then [s[0]] + Filter(s[1..], p)
    else Filter(s[1..], p)
  }

  /** Filtering distributes over concatenation, so it keeps relative order. */
  lemma {:induction false} FilterConcat<T>(s: seq<T>, t: seq<T>, p: T -> bool)
    ensures Filter(s + t, p) == Filter(s, p) + Filter(t, p)
  {
    if s == [] {
      assert s + t == t;
    } else {
      assert (s + t)[1..] == s[1..] + t;
      FilterConcat(s[1..], t, p);
    }
  }

  lemma {:induction false} FilterNoDup<T>(s: seq<T>, p: T -> bool)
    requires NoDup(s)
    ensures NoDup(Filter(s, p))
  {
    if s != [] {
      assert NoDup(s[1..]) by {
        forall i, j | 0 <= i < j < |s[1..]| ensures s[1..][i] != s[1..][j] {
          assert s[1..][i] == s[i + 1] && s[1..][j] == s[j + 1];
        }
      }
      FilterNoDup(s[1..], p);
      assert s[0] !in s[1..] by {
        forall k | 0 <= k < |s[1..]| ensures s[1..][k] != s[0] {
          assert s[1..][k] == s[k + 1];
        }
      }
    }
  }

  /** The elements of s that are not in g, in their order in s. */
  function Without<T(==)>(s: seq<T>, g: set<T>): (r: seq<T>)
    ensures forall k :: 0 <= k < |r| ==> r[k] in s && r[k] !in g
    ensures forall k :: 0 <= k < |s| && s[k] !in g ==> s[k] in r
  {
    if s == [] then []
    else if s[0] in g then Without(s[1..], g)
    else [s[0]] + Without(s[1..], g)
  }

  lemma {:induction false} WithoutNone<T>(s: seq<T>)
    ensures Without(s, {}) == s
  {
    if s != [] {
      WithoutNone(s[1..]);
      assert s == [s[0]] + s[1..];
    }
  }

  /** Erasing an element keeps a sequence duplicate-free. */
  lemma RemoveFirstNoDup<T>(s: seq<T>, x: T)
    requires NoDup(s)
    ensures NoDup(RemoveFirst(s, x))
  {
    if x in s {
      RemoveFirstPresent(s, x);
      var i := IndexOf(s, x);
      var r := RemoveFirst(s, x);
      forall a, b | 0 <= a < b < |r| ensures r[a] != r[b] {
        var a' := if a < i then a else a + 1;
        var b' := if b < i then b else b + 1;
        assert r[a] == s[a'] && r[b] == s[b'];
      }
    }
  }

  /** On a duplicate-free sequence, erasing the first occurrence of v from
      the elements outside g leaves the elements outside g + {v}. */
  lemma {:induction false} RemoveFirstWithout<T>(s: seq<T>, g: set<T>, v: T)
    requires NoDup(s)
    ensures RemoveFirst(Without(s, g), v) == Without(s, g + {v})
  {
    if s == [] {
    } else {
      var rest := s[1..];
      assert NoDup(rest) by {
        forall i, j | 0 <= i < j < |rest| ensures rest[i] != rest[j] {
          assert rest[i] == s[i + 1] && rest[j] == s[j + 1];
        }
      }
      assert s[0] !in rest by {
        forall k | 0 <= k < |rest| ensures rest[k] != s[0] {
          assert rest[k] == s[k + 1];
        }
      }
      RemoveFirstWithout(rest, g, v);
      var w := Without(rest, g);
      if s[0] in g {
        assert Without(s, g) == w;
      } else if s[0] == v {
        assert Without(s, g) == [v] + w;
        RemoveFirstCons(v, w, v);
        WithoutIrrelevant(rest, g, v);
      } else {
        assert Without(s, g) == [s[0]] + w;
        RemoveFirstCons(s[0], w, v);
      }
    }
  }

  /** Adding to g an element that does not occur in s changes nothing. */
  lemma {:induction false} WithoutIrrelevant<T>(s: seq<T>, g: set<T>, v: T)
    requires v !in s
    ensures Without(s, g) == Without(s, g + {v})
  {
    if s != [] {
      assert s[1..] == s[1..];
      assert v !in s[1..] by {
        forall k | 0 <= k < |s[1..]| ensures s[1..][k] != v {
          assert s[1..][k] == s[k + 1];
        }
      }
      WithoutIrrelevant(s[1..], g, v);
    }
  }

  /** Removing the elements of g is filtering by "not in g". */
  lemma {:induction false} WithoutIsFilter<T>(s: seq<T>, g: set<T>, p: T -> bool)
    requires forall x :: x in s ==> (x in g <==> !p(x))
    ensures Without(s, g) == Filter(s, p)
  {
    if s != [] {
      assert forall x :: x in s[1..] ==> x in s;
      WithoutIsFilter(s[1..], g, p);
    }
  }
}
