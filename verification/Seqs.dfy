/** Sequences without repetition, and removing a set of elements from one. */
module Seqs {

  ghost predicate NoDup<T>(s: seq<T>) {
    forall i, j :: 0 <= i < j < |s| ==> s[i] != s[j]
  }

  function Elems<T>(s: seq<T>): set<T> {
    set x | x in s
  }

  /** s without the elements of dead, the others in their old order. */
  function Minus(s: seq<nat>, dead: set<nat>): (r: seq<nat>)
    ensures forall x :: x in r <==> x in s && x !in dead
    ensures NoDup(s) ==> NoDup(r)
  {
    if s == [] then []
    else if s[0] in dead then Minus(s[1..], dead)
    else
      var r := Minus(s[1..], dead);
      assert NoDup(s) ==> s[0] !in r;
      [s[0]] + r
  }

  lemma {:induction false} MinusAppend(a: seq<nat>, b: seq<nat>, dead: set<nat>)
    ensures Minus(a + b, dead) == Minus(a, dead) + Minus(b, dead)
  {
    if a == [] {
      assert a + b == b;
    } else {
      assert (a + b)[1..] == a[1..] + b;
      MinusAppend(a[1..], b, dead);
    }
  }

  lemma {:induction false} MinusNone(s: seq<nat>, dead: set<nat>)
    requires forall x :: x in s ==> x !in dead
    ensures Minus(s, dead) == s
  {
    if s != [] {
      MinusNone(s[1..], dead);
    }
  }

  lemma {:induction false} MinusAll(s: seq<nat>, dead: set<nat>)
    requires forall x :: x in s ==> x in dead
    ensures Minus(s, dead) == []
  {
    if s != [] {
      MinusAll(s[1..], dead);
    }
  }

  lemma {:induction false} MinusTwice(s: seq<nat>, a: set<nat>, b: set<nat>)
    ensures Minus(Minus(s, a), b) == Minus(s, a + b)
  {
    if s != [] {
      MinusTwice(s[1..], a, b);
    }
  }

  lemma MinusFirst(s: seq<nat>)
    requires NoDup(s) && s != []
    ensures Minus(s, {s[0]}) == s[1..]
  {
    MinusNone(s[1..], {s[0]});
  }

  /** Removing the single element at position i. */
  lemma {:induction false} MinusAt(s: seq<nat>, i: nat)
    requires NoDup(s) && i < |s|
    ensures Minus(s, {s[i]}) == s[..i] + s[i + 1..]
  {
    if i == 0 {
      MinusFirst(s);
    } else {
      MinusAt(s[1..], i - 1);
      assert s[..i] == [s[0]] + s[1..][..i - 1];
    }
  }

  lemma {:induction false} CardElems<T>(s: seq<T>)
    requires NoDup(s)
    ensures |Elems(s)| == |s|
  {
    if s != [] {
      CardElems(s[1..]);
      assert Elems(s) == {s[0]} + Elems(s[1..]);
    } else {
      assert Elems(s) == {};
    }
  }

  lemma NoDupAppend<T>(s: seq<T>, t: seq<T>)
    requires NoDup(s) && NoDup(t)
    requires forall x :: x in s ==> x !in t
    ensures NoDup(s + t)
  {
    forall i, j | 0 <= i < j < |s + t|
      ensures (s + t)[i] != (s + t)[j]
    {
      if i < |s| <= j {
        assert s[i] in s && t[j - |s|] in t;
      }
    }
  }

  /** The numbers lo, lo + 1, ..., hi - 1. */
  function Range(lo: nat, hi: nat): (r: seq<nat>)
    requires lo <= hi
    ensures |r| == hi - lo
    ensures forall i :: 0 <= i < hi - lo ==> r[i] == lo + i
    ensures forall x: nat :: x in r <==> lo <= x < hi
    ensures NoDup(r)
  {
    var r := seq(hi - lo, i requires 0 <= i => lo + i);
    assert forall x: nat | lo <= x < hi :: x in r by {
      forall x: nat | lo <= x < hi
        ensures x in r
      {
        assert r[x - lo] == x;
      }
    }
    r
  }

  lemma RangeNext(lo: nat, hi: nat)
    requires lo <= hi
    ensures Range(lo, hi) + [hi] == Range(lo, hi + 1)
    ensures hi !in Range(lo, hi)
  {
  }

  /** A set of numbers below n has at most n elements, and n only when it has them all. */
  lemma {:induction false} Pigeonhole(s: set<nat>, n: nat)
    requires forall x :: x in s ==> x < n
    ensures |s| <= n
    ensures |s| == n ==> forall x: nat :: x < n ==> x in s
  {
    if n == 0 {
      assert s == {};
    } else {
      var t := s - {n - 1};
      Pigeonhole(t, n - 1);
      if n - 1 in s {
        assert s == t + {n - 1};
      } else {
        assert s == t;
      }
    }
  }
}
