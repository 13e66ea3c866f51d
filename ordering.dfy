/**
 * Python's ordering of `str` values and of lists of `str` (lexicographic,
 * element by element), `sorted()` on strings, `min`/`max` on lists of path
 * components, and the common-prefix fact the path stripper of the bot relies on.
 */
module Ordering {

  // ------------------------------------------------------------ str order

  /** `a <= b` on Python strings: lexicographic by code point. */
  predicate StrLe(a: string, b: string) {
    if |a| == 0 then true
    else if |b| == 0 then false
    else if a[0] != b[0] then a[0] < b[0]
    else StrLe(a[1..], b[1..])
  }

  lemma {:induction false} StrLeRefl(a: string)
    ensures StrLe(a, a)
  {
    if |a| > 0 {
      StrLeRefl(a[1..]);
    }
  }

  lemma {:induction false} StrLeTotal(a: string, b: string)
    ensures StrLe(a, b) || StrLe(b, a)
  {
    if |a| > 0 && |b| > 0 && a[0] == b[0] {
      StrLeTotal(a[1..], b[1..]);
    }
  }

  lemma {:induction false} StrLeAntisym(a: string, b: string)
    requires StrLe(a, b) && StrLe(b, a)
    ensures a == b
  {
    if |a| > 0 && |b| > 0 {
      StrLeAntisym(a[1..], b[1..]);
      assert a == [a[0]] + a[1..];
      assert b == [b[0]] + b[1..];
    }
  }

  lemma {:induction false} StrLeTrans(a: string, b: string, c: string)
    requires StrLe(a, b) && StrLe(b, c)
    ensures StrLe(a, c)
  {
    if |a| > 0 && |b| > 0 && |c| > 0 && a[0] == b[0] && b[0] == c[0] {
      StrLeTrans(a[1..], b[1..], c[1..]);
    }
  }

  // -------------------------------------------------------- sorted strings

  predicate Sorted(s: seq<string>) {
    forall i, j :: 0 <= i < j < |s| ==> StrLe(s[i], s[j])
  }

  /** Sorted and free of repetitions, as `sorted(some_set)` is. */
  predicate StrictlySorted(s: seq<string>) {
    Sorted(s) && forall i, j :: 0 <= i < j < |s| ==> s[i] != s[j]
  }

  lemma ConsSorted(x: string, s: seq<string>)
    requires Sorted(s)
    requires forall y :: y in s ==> StrLe(x, y)
    ensures Sorted([x] + s)
  {
    var r := [x] + s;
    forall i, j | 0 <= i < j < |r| ensures StrLe(r[i], r[j]) {
      if i == 0 {
        assert r[j] == s[j - 1];
      } else {
        assert r[i] == s[i - 1] && r[j] == s[j - 1];
      }
    }
  }

  /** An element below the head of a sorted list is below all of it. */
  lemma BelowHead(x: string, s: seq<string>)
    requires Sorted(s) && |s| > 0 && StrLe(x, s[0])
    ensures forall y :: y in s ==> StrLe(x, y)
  {
    forall y | y in s ensures StrLe(x, y) {
      if y != s[0] {
        var j :| 0 <= j < |s| && s[j] == y;
        StrLeTrans(x, s[0], y);
      }
    }
  }

  /** The head of a sorted list is below what `x`, itself above it, joins its tail into. */
  lemma HeadBelowInsert(x: string, s: seq<string>, t: seq<string>)
    requires Sorted(s) && |s| > 0 && StrLe(s[0], x)
    requires multiset(t) == multiset(s[1..]) + multiset{x}
    ensures forall y :: y in t ==> StrLe(s[0], y)
  {
    forall y | y in t ensures StrLe(s[0], y) {
      assert y in multiset(t);
      if y != x {
        assert y in multiset(s[1..]);
        var j :| 0 <= j < |s[1..]| && s[1..][j] == y;
        assert s[j + 1] == y;
      }
    }
  }

  /** Inserting `x` at its place keeps a sorted list sorted. */
  function Insert(x: string, s: seq<string>): (r: seq<string>)
    requires Sorted(s)
    ensures Sorted(r)
    ensures multiset(r) == multiset(s) + multiset{x}
  {
    if |s| == 0 then [x]
    else if StrLe(x, s[0]) then
      BelowHead(x, s);
      ConsSorted(x, s);
      [x] + s
    else
      var t := Insert(x, s[1..]);
      StrLeTotal(x, s[0]);
      HeadBelowInsert(x, s, t);
      ConsSorted(s[0], t);
      assert s == [s[0]] + s[1..];
      [s[0]] + t
  }

  /** `sorted(s)` for a list of strings. */
  function SortStrings(s: seq<string>): (r: seq<string>)
    ensures Sorted(r)
    ensures multiset(r) == multiset(s)
  {
    if |s| == 0 then []
    else
      assert s == [s[0]] + s[1..];
      Insert(s[0], SortStrings(s[1..]))
  }

  /** The head of a sorted list is below each of its elements. */
  lemma HeadIsLeast(a: seq<string>, x: string)
    requires Sorted(a) && x in a
    ensures StrLe(a[0], x)
  {
    var i :| 0 <= i < |a| && a[i] == x;
    if i == 0 {
      StrLeRefl(x);
    }
  }

  /** Two sorted lists with the same elements are the same list. */
  lemma {:induction false} SortedUnique(a: seq<string>, b: seq<string>)
    requires Sorted(a) && Sorted(b) && multiset(a) == multiset(b)
    ensures a == b
  {
    if |a| > 0 {
      assert a[0] in multiset(b);
      assert b[0] in multiset(a);
      HeadIsLeast(b, a[0]);
      HeadIsLeast(a, b[0]);
      StrLeAntisym(a[0], b[0]);
      var a', b' := a[1..], b[1..];
      assert a == [a[0]] + a';
      assert b == [b[0]] + b';
      assert multiset(a') == multiset(b') by {
        assert multiset(a) == multiset{a[0]} + multiset(a');
        assert multiset(b) == multiset{a[0]} + multiset(b');
        forall x ensures multiset(a')[x] == multiset(b')[x] {
          assert multiset(a)[x] == multiset{a[0]}[x] + multiset(a')[x];
          assert multiset(b)[x] == multiset{a[0]}[x] + multiset(b')[x];
        }
      }
      SortedUnique(a', b');
    }
  }

  /**
   * `sorted(some_set)`: every element once, in increasing order. The method
   * draws the elements in any order and sorts them.
   */
  method SortedSet(s: set<string>) returns (r: seq<string>)
    ensures r == SortedElements(s)
    ensures StrictlySorted(r)
    ensures forall x :: x in r <==> x in s
    ensures |r| == |s|
  {
    var left := s;
    var drawn: seq<string> := [];
    while left != {}
      invariant left !! (set x | x in drawn)
      invariant left + (set x | x in drawn) == s
      invariant forall i, j :: 0 <= i < j < |drawn| ==> drawn[i] != drawn[j]
      invariant |drawn| + |left| == |s|
      decreases |left|
    {
      var x :| x in left;
      drawn := drawn + [x];
      left := left - {x};
    }
    r := SortStrings(drawn);
    assert forall x :: x in r <==> x in multiset(drawn);
    DistinctPermutation(drawn, r);
    StrictlySortedUnique(r, SortedElements(s));
  }

  /** The elements of a set, once each, in some order. */
  ghost function Drawn(s: set<string>): (r: seq<string>)
    ensures forall i, j :: 0 <= i < j < |r| ==> r[i] != r[j]
    ensures forall x :: x in r <==> x in s
    ensures |r| == |s|
  {
    if s == {} then []
    else
      var x :| x in s;
      var rest := Drawn(s - {x});
      assert forall i :: 0 < i < |rest| + 1 ==> ([x] + rest)[i] == rest[i - 1];
      [x] + rest
  }

  /** `sorted(s)` for a set `s`. */
  ghost function SortedElements(s: set<string>): (r: seq<string>)
    ensures StrictlySorted(r)
    ensures forall x :: x in r <==> x in s
    ensures |r| == |s|
  {
    var d := Drawn(s);
    var r := SortStrings(d);
    assert forall x :: x in r <==> x in multiset(d);
    DistinctPermutation(d, r);
    r
  }

  /** Lists without repetitions that hold the same elements hold each as often. */
  lemma DistinctSameElements(a: seq<string>, b: seq<string>)
    requires forall i, j :: 0 <= i < j < |a| ==> a[i] != a[j]
    requires forall i, j :: 0 <= i < j < |b| ==> b[i] != b[j]
    requires forall x :: x in a <==> x in b
    ensures multiset(a) == multiset(b)
  {
    forall x ensures multiset(a)[x] == multiset(b)[x] {
      DistinctCount(a, x);
      DistinctCount(b, x);
      assert (x in a) == (x in multiset(a)) && (x in b) == (x in multiset(b));
    }
  }

  /** A strictly sorted list is fixed by its elements: it is `sorted()` of their set. */
  lemma StrictlySortedUnique(a: seq<string>, b: seq<string>)
    requires StrictlySorted(a) && StrictlySorted(b)
    requires forall x :: x in a <==> x in b
    ensures a == b
  {
    DistinctSameElements(a, b);
    SortedUnique(a, b);
  }

  /** A rearrangement of a list without repetitions has none either. */
  lemma DistinctPermutation(s: seq<string>, r: seq<string>)
    requires forall i, j :: 0 <= i < j < |s| ==> s[i] != s[j]
    requires multiset(r) == multiset(s)
    ensures forall i, j :: 0 <= i < j < |r| ==> r[i] != r[j]
  {
    forall i, j | 0 <= i < j < |r| ensures r[i] != r[j] {
      if r[i] == r[j] {
        DistinctCount(s, r[i]);
        DoubleCount(r, i, j);
        assert false;
      }
    }
  }

  lemma {:induction false} DistinctCount(s: seq<string>, x: string)
    requires forall i, j :: 0 <= i < j < |s| ==> s[i] != s[j]
    ensures multiset(s)[x] <= 1
  {
    if |s| > 0 {
      var t := s[..|s| - 1];
      assert s == t + [s[|s| - 1]];
      DistinctCount(t, x);
      if x == s[|s| - 1] {
        assert x !in t;
      }
    }
  }

  lemma DoubleCount(s: seq<string>, i: nat, j: nat)
    requires i < j < |s| && s[i] == s[j]
    ensures multiset(s)[s[i]] >= 2
  {
    assert s == s[..i] + [s[i]] + s[i + 1..j] + [s[j]] + s[j + 1..];
  }

  // ------------------------------------------------------ list of str order

  /** `a <= b` on Python lists of strings: the first differing element decides. */
  predicate PathLe(a: seq<string>, b: seq<string>) {
    if |a| == 0 then true
    else if |b| == 0 then false
    else if a[0] != b[0] then StrLe(a[0], b[0])
    else PathLe(a[1..], b[1..])
  }

  lemma {:induction false} PathLeRefl(a: seq<string>)
    ensures PathLe(a, a)
  {
    if |a| > 0 {
      PathLeRefl(a[1..]);
    }
  }

  lemma {:induction false} PathLeTotal(a: seq<string>, b: seq<string>)
    ensures PathLe(a, b) || PathLe(b, a)
  {
    if |a| > 0 && |b| > 0 {
      if a[0] == b[0] {
        PathLeTotal(a[1..], b[1..]);
      } else {
        StrLeTotal(a[0], b[0]);
      }
    }
  }

  lemma {:induction false} PathLeTrans(a: seq<string>, b: seq<string>, c: seq<string>)
    requires PathLe(a, b) && PathLe(b, c)
    ensures PathLe(a, c)
  {
    if |a| > 0 && |b| > 0 && |c| > 0 {
      if a[0] == b[0] && b[0] == c[0] {
        PathLeTrans(a[1..], b[1..], c[1..]);
      } else if a[0] == b[0] {
      } else if b[0] == c[0] {
      } else {
        StrLeTrans(a[0], b[0], c[0]);
        if a[0] == c[0] {
          StrLeAntisym(a[0], b[0]);
        }
      }
    }
  }

  /** `min(paths)`: a listed path that no listed path is below. */
  function MinPath(ps: seq<seq<string>>): (m: seq<string>)
    requires |ps| > 0
    ensures m in ps
    ensures forall p :: p in ps ==> PathLe(m, p)
  {
    if |ps| == 1 then
      PathLeRefl(ps[0]);
      ps[0]
    else
      var rest := MinPath(ps[1..]);
      PathLeTotal(ps[0], rest);
      var m := if PathLe(ps[0], rest) && ps[0] != rest then ps[0] else rest;
      assert forall p :: p in ps ==> p == ps[0] || p in ps[1..];
      forall p | p in ps ensures PathLe(m, p) {
        if p == ps[0] {
          PathLeRefl(p);
        } else if m != rest {
          PathLeTrans(m, rest, p);
        }
      }
      m
  }

  /** `max(paths)`: a listed path that no listed path is above. */
  function MaxPath(ps: seq<seq<string>>): (m: seq<string>)
    requires |ps| > 0
    ensures m in ps
    ensures forall p :: p in ps ==> PathLe(p, m)
  {
    if |ps| == 1 then
      PathLeRefl(ps[0]);
      ps[0]
    else
      var rest := MaxPath(ps[1..]);
      PathLeTotal(ps[0], rest);
      var m := if PathLe(rest, ps[0]) && ps[0] != rest then ps[0] else rest;
      assert forall p :: p in ps ==> p == ps[0] || p in ps[1..];
      forall p | p in ps ensures PathLe(p, m) {
        if p == ps[0] {
          PathLeRefl(p);
        } else if m != rest {
          PathLeTrans(p, rest, m);
        }
      }
      m
  }

  /**
   * A prefix shared by the lowest and the highest path is shared by every
   * path between them.
   */
  lemma {:induction false} PrefixBetween(c: seq<string>, lo: seq<string>, p: seq<string>, hi: seq<string>)
    requires c <= lo && c <= hi
    requires PathLe(lo, p) && PathLe(p, hi)
    ensures c <= p
  {
    if |c| > 0 {
      assert lo[0] == c[0] && hi[0] == c[0];
      assert |p| > 0;
      if p[0] != c[0] {
        StrLeAntisym(p[0], c[0]);
        assert false;
      }
      PrefixBetween(c[1..], lo[1..], p[1..], hi[1..]);
      assert p == [p[0]] + p[1..];
      assert c == [c[0]] + c[1..];
    }
  }
}
