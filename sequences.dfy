/** Order-preserving selection from a sequence, as JavaScript's Array.prototype.filter does it. */
module Sequences {

  /** `r` can be obtained from `s` by deleting elements, without reordering the rest. */
  ghost predicate IsSubsequence<T>(r: seq<T>, s: seq<T>)
    decreases |s|
  {
    r == [] ||
    (s != [] && ((r[0] == s[0] && IsSubsequence(r[1..], s[1..])) || IsSubsequence(r, s[1..])))
  }

  /** The number of times `x` occurs in `s`. */
  function Count<T(==)>(s: seq<T>, x: T): (n: nat)
    ensures n <= |s|
    ensures n > 0 <==> x in s
  {
    if s == [] then 0 else (if s[0] == x then 1 else 0) + Count(s[1..], x)
  }

  /** The elements of `s` that satisfy `f`, in the order of `s`, duplicates kept. */
  function Filter<T(==,!new)>(f: T -> bool, s: seq<T>): (r: seq<T>)
    ensures |r| <= |s|
    ensures IsSubsequence(r, s)
    ensures forall x :: Count(r, x) == if f(x) then Count(s, x) else 0
    ensures forall x :: x in r <==> x in s && f(x)
  {
    if s == [] then []
    else
      assert s == [s[0]] + s[1..];
      var rest := Filter(f, s[1..]);
      if f(s[0]) then
        assert ([s[0]] + rest)[1..] == rest;
        [s[0]] + rest
      else
        rest
  }

  /** Every sequence is a subsequence of itself. */
  lemma {:induction false} SubsequenceOfItself<T>(s: seq<T>)
    ensures IsSubsequence(s, s)
    decreases |s|
  {
    if s != [] {
      SubsequenceOfItself(s[1..]);
    }
  }

  /** A subsequence holds no element more often than the sequence it is taken from. */
  lemma {:induction false} SubsequenceCount<T>(r: seq<T>, s: seq<T>)
    requires IsSubsequence(r, s)
    ensures forall x :: Count(r, x) <= Count(s, x)
    decreases |s|
  {
    if r != [] {
      assert s == [s[0]] + s[1..];
      if r[0] == s[0] && IsSubsequence(r[1..], s[1..]) {
        SubsequenceCount(r[1..], s[1..]);
        assert r == [r[0]] + r[1..];
      } else {
        SubsequenceCount(r, s[1..]);
      }
    }
  }

  /**
   * Filter is the only subsequence of `s` that holds every element satisfying `f` exactly as
   * often as `s` does and no other element: "in the order of `s`, duplicates kept" pins it down.
   */
  lemma {:induction false} FilterUnique<T(!new)>(f: T -> bool, s: seq<T>, r: seq<T>)
    requires IsSubsequence(r, s)
    requires forall x :: Count(r, x) == if f(x) then Count(s, x) else 0
    ensures r == Filter(f, s)
    decreases |s|
  {
    if s == [] {
      assert r == [];
    } else {
      var a, s' := s[0], s[1..];
      assert s == [a] + s';
      if f(a) {
        assert Count(r, a) == Count(s', a) + 1;
        if !(r[0] == a && IsSubsequence(r[1..], s')) {
          SubsequenceCount(r, s');
          assert false;
        }
        var r' := r[1..];
        assert r == [a] + r';
        forall x ensures Count(r', x) == if f(x) then Count(s', x) else 0 {
          if x == a {
            assert Count(r', x) == Count(r, x) - 1;
          } else {
            assert Count(r', x) == Count(r, x);
          }
        }
        FilterUnique(f, s', r');
      } else {
        assert a !in r by {
          assert Count(r, a) == 0;
        }
        assert r == [] || r[0] != a;
        if r == [] {
          assert forall x :: Count(s', x) <= Count(s, x);
        } else {
          assert r[0] in r;
        }
        assert IsSubsequence(r, s');
        forall x ensures Count(r, x) == if f(x) then Count(s', x) else 0 {
          if x == a {
            assert Count(r, x) == 0;
          } else {
            assert Count(s', x) == Count(s, x);
          }
        }
        FilterUnique(f, s', r);
      }
    }
  }
}
