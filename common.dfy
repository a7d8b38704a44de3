/** Sequence helpers shared by the push feed, the watchlist store and the watchlist view:
    the three places where the dashboard keeps an ordered, duplicate-free list. */
module Common {

  datatype Option<+T> = None | Some(value: T)

  /** No element occurs twice. */
  predicate NoDup<T(==)>(xs: seq<T>)
  {
    forall i, j :: 0 <= i < j < |xs| ==> xs[i] != xs[j]
  }

  /** `xs.filter(y => y !== x)`: every occurrence of `x` dropped, the rest kept. */
  function Without<T(==)>(xs: seq<T>, x: T): (r: seq<T>)
    ensures |r| <= |xs|
    ensures forall i :: 0 <= i < |r| ==> r[i] in xs && r[i] != x
    ensures forall i :: 0 <= i < |xs| && xs[i] != x ==> xs[i] in r
  {
    if xs == [] then []
    else if xs[0] == x then Without(xs[1..], x)
    else [xs[0]] + Without(xs[1..], x)
  }

  /** `if (!xs.includes(x)) xs.push(x)`, as a value. */
  function AddIfAbsent<T(==)>(xs: seq<T>, x: T): (r: seq<T>)
    ensures x in r && forall i :: 0 <= i < |xs| ==> xs[i] in r
    ensures forall i :: 0 <= i < |r| ==> r[i] in xs || r[i] == x
    ensures x in xs ==> r == xs
    ensures x !in xs ==> |r| == |xs| + 1 && r[..|xs|] == xs && r[|xs|] == x
    ensures NoDup(xs) ==> NoDup(r)
  {
    if x in xs then xs else xs + [x]
  }

  /** `s` is `t` with some elements left out, the rest in their original order. */
  predicate IsSubsequence<T(==)>(s: seq<T>, t: seq<T>)
    decreases |t|
  {
    if s == [] then true
    else if t == [] then false
    else if s[0] == t[0] then IsSubsequence(s[1..], t[1..])
    else IsSubsequence(s, t[1..])
  }

  /** Filtering out an absent element changes nothing. */
  lemma {:induction false} WithoutAbsent<T>(xs: seq<T>, x: T)
    requires x !in xs
    ensures Without(xs, x) == xs
  {
    if xs != [] {
      WithoutAbsent(xs[1..], x);
    }
  }

  /** Filtering twice is filtering once: a second removal is a no-op. */
  lemma WithoutIdempotent<T>(xs: seq<T>, x: T)
    ensures Without(Without(xs, x), x) == Without(xs, x)
  {
    WithoutAbsent(Without(xs, x), x);
  }

  /** The elements that survive keep their relative order. */
  lemma {:induction false} WithoutIsSubsequence<T>(xs: seq<T>, x: T)
    ensures IsSubsequence(Without(xs, x), xs)
  {
    if xs != [] {
      WithoutIsSubsequence(xs[1..], x);
      if xs[0] == x {
        SubsequenceOfTail(Without(xs[1..], x), xs);
      } else {
        assert ([xs[0]] + Without(xs[1..], x))[1..] == Without(xs[1..], x);
      }
    }
  }

  /** A subsequence of the tail is a subsequence of the whole. */
  lemma {:induction false} SubsequenceOfTail<T>(s: seq<T>, t: seq<T>)
    requires t != [] && IsSubsequence(s, t[1..])
    ensures IsSubsequence(s, t)
    decreases |t|, |s|
  {
    if s != [] && s[0] == t[0] {
      // s[1..] is a subsequence of t[1..] because s is
      SubsequenceDropHead(s, t[1..]);
    }
  }

  /** Dropping the first element of a subsequence keeps it a subsequence. */
  lemma {:induction false} SubsequenceDropHead<T>(s: seq<T>, t: seq<T>)
    requires s != [] && IsSubsequence(s, t)
    ensures IsSubsequence(s[1..], t)
    decreases |t|, |s|
  {
    assert t != [];
    if s[0] == t[0] {
      SubsequenceOfTail(s[1..], t);
    } else {
      SubsequenceDropHead(s, t[1..]);
      SubsequenceOfTail(s[1..], t);
    }
  }

  /** Filtering preserves the absence of duplicates. */
  lemma {:induction false} WithoutNoDup<T>(xs: seq<T>, x: T)
    requires NoDup(xs)
    ensures NoDup(Without(xs, x))
  {
    if xs != [] {
      NoDupTail(xs);
      WithoutNoDup(xs[1..], x);
      if xs[0] != x {
        var r := [xs[0]] + Without(xs[1..], x);
        assert xs[0] !in Without(xs[1..], x);
        forall i, j | 0 <= i < j < |r| ensures r[i] != r[j] {
          if i > 0 {
            assert r[i] == Without(xs[1..], x)[i - 1];
            assert r[j] == Without(xs[1..], x)[j - 1];
          } else {
            assert r[j] in Without(xs[1..], x);
          }
        }
      }
    }
  }

  /** The tail of a duplicate-free list is duplicate-free and lacks the head. */
  lemma NoDupTail<T>(xs: seq<T>)
    requires NoDup(xs) && xs != []
    ensures NoDup(xs[1..]) && xs[0] !in xs[1..]
  {
    forall a, b | 0 <= a < b < |xs| - 1 ensures xs[1..][a] != xs[1..][b] {
      assert xs[a + 1] != xs[b + 1];
    }
  }

  /** In a duplicate-free list, an element does not occur before its own position. */
  lemma NotInPrefix<T>(xs: seq<T>, i: nat)
    requires NoDup(xs) && i < |xs|
    ensures xs[i] !in xs[..i]
  {
    forall k | 0 <= k < i ensures xs[..i][k] != xs[i] {
      assert xs[k] != xs[i];
    }
  }

  /** On a duplicate-free list, removing the element at `i` cuts out exactly that position. */
  lemma {:induction false} WithoutAt<T>(xs: seq<T>, i: nat)
    requires NoDup(xs) && i < |xs|
    ensures Without(xs, xs[i]) == xs[..i] + xs[i + 1..]
  {
    NoDupTail(xs);
    if i == 0 {
      WithoutAbsent(xs[1..], xs[0]);
    } else {
      var x := xs[i];
      assert xs[0] != x;
      WithoutAt(xs[1..], i - 1);
      assert xs[1..][i - 1] == x;
      calc {
        Without(xs, x);
        [xs[0]] + Without(xs[1..], x);
        [xs[0]] + (xs[1..][..i - 1] + xs[1..][i..]);
        { assert xs[1..][..i - 1] == xs[1..i]; assert xs[1..][i..] == xs[i + 1..]; }
        [xs[0]] + (xs[1..i] + xs[i + 1..]);
        { assert [xs[0]] + xs[1..i] == xs[..i]; }
        xs[..i] + xs[i + 1..];
      }
    }
  }
}
