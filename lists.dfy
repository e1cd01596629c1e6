/** `Array.prototype.filter` and the facts about it that the list views rely on:
    it keeps exactly the elements that pass, in their original order. */
module Lists {

  /** `s.filter(p)`. */
  function Filter<T>(p: T -> bool, s: seq<T>): (r: seq<T>)
    ensures |r| <= |s|
    ensures forall x :: x in r ==> x in s && p(x)
  {
    if s == [] then [] else if p(s[0]) then [s[0]] + Filter(p, s[1..]) else Filter(p, s[1..])
  }

  /** `a` is obtained from `b` by deleting elements, without reordering. */
  ghost predicate IsSubsequence<T>(a: seq<T>, b: seq<T>)
    decreases |b|
  {
    if a == [] then true
    else if b == [] then false
    else (a[0] == b[0] && IsSubsequence(a[1..], b[1..])) || IsSubsequence(a, b[1..])
  }

  /** Whatever passes the test is kept. */
  lemma {:induction false} FilterKeeps<T>(p: T -> bool, s: seq<T>, x: T)
    requires x in s && p(x)
    ensures x in Filter(p, s)
  {
    if s[0] != x {
      FilterKeeps(p, s[1..], x);
    }
  }

  /** Membership in the filtered list is exactly membership in the list plus passing the test. */
  lemma FilterMembership<T>(p: T -> bool, s: seq<T>, x: T)
    ensures x in Filter(p, s) <==> x in s && p(x)
  {
    if x in s && p(x) {
      FilterKeeps(p, s, x);
    }
  }

  /** The filtered list keeps the original order: nothing is added or reordered. */
  lemma {:induction false} FilterIsSubsequence<T>(p: T -> bool, s: seq<T>)
    ensures IsSubsequence(Filter(p, s), s)
  {
    if s != [] {
      FilterIsSubsequence(p, s[1..]);
      if p(s[0]) {
        assert Filter(p, s)[1..] == Filter(p, s[1..]);
      } else {
        SubsequenceOfTail(Filter(p, s[1..]), s);
      }
    }
  }

  /** A subsequence of the tail is a subsequence of the whole. */
  lemma SubsequenceOfTail<T>(a: seq<T>, b: seq<T>)
    requires b != [] && IsSubsequence(a, b[1..])
    ensures IsSubsequence(a, b)
  {
  }

  /** A test every element passes keeps the whole list. */
  lemma {:induction false} FilterAllPass<T>(p: T -> bool, s: seq<T>)
    requires forall x :: x in s ==> p(x)
    ensures Filter(p, s) == s
  {
    if s != [] {
      FilterAllPass(p, s[1..]);
    }
  }

  /** Filtering distributes over concatenation. */
  lemma {:induction false} FilterAppend<T>(p: T -> bool, s: seq<T>, t: seq<T>)
    ensures Filter(p, s + t) == Filter(p, s) + Filter(p, t)
  {
    if s != [] {
      assert (s + t)[1..] == s[1..] + t;
      FilterAppend(p, s[1..], t);
    } else {
      assert s + t == t;
    }
  }

  /** `s.filter((_, j) => j !== i)`: every element except the one at index `i`. */
  function WithoutIndex<T>(s: seq<T>, i: int): (r: seq<T>)
    decreases |s|
  {
    if s == [] then [] else (if i == 0 then [] else [s[0]]) + WithoutIndex(s[1..], i - 1)
  }

  /** Removing by index deletes exactly that position and keeps the rest in order;
      an index outside the list removes nothing. */
  lemma {:induction false} WithoutIndexIs<T>(s: seq<T>, i: int)
    ensures 0 <= i < |s| ==> WithoutIndex(s, i) == s[..i] + s[i + 1..]
    ensures !(0 <= i < |s|) ==> WithoutIndex(s, i) == s
    decreases |s|
  {
    if s != [] {
      WithoutIndexIs(s[1..], i - 1);
      if i == 0 {
        assert s[..0] + s[1..] == s[1..];
      } else if 0 < i < |s| {
        assert [s[0]] + (s[1..][..i - 1] + s[1..][i..]) == s[..i] + s[i + 1..];
      } else {
        assert [s[0]] + s[1..] == s;
      }
    }
  }
}
