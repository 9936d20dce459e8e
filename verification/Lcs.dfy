/** Longest common subsequences: what they are, how long they can get, and how
    a common head and tail contribute to them. */
module Lcs {

  /** c is a with some elements left out. */
  predicate Subsequence<T(==)>(c: seq<T>, a: seq<T>)
    decreases |a|
  {
    c == [] ||
    (a != [] && ((c[0] == a[0] && Subsequence(c[1..], a[1..])) || Subsequence(c, a[1..])))
  }

  predicate Common<T(==)>(c: seq<T>, a: seq<T>, b: seq<T>) {
    Subsequence(c, a) && Subsequence(c, b)
  }

  function Max(x: nat, y: nat): nat {
    if x >= y then x else y
  }

  /** The length the table recurrence computes. */
  function Length<T(==)>(a: seq<T>, b: seq<T>): nat
    decreases |a| + |b|
  {
    if a == [] || b == [] then 0
    else if a[0] == b[0] then 1 + Length(a[1..], b[1..])
    else Max(Length(a[1..], b), Length(a, b[1..]))
  }

  lemma {:induction false} LengthBound<T>(a: seq<T>, b: seq<T>)
    ensures Length(a, b) <= |a| && Length(a, b) <= |b|
    decreases |a| + |b|
  {
    if a != [] && b != [] {
      LengthBound(a[1..], b[1..]);
      LengthBound(a[1..], b);
      LengthBound(a, b[1..]);
    }
  }

  lemma {:induction false} DropFirst<T>(c: seq<T>, a: seq<T>)
    requires c != [] && Subsequence(c, a)
    ensures a != [] && Subsequence(c[1..], a[1..])
    decreases |a|
  {
    if !(c[0] == a[0] && Subsequence(c[1..], a[1..])) {
      DropFirst(c, a[1..]);
    }
  }

  /** No common subsequence is longer than what the recurrence gives. */
  lemma {:induction false} NoneLonger<T>(c: seq<T>, a: seq<T>, b: seq<T>)
    requires Common(c, a, b)
    ensures |c| <= Length(a, b)
    decreases |a| + |b|
  {
    if c == [] {
    } else if a[0] == b[0] {
      DropFirst(c, a);
      DropFirst(c, b);
      NoneLonger(c[1..], a[1..], b[1..]);
    } else if c[0] != a[0] {
      NoneLonger(c, a[1..], b);
    } else {
      NoneLonger(c, a, b[1..]);
    }
  }

  lemma {:induction false} DropHead<T>(c: seq<T>, head: seq<T>, a: seq<T>)
    requires Subsequence(c, head + a)
    ensures |c| > |head| ==> Subsequence(c[|head|..], a)
  {
    if head == [] {
      assert head + a == a;
    } else if c != [] {
      DropFirst(c, head + a);
      assert (head + a)[1..] == head[1..] + a;
      DropHead(c[1..], head[1..], a);
      if |c| > |head| {
        assert c[1..][|head| - 1..] == c[|head|..];
      }
    }
  }

  lemma {:induction false} DropLast<T>(c: seq<T>, a: seq<T>, x: T)
    requires c != [] && Subsequence(c, a + [x])
    ensures Subsequence(c[..|c| - 1], a)
    decreases |a|
  {
    var ax := a + [x];
    if a == [] {
      DropFirst(c, ax);
      assert ax[1..] == [];
    } else {
      assert ax[1..] == a[1..] + [x];
      if c[0] == ax[0] && Subsequence(c[1..], ax[1..]) {
        if |c| > 1 {
          DropLast(c[1..], a[1..], x);
          assert c[1..][..|c| - 2] == c[..|c| - 1][1..];
        }
      } else {
        DropLast(c, a[1..], x);
      }
    }
  }

  lemma {:induction false} DropTail<T>(c: seq<T>, a: seq<T>, tail: seq<T>)
    requires Subsequence(c, a + tail)
    ensures |c| > |tail| ==> Subsequence(c[..|c| - |tail|], a)
    decreases |tail|
  {
    if tail == [] {
      assert a + tail == a;
      assert c[..|c|] == c;
    } else if c != [] {
      var t := tail[..|tail| - 1];
      assert a + tail == a + t + [tail[|tail| - 1]];
      DropLast(c, a + t, tail[|tail| - 1]);
      DropTail(c[..|c| - 1], a, t);
      if |c| > |tail| {
        assert c[..|c| - 1][..|c| - 1 - |t|] == c[..|c| - |tail|];
      }
    }
  }

  lemma Trim<T>(c: seq<T>, head: seq<T>, a: seq<T>, tail: seq<T>)
    requires Subsequence(c, head + a + tail)
    ensures |c| > |head| + |tail| ==> Subsequence(c[|head|..|c| - |tail|], a)
  {
    DropTail(c, head + a, tail);
    if |c| > |head| + |tail| {
      DropHead(c[..|c| - |tail|], head, a);
      assert c[..|c| - |tail|][|head|..] == c[|head|..|c| - |tail|];
    }
  }

  /** Keeping a common head and tail whole loses nothing: a common subsequence
      of the whole lists is at most as long as head, tail and what the middles
      have in common. */
  lemma TrimmedNoneLonger<T>(c: seq<T>, head: seq<T>, a: seq<T>, b: seq<T>, tail: seq<T>)
    requires Common(c, head + a + tail, head + b + tail)
    ensures |c| <= |head| + Length(a, b) + |tail|
  {
    Trim(c, head, a, tail);
    Trim(c, head, b, tail);
    if |c| > |head| + |tail| {
      NoneLonger(c[|head|..|c| - |tail|], a, b);
    }
  }
}
