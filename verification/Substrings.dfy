/** Counting and replacing a substring, the way Go's strings package does: left
    to right, without overlaps. */
module Substrings {

  predicate OccursAt(s: string, t: string, p: int) {
    0 <= p && p + |t| <= |s| && s[p..p + |t|] == t
  }

  ghost predicate Occurs(s: string, t: string) {
    exists p :: OccursAt(s, t, p)
  }

  /** strings.Count for a substring that is not empty. */
  function Count(s: string, t: string): nat
    requires t != ""
    decreases |s|
  {
    if |s| < |t| then 0
    else if s[..|t|] == t then 1 + Count(s[|t|..], t)
    else Count(s[1..], t)
  }

  /** strings.Replace with a limit of one. */
  function ReplaceFirst(s: string, t: string, with: string): string
    requires t != ""
    decreases |s|
  {
    if |s| < |t| then s
    else if s[..|t|] == t then with + s[|t|..]
    else [s[0]] + ReplaceFirst(s[1..], t, with)
  }

  /** strings.ReplaceAll. */
  function ReplaceAll(s: string, t: string, with: string): string
    requires t != ""
    decreases |s|
  {
    if |s| < |t| then s
    else if s[..|t|] == t then with + ReplaceAll(s[|t|..], t, with)
    else [s[0]] + ReplaceAll(s[1..], t, with)
  }

  /** Where the first occurrence starts; |s| when there is none. */
  function Find(s: string, t: string): (p: nat)
    requires t != ""
    ensures p <= |s|
    decreases |s|
  {
    if |s| < |t| then |s| else if s[..|t|] == t then 0 else 1 + Find(s[1..], t)
  }

  /** An occurrence, seen from further on. */
  lemma Shifted(s: string, t: string, from: nat, q: nat)
    requires from <= q && from <= |s|
    ensures OccursAt(s, t, q) <==> OccursAt(s[from..], t, q - from)
  {
    if q + |t| <= |s| {
      assert s[from..][q - from..q - from + |t|] == s[q..q + |t|];
    }
  }

  /** Where the first occurrence starts, or the end when there is none. */
  ghost predicate FirstAt(s: string, t: string, p: nat) {
    && p <= |s|
    && (forall q :: OccursAt(s, t, q) ==> p <= q)
    && (p < |s| ==> OccursAt(s, t, p))
    && (p == |s| ==> !Occurs(s, t))
  }

  lemma FirstFurther(s: string, t: string, rest: string, p: nat)
    requires t != "" && |s| >= |t| && s[..|t|] != t && rest == s[1..] && FirstAt(rest, t, p)
    ensures FirstAt(s, t, p + 1)
  {
    forall q | OccursAt(s, t, q) ensures q >= 1 && OccursAt(rest, t, q - 1) {
      assert q > 0;
      Shifted(s, t, 1, q);
    }
    Shifted(s, t, 1, p + 1);
  }

  lemma {:induction false} FindsFirst(s: string, t: string)
    requires t != ""
    ensures FirstAt(s, t, Find(s, t))
    decreases |s|
  {
    if |s| < |t| {
    } else if s[..|t|] == t {
      assert OccursAt(s, t, 0);
    } else {
      FindsFirst(s[1..], t);
      FirstFurther(s, t, s[1..], Find(s[1..], t));
    }
  }

  lemma RestFurther(s: string, rest: string, from: nat)
    requires s != "" && rest == s[1..] && from <= |rest|
    ensures rest[from..] == s[from + 1..]
  {
  }

  /** Counting goes on after an occurrence at p; there is none when p is the end. */
  predicate CountsAfter(s: string, t: string, p: nat)
    requires t != ""
  {
    if p == |s| then Count(s, t) == 0 else p + |t| <= |s| && Count(s, t) == 1 + Count(s[p + |t|..], t)
  }

  lemma CountHere(s: string, t: string)
    requires t != "" && |s| >= |t| && s[..|t|] == t
    ensures Find(s, t) == 0 && CountsAfter(s, t, 0)
  {
    assert s[0 + |t|..] == s[|t|..];
  }

  lemma CountFurther(s: string, t: string, rest: string, p: nat)
    requires t != "" && |s| >= |t| && s[..|t|] != t && rest == s[1..] && p <= |rest| && CountsAfter(rest, t, p)
    ensures Count(s, t) == Count(rest, t) && CountsAfter(s, t, p + 1)
  {
    if p < |rest| {
      RestFurther(s, rest, p + |t|);
    }
  }

  /** Counting goes on after the first occurrence. */
  lemma {:induction false} CountAfterFirst(s: string, t: string)
    requires t != ""
    ensures CountsAfter(s, t, Find(s, t))
    decreases |s|
  {
    if |s| < |t| {
      assert Count(s, t) == 0;
    } else if s[..|t|] == t {
      CountHere(s, t);
    } else {
      CountAfterFirst(s[1..], t);
      CountFurther(s, t, s[1..], Find(s[1..], t));
    }
  }

  /** The n characters at p replaced. */
  predicate Swapped(s: string, p: nat, n: nat, with: string, r: string) {
    p + n <= |s| && r == s[..p] + with + s[p + n..]
  }

  lemma SwappedAtStart(s: string, n: nat, with: string)
    requires n <= |s|
    ensures Swapped(s, 0, n, with, with + s[n..])
  {
    assert s[..0] + with == with;
  }

  lemma FrontFurther(s: string, rest: string, p: nat)
    requires s != "" && rest == s[1..] && p <= |rest|
    ensures s[..p + 1] == [s[0]] + rest[..p]
  {
    var x, y := s[..p + 1], [s[0]] + rest[..p];
    assert |x| == |y|;
    forall k | 0 <= k < |x| ensures x[k] == y[k] {
    }
  }

  lemma SwappedFurther(s: string, rest: string, p: nat, n: nat, with: string, r: string)
    requires s != "" && rest == s[1..] && Swapped(rest, p, n, with, r)
    ensures Swapped(s, p + 1, n, with, [s[0]] + r)
  {
    RestFurther(s, rest, p + n);
    FrontFurther(s, rest, p);
  }

  lemma Rejoined(s: string)
    requires s != ""
    ensures [s[0]] + s[1..] == s
  {
  }

  /** Replacing the first occurrence leaves the text around it. */
  lemma {:induction false} ReplacesFirst(s: string, t: string, with: string)
    requires t != ""
    ensures var p := Find(s, t);
            if p == |s| then ReplaceFirst(s, t, with) == s else Swapped(s, p, |t|, with, ReplaceFirst(s, t, with))
    decreases |s|
  {
    if |s| < |t| {
    } else if s[..|t|] == t {
      SwappedAtStart(s, |t|, with);
    } else {
      var rest := s[1..];
      ReplacesFirst(rest, t, with);
      if Find(rest, t) == |rest| {
        Rejoined(s);
      } else {
        SwappedFurther(s, rest, Find(rest, t), |t|, with, ReplaceFirst(rest, t, with));
      }
    }
  }

  lemma CountZero(s: string, t: string)
    requires t != ""
    ensures Count(s, t) == 0 <==> !Occurs(s, t)
  {
    FindsFirst(s, t);
    CountAfterFirst(s, t);
  }

  lemma FoundThere(s: string, t: string)
    requires t != "" && Find(s, t) < |s|
    ensures OccursAt(s, t, Find(s, t))
  {
    FindsFirst(s, t);
  }

  lemma CountOneAt(s: string, t: string, p: nat, rest: string)
    requires t != "" && p < |s| && CountsAfter(s, t, p) && OccursAt(s, t, p) && rest == s[p + |t|..]
    ensures Count(s, t) == 1 <==> !Occurs(rest, t)
  {
    CountZero(rest, t);
  }

  /** A count of one means one occurrence and none after its end. */
  lemma CountOne(s: string, t: string, p: nat)
    requires t != "" && p == Find(s, t)
    ensures Count(s, t) == 1 <==> p < |s| && OccursAt(s, t, p) && !Occurs(s[p + |t|..], t)
  {
    CountAfterFirst(s, t);
    if p < |s| {
      FoundThere(s, t);
      CountOneAt(s, t, p, s[p + |t|..]);
    }
  }

  /** The occurrence is the only one, overlaps included. */
  ghost predicate Unique(s: string, t: string, p: int) {
    OccursAt(s, t, p) && forall q :: OccursAt(s, t, q) ==> q == p
  }

  lemma UniqueAt(s: string, t: string, p: nat, rest: string)
    requires t != "" && p < |s| && OccursAt(s, t, p) && rest == s[p + 1..] && forall q :: OccursAt(s, t, q) ==> p <= q
    ensures Unique(s, t, p) <==> !Occurs(rest, t)
  {
    if Occurs(rest, t) {
      var q :| OccursAt(rest, t, q);
      Shifted(s, t, p + 1, p + 1 + q);
    } else {
      forall q | OccursAt(s, t, q) ensures q == p {
        if q > p {
          Shifted(s, t, p + 1, q);
        }
      }
    }
  }

  /** A count of one is a unique occurrence exactly when none starts inside
      the first one. */
  lemma UniqueOccurrence(s: string, t: string)
    requires t != "" && Count(s, t) == 1
    ensures Find(s, t) < |s| && (Unique(s, t, Find(s, t)) <==> Count(s[Find(s, t) + 1..], t) == 0)
  {
    var p := Find(s, t);
    CountOne(s, t, p);
    FindsFirst(s, t);
    CountZero(s[p + 1..], t);
    UniqueAt(s, t, p, s[p + 1..]);
  }

  /** Two overlapping occurrences count as one. */
  lemma OverlapCountsOnce()
    ensures Count("aaa", "aa") == 1 && OccursAt("aaa", "aa", 0) && OccursAt("aaa", "aa", 1)
  {
    assert "aaa"[..2] == "aa" && "aaa"[0..2] == "aa" && "aaa"[1..3] == "aa";
  }

  /** The stretches of text between the counted occurrences. */
  function Between(s: string, t: string): (pieces: seq<string>)
    requires t != ""
    ensures |pieces| >= 1
    decreases |s|
  {
    if |s| < |t| then [s]
    else if s[..|t|] == t then [""] + Between(s[|t|..], t)
    else
      var rest := Between(s[1..], t);
      [[s[0]] + rest[0]] + rest[1..]
  }

  function Interleave(pieces: seq<string>, t: string): string
    requires |pieces| >= 1
  {
    if |pieces| == 1 then pieces[0] else pieces[0] + t + Interleave(pieces[1..], t)
  }

  lemma InterleaveEmpty(pieces: seq<string>, t: string)
    requires |pieces| >= 1
    ensures Interleave([""] + pieces, t) == t + Interleave(pieces, t)
  {
    assert ([""] + pieces)[1..] == pieces;
    assert "" + t == t;
  }

  lemma InterleaveMore(c: char, pieces: seq<string>, t: string)
    requires |pieces| >= 1
    ensures Interleave([[c] + pieces[0]] + pieces[1..], t) == [c] + Interleave(pieces, t)
  {
    var more := [[c] + pieces[0]] + pieces[1..];
    assert more[1..] == pieces[1..];
    if |pieces| > 1 {
      assert [c] + pieces[0] + t + Interleave(pieces[1..], t) == [c] + (pieces[0] + t + Interleave(pieces[1..], t));
    }
  }

  /** Replacing all swaps the substring at every counted occurrence and keeps
      every stretch between them. */
  lemma {:induction false} ReplaceAllSwaps(s: string, t: string, with: string)
    requires t != ""
    ensures |Between(s, t)| == Count(s, t) + 1
    ensures s == Interleave(Between(s, t), t)
    ensures ReplaceAll(s, t, with) == Interleave(Between(s, t), with)
    decreases |s|
  {
    if |s| < |t| {
    } else if s[..|t|] == t {
      ReplaceAllSwaps(s[|t|..], t, with);
      InterleaveEmpty(Between(s[|t|..], t), t);
      InterleaveEmpty(Between(s[|t|..], t), with);
      assert s == t + s[|t|..];
    } else {
      ReplaceAllSwaps(s[1..], t, with);
      InterleaveMore(s[0], Between(s[1..], t), t);
      InterleaveMore(s[0], Between(s[1..], t), with);
      assert s == [s[0]] + s[1..];
    }
  }

  /** Replacing only by longer texts, or only by shorter ones, moves the length
      one way. */
  lemma {:induction false} ReplaceAllLength(s: string, t: string, with: string)
    requires t != ""
    ensures |with| >= |t| ==> |ReplaceAll(s, t, with)| >= |s|
    ensures |with| <= |t| ==> |ReplaceAll(s, t, with)| <= |s|
    decreases |s|
  {
    if |s| >= |t| {
      if s[..|t|] == t {
        ReplaceAllLength(s[|t|..], t, with);
      } else {
        ReplaceAllLength(s[1..], t, with);
      }
    }
  }

  /** Replacing a text that occurs by another leaves another text. */
  lemma {:induction false} ReplaceAllChanges(s: string, t: string, with: string)
    requires t != "" && t != with && Count(s, t) > 0
    ensures ReplaceAll(s, t, with) != s
    decreases |s|
  {
    if s[..|t|] == t {
      var rest := ReplaceAll(s[|t|..], t, with);
      ReplaceAllLength(s[|t|..], t, with);
      if |with| == |t| {
        assert (with + rest)[..|t|] == with;
      }
    } else {
      ReplaceAllChanges(s[1..], t, with);
      assert ReplaceAll(s, t, with)[1..] == ReplaceAll(s[1..], t, with);
    }
  }
}
