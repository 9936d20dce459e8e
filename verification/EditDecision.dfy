/** Which Edit and Write calls are accepted, and why each other one is turned down, from
    the call and the file's text alone. */
module EditDecision {
  import opened Options
  import opened Text
  import opened Substrings
  import opened Hunks
  import opened PatchDocument
  import opened PatchWriter
  import opened FileEdits

  // ----- occurrences

  /** The text holds two occurrences that do not overlap. */
  ghost predicate TwoApart(s: string, t: string) {
    exists p, q :: OccursAt(s, t, p) && OccursAt(s, t, q) && p + |t| <= q
  }

  lemma SecondIsRest(s: string, t: string, p: nat)
    requires t != "" && p + |t| <= |s| && OccursAt(s, t, p) && forall q :: OccursAt(s, t, q) ==> p <= q
    ensures Occurs(s[p + |t|..], t) <==> TwoApart(s, t)
  {
    var rest := s[p + |t|..];
    if Occurs(rest, t) {
      var q :| OccursAt(rest, t, q);
      Shifted(s, t, p + |t|, p + |t| + q);
      assert OccursAt(s, t, p + |t| + q);
    }
    if p', q :| OccursAt(s, t, p') && OccursAt(s, t, q) && p' + |t| <= q {
      Shifted(s, t, p + |t|, q);
      assert OccursAt(rest, t, q - (p + |t|));
    }
  }

  lemma CountBy(s: string, t: string, p: nat)
    requires t != "" && FirstAt(s, t, p) && CountsAfter(s, t, p)
    ensures Count(s, t) > 1 <==> TwoApart(s, t)
  {
    if p < |s| {
      CountZero(s[p + |t|..], t);
      SecondIsRest(s, t, p);
    }
  }

  /** A count above one is two occurrences that do not overlap. */
  lemma CountAboveOne(s: string, t: string)
    requires t != ""
    ensures Count(s, t) > 1 <==> TwoApart(s, t)
  {
    FindsFirst(s, t);
    CountAfterFirst(s, t);
    CountBy(s, t, Find(s, t));
  }

  /** The pieces between occurrences taken from the left: each occurrence is the first
      one after the piece before it, and the last piece holds none. */
  ghost predicate FromTheLeft(pieces: seq<string>, t: string) {
    && |pieces| >= 1 && !Occurs(pieces[|pieces| - 1], t)
    && forall k :: 0 <= k < |pieces| - 1 ==> FirstAt(pieces[k] + t, t, |pieces[k]|)
  }

  lemma FirstMore(c: char, piece: string, rest: string, t: string)
    requires t != "" && FirstAt(piece + t, t, |piece|)
    requires |piece + t| <= |rest| && rest[..|piece + t|] == piece + t && !OccursAt([c] + rest, t, 0)
    ensures FirstAt([c] + piece + t, t, |piece| + 1)
  {
    var s := [c] + piece + t;
    assert s[1..] == piece + t && [c] + piece + t == [c] + (piece + t);
    assert |t| <= |s| && s[..|t|] == ([c] + rest)[..|t|] by {
      assert s == ([c] + rest)[..|s|];
    }
    assert ([c] + rest)[0..|t|] == ([c] + rest)[..|t|];
    FirstFurther(s, t, piece + t, |piece|);
  }

  lemma NoneMore(c: char, piece: string, t: string)
    requires t != "" && !Occurs(piece, t) && !OccursAt([c] + piece, t, 0)
    ensures !Occurs([c] + piece, t)
  {
    var s := [c] + piece;
    assert s[1..] == piece;
    forall q: nat | q >= 1 ensures OccursAt(s, t, q) <==> OccursAt(piece, t, q - 1) {
      Shifted(s, t, 1, q);
    }
  }

  lemma FirstOfNone(t: string)
    requires t != ""
    ensures FirstAt("" + t, t, 0)
  {
    assert "" + t == t && t[0..|t|] == t;
    assert OccursAt(t, t, 0);
  }

  lemma {:induction false} BetweenFromTheLeft(s: string, t: string)
    requires t != ""
    ensures FromTheLeft(Between(s, t), t)
    decreases |s|
  {
    if |s| < |t| {
    } else if s[..|t|] == t {
      BetweenFromTheLeft(s[|t|..], t);
      FirstOfNone(t);
    } else {
      BetweenFromTheLeft(s[1..], t);
      ReplaceAllSwaps(s[1..], t, t);
      LeftMore(s[0], Between(s[1..], t), s[1..], t);
      assert [s[0]] + s[1..] == s && s[0..|t|] == s[..|t|];
    }
  }

  lemma LeftMore(c: char, rest: seq<string>, s: string, t: string)
    requires t != "" && FromTheLeft(rest, t) && s == Interleave(rest, t) && !OccursAt([c] + s, t, 0)
    ensures FromTheLeft([[c] + rest[0]] + rest[1..], t)
  {
    var pieces := [[c] + rest[0]] + rest[1..];
    if |rest| == 1 {
      NoneMore(c, rest[0], t);
    } else {
      assert s == rest[0] + t + Interleave(rest[1..], t);
      assert s[..|rest[0] + t|] == rest[0] + t;
      FirstMore(c, rest[0], s, t);
      assert pieces[|pieces| - 1] == rest[|rest| - 1];
      forall k | 0 <= k < |pieces| - 1 ensures FirstAt(pieces[k] + t, t, |pieces[k]|) {
        if k > 0 {
          assert pieces[k] == rest[k];
        }
      }
    }
  }

  /** A piece that its first occurrence follows ends where the whole text has its first. */
  lemma FirstOfWhole(piece: string, t: string, rest: string)
    requires t != "" && FirstAt(piece + t, t, |piece|)
    ensures OccursAt(piece + t + rest, t, |piece|)
    ensures forall q :: OccursAt(piece + t + rest, t, q) ==> q >= |piece|
  {
    var s := piece + t + rest;
    assert s[|piece|..|piece| + |t|] == t;
    forall q | OccursAt(s, t, q) ensures q >= |piece| {
      if q < |piece| {
        assert s[q..q + |t|] == (piece + t)[q..q + |t|];
        assert OccursAt(piece + t, t, q);
      }
    }
  }

  lemma CutAfter(piece: string, t: string, rest: string)
    ensures var s := piece + t + rest; s[..|piece|] == piece && s[|piece| + |t|..] == rest
  {
  }

  /** There is one way to take the occurrences from the left. */
  lemma {:induction false} FromTheLeftOnce(x: seq<string>, y: seq<string>, t: string)
    requires t != "" && FromTheLeft(x, t) && FromTheLeft(y, t) && Interleave(x, t) == Interleave(y, t)
    ensures x == y
    decreases |x|
  {
    if |x| > 1 {
      FirstOfWhole(x[0], t, Interleave(x[1..], t));
      CutAfter(x[0], t, Interleave(x[1..], t));
    }
    if |y| > 1 {
      FirstOfWhole(y[0], t, Interleave(y[1..], t));
      CutAfter(y[0], t, Interleave(y[1..], t));
    }
    if |x| > 1 && |y| > 1 {
      RestFromTheLeft(x, t);
      RestFromTheLeft(y, t);
      FromTheLeftOnce(x[1..], y[1..], t);
      assert x == [x[0]] + x[1..] && y == [y[0]] + y[1..];
    }
  }

  lemma RestFromTheLeft(pieces: seq<string>, t: string)
    requires FromTheLeft(pieces, t) && |pieces| > 1
    ensures FromTheLeft(pieces[1..], t)
  {
    forall k | 0 <= k < |pieces[1..]| - 1 ensures FirstAt(pieces[1..][k] + t, t, |pieces[1..][k]|) {
      assert pieces[1..][k] == pieces[k + 1];
    }
  }

  // ----- the decision

  /** The text an Edit leaves: every occurrence from the left replaced, or the first. */
  ghost predicate Leaves(text: string, call: FileCall, after: string) {
    if call.replaceAll then
      exists pieces :: FromTheLeft(pieces, call.oldText)
        && text == Interleave(pieces, call.oldText) && after == Interleave(pieces, call.newText)
    else
      exists p :: FirstAt(text, call.oldText, p) && Swapped(text, p, |call.oldText|, call.newText, after)
  }

  lemma LeavesAfter(call: FileCall, text: string)
    requires call.tool == EditFile && call.oldText != "" && Occurs(text, call.oldText)
    ensures Leaves(text, call, AfterText(call, text))
  {
    var t := call.oldText;
    if call.replaceAll {
      BetweenFromTheLeft(text, t);
      ReplaceAllSwaps(text, t, call.newText);
    } else {
      FindsFirst(text, t);
      ReplacesFirst(text, t, call.newText);
    }
  }

  /** Why an Edit of a file's text is turned down, if it is: in this order, because its
      path is not absolute, there is no text to replace, the two texts are the same, it
      occurs nowhere, or it occurs twice apart and not all are to be replaced. */
  ghost function GroundOf(call: FileCall, text: string): Option<Reason> {
    if !("/" <= call.path) then Some(RelativePath)
    else if |call.oldText| == 0 then Some(EmptyOldText)
    else if call.oldText == call.newText then Some(SameTexts)
    else if !Occurs(text, call.oldText) then Some(NotFound)
    else if TwoApart(text, call.oldText) && !call.replaceAll then Some(Ambiguous)
    else None
  }

  /** Every Edit of a file that can be read is turned down exactly on its ground; without
      one it leaves the text with its occurrences replaced, and is accepted, as an update
      that changes the one into the other, exactly when the two differ as lines. */
  lemma EditDecided(call: FileCall, text: string) returns (after: string)
    requires call.tool == EditFile
    ensures var d := Decide(call, FileRead.Text(text)); var ground := GroundOf(call, text);
            && (ground.Some? ==> d == Reject(ground.value))
            && (ground == None ==>
                  && Leaves(text, call, after)
                  && d == if Lines(text) == Lines(after) then Reject(NothingToChange)
                          else Patch(UpdateDoc(call.path, Slices(TextDiff(text, after))), Change(call.path, text, true, after)))
  {
    after := AfterText(call, text);
    if "/" <= call.path && call.oldText != "" {
      CountZero(text, call.oldText);
      CountAboveOne(text, call.oldText);
      if Occurs(text, call.oldText) {
        LeavesAfter(call, text);
      }
    }
  }

  /** There is one text that an Edit can leave. */
  lemma LeavesOne(text: string, call: FileCall, after: string, other: string)
    requires call.oldText != "" && Leaves(text, call, after) && Leaves(text, call, other)
    ensures after == other
  {
    var t := call.oldText;
    if call.replaceAll {
      var x :| FromTheLeft(x, t) && text == Interleave(x, t) && after == Interleave(x, call.newText);
      var y :| FromTheLeft(y, t) && text == Interleave(y, t) && other == Interleave(y, call.newText);
      FromTheLeftOnce(x, y, t);
    }
  }

  /** So an Edit is accepted exactly when its path is absolute, the text to replace is
      there, is not empty and not its own replacement, occurs only once apart or is to be
      replaced everywhere, and the one text it can leave differs as lines. */
  lemma EditAcceptedExactlyWhen(call: FileCall, text: string)
    requires call.tool == EditFile
    ensures Decide(call, FileRead.Text(text)).Patch? <==>
            && "/" <= call.path && call.oldText != "" && call.oldText != call.newText && Occurs(text, call.oldText)
            && (call.replaceAll || !TwoApart(text, call.oldText))
            && exists after :: Leaves(text, call, after) && Lines(text) != Lines(after)
  {
    var after := EditDecided(call, text);
    if call.oldText != "" && Leaves(text, call, after) {
      forall other | Leaves(text, call, other) ensures other == after {
        LeavesOne(text, call, after, other);
      }
    }
  }

  /** A file that is missing or cannot be read: an Edit of it is turned down; a Write
      makes one that is missing. */
  lemma NoTextDecided(call: FileCall)
    ensures Decide(call, Unreadable) == if "/" <= call.path then Reject(CannotRead) else Reject(RelativePath)
    ensures Decide(call, Missing) ==
            if !("/" <= call.path) then Reject(RelativePath)
            else if call.tool == EditFile then Reject(NoSuchFile)
            else Patch(AddDoc(call.path, call.content), Change(call.path, "", false, call.content))
  {
  }

  /** A Write of a file that is there is accepted, as an update, exactly when its path is
      absolute and its content differs as lines. */
  lemma WriteDecided(call: FileCall, text: string)
    requires call.tool == WriteFile
    ensures var d := Decide(call, FileRead.Text(text));
            && (!("/" <= call.path) ==> d == Reject(RelativePath))
            && ("/" <= call.path && Lines(text) == Lines(call.content) ==> d == Reject(NothingToChange))
            && ("/" <= call.path && Lines(text) != Lines(call.content) ==>
                  d == Patch(UpdateDoc(call.path, Slices(TextDiff(text, call.content))), Change(call.path, text, true, call.content)))
  {
    assert AfterText(call, text) == call.content;
  }
}
