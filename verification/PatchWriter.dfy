/** The patch writer: from a file before and after to the document that carries
    the change, and back. */
module PatchWriter {
  import opened Options
  import opened Text
  import opened Diff
  import opened Hunks
  import opened PatchDocument

  /** The diff of two texts, line by line. */
  function TextDiff(before: string, after: string): seq<Op> {
    DiffOps(Lines(before), Lines(after))
  }

  lemma {:induction false} LinesOfOps(ops: seq<Op>)
    requires OneLineEach(Old(ops)) && OneLineEach(New(ops))
    ensures OpsOneLine(ops)
  {
    if ops != [] {
      var op, rest := ops[0], ops[1..];
      if op.kind != Add {
        assert Old(ops)[0] == op.line && Old(ops)[1..] == Old(rest);
      } else {
        assert Old(ops) == Old(rest);
      }
      if op.kind != Remove {
        assert New(ops)[0] == op.line && New(ops)[1..] == New(rest);
      } else {
        assert New(ops) == New(rest);
      }
      LinesOfOps(rest);
    }
  }

  lemma SliceLines(ops: seq<Op>)
    requires OpsOneLine(ops)
    ensures HunksOneLine(Slices(ops))
  {
    var slices := Slices(ops);
    forall k | 0 <= k < |slices| ensures OpsOneLine(slices[k]) {
      var h := HunksOf(ops)[k];
      assert slices[k] == ops[Lo(h)..Hi(ops, h)];
    }
  }

  /** Everything an Update document prints stays on its line. */
  lemma SlicesOneLine(before: string, after: string)
    ensures HunksOneLine(Slices(TextDiff(before, after)))
  {
    DiffSides(Lines(before), Lines(after));
    LinesOfOps(TextDiff(before, after));
    SliceLines(TextDiff(before, after));
  }

  /** The document a reader gets back holds hunks that, put where the diff has
      them, turn the old lines into the new lines. */
  lemma UpdateCarriesChange(path: string, before: string, after: string)
    requires OneLine(path)
    ensures var ops := TextDiff(before, after);
            && Read(UpdateDoc(path, Slices(ops))) == Some([UpdateFile(path, Slices(ops))])
            && |Edits(ops)| == |Slices(ops)|
            && (forall k :: 0 <= k < |Slices(ops)| ==>
                 Edits(ops)[k].before == Old(Slices(ops)[k]) && Edits(ops)[k].after == New(Slices(ops)[k]))
            && Replay(Lines(before), Edits(ops)) == Some(Lines(after))
  {
    var ops := TextDiff(before, after);
    SlicesOneLine(before, after);
    UpdateReadsBack(path, Slices(ops));
    HunksSlicedApart(ops);
    EditsCarrySlices(ops, HunksOf(ops), |HunksOf(ops)|);
    ReplayDiff(Lines(before), Lines(after));
  }

  /** Writes one slice's lines to the builder. */
  method WriteOps(b: string, ops: seq<Op>) returns (s: string)
    ensures s == b + PrintOps(ops)
  {
    s := b;
    for k := 0 to |ops|
      invariant s + PrintOps(ops[k..]) == b + PrintOps(ops)
    {
      var line := [Mark(ops[k].kind)] + ops[k].line + "\n";
      assert ops[k..][1..] == ops[k + 1..];
      Assoc(s, line, PrintOps(ops[k + 1..]));
      s := s + line;
    }
    assert ops[|ops|..] == [];
  }

  lemma NextHunk(b: string, printed: string, hunk: seq<Op>, more: seq<seq<Op>>)
    requires printed == b + (HUNK + "\n") + PrintOps(hunk)
    ensures printed + PrintHunks(more) == b + PrintHunks([hunk] + more)
  {
    assert ([hunk] + more)[1..] == more;
    Glue(b, HUNK + "\n", PrintOps(hunk), PrintHunks(more));
  }

  lemma Glue<T>(a: seq<T>, b: seq<T>, c: seq<T>, d: seq<T>)
    ensures a + (b + (c + d)) == a + b + c + d
  {
  }

  /** Writes every hunk's slice to the builder. */
  method WriteHunks(start: string, ops: seq<Op>, hunks: seq<Hunk>) returns (b: string)
    requires forall k :: 0 <= k < |hunks| ==> Sliced(ops, hunks[k])
    ensures b == start + PrintHunks(SlicesOf(ops, hunks, |hunks|))
  {
    ghost var slices := SlicesOf(ops, hunks, |hunks|);
    b := start;
    for k := 0 to |hunks|
      invariant b + PrintHunks(slices[k..]) == start + PrintHunks(slices)
    {
      ghost var was := b;
      assert Sliced(ops, hunks[k]);
      assert slices[k] == ops[Lo(hunks[k])..Hi(ops, hunks[k])];
      assert slices[k..] == [slices[k]] + slices[k + 1..];
      b := WriteOps(b + (HUNK + "\n"), ops[Lo(hunks[k])..Hi(ops, hunks[k])]);
      NextHunk(was, b, slices[k], slices[k + 1..]);
    }
    assert slices[|hunks|..] == [];
  }

  /** An Update File document that turns before into after; false, and no
      document, when both have the same lines. */
  method Update(path: string, before: string, after: string) returns (doc: string, changed: bool)
    ensures changed <==> Lines(before) != Lines(after)
    ensures doc == if changed then UpdateDoc(path, Slices(TextDiff(before, after))) else ""
  {
    var ops := Diff.Diff(Lines(before), Lines(after));
    NoHunksWhenSame(Lines(before), Lines(after));
    HunksSlicedApart(ops);
    var hunks := FindHunks(ops);
    if |hunks| == 0 {
      return "", false;
    }
    var b := WriteHunks(BEGIN + "\n" + (UPDATE_FILE + path + "\n"), ops, hunks);
    Assoc(BEGIN + "\n", UPDATE_FILE + path + "\n", PrintHunks(Slices(ops)));
    return b + END, true;
  }
}
