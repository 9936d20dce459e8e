/** Claude's Edit and Write calls: what each becomes, what its document does to the
    files, and what it means that it is accepted or turned down. */
module FileEdits {
  import opened Options
  import opened Text
  import opened Substrings
  import opened Diff
  import opened Hunks
  import opened PatchDocument
  import opened PatchWriter

  datatype Tool = EditFile | WriteFile

  /** The arguments of one call. */
  datatype FileCall = FileCall(tool: Tool, path: string, oldText: string, newText: string, replaceAll: bool, content: string)

  /** What reading a file gives. */
  datatype FileRead = Text(text: string) | Missing | Unreadable

  /** The files on disk, which do not change while a message's calls are decided. */
  type Disk = string -> FileRead

  datatype Reason =
    | RelativePath | CannotRead | NoSuchFile | EmptyOldText | SameTexts | NotFound | Ambiguous | NothingToChange

  /** The file change behind an Edit or Write. */
  datatype Change = Change(path: string, before: string, existed: bool, after: string)

  datatype Decision = Reject(reason: Reason) | Patch(doc: string, change: Change)

  // ----- one call

  predicate IsAbsolute(path: string) {
    path != "" && path[0] == '/'
  }

  /** Why an Edit is turned down, if it is, given the file's text. */
  function EditRefusal(call: FileCall, existed: bool, before: string): Option<Reason> {
    if !existed then Some(NoSuchFile)
    else if call.oldText == "" then Some(EmptyOldText)
    else if call.oldText == call.newText then Some(SameTexts)
    else if Count(before, call.oldText) == 0 then Some(NotFound)
    else if Count(before, call.oldText) > 1 && !call.replaceAll then Some(Ambiguous)
    else None
  }

  /** The text the call leaves. */
  function AfterText(call: FileCall, before: string): string {
    if call.tool == WriteFile || call.oldText == "" then call.content
    else if call.replaceAll then ReplaceAll(before, call.oldText, call.newText)
    else ReplaceFirst(before, call.oldText, call.newText)
  }

  /** What one call becomes, given what reading its file gives. */
  function Decide(call: FileCall, read: FileRead): Decision {
    if !IsAbsolute(call.path) then Reject(RelativePath)
    else if read == Unreadable then Reject(CannotRead)
    else
      var existed, before := read.Text?, if read.Text? then read.text else "";
      var refusal := if call.tool == EditFile then EditRefusal(call, existed, before) else None;
      if refusal.Some? then Reject(refusal.value)
      else
        var after := AfterText(call, before);
        if !existed then Patch(AddDoc(call.path, after), Change(call.path, before, false, after))
        else if Lines(before) == Lines(after) then Reject(NothingToChange)
        else Patch(UpdateDoc(call.path, Slices(TextDiff(before, after))), Change(call.path, before, true, after))
  }

  /** The same decision, reached by running the patch writer. */
  method DecideCall(call: FileCall, read: FileRead) returns (d: Decision)
    ensures d == Decide(call, read)
  {
    if !IsAbsolute(call.path) {
      return Reject(RelativePath);
    }
    if read == Unreadable {
      return Reject(CannotRead);
    }
    var existed, before := read.Text?, if read.Text? then read.text else "";
    var after := call.content;
    if call.tool == EditFile {
      if !existed {
        return Reject(NoSuchFile);
      } else if call.oldText == "" {
        return Reject(EmptyOldText);
      } else if call.oldText == call.newText {
        return Reject(SameTexts);
      }
      var n := Count(before, call.oldText);
      if n == 0 {
        return Reject(NotFound);
      } else if n > 1 && !call.replaceAll {
        return Reject(Ambiguous);
      } else if call.replaceAll {
        after := ReplaceAll(before, call.oldText, call.newText);
      } else {
        after := ReplaceFirst(before, call.oldText, call.newText);
      }
    }
    var doc := AddDoc(call.path, after);
    if existed {
      var changed;
      doc, changed := Update(call.path, before, after);
      if !changed {
        return Reject(NothingToChange);
      }
    }
    return Patch(doc, Change(call.path, before, existed, after));
  }

  /** Runs an update through Codex's patch engine, whose answer is given; when
      it would not reproduce the edit, the whole file is rewritten instead. */
  function CheckPatch(d: Decision, checkPasses: bool): Decision
    requires d.Patch?
  {
    if !d.change.existed || checkPasses then d
    else d.(doc := RewriteDoc(d.change.path, d.change.after))
  }

  // ----- replaying patches

  /** Files as lines: those patched so far, over those on disk. */
  function FileLines(disk: Disk, patched: map<string, seq<string>>, path: string): Option<seq<string>> {
    if path in patched then Some(patched[path])
    else match disk(path)
      case Text(text) => Some(Lines(text))
      case _ => None
  }

  /** A hunk as the document gives it, at the line the diff has it. */
  function PlaceHunks(hunks: seq<seq<Op>>, at: seq<Edit>): (edits: seq<Edit>)
    requires |hunks| == |at|
    ensures |edits| == |at|
  {
    seq(|hunks|, k requires 0 <= k < |hunks| => Edit(at[k].at, Old(hunks[k]), New(hunks[k])))
  }

  /** Applies one accepted document, as the grammar reads it: it may only add a
      file that is not there, and only update or delete one that is. */
  function Apply(disk: Disk, patched: map<string, seq<string>>, d: Decision): Option<map<string, seq<string>>>
    requires d.Patch?
  {
    ApplyParsed(disk, patched, Read(d.doc), Edits(TextDiff(d.change.before, d.change.after)))
  }

  function ApplyParsed(disk: Disk, patched: map<string, seq<string>>, parsed: Option<seq<Section>>, at: seq<Edit>)
    : Option<map<string, seq<string>>>
  {
    match parsed
    case None => None
    case Some(sections) => ApplySections(disk, patched, sections, at)
  }

  function ApplySections(disk: Disk, patched: map<string, seq<string>>, sections: seq<Section>, at: seq<Edit>)
    : Option<map<string, seq<string>>>
  {
    if |sections| == 1 && sections[0].AddFile? && FileLines(disk, patched, sections[0].path) == None then
      Some(patched[sections[0].path := sections[0].lines])
    else if |sections| == 2 && sections[0].DeleteFile? && sections[1].AddFile? && sections[0].path == sections[1].path
            && FileLines(disk, patched, sections[0].path) != None then
      Some(patched[sections[1].path := sections[1].lines])
    else if |sections| == 1 && sections[0].UpdateFile? then
      ApplyUpdate(disk, patched, sections[0].path, sections[0].hunks, at)
    else None
  }

  function ApplyUpdate(disk: Disk, patched: map<string, seq<string>>, path: string, hunks: seq<seq<Op>>, at: seq<Edit>)
    : Option<map<string, seq<string>>>
  {
    match FileLines(disk, patched, path)
    case None => None
    case Some(lines) =>
      if |hunks| != |at| then None
      else match Replay(lines, PlaceHunks(hunks, at))
        case None => None
        case Some(after) => Some(patched[path := after])
  }

  predicate PathsOneLine(sections: seq<Section>) {
    forall k :: 0 <= k < |sections| ==> OneLine(sections[k].path)
  }

  /** What holds of a file's lines before, if it was patched, holds after. */
  predicate SameAt(x: map<string, seq<string>>, y: map<string, seq<string>>, path: string) {
    (path in x <==> path in y) && (path in x ==> x[path] == y[path])
  }

  lemma SectionsKeep(disk: Disk, patched: map<string, seq<string>>, sections: seq<Section>, at: seq<Edit>, path: string)
    requires PathsOneLine(sections) && !OneLine(path) && ApplySections(disk, patched, sections, at) != None
    ensures SameAt(patched, ApplySections(disk, patched, sections, at).value, path)
  {
  }

  /** No document changes a file whose path holds a line break. */
  lemma ApplyKeeps(disk: Disk, patched: map<string, seq<string>>, d: Decision, path: string)
    requires d.Patch? && !OneLine(path) && Apply(disk, patched, d) != None
    ensures SameAt(patched, Apply(disk, patched, d).value, path)
  {
    var parsed, at := Read(d.doc), Edits(TextDiff(d.change.before, d.change.after));
    assert ApplyParsed(disk, patched, parsed, at) != None;
    PathsRead(d.doc);
    SectionsKeep(disk, patched, parsed.value, at, path);
  }

  lemma ApplyAdd(disk: Disk, patched: map<string, seq<string>>, change: Change)
    requires OneLine(change.path) && FileLines(disk, patched, change.path) == None
    ensures Apply(disk, patched, Patch(AddDoc(change.path, change.after), change)) ==
            Some(patched[change.path := Lines(change.after)])
  {
    AddReadsBack(change.path, change.after);
  }

  lemma ApplyRewrite(disk: Disk, patched: map<string, seq<string>>, change: Change)
    requires OneLine(change.path) && FileLines(disk, patched, change.path) != None
    ensures Apply(disk, patched, Patch(RewriteDoc(change.path, change.after), change)) ==
            Some(patched[change.path := Lines(change.after)])
  {
    RewriteReadsBack(change.path, change.after);
  }

  lemma ApplyRead(disk: Disk, patched: map<string, seq<string>>, d: Decision, hunks: seq<seq<Op>>, at: seq<Edit>)
    requires d.Patch? && Read(d.doc) == Some([UpdateFile(d.change.path, hunks)])
    requires at == Edits(TextDiff(d.change.before, d.change.after))
    requires |hunks| == |at| && PlaceHunks(hunks, at) == at
    requires FileLines(disk, patched, d.change.path) == Some(Lines(d.change.before))
    requires Replay(Lines(d.change.before), at) == Some(Lines(d.change.after))
    ensures Apply(disk, patched, d) == Some(patched[d.change.path := Lines(d.change.after)])
  {
    assert Apply(disk, patched, d) == ApplyParsed(disk, patched, Some([UpdateFile(d.change.path, hunks)]), at);
    assert ApplyUpdate(disk, patched, d.change.path, hunks, at) == Some(patched[d.change.path := Lines(d.change.after)]);
  }

  lemma PlacedWhereCut(hunks: seq<seq<Op>>, at: seq<Edit>)
    requires |hunks| == |at|
    requires forall k :: 0 <= k < |hunks| ==> at[k].before == Old(hunks[k]) && at[k].after == New(hunks[k])
    ensures PlaceHunks(hunks, at) == at
  {
    forall k | 0 <= k < |at| ensures PlaceHunks(hunks, at)[k] == at[k] {
      assert at[k].before == Old(hunks[k]);
    }
  }

  lemma ApplyHunks(disk: Disk, patched: map<string, seq<string>>, change: Change)
    requires OneLine(change.path) && FileLines(disk, patched, change.path) == Some(Lines(change.before))
    ensures Apply(disk, patched, Patch(UpdateDoc(change.path, Slices(TextDiff(change.before, change.after))), change)) ==
            Some(patched[change.path := Lines(change.after)])
  {
    var ops := TextDiff(change.before, change.after);
    UpdateCarriesChange(change.path, change.before, change.after);
    PlacedWhereCut(Slices(ops), Edits(ops));
    ApplyRead(disk, patched, Patch(UpdateDoc(change.path, Slices(ops)), change), Slices(ops), Edits(ops));
  }

  // ----- what an accepted call means

  /** A call that nothing is wrong with and that changes the lines of a file. */
  lemma ChangesFile(call: FileCall, before: string, after: string)
    requires IsAbsolute(call.path) && (call.tool == EditFile ==> EditRefusal(call, true, before) == None)
    requires AfterText(call, before) == after && Lines(before) != Lines(after)
    ensures var d := Decide(call, FileRead.Text(before)); d.Patch? && d.change == Change(call.path, before, true, after)
  {
  }

  lemma EditAccepted(call: FileCall, before: string)
    requires call.tool == EditFile && Decide(call, Text(before)).Patch?
    ensures EditRefusal(call, true, before) == None
    ensures Decide(call, Text(before)).change.after == AfterText(call, before)
  {
  }

  lemma UniqueEdit(call: FileCall, before: string, p: nat)
    requires call.tool == EditFile && !call.replaceAll && EditRefusal(call, true, before) == None
    requires p == Find(before, call.oldText)
    ensures OccursAt(before, call.oldText, p) && !Occurs(before[p + |call.oldText|..], call.oldText)
    ensures AfterText(call, before) == before[..p] + call.newText + before[p + |call.oldText|..]
    ensures Unique(before, call.oldText, p) <==> Count(before[p + 1..], call.oldText) == 0
  {
    assert Count(before, call.oldText) == 1;
    OneReplaced(before, call.oldText, call.newText, p);
  }

  lemma OneReplaced(s: string, t: string, with: string, p: nat)
    requires t != "" && Count(s, t) == 1 && p == Find(s, t)
    ensures OccursAt(s, t, p) && !Occurs(s[p + |t|..], t)
    ensures ReplaceFirst(s, t, with) == s[..p] + with + s[p + |t|..]
    ensures Unique(s, t, p) <==> Count(s[p + 1..], t) == 0
  {
    CountOne(s, t, p);
    UniqueOccurrence(s, t);
    ReplacesFirst(s, t, with);
  }

  /** An accepted Edit without replace_all swaps the first occurrence, at p, and
      has no other one after its end. It is the only one, as the tool promises,
      exactly when none starts inside it either. */
  lemma EditOfUniqueText(call: FileCall, before: string, d: Decision, p: nat)
    requires call.tool == EditFile && !call.replaceAll && d.Patch? && d == Decide(call, Text(before))
    requires call.oldText != "" && p == Find(before, call.oldText)
    ensures OccursAt(before, call.oldText, p) && !Occurs(before[p + |call.oldText|..], call.oldText)
    ensures d.change.after == before[..p] + call.newText + before[p + |call.oldText|..]
    ensures Unique(before, call.oldText, p) <==> Count(before[p + 1..], call.oldText) == 0
  {
    EditAccepted(call, before);
    UniqueEdit(call, before, p);
  }

  /** An Edit is accepted only for a file that is there and a text to replace. */
  lemma EditNeedsFile(call: FileCall, read: FileRead)
    requires call.tool == EditFile
    ensures Decide(call, read).Patch? ==>
              read.Text? && call.oldText != "" && Occurs(read.text, call.oldText) && call.oldText != call.newText
  {
    if Decide(call, read).Patch? {
      CountZero(read.text, call.oldText);
    }
  }

  /** An accepted Edit that is not unique: the text occurs twice, overlapping. */
  lemma EditOfOverlap()
    ensures var call := FileCall(EditFile, "/f", "aa", "b", false, "");
            var d := Decide(call, Text("aaa"));
            && d.Patch? && d.change.after == "ba"
            && OccursAt("aaa", "aa", 0) && OccursAt("aaa", "aa", 1)
  {
    OverlapCountsOnce();
    var t := "aaa";
    assert t[..2] == "aa";
    assert ReplaceFirst(t, "aa", "b") == "b" + t[2..] == "ba";
    LinesForget("aaa", "ba");
  }

  /** An accepted replace_all Edit swaps every counted occurrence and keeps the
      text between them. */
  lemma EditOfAllText(call: FileCall, read: FileRead)
    requires call.tool == EditFile && call.replaceAll && Decide(call, read).Patch?
    ensures call.oldText != "" && read.Text?
    ensures var between := Between(read.text, call.oldText);
            && |between| == Count(read.text, call.oldText) + 1 >= 2
            && read.text == Interleave(between, call.oldText)
            && Decide(call, read).change.after == Interleave(between, call.newText)
  {
    ReplaceAllSwaps(read.text, call.oldText, call.newText);
  }

  /** A call on a file that is there is turned down as changing nothing exactly when
      nothing else is wrong with it and what it would leave is the file's text or
      differs from it by the final line break alone. */
  lemma TurnedDownExactlyWhen(call: FileCall, text: string)
    ensures var after := AfterText(call, text);
            Decide(call, Text(text)) == Reject(NothingToChange) <==>
              (&& IsAbsolute(call.path) && (call.tool == EditFile ==> EditRefusal(call, true, text) == None)
               && (after == text || EndsLine(text, after) || EndsLine(after, text)))
  {
    LinesForget(text, AfterText(call, text));
  }

  /** So a Write is when its content is the file's text, or all but. */
  lemma WriteTurnedDown(call: FileCall, text: string)
    requires call.tool == WriteFile && IsAbsolute(call.path)
    ensures Decide(call, Text(text)) == Reject(NothingToChange) <==>
            call.content == text || EndsLine(text, call.content) || EndsLine(call.content, text)
  {
    TurnedDownExactlyWhen(call, text);
  }

  /** An Edit that nothing else is wrong with always changes the text, all
      occurrences or one. */
  lemma EditChanges(call: FileCall, text: string)
    requires call.tool == EditFile && EditRefusal(call, true, text) == None
    ensures AfterText(call, text) != text
  {
    var t := call.oldText;
    FindsFirst(text, t);
    CountZero(text, t);
    if call.replaceAll {
      ReplaceAllChanges(text, t, call.newText);
    } else {
      ReplacesFirst(text, t, call.newText);
      SwapChanges(text, Find(text, t), t, call.newText);
    }
  }

  /** Swapping an occurrence for another text leaves another text. */
  lemma SwapChanges(s: string, p: nat, t: string, with: string)
    requires OccursAt(s, t, p) && t != with
    ensures s[..p] + with + s[p + |t|..] != s
  {
    var r := s[..p] + with + s[p + |t|..];
    assert |r| == |s| - |t| + |with| && r[p..p + |with|] == with;
  }

  /** So an Edit is turned down as changing nothing exactly when it changes the
      final line break alone: the refusal, that the file is so already, is wrong
      every time. */
  lemma EditTurnedDown(call: FileCall, text: string)
    requires call.tool == EditFile
    ensures var after := AfterText(call, text);
            Decide(call, Text(text)) == Reject(NothingToChange) <==>
              (&& IsAbsolute(call.path) && EditRefusal(call, true, text) == None
               && after != text && (EndsLine(text, after) || EndsLine(after, text)))
  {
    TurnedDownExactlyWhen(call, text);
    if EditRefusal(call, true, text) == None {
      EditChanges(call, text);
    }
  }

  /** An Edit that gives a file its final line break, turned down. */
  lemma EditOfFinalBreak()
    ensures var call := FileCall(EditFile, "/f", "foo", "foo\n", false, "");
            AfterText(call, "foo") == "foo\n" && Decide(call, Text("foo")) == Reject(NothingToChange)
  {
    var call := FileCall(EditFile, "/f", "foo", "foo\n", false, "");
    var t := "foo";
    assert t[..3] == t && t[3..] == "";
    assert Count(t, t) == 1 + Count("", t) == 1;
    assert ReplaceFirst(t, t, "foo\n") == "foo\n" + t[3..];
    assert EndsLine("foo", "foo\n");
    TurnedDownExactlyWhen(call, "foo");
  }
}
