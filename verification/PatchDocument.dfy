/** The apply_patch documents the bridge prints, and the grammar that reads them
    back: a header, sections that add, delete or update a file, and a footer. */
module PatchDocument {
  import opened Options
  import opened Text
  import opened Diff
  import opened Hunks

  const BEGIN := "*** Begin Patch"
  const END := "*** End Patch"
  const ADD_FILE := "*** Add File: "
  const DELETE_FILE := "*** Delete File: "
  const UPDATE_FILE := "*** Update File: "
  const HUNK := "@@"

  /** One file's part of a document. */
  datatype Section =
    | AddFile(path: string, lines: seq<string>)
    | DeleteFile(path: string)
    | UpdateFile(path: string, hunks: seq<seq<Op>>)

  // ----- printing

  function Mark(kind: Kind): char {
    match kind
    case Keep => ' '
    case Remove => '-'
    case Add => '+'
  }

  function PrintOps(ops: seq<Op>): string {
    if ops == [] then "" else [Mark(ops[0].kind)] + ops[0].line + "\n" + PrintOps(ops[1..])
  }

  function PrintHunks(hunks: seq<seq<Op>>): string {
    if hunks == [] then "" else HUNK + "\n" + (PrintOps(hunks[0]) + PrintHunks(hunks[1..]))
  }

  function PrintAdded(lines: seq<string>): string {
    if lines == [] then "" else "+" + lines[0] + "\n" + PrintAdded(lines[1..])
  }

  /** The document Update returns for these hunks. */
  function UpdateDoc(path: string, hunks: seq<seq<Op>>): string {
    BEGIN + "\n" + (UPDATE_FILE + path + "\n" + PrintHunks(hunks)) + END
  }

  /** An Add File document that creates path with content. */
  function AddDoc(path: string, content: string): string {
    BEGIN + "\n" + (ADD_FILE + path + "\n" + PrintAdded(Lines(content))) + END
  }

  /** A document that replaces path's whole content. */
  function RewriteDoc(path: string, content: string): string {
    BEGIN + "\n" + (DELETE_FILE + path + "\n" + (ADD_FILE + path + "\n" + PrintAdded(Lines(content)))) + END
  }

  // ----- reading

  function KindOf(mark: char): Option<Kind> {
    if mark == ' ' then Some(Keep) else if mark == '-' then Some(Remove) else if mark == '+' then Some(Add) else None
  }

  function After(prefix: string, line: string): Option<string> {
    if prefix <= line then Some(line[|prefix|..]) else None
  }

  /** The operations a hunk's lines start with, and the lines after them. */
  function ReadOps(lines: seq<string>): (r: (seq<Op>, seq<string>))
    ensures |r.1| <= |lines|
  {
    if lines == [] || lines[0] == "" || KindOf(lines[0][0]) == None then ([], lines)
    else
      var (ops, rest) := ReadOps(lines[1..]);
      ([Op(KindOf(lines[0][0]).value, lines[0][1..])] + ops, rest)
  }

  /** The hunks a section's lines start with, and the lines after them. */
  function ReadHunks(lines: seq<string>): (r: (seq<seq<Op>>, seq<string>))
    ensures |r.1| <= |lines|
    decreases |lines|
  {
    if lines == [] || lines[0] != HUNK then ([], lines)
    else
      var (ops, after) := ReadOps(lines[1..]);
      var (hunks, rest) := ReadHunks(after);
      ([ops] + hunks, rest)
  }

  function ReadAdded(lines: seq<string>): (r: (seq<string>, seq<string>))
    ensures |r.1| <= |lines|
  {
    if lines == [] || lines[0] == "" || lines[0][0] != '+' then ([], lines)
    else
      var (added, rest) := ReadAdded(lines[1..]);
      ([lines[0][1..]] + added, rest)
  }

  /** Sections up to the footer, which must be the last line. */
  function ReadSections(lines: seq<string>): Option<seq<Section>>
    decreases |lines|
  {
    if lines == [] then None
    else if lines == [END] then Some([])
    else
      var (section, rest) := ReadSection(lines);
      if section == None then None
      else match ReadSections(rest)
        case Some(sections) => Some([section.value] + sections)
        case None => None
  }

  function ReadSection(lines: seq<string>): (r: (Option<Section>, seq<string>))
    requires lines != []
    ensures |r.1| < |lines|
  {
    if After(ADD_FILE, lines[0]) != None then
      var (added, rest) := ReadAdded(lines[1..]);
      (Some(AddFile(After(ADD_FILE, lines[0]).value, added)), rest)
    else if After(DELETE_FILE, lines[0]) != None then
      (Some(DeleteFile(After(DELETE_FILE, lines[0]).value)), lines[1..])
    else if After(UPDATE_FILE, lines[0]) != None then
      var (hunks, rest) := ReadHunks(lines[1..]);
      (Some(UpdateFile(After(UPDATE_FILE, lines[0]).value, hunks)), rest)
    else (None, lines[1..])
  }

  /** Reads a whole document. */
  function Read(doc: string): Option<seq<Section>> {
    var lines := Split(doc);
    if lines[0] != BEGIN then None else ReadSections(lines[1..])
  }

  // ----- round trips

  predicate OpsOneLine(ops: seq<Op>) {
    forall k :: 0 <= k < |ops| ==> OneLine(ops[k].line)
  }

  predicate HunksOneLine(hunks: seq<seq<Op>>) {
    forall k :: 0 <= k < |hunks| ==> OpsOneLine(hunks[k])
  }

  /** No line of an operation can begin what follows the operations. */
  predicate StopsOps(rest: seq<string>) {
    rest == [] || rest[0] == "" || KindOf(rest[0][0]) == None
  }

  function OpLines(ops: seq<Op>): seq<string> {
    if ops == [] then [] else [[Mark(ops[0].kind)] + ops[0].line] + OpLines(ops[1..])
  }

  function HunkLines(hunks: seq<seq<Op>>): seq<string> {
    if hunks == [] then [] else [HUNK] + OpLines(hunks[0]) + HunkLines(hunks[1..])
  }

  function AddedLines(lines: seq<string>): seq<string> {
    if lines == [] then [] else ["+" + lines[0]] + AddedLines(lines[1..])
  }

  lemma Assoc<T>(x: seq<T>, y: seq<T>, z: seq<T>)
    ensures x + y + z == x + (y + z)
  {
  }

  lemma {:induction false} PrintedOps(ops: seq<Op>)
    requires OpsOneLine(ops)
    ensures PrintOps(ops) == Unlines(OpLines(ops)) && OneLineEach(OpLines(ops))
  {
    if ops != [] {
      PrintedOps(ops[1..]);
      assert OpLines(ops)[1..] == OpLines(ops[1..]);
    }
  }

  lemma {:induction false} PrintedHunks(hunks: seq<seq<Op>>)
    requires HunksOneLine(hunks)
    ensures PrintHunks(hunks) == Unlines(HunkLines(hunks)) && OneLineEach(HunkLines(hunks))
  {
    if hunks != [] {
      PrintedOps(hunks[0]);
      PrintedHunks(hunks[1..]);
      var first, more := OpLines(hunks[0]), HunkLines(hunks[1..]);
      UnlinesConcat(first, more);
      UnlinesFirst(HUNK, first + more);
      Assoc([HUNK], first, more);
    }
  }

  lemma {:induction false} PrintedAdded(lines: seq<string>)
    requires OneLineEach(lines)
    ensures PrintAdded(lines) == Unlines(AddedLines(lines)) && OneLineEach(AddedLines(lines))
  {
    if lines != [] {
      PrintedAdded(lines[1..]);
      assert AddedLines(lines)[1..] == AddedLines(lines[1..]);
    }
  }

  lemma ReadOneOp(op: Op, rest: seq<string>)
    ensures ReadOps([[Mark(op.kind)] + op.line] + rest) == ([op] + ReadOps(rest).0, ReadOps(rest).1)
  {
    var all := [[Mark(op.kind)] + op.line] + rest;
    assert all[0] == [Mark(op.kind)] + op.line && all[0][1..] == op.line && all[1..] == rest;
  }

  lemma {:induction false} ReadOpsBack(ops: seq<Op>, rest: seq<string>)
    requires StopsOps(rest)
    ensures ReadOps(OpLines(ops) + rest) == (ops, rest)
  {
    if ops == [] {
      assert OpLines(ops) + rest == rest;
    } else {
      ReadOpsBack(ops[1..], rest);
      ReadOneOp(ops[0], OpLines(ops[1..]) + rest);
      Assoc([[Mark(ops[0].kind)] + ops[0].line], OpLines(ops[1..]), rest);
      assert [ops[0]] + ops[1..] == ops;
    }
  }

  lemma ReadOneHunk(ops: seq<Op>, rest: seq<string>)
    requires StopsOps(rest)
    ensures ReadHunks([HUNK] + (OpLines(ops) + rest)) == ([ops] + ReadHunks(rest).0, ReadHunks(rest).1)
  {
    ReadOpsBack(ops, rest);
    assert ([HUNK] + (OpLines(ops) + rest))[1..] == OpLines(ops) + rest;
  }

  lemma {:induction false} ReadHunksBack(hunks: seq<seq<Op>>, rest: seq<string>)
    requires StopsOps(rest) && (rest == [] || rest[0] != HUNK)
    ensures ReadHunks(HunkLines(hunks) + rest) == (hunks, rest)
  {
    if hunks == [] {
      assert HunkLines(hunks) + rest == rest;
    } else {
      var ops, more := OpLines(hunks[0]), HunkLines(hunks[1..]);
      ReadHunksBack(hunks[1..], rest);
      HunkLinesStop(hunks[1..], rest);
      ReadOneHunk(hunks[0], more + rest);
      Assoc([HUNK] + ops, more, rest);
      Assoc([HUNK], ops, more + rest);
      assert [hunks[0]] + hunks[1..] == hunks;
    }
  }

  lemma HunkLinesStop(hunks: seq<seq<Op>>, rest: seq<string>)
    requires StopsOps(rest)
    ensures StopsOps(HunkLines(hunks) + rest)
  {
    if hunks != [] {
      assert (HunkLines(hunks) + rest)[0] == HUNK && HUNK[0] == '@';
    } else {
      assert HunkLines(hunks) + rest == rest;
    }
  }

  lemma ReadOneAdded(line: string, rest: seq<string>)
    ensures ReadAdded(["+" + line] + rest) == ([line] + ReadAdded(rest).0, ReadAdded(rest).1)
  {
    var all := ["+" + line] + rest;
    assert all[0] == "+" + line && all[0][1..] == line && all[1..] == rest;
  }

  lemma {:induction false} ReadAddedBack(lines: seq<string>, rest: seq<string>)
    requires rest == [] || rest[0] == "" || rest[0][0] != '+'
    ensures ReadAdded(AddedLines(lines) + rest) == (lines, rest)
  {
    if lines == [] {
      assert AddedLines(lines) + rest == rest;
    } else {
      ReadAddedBack(lines[1..], rest);
      ReadOneAdded(lines[0], AddedLines(lines[1..]) + rest);
      Assoc(["+" + lines[0]], AddedLines(lines[1..]), rest);
      assert [lines[0]] + lines[1..] == lines;
    }
  }

  /** Section headers are told apart by their first letter. */
  lemma Headers(path: string)
    ensures After(ADD_FILE, ADD_FILE + path) == Some(path)
    ensures After(ADD_FILE, DELETE_FILE + path) == None
    ensures After(DELETE_FILE, DELETE_FILE + path) == Some(path)
    ensures After(ADD_FILE, UPDATE_FILE + path) == None
    ensures After(DELETE_FILE, UPDATE_FILE + path) == None
    ensures After(UPDATE_FILE, UPDATE_FILE + path) == Some(path)
  {
    assert ADD_FILE[4] == 'A' && DELETE_FILE[4] == 'D' && UPDATE_FILE[4] == 'U';
    assert (DELETE_FILE + path)[4] == 'D' && (UPDATE_FILE + path)[4] == 'U';
  }

  lemma OneSection(section: Section, lines: seq<string>, rest: seq<string>)
    requires |lines| >= 2 && ReadSection(lines) == (Some(section), rest)
    ensures ReadSections(lines) == match ReadSections(rest) case Some(more) => Some([section] + more) case None => None
  {
  }

  lemma ReadAddBack(path: string, lines: seq<string>)
    ensures ReadSections([ADD_FILE + path] + AddedLines(lines) + [END]) == Some([AddFile(path, lines)])
  {
    var all := [ADD_FILE + path] + AddedLines(lines) + [END];
    Headers(path);
    ReadAddedBack(lines, [END]);
    assert all[1..] == AddedLines(lines) + [END];
    OneSection(AddFile(path, lines), all, [END]);
    assert [AddFile(path, lines)] + [] == [AddFile(path, lines)];
  }

  lemma ReadDeleteBack(path: string, rest: seq<string>)
    requires rest != [] && ReadSections(rest) != None
    ensures ReadSections([DELETE_FILE + path] + rest) == Some([DeleteFile(path)] + ReadSections(rest).value)
  {
    Headers(path);
    assert ([DELETE_FILE + path] + rest)[1..] == rest;
    OneSection(DeleteFile(path), [DELETE_FILE + path] + rest, rest);
  }

  lemma ReadUpdateBack(path: string, hunks: seq<seq<Op>>)
    ensures ReadSections([UPDATE_FILE + path] + HunkLines(hunks) + [END]) == Some([UpdateFile(path, hunks)])
  {
    var all := [UPDATE_FILE + path] + HunkLines(hunks) + [END];
    Headers(path);
    assert [END][0][0] == '*' && HUNK[0] == '@';
    ReadHunksBack(hunks, [END]);
    assert all[1..] == HunkLines(hunks) + [END];
    OneSection(UpdateFile(path, hunks), all, [END]);
    assert [UpdateFile(path, hunks)] + [] == [UpdateFile(path, hunks)];
  }

  /** A document printed as whole lines and a footer reads as the sections
      those lines hold. */
  lemma ReadDocument(doc: string, body: seq<string>)
    requires OneLineEach(body) && doc == BEGIN + "\n" + Unlines(body) + END
    ensures Read(doc) == ReadSections(body + [END])
  {
    SplitLine(BEGIN, Unlines(body) + END);
    Assoc(BEGIN + "\n", Unlines(body), END);
    SplitUnlines(body, END);
    SplitOne(END);
    assert ([BEGIN] + (body + [END]))[1..] == body + [END];
  }

  /** A line before others. */
  lemma UnlinesFirst(line: string, lines: seq<string>)
    ensures Unlines([line] + lines) == line + "\n" + Unlines(lines)
  {
    assert ([line] + lines)[1..] == lines;
  }

  /** An Update document reads back as exactly the hunks it was printed from,
      whatever their lines say. */
  lemma UpdateReadsBack(path: string, hunks: seq<seq<Op>>)
    requires OneLine(path) && HunksOneLine(hunks)
    ensures Read(UpdateDoc(path, hunks)) == Some([UpdateFile(path, hunks)])
  {
    PrintedHunks(hunks);
    UnlinesFirst(UPDATE_FILE + path, HunkLines(hunks));
    ReadDocument(UpdateDoc(path, hunks), [UPDATE_FILE + path] + HunkLines(hunks));
    ReadUpdateBack(path, hunks);
  }

  lemma AddReadsBack(path: string, content: string)
    requires OneLine(path)
    ensures Read(AddDoc(path, content)) == Some([AddFile(path, Lines(content))])
  {
    var lines := Lines(content);
    PrintedAdded(lines);
    UnlinesFirst(ADD_FILE + path, AddedLines(lines));
    ReadDocument(AddDoc(path, content), [ADD_FILE + path] + AddedLines(lines));
    ReadAddBack(path, lines);
  }

  lemma RewriteReadsBack(path: string, content: string)
    requires OneLine(path)
    ensures Read(RewriteDoc(path, content)) == Some([DeleteFile(path), AddFile(path, Lines(content))])
  {
    var lines := Lines(content);
    var added := [ADD_FILE + path] + AddedLines(lines);
    PrintedAdded(lines);
    UnlinesFirst(ADD_FILE + path, AddedLines(lines));
    UnlinesFirst(DELETE_FILE + path, added);
    ReadDocument(RewriteDoc(path, content), [DELETE_FILE + path] + added);
    ReadAddBack(path, lines);
    ReadDeleteBack(path, added + [END]);
    Assoc([DELETE_FILE + path], added, [END]);
    assert [DeleteFile(path)] + [AddFile(path, lines)] == [DeleteFile(path), AddFile(path, lines)];
  }

  // ----- paths a document can name

  lemma {:induction false} ReadPaths(lines: seq<string>)
    requires OneLineEach(lines) && ReadSections(lines) != None
    ensures forall k :: 0 <= k < |ReadSections(lines).value| ==> OneLine(ReadSections(lines).value[k].path)
    decreases |lines|
  {
    if lines != [END] {
      var (section, rest) := ReadSection(lines);
      ReadRest(lines);
      ReadPaths(rest);
    }
  }

  lemma ReadRest(lines: seq<string>)
    requires lines != [] && OneLineEach(lines)
    ensures OneLineEach(ReadSection(lines).1)
    ensures ReadSection(lines).0 != None ==> OneLine(ReadSection(lines).0.value.path)
  {
    assert OneLineEach(lines[1..]);
    AddedRest(lines[1..]);
    HunksRest(lines[1..]);
    assert OneLine(lines[0]);
  }

  lemma {:induction false} AddedRest(lines: seq<string>)
    requires OneLineEach(lines)
    ensures OneLineEach(ReadAdded(lines).1)
  {
    if lines != [] && lines[0] != "" && lines[0][0] == '+' {
      AddedRest(lines[1..]);
    }
  }

  lemma {:induction false} OpsRest(lines: seq<string>)
    requires OneLineEach(lines)
    ensures OneLineEach(ReadOps(lines).1)
  {
    if lines != [] && lines[0] != "" && KindOf(lines[0][0]) != None {
      OpsRest(lines[1..]);
    }
  }

  lemma {:induction false} HunksRest(lines: seq<string>)
    requires OneLineEach(lines)
    ensures OneLineEach(ReadHunks(lines).1)
    decreases |lines|
  {
    if lines != [] && lines[0] == HUNK {
      OpsRest(lines[1..]);
      HunksRest(ReadOps(lines[1..]).1);
    }
  }

  /** Documents read back as what they were printed from exactly when the path
      has no line break in it. */
  lemma ReadsBackWhenOneLine(path: string, content: string, hunks: seq<seq<Op>>)
    requires HunksOneLine(hunks)
    ensures OneLine(path) <==> Read(AddDoc(path, content)) == Some([AddFile(path, Lines(content))])
    ensures OneLine(path) <==> Read(UpdateDoc(path, hunks)) == Some([UpdateFile(path, hunks)])
    ensures OneLine(path) <==>
            Read(RewriteDoc(path, content)) == Some([DeleteFile(path), AddFile(path, Lines(content))])
  {
    if OneLine(path) {
      AddReadsBack(path, content);
      UpdateReadsBack(path, hunks);
      RewriteReadsBack(path, content);
    } else {
      ReadNames(AddDoc(path, content), path);
      ReadNames(UpdateDoc(path, hunks), path);
      ReadNames(RewriteDoc(path, content), path);
    }
  }

  /** No path that is read holds a line break. */
  lemma PathsRead(doc: string)
    requires Read(doc) != None
    ensures forall k :: 0 <= k < |Read(doc).value| ==> OneLine(Read(doc).value[k].path)
  {
    ReadPaths(Split(doc)[1..]);
  }

  lemma ReadNames(doc: string, path: string)
    requires !OneLine(path)
    ensures Read(doc) != None && Read(doc).value != [] ==> Read(doc).value[0].path != path
  {
    if Read(doc) != None {
      PathsRead(doc);
    }
  }
}
