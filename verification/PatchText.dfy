/** Printing a patch in Git's format and reading it back. */
module PatchText {
  import opened Prelude
  import opened Hunks
  import opened UnifiedDiff
  import opened Sorting
  import ShellWords

  // ---- records ----

  function Unlines(lines: seq<string>): string {
    if lines == [] then [] else lines[0] + [LF] + Unlines(lines[1..])
  }

  predicate OneLine(s: string) { LF !in s }

  lemma {:induction false} CutOne(line: string, rest: string)
    requires OneLine(line)
    ensures Cut(line + [LF] + rest) == [line] + Cut(rest)
  {
    var text := line + [LF] + rest;
    if line == [] {
      assert text[1..] == rest;
    } else {
      assert text[1..] == line[1..] + [LF] + rest;
      CutOne(line[1..], rest);
      assert ([line[1..]] + Cut(rest))[1..] == Cut(rest);
      assert [line[0]] + line[1..] == line;
    }
  }

  lemma {:induction false} CutLines(lines: seq<string>)
    requires forall l | l in lines :: OneLine(l)
    ensures Cut(Unlines(lines)) == lines + [[]]
  {
    if lines != [] {
      CutLines(lines[1..]);
      CutOne(lines[0], Unlines(lines[1..]));
      assert lines == [lines[0]] + lines[1..];
    }
  }

  /** Lines written with their line feeds are the records read. */
  lemma RecordsReadBack(lines: seq<string>)
    requires forall l | l in lines :: OneLine(l)
    ensures Records(Unlines(lines)) == lines
  {
    CutLines(lines);
  }

  /** The parts put together again, with a line feed between them. */
  function Glued(parts: seq<string>): string {
    if parts == [] then [] else if |parts| == 1 then parts[0] else parts[0] + [LF] + Glued(parts[1..])
  }

  lemma {:induction false} CutGlues(text: string)
    ensures Glued(Cut(text)) == text && forall p | p in Cut(text) :: OneLine(p)
  {
    if text != [] {
      CutGlues(text[1..]);
      var later := Cut(text[1..]);
      var parts := Cut(text);
      if text[0] == LF {
        assert parts[1..] == later;
      } else {
        assert parts[1..] == later[1..] && later[0] in later;
        assert [text[0]] + text[1..] == text;
      }
    }
  }

  lemma {:induction false} GluedIsLines(parts: seq<string>)
    requires parts != []
    ensures Glued(parts) == Unlines(parts[..|parts| - 1]) + parts[|parts| - 1]
    ensures Glued(parts) + [LF] == Unlines(parts)
  {
    if |parts| > 1 {
      GluedIsLines(parts[1..]);
      assert parts[1..][..|parts| - 2] == parts[..|parts| - 1][1..];
    }
  }

  /** Reading records loses nothing: written out again they are the text, with
      the last line feed supplied where the text did not end in one. */
  lemma RecordsAreExact(text: string)
    ensures forall r | r in Records(text) :: OneLine(r)
    ensures Unlines(Records(text)) == if text == [] || text[|text| - 1] == LF then text else text + [LF]
  {
    CutGlues(text);
    var parts := Cut(text);
    GluedIsLines(parts);
    var last := parts[|parts| - 1];
    if last == [] {
      UnlinesEnds(parts[..|parts| - 1]);
    } else {
      assert last in parts && last[|last| - 1] in last;
      assert text == Unlines(parts[..|parts| - 1]) + last;
    }
  }

  lemma {:induction false} UnlinesEnds(lines: seq<string>)
    ensures lines != [] ==> Unlines(lines) != [] && Unlines(lines)[|Unlines(lines)| - 1] == LF
    ensures lines == [] ==> Unlines(lines) == []
  {
    if lines != [] { UnlinesEnds(lines[1..]); }
  }

  // ---- one section as Git prints it ----

  datatype Change =
    | Edited(path: string)
    | Created(path: string)
    | Removed(path: string)
    | Moved(from: string, to: string)
  {
    function Before(): string { if Moved? then from else path }

    function After(): string { if Moved? then to else path }

    function Status(): Status {
      match this
      case Edited(_) => Modified
      case Created(_) => Added
      case Removed(_) => Deleted
      case Moved(_, _) => Renamed
    }
  }

  /** The section line's two tokens, and the lines after it in their order: mode,
      similarity and index lines around those that state the change, the two
      file markers or none, and the hunks. */
  datatype Section = Section(
    oldToken: string, newToken: string, before: seq<string>, change: seq<string>, after: seq<string>,
    markers: seq<string>, body: seq<string>)
  {
    function Header(): string { SECTION + (oldToken + [' '] + newToken) }

    function Head(): seq<string> { [Header()] + before + change + after + markers }

    function Raws(): (raws: seq<string>)
      ensures raws != []
    {
      Head() + body
    }
  }

  predicate IsPlain(line: string) { IsNote(line) || "index " <= line }

  ghost predicate AllPlain(lines: seq<string>) { forall i | 0 <= i < |lines| :: IsPlain(lines[i]) }

  /** The displayed ones. */
  function NotesIn(lines: seq<string>): seq<Line> {
    if lines == [] then [] else (if IsNote(lines[0]) then [Note(lines[0])] else []) + NotesIn(lines[1..])
  }

  predicate StatesChange(lines: seq<string>, c: Change) {
    match c
    case Edited(_) => lines == []
    case Created(_) => |lines| == 1 && "new file mode " <= lines[0]
    case Removed(_) => |lines| == 1 && "deleted file mode " <= lines[0]
    case Moved(_, _) => |lines| == 2 && "rename from " <= lines[0] && "rename to " <= lines[1]
  }

  /** A side that does not exist is marked as no file. */
  predicate StatesSides(lines: seq<string>, c: Change) {
    && |lines| == 2 && "--- " <= lines[0] && "+++ " <= lines[1]
    && (c.Created? <==> lines[0] == "--- /dev/null") && (c.Removed? <==> lines[1] == "+++ /dev/null")
  }

  /** The lines of such a change, whatever names they carry. */
  ghost predicate LaidOut(s: Section, c: Change, hunks: seq<Hunk>) {
    && c.Before() != "" && c.After() != ""
    && AllPlain(s.before) && AllPlain(s.after)
    && StatesChange(s.change, c) && (s.markers == [] || StatesSides(s.markers, c))
    && PrintsHunks(s.Raws(), |s.Head()|, hunks)
    && forall h | h in hunks :: WellFormed(h)
  }

  /** `text` is read as one token, which names `path`. */
  ghost predicate Names(decode: Decoder, text: string, path: string) { MetadataPath(decode, text) == Some(path) }

  /** Every name in the section is read as the name it stands for. */
  ghost predicate IsNamed(decode: Decoder, s: Section, c: Change)
    requires StatesChange(s.change, c) && (s.markers == [] || StatesSides(s.markers, c))
  {
    && Names(decode, s.oldToken, "a/" + c.Before()) && Names(decode, s.newToken, "b/" + c.After())
    && (c.Moved? ==>
          Names(decode, Rest(s.change[0], "rename from "), c.from) && Names(decode, Rest(s.change[1], "rename to "), c.to))
    && (s.markers != [] && !c.Created? ==> Names(decode, Rest(s.markers[0], "--- "), "a/" + c.Before()))
    && (s.markers != [] && !c.Removed? ==> Names(decode, Rest(s.markers[1], "+++ "), "b/" + c.After()))
  }

  /** A file's change, printed. */
  ghost predicate Prints(decode: Decoder, s: Section, c: Change, hunks: seq<Hunk>) {
    LaidOut(s, c, hunks) && IsNamed(decode, s, c)
  }

  // ---- header lines, read in blocks ----

  predicate IsHead(line: string) { IsFileHeader(line) || IsNote(line) }

  lemma HeadIsNoOther(line: string)
    requires IsHead(line)
    ensures !(HUNK <= line) && !(SECTION <= line) && !IsBinaryMark(line)
  {
    var c := HeadStarts(line);
    assert HUNK[0] == '@' && SECTION[0] == 'd' && SECTION[1] == 'i' && SECTION[2] == 'f';
    hide IsFileHeader, IsNote, IsBinaryMark;
    if IsBinaryMark(line) {
      BinaryStarts(line);
      assert false;
    }
  }

  lemma BinaryStarts(line: string)
    requires IsBinaryMark(line)
    ensures line != [] && line[0] in "GB"
  {
  }

  /** The first character, which tells it from every other kind of line but
      those that begin a section. */
  lemma HeadStarts(line: string) returns (c: char)
    requires IsHead(line)
    ensures line != [] && line[0] == c && c in "ndr-+ios"
    ensures c == 'd' ==> |line| > 2 && (line[1] == 'e' || line[2] == 's')
  {
    c := line[0];
  }

  function ReadAll(decode: Decoder, d: Draft, lines: seq<string>): Option<Draft>
    decreases |lines|
  {
    if lines == [] then Some(d)
    else
      var next := HeaderLine(decode, d, lines[0]);
      if next.None? then None else ReadAll(decode, next.value, lines[1..])
  }

  ghost predicate AllHeads(lines: seq<string>) { forall i | 0 <= i < |lines| :: IsHead(lines[i]) }

  lemma {:induction false} BlockScans(decode: Decoder, raws: seq<string>, i: nat, d: Draft, lines: seq<string>)
    requires i + |lines| <= |raws| && raws[i..i + |lines|] == lines && AllHeads(lines)
    ensures Scan(decode, raws, i, d)
         == if ReadAll(decode, d, lines).None? then None else Scan(decode, raws, i + |lines|, ReadAll(decode, d, lines).value)
    decreases |lines|
  {
    hide HeaderLine, IsHead, IsBinaryMark, HunkAt;
    if lines != [] {
      assert raws[i] == raws[i..i + |lines|][0] == lines[0];
      HeadIsNoOther(raws[i]);
      assert raws[i + 1..i + 1 + |lines[1..]|] == lines[1..];
      if HeaderLine(decode, d, raws[i]).Some? {
        BlockScans(decode, raws, i + 1, HeaderLine(decode, d, raws[i]).value, lines[1..]);
      }
    }
  }

  lemma PlainLine(decode: Decoder, d: Draft, line: string)
    requires IsPlain(line)
    ensures IsHead(line)
    ensures HeaderLine(decode, d, line) == Some(d.(lines := d.lines + (if IsNote(line) then [Note(line)] else [])))
  {
    assert line[0] in "onsdi";
    assert line[0] == 'n' ==> line[4] == 'm';
    assert line[0] == 'd' ==> line[1] == 'i';
    assert line[0] == 'i' ==> !IsNote(line);
    hide MetadataPath, MarkerPath, Rest;
    assert d.lines + [] == d.lines;
  }

  lemma PlainHeads(decode: Decoder, lines: seq<string>)
    requires AllPlain(lines)
    ensures AllHeads(lines)
  {
    hide IsPlain, IsHead;
    forall i | 0 <= i < |lines| ensures IsHead(lines[i]) {
      PlainLine(decode, Blank("", ""), lines[i]);
    }
  }

  lemma {:induction false} PlainRead(decode: Decoder, d: Draft, lines: seq<string>)
    requires AllPlain(lines)
    ensures ReadAll(decode, d, lines) == Some(d.(lines := d.lines + NotesIn(lines)))
    decreases |lines|
  {
    hide IsPlain, IsNote, IsHead, HeaderLine;
    if lines == [] {
      assert d.lines + [] == d.lines;
    } else {
      PlainLine(decode, d, lines[0]);
      var notes := if IsNote(lines[0]) then [Note(lines[0])] else [];
      PlainRead(decode, d.(lines := d.lines + notes), lines[1..]);
      assert d.lines + notes + NotesIn(lines[1..]) == d.lines + (notes + NotesIn(lines[1..]));
    }
  }

  /** What the lines that state a change say of it. */
  function ToldChange(decode: Decoder, d: Draft, lines: seq<string>, c: Change): Option<Draft>
    requires StatesChange(lines, c)
  {
    match c
    case Moved(_, _) =>
      var from, to := MetadataPath(decode, Rest(lines[0], "rename from ")), MetadataPath(decode, Rest(lines[1], "rename to "));
      if from.None? || to.None? then None else Some(d.(status := Renamed, oldPath := from, newPath := to))
    case _ => Some(d.(status := c.Status()))
  }

  function ToldSides(decode: Decoder, d: Draft, lines: seq<string>, c: Change): Option<Draft>
    requires StatesSides(lines, c)
  {
    var left, right := MarkerPath(decode, Rest(lines[0], "--- "), "a/"), MarkerPath(decode, Rest(lines[1], "+++ "), "b/");
    if (left.None? && !c.Created?) || (right.None? && !c.Removed?) then None
    else Some(d.(sawOld := true, sawNew := true, oldPath := left, newPath := right))
  }

  lemma OneRead(decode: Decoder, d: Draft, line: string)
    ensures ReadAll(decode, d, [line]) == HeaderLine(decode, d, line)
  {
    assert [line][1..] == [];
  }

  lemma TwoRead(decode: Decoder, d: Draft, lines: seq<string>)
    requires |lines| == 2
    ensures ReadAll(decode, d, lines)
         == if HeaderLine(decode, d, lines[0]).None? then None
            else HeaderLine(decode, HeaderLine(decode, d, lines[0]).value, lines[1])
  {
    hide HeaderLine;
    if HeaderLine(decode, d, lines[0]).Some? {
      assert lines[1..] == [lines[1]];
      OneRead(decode, HeaderLine(decode, d, lines[0]).value, lines[1]);
    }
  }

  function WithOld(d: Draft, path: Option<string>): Option<Draft> {
    if path.None? then None else Some(d.(status := Renamed, oldPath := path))
  }

  function WithNew(d: Draft, path: Option<string>): Option<Draft> {
    if path.None? then None else Some(d.(status := Renamed, newPath := path))
  }

  lemma RenameRead(decode: Decoder, d: Draft, line: string)
    ensures "rename from " <= line ==>
              IsHead(line) && HeaderLine(decode, d, line) == WithOld(d, MetadataPath(decode, Rest(line, "rename from ")))
    ensures "rename to " <= line ==>
              IsHead(line) && HeaderLine(decode, d, line) == WithNew(d, MetadataPath(decode, Rest(line, "rename to ")))
  {
    assert "rename from " <= line ==> line[0] == 'r' && line[7] == 'f';
    assert "rename to " <= line ==> line[0] == 'r' && line[7] == 't';
    hide MetadataPath, MarkerPath, IsNote;
  }

  lemma ModeRead(decode: Decoder, d: Draft, line: string)
    requires d.status == Modified
    ensures "new file mode " <= line ==> IsHead(line) && HeaderLine(decode, d, line) == Some(d.(status := Added))
    ensures "deleted file mode " <= line ==> IsHead(line) && HeaderLine(decode, d, line) == Some(d.(status := Deleted))
  {
    assert "deleted file mode " <= line ==> line[0] == 'd';
    hide MetadataPath, MarkerPath, IsNote;
  }

  lemma ChangeRead(decode: Decoder, d: Draft, lines: seq<string>, c: Change)
    requires d.status == Modified && StatesChange(lines, c)
    ensures AllHeads(lines) && ReadAll(decode, d, lines) == ToldChange(decode, d, lines, c)
  {
    hide HeaderLine, IsHead, MetadataPath;
    match c
    case Edited(_) =>
    case Created(_) =>
      assert lines == [lines[0]];
      ModeRead(decode, d, lines[0]);
      OneRead(decode, d, lines[0]);
    case Removed(_) =>
      assert lines == [lines[0]];
      ModeRead(decode, d, lines[0]);
      OneRead(decode, d, lines[0]);
    case Moved(_, _) =>
      var half := WithOld(d, MetadataPath(decode, Rest(lines[0], "rename from ")));
      RenameRead(decode, d, lines[0]);
      RenameRead(decode, if half.Some? then half.value else d, lines[1]);
      TwoRead(decode, d, lines);
  }

  lemma OldMarkerRead(decode: Decoder, d: Draft, line: string)
    requires !d.sawOld && "--- " <= line
    ensures IsHead(line)
    ensures var path := MarkerPath(decode, Rest(line, "--- "), "a/");
      HeaderLine(decode, d, line)
      == if path.None? && line != "--- /dev/null" then None else Some(d.(sawOld := true, oldPath := path))
  {
    hide MetadataPath, MarkerPath, IsNote;
    assert line[0] == '-';
  }

  lemma NewMarkerRead(decode: Decoder, d: Draft, line: string)
    requires !d.sawNew && "+++ " <= line
    ensures IsHead(line)
    ensures var path := MarkerPath(decode, Rest(line, "+++ "), "b/");
      HeaderLine(decode, d, line)
      == if path.None? && line != "+++ /dev/null" then None else Some(d.(sawNew := true, newPath := path))
  {
    hide MetadataPath, MarkerPath, IsNote;
    assert line[0] == '+';
  }

  lemma SidesRead(decode: Decoder, d: Draft, lines: seq<string>, c: Change)
    requires !d.sawOld && !d.sawNew && StatesSides(lines, c)
    ensures AllHeads(lines) && ReadAll(decode, d, lines) == ToldSides(decode, d, lines, c)
  {
    hide HeaderLine, IsHead, MarkerPath;
    OldMarkerRead(decode, d, lines[0]);
    var half := d.(sawOld := true, oldPath := MarkerPath(decode, Rest(lines[0], "--- "), "a/"));
    NewMarkerRead(decode, half, lines[1]);
    TwoRead(decode, d, lines);
  }

  // ---- a section reads back ----

  /** What the whole head says, or that it is refused. */
  function Told(decode: Decoder, s: Section, c: Change, left: string, right: string): Option<Draft>
    requires StatesChange(s.change, c) && (s.markers == [] || StatesSides(s.markers, c))
  {
    var d := ToldChange(decode, Blank(left, right).(lines := NotesIn(s.before) + NotesIn(s.after)), s.change, c);
    if d.None? || s.markers == [] then d else ToldSides(decode, d.value, s.markers, c)
  }

  lemma AfterNotes(decode: Decoder, d: Draft, lines: seq<string>, c: Change, notes: seq<Line>)
    requires StatesChange(lines, c)
    ensures ToldChange(decode, d.(lines := notes), lines, c)
         == if ToldChange(decode, d, lines, c).None? then None
            else Some(ToldChange(decode, d, lines, c).value.(lines := notes))
  {
    hide MetadataPath;
  }

  lemma HeadScans(decode: Decoder, s: Section, c: Change, hunks: seq<Hunk>, left: string, right: string)
    requires LaidOut(s, c, hunks)
    ensures AllHeads(s.before) && AllHeads(s.change) && AllHeads(s.after) && AllHeads(s.markers)
    ensures var told := Told(decode, s, c, left, right);
      Scan(decode, s.Raws(), 1, Blank(left, right))
      == if told.None? then None else Scan(decode, s.Raws(), |s.Head()|, told.value)
  {
    hide Scan, ReadAll, AllHeads, HeaderLine, ToldChange, ToldSides, PrintsHunks, WellFormed, NotesIn, AllPlain;
    hide StatesChange, StatesSides;
    var raws, d := s.Raws(), Blank(left, right);
    var i := 1 + |s.before|;
    PlainHeads(decode, s.before);
    PlainRead(decode, d, s.before);
    assert raws[1..i] == s.before;
    BlockScans(decode, raws, 1, d, s.before);
    var d1 := d.(lines := d.lines + NotesIn(s.before));
    var j := i + |s.change|;
    ChangeRead(decode, d1, s.change, c);
    assert raws[i..j] == s.change;
    BlockScans(decode, raws, i, d1, s.change);
    var told := ToldChange(decode, d1, s.change, c);
    if told.Some? {
      SidesUnseen(decode, d1, s.change, c);
      var k := j + |s.after|;
      assert raws[j..k] == s.after && raws[k..k + |s.markers|] == s.markers;
      RestScans(decode, raws, j, told.value, s.after, s.markers, c);
    }
    PlainHeads(decode, s.after);
    assert d1.lines + NotesIn(s.after) == NotesIn(s.before) + NotesIn(s.after);
    AfterNotes(decode, d, s.change, c, d1.lines);
    AfterNotes(decode, d, s.change, c, d1.lines + NotesIn(s.after));
    if s.markers != [] { SidesRead(decode, d, s.markers, c); } else { NoHeads(s.markers); }
  }

  /** The lines after those that state the change. */
  lemma RestScans(decode: Decoder, raws: seq<string>, j: nat, d: Draft, after: seq<string>, markers: seq<string>, c: Change)
    requires AllPlain(after) && (markers == [] || StatesSides(markers, c)) && !d.sawOld && !d.sawNew
    requires j + |after| + |markers| <= |raws| && raws[j..j + |after|] == after
    requires raws[j + |after|..j + |after| + |markers|] == markers
    ensures var noted := d.(lines := d.lines + NotesIn(after));
      var last := if markers == [] then Some(noted) else ToldSides(decode, noted, markers, c);
      Scan(decode, raws, j, d) == if last.None? then None else Scan(decode, raws, j + |after| + |markers|, last.value)
  {
    hide Scan, ReadAll, AllHeads, HeaderLine, ToldSides, NotesIn, AllPlain, StatesSides;
    var noted, k := d.(lines := d.lines + NotesIn(after)), j + |after|;
    PlainHeads(decode, after);
    PlainRead(decode, d, after);
    BlockScans(decode, raws, j, d, after);
    if markers != [] {
      SidesRead(decode, noted, markers, c);
      BlockScans(decode, raws, k, noted, markers);
    }
  }

  lemma SidesUnseen(decode: Decoder, d: Draft, lines: seq<string>, c: Change)
    requires StatesChange(lines, c) && ToldChange(decode, d, lines, c).Some?
    ensures var told := ToldChange(decode, d, lines, c).value; told.sawOld == d.sawOld && told.sawNew == d.sawNew
  {
    hide MetadataPath;
  }

  lemma NoHeads(lines: seq<string>)
    requires lines == []
    ensures AllHeads(lines)
  {
  }

  /** What a section laid out in Git's format is read as, whatever names it
      carries. */
  lemma SectionReads(decode: Decoder, s: Section, c: Change, hunks: seq<Hunk>)
    requires LaidOut(s, c, hunks)
    ensures var paths := HeaderPaths(decode, s.Header());
      var told := if paths.None? then None else Told(decode, s, c, paths.value.0, paths.value.1);
      FileOf(decode, s.Raws()) == if told.None? then None else Finished(WithHunks(told.value, hunks))
  {
    hide Scan, Finished, WithHunks, Told, PrintsHunks, WellFormed, HeaderPaths, StatesChange, StatesSides, AllPlain;
    var paths := HeaderPaths(decode, s.Header());
    assert s.Raws()[0] == s.Header();
    if paths.Some? {
      HeadScans(decode, s, c, hunks, paths.value.0, paths.value.1);
      var told := Told(decode, s, c, paths.value.0, paths.value.1);
      if told.Some? {
        ToldIsText(decode, s, c, paths.value.0, paths.value.1);
        PrintedHunksReadBack(decode, s.Raws(), |s.Head()|, told.value, hunks);
      }
    }
  }

  lemma ToldIsText(decode: Decoder, s: Section, c: Change, left: string, right: string)
    requires StatesChange(s.change, c) && (s.markers == [] || StatesSides(s.markers, c))
    requires Told(decode, s, c, left, right).Some?
    ensures !Told(decode, s, c, left, right).value.binary
  {
    hide MetadataPath, MarkerPath, NotesIn;
  }

  /** What a reader of the section should be shown. */
  function Shown(s: Section, c: Change, hunks: seq<Hunk>): FileDiff {
    var lines := NotesIn(s.before) + NotesIn(s.after) + FlatLines(hunks);
    var pathless := c.Edited? && s.markers == [];
    FileDiff(
      Summary(c.After(), Some(c.Status()), Some(CountOf(FlatLines(hunks), Addition)),
              Some(CountOf(FlatLines(hunks), Deletion)), false),
      if c.Created? || pathless then None else Some(c.Before()), if c.Removed? || pathless then None else Some(c.After()), lines)
  }

  /** A file came or went and its section has no file markers: Git prints it so
      when the file is empty. */
  predicate Unmarked(s: Section, c: Change) { s.markers == [] && (c.Created? || c.Removed?) }

  lemma HeaderReads(decode: Decoder, s: Section, c: Change)
    requires Names(decode, s.oldToken, "a/" + c.Before()) && Names(decode, s.newToken, "b/" + c.After())
    requires c.Before() != "" && c.After() != ""
    ensures HeaderPaths(decode, s.Header()) == Some((c.Before(), c.After()))
  {
    var line := s.oldToken + [' '] + s.newToken;
    ShellWords.SideBySide(s.oldToken, s.newToken, None, ShellWords.Bare);
    var x, y := ShellWords.Split(s.oldToken).value, ShellWords.Split(s.newToken).value;
    assert x == [x[0]] && y == [y[0]] && x + y == [x[0], y[0]];
    assert s.Header()[|SECTION|..] == line;
    assert ("a/" + c.Before())[2..] == c.Before() && ("b/" + c.After())[2..] == c.After();
  }

  lemma SideIsNamed(decode: Decoder, value: string, side: string, path: string)
    requires Names(decode, value, side + path) && path != "" && value != "/dev/null"
    ensures MarkerPath(decode, value, side) == Some(path)
  {
    hide MetadataPath;
    assert (side + path)[|side|..] == path && side <= side + path;
  }

  lemma RestOfMarker(line: string, mark: string)
    requires mark <= line && line != mark + "/dev/null"
    ensures Rest(line, mark) != "/dev/null"
  {
    assert line == mark + line[|mark|..];
  }

  /** Named as it should be, the head says what the change is. */
  lemma NamedIsTold(decode: Decoder, s: Section, c: Change)
    requires c.Before() != "" && c.After() != ""
    requires StatesChange(s.change, c) && (s.markers == [] || StatesSides(s.markers, c)) && IsNamed(decode, s, c)
    ensures Told(decode, s, c, c.Before(), c.After()).Some?
    ensures var d := Told(decode, s, c, c.Before(), c.After()).value;
      d == Blank(c.Before(), c.After()).(
             status := c.Status(), lines := NotesIn(s.before) + NotesIn(s.after),
             sawOld := s.markers != [], sawNew := s.markers != [],
             oldPath := if c.Created? || (s.markers == [] && !c.Moved?) then None else Some(c.Before()),
             newPath := if c.Removed? || (s.markers == [] && !c.Moved?) then None else Some(c.After()))
  {
    hide MetadataPath, MarkerPath, NotesIn, Rest;
    if s.markers != [] {
      var left, right := Rest(s.markers[0], "--- "), Rest(s.markers[1], "+++ ");
      if c.Created? {
        NoFile(decode, s.markers[0], "--- ", "a/");
      } else {
        RestOfMarker(s.markers[0], "--- ");
        SideIsNamed(decode, left, "a/", c.Before());
      }
      if c.Removed? {
        NoFile(decode, s.markers[1], "+++ ", "b/");
      } else {
        RestOfMarker(s.markers[1], "+++ ");
        SideIsNamed(decode, right, "b/", c.After());
      }
    }
  }

  lemma NoFile(decode: Decoder, line: string, mark: string, side: string)
    requires line == mark + "/dev/null"
    ensures MarkerPath(decode, Rest(line, mark), side).None?
  {
    assert line[|mark|..] == "/dev/null";
  }

  /** A printed section whose names are read as they stand is read as exactly
      the change it states, unless the file is an empty one that was created or
      removed: that section is refused. */
  lemma SectionReadsBack(decode: Decoder, s: Section, c: Change, hunks: seq<Hunk>)
    requires Prints(decode, s, c, hunks)
    ensures FileOf(decode, s.Raws()) == if Unmarked(s, c) then None else Some(Shown(s, c, hunks))
  {
    SectionReads(decode, s, c, hunks);
    hide FileOf, WithHunks, Finished, Told, Names, HeaderPaths, PrintsHunks, WellFormed, Shown;
    HeaderReads(decode, s, c);
    NamedIsTold(decode, s, c);
    NamedFinishes(s, c, hunks);
  }

  lemma NamedFinishes(s: Section, c: Change, hunks: seq<Hunk>)
    requires c.Before() != "" && c.After() != ""
    ensures var d := Blank(c.Before(), c.After()).(
             status := c.Status(), lines := NotesIn(s.before) + NotesIn(s.after),
             sawOld := s.markers != [], sawNew := s.markers != [],
             oldPath := if c.Created? || (s.markers == [] && !c.Moved?) then None else Some(c.Before()),
             newPath := if c.Removed? || (s.markers == [] && !c.Moved?) then None else Some(c.After()));
      Finished(WithHunks(d, hunks)) == if Unmarked(s, c) then None else Some(Shown(s, c, hunks))
  {
    hide CountOf, FlatLines, NotesIn;
  }

  // ---- a whole patch reads back ----

  datatype Printing = Printing(section: Section, change: Change, hunks: seq<Hunk>)

  ghost predicate AllLaidOut(patch: seq<Printing>) {
    forall i | 0 <= i < |patch| :: LaidOut(patch[i].section, patch[i].change, patch[i].hunks)
  }

  ghost predicate PrintsAll(decode: Decoder, patch: seq<Printing>) {
    forall i | 0 <= i < |patch| :: Prints(decode, patch[i].section, patch[i].change, patch[i].hunks)
  }

  /** The patch's lines, section after section. */
  function PatchLines(patch: seq<Printing>): seq<string> {
    if patch == [] then [] else PatchLines(patch[..|patch| - 1]) + patch[|patch| - 1].section.Raws()
  }

  function SectionsOf(patch: seq<Printing>): (sections: seq<seq<string>>)
    ensures |sections| == |patch| && NoneEmpty(sections)
  {
    seq(|patch|, i requires 0 <= i < |patch| => patch[i].section.Raws())
  }

  function AllShown(patch: seq<Printing>): (files: seq<FileDiff>)
    ensures |files| == |patch|
  {
    seq(|patch|, i requires 0 <= i < |patch| => Shown(patch[i].section, patch[i].change, patch[i].hunks))
  }

  ghost predicate SomeUnmarked(patch: seq<Printing>) {
    exists i | 0 <= i < |patch| :: Unmarked(patch[i].section, patch[i].change)
  }

  lemma {:induction false} SectionsAppend(raws: seq<string>, section: seq<string>)
    requires Sections(raws).Some? && StartsOnly(section)
    ensures Sections(raws + section) == Some(Sections(raws).value + [section])
  {
    var n := |section| - 1;
    var all := raws + section;
    assert all[..|all| - 1] == raws + section[..n] && all[|all| - 1] == section[n];
    if n == 0 {
      assert raws + section[..n] == raws && section == [section[n]];
    } else {
      SectionsAppend(raws, section[..n]);
      var prior := Sections(raws).value;
      assert (prior + [section[..n]])[..|prior|] == prior;
      assert section[..n] + [section[n]] == section;
    }
  }

  lemma PrintedLineIsNoSection(l: Line)
    requires l.kind == Metadata ==> l.text == NO_NEWLINE
    ensures !(SECTION <= Printed(l))
  {
    assert SECTION[0] == 'd' && NO_NEWLINE[0] == '\\';
  }

  lemma {:induction false} HunksHoldNoSection(raws: seq<string>, i: nat, hunks: seq<Hunk>, k: nat)
    requires i <= k < |raws| && PrintsHunks(raws, i, hunks) && forall h | h in hunks :: WellFormed(h)
    ensures !(SECTION <= raws[k])
    decreases |hunks|
  {
    hide PrintsRange, WellFormed, Printed;
    var h := hunks[0];
    var next := i + 1 + |h.lines|;
    if k == i {
      RangeReadsBack(raws[i], h.range);
      assert HUNK[0] == '@' && SECTION[0] == 'd';
    } else if k < next {
      MetadataIsMarker(h);
      var l := h.lines[k - i - 1];
      assert raws[k] == raws[i + 1..next][k - i - 1] == Printed(l);
      PrintedLineIsNoSection(l);
    } else {
      HunksHoldNoSection(raws, next, hunks[1..], k);
    }
  }

  lemma HeadsHoldNoSection(lines: seq<string>)
    requires AllHeads(lines)
    ensures forall i | 0 <= i < |lines| :: !(SECTION <= lines[i])
  {
    hide IsHead;
    forall i | 0 <= i < |lines| ensures !(SECTION <= lines[i]) { HeadIsNoOther(lines[i]); }
  }

  lemma HeadHoldsNoSection(decode: Decoder, s: Section, c: Change, hunks: seq<Hunk>)
    requires LaidOut(s, c, hunks)
    ensures forall i | 1 <= i < |s.Head()| :: !(SECTION <= s.Raws()[i])
  {
    HeadScans(decode, s, c, hunks, "", "");
    hide *;
    HeadsHoldNoSection(s.before);
    HeadsHoldNoSection(s.change);
    HeadsHoldNoSection(s.after);
    HeadsHoldNoSection(s.markers);
    forall i | 1 <= i < |s.Head()| ensures !(SECTION <= s.Raws()[i]) { HeadLine(s, i); }
  }

  lemma SectionStartsOnly(decode: Decoder, s: Section, c: Change, hunks: seq<Hunk>)
    requires LaidOut(s, c, hunks)
    ensures StartsOnly(s.Raws())
  {
    HeadHoldsNoSection(decode, s, c, hunks);
    hide StatesChange, StatesSides, PrintsHunks, WellFormed, AllPlain;
    var raws, head := s.Raws(), s.Head();
    forall i | 1 <= i < |raws| ensures !(SECTION <= raws[i]) {
      if i >= |head| { HunksHoldNoSection(raws, |head|, hunks, i); }
    }
    assert raws[0] == s.Header();
  }

  lemma HeadLine(s: Section, i: nat)
    requires 1 <= i < |s.Head()|
    ensures s.Raws()[i] in s.before + s.change + s.after + s.markers
  {
    var rest := s.before + s.change + s.after + s.markers;
    assert s.Head() == [s.Header()] + rest;
    assert s.Raws()[i] == rest[i - 1];
  }

  lemma {:induction false} PatchCuts(decode: Decoder, patch: seq<Printing>)
    requires AllLaidOut(patch)
    ensures Sections(PatchLines(patch)) == Some(SectionsOf(patch))
  {
    hide LaidOut, Sections;
    if patch == [] {
      NothingCut();
      assert SectionsOf(patch) == [];
    } else {
      var n := |patch| - 1;
      PatchCuts(decode, patch[..n]);
      var p := patch[n];
      SectionStartsOnly(decode, p.section, p.change, p.hunks);
      SectionsAppend(PatchLines(patch[..n]), p.section.Raws());
      assert SectionsOf(patch) == SectionsOf(patch[..n]) + [p.section.Raws()];
    }
  }

  lemma NothingCut()
    ensures Sections([]) == Some([])
  {
  }

  lemma {:induction false} PatchFiles(decode: Decoder, patch: seq<Printing>)
    requires PrintsAll(decode, patch)
    ensures Files(decode, SectionsOf(patch)) == if SomeUnmarked(patch) then None else Some(AllShown(patch))
  {
    hide Prints, FileOf, Shown, Unmarked;
    if patch == [] {
      assert AllShown(patch) == [];
    } else {
      var n := |patch| - 1;
      var most, p := patch[..n], patch[n];
      PatchFiles(decode, most);
      SectionReadsBack(decode, p.section, p.change, p.hunks);
      assert SectionsOf(patch)[..n] == SectionsOf(most) && SectionsOf(patch)[n] == p.section.Raws();
      assert AllShown(patch) == AllShown(most) + [Shown(p.section, p.change, p.hunks)];
      if SomeUnmarked(most) {
        var i :| 0 <= i < n && Unmarked(most[i].section, most[i].change);
        assert Unmarked(patch[i].section, patch[i].change);
      }
    }
  }

  lemma {:induction false} DistinctSize(s: seq<string>)
    requires Distinct(s)
    ensures |SetOf(s)| == |s|
  {
    if s != [] {
      var n := |s| - 1;
      DistinctSize(s[..n]);
      assert SetOf(s) == SetOf(s[..n]) + {s[n]};
    }
  }

  ghost predicate NoLineFeeds(patch: seq<Printing>) { forall l | l in PatchLines(patch) :: OneLine(l) }

  /** A patch printed for the expected paths is read as exactly the changes it
      states, with totals, unless some section is of an empty file created or
      removed: then nothing of it is shown at all. */
  lemma PatchReadsBack(decode: Decoder, patch: seq<Printing>, expected: seq<string>)
    requires PrintsAll(decode, patch) && NoLineFeeds(patch)
    requires Distinct(expected) && Distinct(Paths(AllShown(patch))) && SetOf(Paths(AllShown(patch))) == SetOf(expected)
    ensures DiffOf(decode, Records(Unlines(PatchLines(patch))), expected)
         == if SomeUnmarked(patch) then InvalidDiff(expected) else Whole(AllShown(patch))
    ensures Whole(AllShown(patch)).complete
  {
    hide *;
    ShownIsComplete(patch);
    LinesReadBackAsRecords(patch);
    PrintedIsLaidOut(decode, patch);
    PatchCuts(decode, patch);
    PatchFiles(decode, patch);
    DistinctSize(expected);
    DistinctSize(Paths(AllShown(patch)));
    ReadBack(decode, patch, expected);
  }

  lemma PrintedIsLaidOut(decode: Decoder, patch: seq<Printing>)
    requires PrintsAll(decode, patch)
    ensures AllLaidOut(patch)
  {
    hide LaidOut, IsNamed;
  }

  lemma ShownIsComplete(patch: seq<Printing>)
    ensures Whole(AllShown(patch)).complete
  {
    hide Sorted, FlatLines, CountOf;
    var files := AllShown(patch);
    SortedPermutes(files, ByPath);
    forall f | f in Sorted(files, ByPath) ensures f.summary.additions.Some? && f.summary.deletions.Some? {
      assert f in multiset(files) by { assert f in multiset(Sorted(files, ByPath)); }
    }
  }

  lemma LinesReadBackAsRecords(patch: seq<Printing>)
    requires NoLineFeeds(patch)
    ensures Records(Unlines(PatchLines(patch))) == PatchLines(patch)
  {
    RecordsReadBack(PatchLines(patch));
  }

  lemma {:induction false} ReadBack(decode: Decoder, patch: seq<Printing>, expected: seq<string>)
    requires Sections(PatchLines(patch)) == Some(SectionsOf(patch)) && |patch| == |expected|
    requires Files(decode, SectionsOf(patch)) == if SomeUnmarked(patch) then None else Some(AllShown(patch))
    requires Distinct(Paths(AllShown(patch))) && SetOf(Paths(AllShown(patch))) == SetOf(expected)
    ensures DiffOf(decode, PatchLines(patch), expected)
         == if SomeUnmarked(patch) then InvalidDiff(expected) else Whole(AllShown(patch))
  {
    hide Sections, Files, SetOf, Distinct, Shown, Unmarked, Whole;
    if patch == [] {
      assert AllShown(patch) == [];
    } else {
      assert PatchLines(patch) != [];
    }
  }
}
