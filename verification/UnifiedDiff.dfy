/** The file sections of a Git patch, and the totals a complete one proves. */
module UnifiedDiff {
  import opened Prelude
  import opened Sorting
  import opened Hunks
  import ShellWords

  /** Octal and letter escapes of a token, as Git quotes path bytes. */
  type Decoder = string -> Option<string>

  datatype Status = Modified | Added | Deleted | Renamed

  /** The builder's fields as a value. */
  datatype Draft = Draft(
    headerOld: string, headerNew: string, oldPath: Option<string>, newPath: Option<string>, status: Status,
    sawOld: bool, sawNew: bool, binary: bool, additions: nat, deletions: nat, lines: seq<Line>)

  const SECTION := "diff --git "

  function Blank(headerOld: string, headerNew: string): Draft {
    Draft(headerOld, headerNew, None, None, Modified, false, false, false, 0, 0, [])
  }

  // ---- paths ----

  function Prefixed(value: string, prefix: string): Option<string> {
    if !(prefix <= value) || value == prefix then None else Some(value[|prefix|..])
  }

  function MetadataPath(decode: Decoder, value: string): Option<string> {
    var parts := ShellWords.Split(value);
    if parts.None? || |parts.value| != 1 then None else decode(parts.value[0])
  }

  function MarkerPath(decode: Decoder, value: string, prefix: string): Option<string> {
    if value == "/dev/null" then None
    else
      var parsed := MetadataPath(decode, value);
      if parsed.None? then None else Prefixed(parsed.value, prefix)
  }

  function HeaderPaths(decode: Decoder, line: string): Option<(string, string)> {
    var parts := ShellWords.Split(if SECTION <= line then line[|SECTION|..] else line);
    if parts.None? || |parts.value| != 2 then None
    else
      var a, b := decode(parts.value[0]), decode(parts.value[1]);
      if a.None? || b.None? then None
      else
        var left, right := Prefixed(a.value, "a/"), Prefixed(b.value, "b/");
        if left.None? || right.None? then None else Some((left.value, right.value))
  }

  // ---- one line of a section ----

  function Rest(line: string, prefix: string): string { if prefix <= line then line[|prefix|..] else line }

  predicate IsBinaryMark(line: string) {
    line == "GIT binary patch"
    || ("Binary files " <= line && |line| >= 7 && line[|line| - 7..] == " differ")
  }

  predicate IsNote(line: string) {
    "old mode " <= line || "new mode " <= line || "similarity index " <= line || "dissimilarity index " <= line
  }

  function Note(line: string): Line { Line(Metadata, None, None, line) }

  function Notes(raws: seq<string>): (notes: seq<Line>)
    ensures |notes| == |raws| && forall i | 0 <= i < |notes| :: notes[i].kind == Metadata
  {
    seq(|raws|, i requires 0 <= i < |raws| => Note(raws[i]))
  }

  /** What one header line, which is no hunk or binary mark, does. */
  function HeaderLine(decode: Decoder, d: Draft, line: string): Option<Draft> {
    if "new file mode " <= line then (if d.status != Modified then None else Some(d.(status := Added)))
    else if "deleted file mode " <= line then (if d.status != Modified then None else Some(d.(status := Deleted)))
    else if "rename from " <= line then
      var path := MetadataPath(decode, Rest(line, "rename from "));
      if path.None? then None else Some(d.(status := Renamed, oldPath := path))
    else if "rename to " <= line then
      var path := MetadataPath(decode, Rest(line, "rename to "));
      if path.None? then None else Some(d.(status := Renamed, newPath := path))
    else if "--- " <= line then
      var path := MarkerPath(decode, Rest(line, "--- "), "a/");
      if d.sawOld || (path.None? && line != "--- /dev/null") then None else Some(d.(sawOld := true, oldPath := path))
    else if "+++ " <= line then
      var path := MarkerPath(decode, Rest(line, "+++ "), "b/");
      if d.sawNew || (path.None? && line != "+++ /dev/null") then None else Some(d.(sawNew := true, newPath := path))
    else if "index " <= line then Some(d)
    else if IsNote(line) then Some(d.(lines := d.lines + [Note(line)]))
    else None
  }

  function WithHunk(d: Draft, h: Hunk): Draft {
    d.(lines := d.lines + h.lines, additions := d.additions + CountOf(h.lines, Addition),
       deletions := d.deletions + CountOf(h.lines, Deletion))
  }

  /** The section's lines from `i` on. */
  function Scan(decode: Decoder, raws: seq<string>, i: nat, d: Draft): Option<Draft>
    requires i <= |raws|
    decreases |raws| - i
  {
    if i == |raws| then Some(d)
    else if HUNK <= raws[i] then
      var h := HunkAt(raws, i);
      if d.binary || h.None? then None else Scan(decode, raws, HunkEnd(raws, i + 1), WithHunk(d, h.value))
    else if IsBinaryMark(raws[i]) then Some(d.(binary := true, lines := d.lines + Notes(raws[i..])))
    else
      var next := HeaderLine(decode, d, raws[i]);
      if next.None? then None else Scan(decode, raws, i + 1, next.value)
  }

  // ---- a whole section ----

  datatype Summary = Summary(path: string, status: Option<Status>, additions: Option<nat>, deletions: Option<nat>, binary: bool)

  datatype FileDiff = FileDiff(summary: Summary, oldPath: Option<string>, newPath: Option<string>, lines: seq<Line>)

  /** An absent or empty path gives way to the next choice. */
  function Or(path: Option<string>, otherwise: string): string {
    if path.Some? && path.value != "" then path.value else otherwise
  }

  function Chosen(d: Draft): Option<string> {
    match d.status
    case Added => if d.oldPath.Some? then None else Some(Or(d.newPath, d.headerNew))
    case Deleted => if d.newPath.Some? then None else Some(Or(d.oldPath, d.headerOld))
    case Renamed => if d.oldPath.None? then None else d.newPath
    case Modified => Some(Or(d.newPath, Or(d.oldPath, d.headerNew)))
  }

  predicate MarkersAgree(d: Draft) {
    && d.sawOld == d.sawNew
    && (d.status == Added ==> d.newPath.Some?) && (d.status == Deleted ==> d.oldPath.Some?)
    && (d.status == Modified && d.sawOld ==> d.oldPath == d.newPath)
  }

  function Finished(d: Draft): Option<FileDiff> {
    var path := Chosen(d);
    if path.None? || (!d.binary && !MarkersAgree(d)) then None
    else
      Some(FileDiff(
        Summary(path.value, Some(d.status), if d.binary then None else Some(d.additions),
                if d.binary then None else Some(d.deletions), d.binary),
        d.oldPath, d.newPath, d.lines))
  }

  function FileOf(decode: Decoder, raws: seq<string>): Option<FileDiff>
    requires raws != []
  {
    var paths := HeaderPaths(decode, raws[0]);
    if paths.None? then None
    else
      var d := Scan(decode, raws, 1, Blank(paths.value.0, paths.value.1));
      if d.None? then None else Finished(d.value)
  }

  // ---- the builder, filled in place ----

  class FileBuilder {
    const headerOld: string
    const headerNew: string
    var oldPath: Option<string>
    var newPath: Option<string>
    var status: Status
    var sawOld: bool
    var sawNew: bool
    var binary: bool
    var additions: nat
    var deletions: nat
    var lines: seq<Line>

    constructor (headerOld: string, headerNew: string)
      ensures Value() == Blank(headerOld, headerNew)
    {
      this.headerOld, this.headerNew := headerOld, headerNew;
      oldPath, newPath, status := None, None, Modified;
      sawOld, sawNew, binary := false, false, false;
      additions, deletions, lines := 0, 0, [];
    }

    function Value(): Draft
      reads this
    {
      Draft(headerOld, headerNew, oldPath, newPath, status, sawOld, sawNew, binary, additions, deletions, lines)
    }

    /** Consumes the hunk whose header is line `index`. */
    method ParseHunk(raws: seq<string>, index: nat) returns (consumed: Option<nat>)
      requires index < |raws|
      modifies this`additions, this`deletions, this`lines
      ensures consumed.Some? <==> !binary && HunkAt(raws, index).Some?
      ensures consumed.Some? ==>
                consumed.value == HunkEnd(raws, index + 1) && Value() == WithHunk(old(Value()), HunkAt(raws, index).value)
    {
      hide BodyLine, ReadRange, OldCount, NewCount, CountOf, Body;
      var range := ReadRange(raws[index]);
      if range.None? || binary { return None; }
      var r := range.value;
      var oldLine, newLine, usedOld, usedNew := r.oldStart, r.newStart, 0, 0;
      var i := index + 1;
      ghost var done: seq<Line> := [];
      NothingCounted(done);
      NothingReads(r.oldStart, r.newStart);
      assert lines + done == lines && raws[index + 1..index + 1] == [];
      while i < |raws|
        invariant index + 1 <= i <= HunkEnd(raws, index + 1)
        invariant Body(raws[index + 1..i], r.oldStart, r.newStart) == Some(done)
        invariant usedOld == OldCount(done) && usedNew == NewCount(done)
        invariant oldLine == r.oldStart + usedOld && newLine == r.newStart + usedNew
        invariant lines == old(lines) + done
        invariant additions == old(additions) + CountOf(done, Addition) && deletions == old(deletions) + CountOf(done, Deletion)
      {
        var raw := raws[i];
        if HUNK <= raw { break; }
        BodyStops(raws, index + 1, i, r.oldStart, r.newStart, done);
        if SECTION <= raw { SectionIsNoLine(raw, oldLine, newLine); return None; }
        PlacedLine(raw, oldLine, newLine);
        if raw == NO_NEWLINE {
          done := Extended(done, Note(raw));
          lines := lines + [Note(raw)];
        } else if raw == [] {
          return None;
        } else {
          if raw[0] == ' ' {
            done := Extended(done, Line(Context, Some(oldLine), Some(newLine), raw[1..]));
            lines := lines + [Line(Context, Some(oldLine), Some(newLine), raw[1..])];
            oldLine, newLine, usedOld, usedNew := oldLine + 1, newLine + 1, usedOld + 1, usedNew + 1;
          } else if raw[0] == '+' {
            done := Extended(done, Line(Addition, None, Some(newLine), raw[1..]));
            lines := lines + [Line(Addition, None, Some(newLine), raw[1..])];
            newLine, usedNew, additions := newLine + 1, usedNew + 1, additions + 1;
          } else if raw[0] == '-' {
            done := Extended(done, Line(Deletion, Some(oldLine), None, raw[1..]));
            lines := lines + [Line(Deletion, Some(oldLine), None, raw[1..])];
            oldLine, usedOld, deletions := oldLine + 1, usedOld + 1, deletions + 1;
          } else {
            return None;
          }
        }
        i := i + 1;
      }
      if usedOld != r.oldCount || usedNew != r.newCount { return None; }
      return Some(i);
    }

    /** One header line, in the order its forms are tried. */
    method ReadHeaderLine(decode: Decoder, line: string) returns (ok: bool)
      modifies this
      ensures ok <==> HeaderLine(decode, old(Value()), line).Some?
      ensures ok ==> Value() == HeaderLine(decode, old(Value()), line).value
    {
      if "new file mode " <= line {
        if status != Modified { return false; }
        status := Added;
      } else if "deleted file mode " <= line {
        if status != Modified { return false; }
        status := Deleted;
      } else if "rename from " <= line {
        status := Renamed;
        oldPath := MetadataPath(decode, Rest(line, "rename from "));
        if oldPath.None? { return false; }
      } else if "rename to " <= line {
        status := Renamed;
        newPath := MetadataPath(decode, Rest(line, "rename to "));
        if newPath.None? { return false; }
      } else if "--- " <= line {
        if sawOld { return false; }
        sawOld := true;
        oldPath := MarkerPath(decode, Rest(line, "--- "), "a/");
        if oldPath.None? && line != "--- /dev/null" { return false; }
      } else if "+++ " <= line {
        if sawNew { return false; }
        sawNew := true;
        newPath := MarkerPath(decode, Rest(line, "+++ "), "b/");
        if newPath.None? && line != "+++ /dev/null" { return false; }
      } else if "index " <= line {
      } else if IsNote(line) {
        lines := lines + [Note(line)];
      } else {
        return false;
      }
      return true;
    }
  }

  method ParseFile(decode: Decoder, raws: seq<string>) returns (file: Option<FileDiff>)
    requires raws != []
    ensures file == FileOf(decode, raws)
  {
    hide HeaderLine, HunkAt, Finished, HeaderPaths, IsBinaryMark, WithHunk;
    var paths := HeaderPaths(decode, raws[0]);
    if paths.None? { return None; }
    var builder := new FileBuilder(paths.value.0, paths.value.1);
    ghost var blank := builder.Value();
    var index := 1;
    while index < |raws|
      invariant 1 <= index <= |raws|
      invariant Scan(decode, raws, 1, blank) == Scan(decode, raws, index, builder.Value())
    {
      var line := raws[index];
      if HUNK <= line {
        var consumed := builder.ParseHunk(raws, index);
        if consumed.None? { return None; }
        index := consumed.value;
      } else if IsBinaryMark(line) {
        builder.binary := true;
        builder.lines := builder.lines + Notes(raws[index..]);
        break;
      } else {
        var ok := builder.ReadHeaderLine(decode, line);
        if !ok { return None; }
        index := index + 1;
      }
    }
    assert Scan(decode, raws, 1, blank) == Some(builder.Value());
    return Finished(builder.Value());
  }

  /** `done` with one more line, and what that adds to each count. */
  ghost function Extended(done: seq<Line>, l: Line): (more: seq<Line>)
    ensures more == done + [l]
    ensures OldCount(more) == OldCount(done) + (if OnOldSide(l) then 1 else 0)
    ensures NewCount(more) == NewCount(done) + (if OnNewSide(l) then 1 else 0)
    ensures forall k :: CountOf(more, k) == CountOf(done, k) + (if l.kind == k then 1 else 0)
  {
    CountsOfSnoc(done, l);
    done + [l]
  }

  lemma SectionIsNoLine(raw: string, left: nat, right: nat)
    requires SECTION <= raw
    ensures BodyLine(raw, left, right).None?
  {
    assert SECTION[0] == 'd' && NO_NEWLINE[0] == '\\' && raw[0] == SECTION[0];
  }

  lemma PlacedLine(raw: string, left: nat, right: nat)
    ensures BodyLine(raw, left, right)
         == if raw == NO_NEWLINE then Some(Note(raw))
            else if raw == [] then None
            else if raw[0] == ' ' then Some(Line(Context, Some(left), Some(right), raw[1..]))
            else if raw[0] == '+' then Some(Line(Addition, None, Some(right), raw[1..]))
            else if raw[0] == '-' then Some(Line(Deletion, Some(left), None, raw[1..]))
            else None
  {
  }

  /** One more raw line either extends what was read or ends the hunk. */
  lemma BodyStops(raws: seq<string>, from: nat, i: nat, left: nat, right: nat, done: seq<Line>)
    requires from <= |raws| && from <= i < HunkEnd(raws, from) && Body(raws[from..i], left, right) == Some(done)
    ensures var next := BodyLine(raws[i], left + OldCount(done), right + NewCount(done));
      && (next.Some? ==> Body(raws[from..i + 1], left, right) == Some(done + [next.value]))
      && (next.None? ==> Body(raws[from..HunkEnd(raws, from)], left, right).None?)
  {
    hide Body, BodyLine;
    var all := raws[from..HunkEnd(raws, from)];
    BodyOfSnoc(raws[from..i], raws[i], left, right);
    assert raws[from..i] + [raws[i]] == raws[from..i + 1] == all[..i + 1 - from];
    if BodyLine(raws[i], left + OldCount(done), right + NewCount(done)).None? {
      BodyOfPrefix(all, i + 1 - from, left, right);
    }
  }

  // ---- what an accepted text section means ----

  ghost predicate AllNotes(lines: seq<Line>) { forall l | l in lines :: l.kind == Metadata }

  /** The section's lines are some notes and then the lines of its hunks, from
      the first header on, and its counts are those of its lines. */
  ghost predicate TextFrom(raws: seq<string>, i: nat, before: Draft, d: Draft, k: nat, notes: seq<Line>, hunks: seq<Hunk>) {
    && i <= k <= |raws| && HunksFrom(raws, k) == Some(hunks) && AllNotes(notes)
    && d.lines == before.lines + (notes + FlatLines(hunks))
    && d.additions == before.additions + CountOf(FlatLines(hunks), Addition)
    && d.deletions == before.deletions + CountOf(FlatLines(hunks), Deletion)
  }

  /** Once at a header, everything to the end is hunks. */
  lemma {:induction false} ScanHunks(decode: Decoder, raws: seq<string>, i: nat, d: Draft)
    requires i <= |raws| && (i < |raws| ==> HUNK <= raws[i]) && Scan(decode, raws, i, d).Some?
    ensures var f := Scan(decode, raws, i, d).value;
      HunksFrom(raws, i).Some? && f.binary == d.binary && TextFrom(raws, i, d, f, i, [], HunksFrom(raws, i).value)
    decreases |raws| - i
  {
    hide HunkAt, HeaderLine, CountOf;
    if i == |raws| {
      NothingCounted([]);
      assert d.lines + ([] + []) == d.lines;
    } else {
      var h, j := HunkAt(raws, i).value, HunkEnd(raws, i + 1);
      ScanHunks(decode, raws, j, WithHunk(d, h));
      hide Scan;
      HunkBefore(raws, i, d, Scan(decode, raws, j, WithHunk(d, h)).value);
    }
  }

  lemma HunkBefore(raws: seq<string>, i: nat, d: Draft, f: Draft)
    requires i < |raws| && HunkAt(raws, i).Some? && HunksFrom(raws, HunkEnd(raws, i + 1)).Some?
    requires var j := HunkEnd(raws, i + 1);
      TextFrom(raws, j, WithHunk(d, HunkAt(raws, i).value), f, j, [], HunksFrom(raws, j).value)
    ensures HunksFrom(raws, i).Some? && TextFrom(raws, i, d, f, i, [], HunksFrom(raws, i).value)
  {
    hide HunkAt, CountOf;
    var h, rest := HunkAt(raws, i).value, HunksFrom(raws, HunkEnd(raws, i + 1)).value;
    CountsAdd(h.lines, FlatLines(rest));
    assert ([h] + rest)[1..] == rest;
    assert FlatLines([h] + rest) == h.lines + FlatLines(rest);
    assert d.lines + h.lines + ([] + FlatLines(rest)) == d.lines + ([] + (h.lines + FlatLines(rest)));
  }

  /** What a header line leaves alone, but for its note. */
  predicate AddsOnly(d: Draft, n: Draft, notes: seq<Line>) {
    n.lines == d.lines + notes && n.additions == d.additions && n.deletions == d.deletions && n.binary == d.binary
  }

  predicate IsFileHeader(line: string) {
    || "new file mode " <= line || "deleted file mode " <= line || "rename from " <= line || "rename to " <= line
    || "--- " <= line || "+++ " <= line || "index " <= line
  }

  lemma FileHeaderAddsNothing(decode: Decoder, d: Draft, line: string)
    requires HeaderLine(decode, d, line).Some? && IsFileHeader(line)
    ensures AddsOnly(d, HeaderLine(decode, d, line).value, [])
  {
    hide MetadataPath, MarkerPath, IsNote, Rest;
    assert d.lines + [] == d.lines;
  }

  lemma NoteAddsItself(decode: Decoder, d: Draft, line: string)
    requires HeaderLine(decode, d, line).Some? && !IsFileHeader(line)
    ensures HeaderLine(decode, d, line).value == d.(lines := d.lines + [Note(line)])
  {
    hide MetadataPath, MarkerPath, IsNote, Rest;
  }

  lemma HeaderLineNotes(decode: Decoder, d: Draft, line: string) returns (notes: seq<Line>)
    requires HeaderLine(decode, d, line).Some?
    ensures AllNotes(notes) && AddsOnly(d, HeaderLine(decode, d, line).value, notes)
  {
    hide HeaderLine, IsFileHeader;
    if IsFileHeader(line) {
      notes := [];
      FileHeaderAddsNothing(decode, d, line);
    } else {
      notes := [Note(line)];
      NoteAddsItself(decode, d, line);
    }
  }

  lemma {:induction false} ScanIsText(decode: Decoder, raws: seq<string>, i: nat, d: Draft)
      returns (k: nat, notes: seq<Line>, hunks: seq<Hunk>)
    requires i <= |raws| && Scan(decode, raws, i, d).Some? && !Scan(decode, raws, i, d).value.binary
    ensures TextFrom(raws, i, d, Scan(decode, raws, i, d).value, k, notes, hunks)
    decreases |raws| - i
  {
    hide HeaderLine, HunkAt, TextFrom;
    if i == |raws| || HUNK <= raws[i] {
      ScanHunks(decode, raws, i, d);
      return i, [], HunksFrom(raws, i).value;
    } else {
      var next := HeaderLine(decode, d, raws[i]).value;
      var first := HeaderLineNotes(decode, d, raws[i]);
      k, notes, hunks := ScanIsText(decode, raws, i + 1, next);
      TextAfterNotes(raws, i, d, next, Scan(decode, raws, i, d).value, k, first, notes, hunks);
      notes := first + notes;
    }
  }

  lemma TextAfterNotes(raws: seq<string>, i: nat, d: Draft, next: Draft, f: Draft, k: nat, first: seq<Line>,
                       notes: seq<Line>, hunks: seq<Hunk>)
    requires AllNotes(first) && TextFrom(raws, i + 1, next, f, k, notes, hunks)
    requires next.lines == d.lines + first && next.additions == d.additions && next.deletions == d.deletions
    ensures TextFrom(raws, i, d, f, k, first + notes, hunks)
  {
    hide HunksFrom, CountOf, FlatLines;
    assert d.lines + first + (notes + FlatLines(hunks)) == d.lines + (first + notes + FlatLines(hunks));
  }

  lemma {:induction false} NotesCountNothing(notes: seq<Line>, kind: Kind)
    requires AllNotes(notes) && kind != Metadata
    ensures CountOf(notes, kind) == 0
  {
    if notes != [] {
      assert notes[|notes| - 1] in notes;
      NotesCountNothing(notes[..|notes| - 1], kind);
    }
  }

  /** In every accepted text file, from the first header on the raw lines are
      hunks whose sides are numbered consecutively with exactly the declared
      counts, its lines are theirs after some notes, and the reported additions
      and deletions are the numbers of such lines. */
  lemma TextFileIsExact(decode: Decoder, raws: seq<string>) returns (k: nat, notes: seq<Line>, hunks: seq<Hunk>)
    requires raws != [] && FileOf(decode, raws).Some? && !FileOf(decode, raws).value.summary.binary
    ensures var f := FileOf(decode, raws).value;
      && 1 <= k <= |raws| && HunksFrom(raws, k) == Some(hunks) && (forall h | h in hunks :: WellFormed(h))
      && AllNotes(notes) && f.lines == notes + FlatLines(hunks)
      && f.summary.additions == Some(CountOf(f.lines, Addition))
      && f.summary.deletions == Some(CountOf(f.lines, Deletion))
  {
    hide Scan, HeaderLine, HunksFrom, CountOf, WellFormed;
    var paths := HeaderPaths(decode, raws[0]).value;
    var blank := Blank(paths.0, paths.1);
    k, notes, hunks := ScanIsText(decode, raws, 1, blank);
    HunksAreWellFormed(raws, k);
    CountsAdd(notes, FlatLines(hunks));
    NotesCountNothing(notes, Addition);
    NotesCountNothing(notes, Deletion);
    assert [] + (notes + FlatLines(hunks)) == notes + FlatLines(hunks);
  }

  lemma HunkStartsWithHeader(raws: seq<string>, i: nat)
    requires i < |raws| && HunkAt(raws, i).Some?
    ensures HUNK <= raws[i]
  {
    hide Body;
    assert "@@ -" <= raws[i];
    assert HUNK == "@@ -"[..3];
  }

  function WithHunks(d: Draft, hunks: seq<Hunk>): Draft {
    d.(lines := d.lines + FlatLines(hunks), additions := d.additions + CountOf(FlatLines(hunks), Addition),
       deletions := d.deletions + CountOf(FlatLines(hunks), Deletion))
  }

  lemma WithMoreHunks(d: Draft, h: Hunk, rest: seq<Hunk>)
    ensures WithHunks(WithHunk(d, h), rest) == WithHunks(d, [h] + rest)
  {
    hide CountOf;
    assert ([h] + rest)[1..] == rest;
    CountsAdd(h.lines, FlatLines(rest));
    assert d.lines + h.lines + FlatLines(rest) == d.lines + (h.lines + FlatLines(rest));
  }

  lemma WithNoHunks(d: Draft)
    ensures WithHunks(d, []) == d
  {
    assert d.lines + [] == d.lines;
  }

  lemma {:induction false} HunksScan(decode: Decoder, raws: seq<string>, i: nat, d: Draft)
    requires i <= |raws| && HunksFrom(raws, i).Some? && !d.binary
    ensures Scan(decode, raws, i, d) == Some(WithHunks(d, HunksFrom(raws, i).value))
    decreases |raws| - i
  {
    hide HeaderLine, WithHunks, HunkAt;
    if i < |raws| {
      var h, j := HunkAt(raws, i).value, HunkEnd(raws, i + 1);
      HunkStartsWithHeader(raws, i);
      HunksScan(decode, raws, j, WithHunk(d, h));
      WithMoreHunks(d, h, HunksFrom(raws, j).value);
    } else {
      WithNoHunks(d);
    }
  }

  /** Printing any well-formed hunks at the end of a section adds exactly their
      lines and counts to what its header lines said. */
  lemma PrintedHunksReadBack(decode: Decoder, raws: seq<string>, k: nat, d: Draft, hunks: seq<Hunk>)
    requires k <= |raws| && PrintsHunks(raws, k, hunks) && (forall h | h in hunks :: WellFormed(h)) && !d.binary
    ensures Scan(decode, raws, k, d) == Some(WithHunks(d, hunks))
  {
    hide *;
    HunksReadBack(raws, k, hunks);
    HunksScan(decode, raws, k, d);
  }

  // ---- the whole patch ----

  datatype Diff = Diff(files: seq<FileDiff>, summaries: seq<Summary>, additions: Option<nat>, deletions: Option<nat>, complete: bool)

  /** A claim about no counts at all. */
  function InvalidDiff(expected: seq<string>): Diff {
    Diff([], seq(|expected|, i requires 0 <= i < |expected| => Summary(expected[i], None, None, None, false)), None, None, false)
  }

  predicate Distinct(s: seq<string>) { forall i, j | 0 <= i < j < |s| :: s[i] != s[j] }

  function SetOf(s: seq<string>): set<string> { set x | x in s }

  predicate NoneEmpty(sections: seq<seq<string>>) { forall i | 0 <= i < |sections| :: sections[i] != [] }

  /** A patch's lines cut before each section line; `None` when it does not
      begin with one. */
  function Sections(raws: seq<string>): (r: Option<seq<seq<string>>>)
    ensures r.Some? ==> NoneEmpty(r.value)
  {
    if raws == [] then Some([])
    else
      var prior, last := Sections(raws[..|raws| - 1]), raws[|raws| - 1];
      if prior.None? then None
      else if SECTION <= last then Some(prior.value + [[last]])
      else if prior.value == [] then None
      else
        var n := |prior.value| - 1;
        Some(prior.value[..n] + [prior.value[n] + [last]])
  }

  function Concat(sections: seq<seq<string>>): seq<string> {
    if sections == [] then [] else Concat(sections[..|sections| - 1]) + sections[|sections| - 1]
  }

  /** The section line comes first and nowhere else. */
  ghost predicate StartsOnly(s: seq<string>) {
    s != [] && SECTION <= s[0] && forall i | 1 <= i < |s| :: !(SECTION <= s[i])
  }

  /** Cutting a patch into sections neither loses nor moves a line. */
  lemma {:induction false} SectionsConcat(raws: seq<string>)
    requires Sections(raws).Some?
    ensures Concat(Sections(raws).value) == raws
    ensures forall i | 0 <= i < |Sections(raws).value| :: StartsOnly(Sections(raws).value[i])
  {
    if raws != [] {
      var most, last := raws[..|raws| - 1], raws[|raws| - 1];
      SectionsConcat(most);
      var prior, sections := Sections(most).value, Sections(raws).value;
      var n := |sections| - 1;
      assert sections[..n] == if SECTION <= last then prior else prior[..n];
      assert most + [last] == raws;
    }
  }

  function Files(decode: Decoder, sections: seq<seq<string>>): (r: Option<seq<FileDiff>>)
    requires NoneEmpty(sections)
    ensures r.Some? ==> |r.value| == |sections|
  {
    if sections == [] then Some([])
    else
      var n := |sections| - 1;
      var prior, last := Files(decode, sections[..n]), FileOf(decode, sections[n]);
      if prior.None? || last.None? then None else Some(prior.value + [last.value])
  }

  lemma {:induction false} FileAt(decode: Decoder, sections: seq<seq<string>>, i: nat)
    requires NoneEmpty(sections) && Files(decode, sections).Some? && i < |sections|
    ensures FileOf(decode, sections[i]) == Some(Files(decode, sections).value[i])
  {
    hide FileOf;
    var n := |sections| - 1;
    if i < n { FileAt(decode, sections[..n], i); }
  }

  function Paths(files: seq<FileDiff>): (paths: seq<string>)
    ensures |paths| == |files|
  {
    seq(|files|, i requires 0 <= i < |files| => files[i].summary.path)
  }

  predicate ByPath(a: FileDiff, b: FileDiff) { NameLeq(a.summary.path, b.summary.path) }

  predicate Unknown(files: seq<FileDiff>) {
    exists f | f in files :: f.summary.additions.None? || f.summary.deletions.None?
  }

  function Known(count: Option<nat>): nat { if count.Some? then count.value else 0 }

  function SumOf(files: seq<FileDiff>, additions: bool): nat {
    if files == [] then 0
    else
      var s := files[|files| - 1].summary;
      SumOf(files[..|files| - 1], additions) + Known(if additions then s.additions else s.deletions)
  }

  /** All files in path order, with totals only when every file has its own. */
  function Whole(files: seq<FileDiff>): Diff {
    var ordered := Sorted(files, ByPath);
    var unknown := Unknown(ordered);
    Diff(ordered, seq(|ordered|, i requires 0 <= i < |ordered| => ordered[i].summary),
         if unknown then None else Some(SumOf(ordered, true)), if unknown then None else Some(SumOf(ordered, false)), !unknown)
  }

  function DiffOf(decode: Decoder, raws: seq<string>, expected: seq<string>): Diff {
    if raws == [] then (if expected != [] then InvalidDiff(expected) else Whole([]))
    else
      var sections := Sections(raws);
      if sections.None? || |sections.value| != |expected| then InvalidDiff(expected)
      else
        var files := Files(decode, sections.value);
        if files.None? || !Distinct(Paths(files.value)) || SetOf(Paths(files.value)) != SetOf(expected)
        then InvalidDiff(expected)
        else Whole(files.value)
  }

  method SplitSections(raws: seq<string>) returns (sections: Option<seq<seq<string>>>)
    ensures sections == Sections(raws)
  {
    var cut: seq<seq<string>> := [];
    for i := 0 to |raws|
      invariant Sections(raws[..i]) == Some(cut)
    {
      var line := raws[i];
      assert raws[..i + 1][..i] == raws[..i];
      if SECTION <= line {
        cut := cut + [[line]];
      } else if cut == [] {
        NoSections(raws, i + 1);
        return None;
      } else {
        cut := cut[..|cut| - 1] + [cut[|cut| - 1] + [line]];
      }
    }
    assert raws[..|raws|] == raws;
    return Some(cut);
  }

  method ParseSections(decode: Decoder, sections: seq<seq<string>>) returns (files: Option<seq<FileDiff>>)
    requires NoneEmpty(sections)
    ensures files == Files(decode, sections)
  {
    hide FileOf;
    var parsed: seq<FileDiff> := [];
    for i := 0 to |sections|
      invariant Files(decode, sections[..i]) == Some(parsed)
    {
      var item := ParseFile(decode, sections[i]);
      assert sections[..i + 1][..i] == sections[..i];
      if item.None? {
        NoFiles(decode, sections, i + 1);
        return None;
      }
      parsed := parsed + [item.value];
    }
    assert sections[..|sections|] == sections;
    return Some(parsed);
  }

  /** The text cut at every line feed. */
  function Cut(text: string): (parts: seq<string>)
    ensures parts != []
  {
    if text == [] then [[]]
    else
      var later := Cut(text[1..]);
      if text[0] == LF then [[]] + later else [[text[0]] + later[0]] + later[1..]
  }

  const LF: char := '\n'

  /** What follows the last line feed is a record only when it is not empty. */
  function Records(text: string): seq<string> {
    var parts := Cut(text);
    if parts[|parts| - 1] == [] then parts[..|parts| - 1] else parts
  }

  /** `None` when the expected paths repeat. */
  method ParseUnifiedDiff(decode: Decoder, text: string, expected: seq<string>) returns (diff: Option<Diff>)
    ensures diff == if Distinct(expected) then Some(DiffOf(decode, Records(text), expected)) else None
  {
    hide Files, Sections, Whole;
    if !Distinct(expected) { return None; }
    var raws := Records(text);
    if raws == [] {
      return Some(if expected != [] then InvalidDiff(expected) else Whole([]));
    }
    var sections := SplitSections(raws);
    if sections.None? || |sections.value| != |expected| { return Some(InvalidDiff(expected)); }
    var parsed := ParseSections(decode, sections.value);
    if parsed.None? || !Distinct(Paths(parsed.value)) || SetOf(Paths(parsed.value)) != SetOf(expected) {
      return Some(InvalidDiff(expected));
    }
    return Some(Whole(parsed.value));
  }

  lemma {:induction false} NoSections(raws: seq<string>, n: nat)
    requires n <= |raws| && Sections(raws[..n]).None?
    ensures Sections(raws).None?
    decreases |raws| - n
  {
    if n == |raws| {
      assert raws[..n] == raws;
    } else {
      assert raws[..n + 1][..n] == raws[..n];
      NoSections(raws, n + 1);
    }
  }

  lemma {:induction false} NoFiles(decode: Decoder, sections: seq<seq<string>>, n: nat)
    requires n <= |sections| && NoneEmpty(sections) && Files(decode, sections[..n]).None?
    ensures Files(decode, sections).None?
    decreases |sections| - n
  {
    if n == |sections| {
      assert sections[..n] == sections;
    } else {
      assert sections[..n + 1][..n] == sections[..n];
      NoFiles(decode, sections, n + 1);
    }
  }

  // ---- what a complete diff proves ----

  ghost predicate CountsItsLines(f: FileDiff) {
    && f.summary.additions == Some(CountOf(f.lines, Addition)) && f.summary.deletions == Some(CountOf(f.lines, Deletion))
  }

  /** The lines of one kind over all files. */
  function LinesOf(files: seq<FileDiff>, kind: Kind): nat {
    if files == [] then 0
    else LinesOf(files[..|files| - 1], kind) + CountOf(files[|files| - 1].lines, kind)
  }

  lemma {:induction false} SumCountsLines(files: seq<FileDiff>)
    requires forall i | 0 <= i < |files| :: CountsItsLines(files[i])
    ensures SumOf(files, true) == LinesOf(files, Addition) && SumOf(files, false) == LinesOf(files, Deletion)
  {
    hide CountOf;
    if files != [] {
      assert CountsItsLines(files[|files| - 1]);
      var most := files[..|files| - 1];
      forall i | 0 <= i < |most| ensures CountsItsLines(most[i]) { assert most[i] == files[i]; }
      SumCountsLines(most);
    }
  }

  lemma KnownFileCounts(decode: Decoder, raws: seq<string>, f: FileDiff)
    requires raws != [] && FileOf(decode, raws) == Some(f) && f.summary.additions.Some?
    ensures CountsItsLines(f)
  {
    assert !f.summary.binary;
    hide *;
    var k, notes, hunks := TextFileIsExact(decode, raws);
    assert CountsItsLines(f) by { Counted(f); }
  }

  lemma Counted(f: FileDiff)
    ensures CountsItsLines(f) <==>
              f.summary.additions == Some(CountOf(f.lines, Addition)) && f.summary.deletions == Some(CountOf(f.lines, Deletion))
  {
  }

  lemma WholeCounts(decode: Decoder, sections: seq<seq<string>>, files: seq<FileDiff>)
    requires NoneEmpty(sections) && Files(decode, sections) == Some(files) && Whole(files).complete
    ensures forall i | 0 <= i < |Whole(files).files| :: CountsItsLines(Whole(files).files[i])
  {
    hide FileOf, Files, CountsItsLines, Sorted;
    var ordered := Whole(files).files;
    SortedPermutes(files, ByPath);
    forall i | 0 <= i < |ordered| ensures CountsItsLines(ordered[i]) {
      assert ordered[i] in multiset(files) by { assert ordered[i] in multiset(ordered); }
      var j :| 0 <= j < |files| && files[j] == ordered[i];
      FileAt(decode, sections, j);
      assert ordered[i] in ordered;
      KnownFileCounts(decode, sections[j], ordered[i]);
    }
  }

  /** A complete diff has one file per expected path, and its totals are the
      numbers of added and deleted lines it shows; an incomplete one claims no
      totals. */
  lemma TotalsAreExact(decode: Decoder, raws: seq<string>, expected: seq<string>)
    ensures var d := DiffOf(decode, raws, expected);
      && (d.complete <==> d.additions.Some?) && (d.complete <==> d.deletions.Some?)
      && (d.complete ==>
            && |d.files| == |expected|
            && SetOf(Paths(d.files)) == SetOf(expected)
            && d.additions == Some(LinesOf(d.files, Addition)) && d.deletions == Some(LinesOf(d.files, Deletion)))
  {
    hide FileOf, Files, Sorted, CountsItsLines, LinesOf, SumOf, Sections;
    var d := DiffOf(decode, raws, expected);
    if d.complete {
      if raws == [] {
        assert Files(decode, []) == Some([]) by { NoFilesAtAll(decode); }
        WholeCounts(decode, [], []);
        SumCountsLines(d.files);
        SortedPermutes<FileDiff>([], ByPath);
        PathsSurviveSorting([], expected);
      } else {
        var sections := Sections(raws).value;
        var files := Files(decode, sections).value;
        WholeCounts(decode, sections, files);
        SumCountsLines(d.files);
        SortedPermutes(files, ByPath);
        PathsSurviveSorting(files, expected);
      }
    }
  }

  lemma NoFilesAtAll(decode: Decoder)
    ensures Files(decode, []) == Some([])
  {
  }

  lemma PathsSurviveSorting(files: seq<FileDiff>, expected: seq<string>)
    requires SetOf(Paths(files)) == SetOf(expected)
    ensures SetOf(Paths(Sorted(files, ByPath))) == SetOf(expected)
  {
    var ordered := Sorted(files, ByPath);
    SortedPermutes(files, ByPath);
    SamePaths(files, ordered);
    SamePaths(ordered, files);
  }

  lemma SamePaths(a: seq<FileDiff>, b: seq<FileDiff>)
    requires multiset(a) == multiset(b)
    ensures SetOf(Paths(a)) <= SetOf(Paths(b))
  {
    forall p | p in Paths(a) ensures p in Paths(b) {
      var i :| 0 <= i < |a| && Paths(a)[i] == p;
      assert a[i] in multiset(b) by { assert a[i] in multiset(a); }
      var j :| 0 <= j < |b| && b[j] == a[i];
      assert Paths(b)[j] == p;
    }
  }
}
