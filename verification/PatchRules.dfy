/** The patch parser's rules written out flat: which names, header lines, finished
    sections and whole patches are accepted, and which are refused. */
module PatchRules {
  import opened Prelude
  import opened Sorting
  import opened Hunks
  import opened UnifiedDiff
  import opened PatchText
  import ShellWords

  // ---- names ----

  /** `value` is one word, and it decodes to `name`. */
  ghost predicate IsToken(decode: Decoder, value: string, name: string) {
    exists w :: ShellWords.Split(value) == Some([w]) && decode(w) == Some(name)
  }

  lemma TokensExactly(decode: Decoder, value: string, name: string)
    ensures MetadataPath(decode, value) == Some(name) <==> IsToken(decode, value, name)
  {
    var parts := ShellWords.Split(value);
    if MetadataPath(decode, value) == Some(name) { assert parts.value == [parts.value[0]]; }
  }

  /** A marker names a path exactly when it is one token, on its own side, of a
      name that is not empty, and not the name of no file. */
  lemma SidesExactly(decode: Decoder, value: string, side: string, path: string)
    ensures MarkerPath(decode, value, side) == Some(path)
       <==> value != "/dev/null" && path != "" && IsToken(decode, value, side + path)
  {
    TokensExactly(decode, value, side + path);
    var read := MetadataPath(decode, value);
    if read.Some? && side <= read.value { assert read.value == side + read.value[|side|..]; }
    assert (side + path)[|side|..] == path && side <= side + path;
  }

  /** A section line names its two sides exactly when it is two such tokens. */
  lemma HeadersExactly(decode: Decoder, line: string, left: string, right: string)
    ensures HeaderPaths(decode, SECTION + line) == Some((left, right))
       <==> left != "" && right != ""
            && exists u, v :: ShellWords.Split(line) == Some([u, v]) && decode(u) == Some("a/" + left) && decode(v) == Some("b/" + right)
  {
    assert (SECTION + line)[|SECTION|..] == line;
    var parts := ShellWords.Split(line);
    assert ("a/" + left)[2..] == left && ("b/" + right)[2..] == right;
    if parts.Some? && |parts.value| == 2 {
      var u, v := parts.value[0], parts.value[1];
      assert parts.value == [u, v];
      var x, y := decode(u), decode(v);
      if x.Some? && "a/" <= x.value { assert x.value == "a/" + x.value[2..]; }
      if y.Some? && "b/" <= y.value { assert y.value == "b/" + y.value[2..]; }
    }
  }

  // ---- header lines ----

  /** Any text `x` after the beginning of one of these forms. */
  lemma FormsExactly(decode: Decoder, d: Draft, x: string)
    ensures HeaderLine(decode, d, "new file mode " + x) == if d.status == Modified then Some(d.(status := Added)) else None
    ensures HeaderLine(decode, d, "deleted file mode " + x) == if d.status == Modified then Some(d.(status := Deleted)) else None
    ensures HeaderLine(decode, d, "index " + x) == Some(d)
  {
    Begins("new file mode ", x);
    Begins("deleted file mode ", x);
    Begins("index ", x);
    assert ("deleted file mode " + x)[0] == 'd' && ("index " + x)[0] == 'i';
    hide MetadataPath, MarkerPath, IsNote;
  }

  lemma Begins(prefix: string, x: string)
    ensures prefix <= prefix + x && Rest(prefix + x, prefix) == x && |prefix + x| >= |prefix|
    ensures forall i | 0 <= i < |prefix| :: (prefix + x)[i] == prefix[i]
  {
    assert (prefix + x)[|prefix|..] == x;
  }

  lemma RenamesExactly(decode: Decoder, d: Draft, x: string)
    ensures HeaderLine(decode, d, "rename from " + x)
         == if MetadataPath(decode, x).None? then None else Some(d.(status := Renamed, oldPath := MetadataPath(decode, x)))
    ensures HeaderLine(decode, d, "rename to " + x)
         == if MetadataPath(decode, x).None? then None else Some(d.(status := Renamed, newPath := MetadataPath(decode, x)))
  {
    Begins("rename from ", x);
    Begins("rename to ", x);
    RenameRead(decode, d, "rename from " + x);
    RenameRead(decode, d, "rename to " + x);
    hide HeaderLine, MetadataPath, IsHead, Rest;
  }

  /** A marker is accepted once, and only with a path or as no file. */
  lemma OldMarkersExactly(decode: Decoder, d: Draft, x: string)
    ensures HeaderLine(decode, d, "--- " + x)
         == if d.sawOld || (x != "/dev/null" && MarkerPath(decode, x, "a/").None?) then None
            else Some(d.(sawOld := true, oldPath := if x == "/dev/null" then None else MarkerPath(decode, x, "a/")))
  {
    var line := "--- " + x;
    Begins("--- ", x);
    assert line[0] == '-';
    assert line == "--- /dev/null" <==> x == "/dev/null" by {
      assert "--- /dev/null"[4..] == "/dev/null" && line[4..] == x && "--- /dev/null" == "--- " + "/dev/null";
    }
    NoFileNames(decode, x, "a/");
    hide MetadataPath, MarkerPath, IsNote, Rest;
  }

  lemma NewMarkersExactly(decode: Decoder, d: Draft, x: string)
    ensures HeaderLine(decode, d, "+++ " + x)
         == if d.sawNew || (x != "/dev/null" && MarkerPath(decode, x, "b/").None?) then None
            else Some(d.(sawNew := true, newPath := if x == "/dev/null" then None else MarkerPath(decode, x, "b/")))
  {
    var line := "+++ " + x;
    Begins("+++ ", x);
    assert line[0] == '+';
    assert line == "+++ /dev/null" <==> x == "/dev/null" by {
      assert "+++ /dev/null"[4..] == "/dev/null" && line[4..] == x && "+++ /dev/null" == "+++ " + "/dev/null";
    }
    NoFileNames(decode, x, "b/");
    hide MetadataPath, MarkerPath, IsNote, Rest;
  }

  lemma NoFileNames(decode: Decoder, x: string, side: string)
    ensures x == "/dev/null" ==> MarkerPath(decode, x, side) == None
  {
  }

  lemma NotesExactly(decode: Decoder, d: Draft, x: string)
    ensures forall line | line == "old mode " + x || line == "new mode " + x || line == "similarity index " + x
                          || line == "dissimilarity index " + x ::
              HeaderLine(decode, d, line) == Some(d.(lines := d.lines + [Line(Metadata, None, None, line)]))
  {
    Begins("old mode ", x);
    Begins("new mode ", x);
    Begins("similarity index ", x);
    Begins("dissimilarity index ", x);
    forall line | line == "old mode " + x || line == "new mode " + x || line == "similarity index " + x
                  || line == "dissimilarity index " + x
      ensures HeaderLine(decode, d, line) == Some(d.(lines := d.lines + [Line(Metadata, None, None, line)]))
    {
      assert IsNote(line);
      PlainLine(decode, d, line);
    }
  }

  const FORMS: seq<string> := [
    "new file mode ", "deleted file mode ", "rename from ", "rename to ", "--- ", "+++ ", "index ",
    "old mode ", "new mode ", "similarity index ", "dissimilarity index "]

  /** Every other line is refused. */
  lemma OthersAreRefused(decode: Decoder, d: Draft, line: string)
    requires forall i | 0 <= i < |FORMS| :: !(FORMS[i] <= line)
    ensures HeaderLine(decode, d, line) == None
  {
    assert FORMS[0] == "new file mode " && FORMS[1] == "deleted file mode " && FORMS[2] == "rename from ";
    assert FORMS[3] == "rename to " && FORMS[4] == "--- " && FORMS[5] == "+++ " && FORMS[6] == "index ";
    assert FORMS[7] == "old mode " && FORMS[8] == "new mode " && FORMS[9] == "similarity index " && FORMS[10] == "dissimilarity index ";
    hide MetadataPath, MarkerPath;
  }

  // ---- a finished section ----

  /** Exactly which sections are accepted once read through, and as what. */
  lemma FinishesExactly(d: Draft)
    ensures var f := Finished(d);
      && (f.Some? <==>
            match d.status
            case Added => d.oldPath.None? && (d.binary || (d.newPath.Some? && d.sawOld == d.sawNew))
            case Deleted => d.newPath.None? && (d.binary || (d.oldPath.Some? && d.sawOld == d.sawNew))
            case Renamed => d.oldPath.Some? && d.newPath.Some? && (d.binary || d.sawOld == d.sawNew)
            case Modified => d.binary || (d.sawOld == d.sawNew && (d.sawOld ==> d.oldPath == d.newPath)))
      && (f.Some? ==>
            && f.value.oldPath == d.oldPath && f.value.newPath == d.newPath && f.value.lines == d.lines
            && f.value.summary.status == Some(d.status) && f.value.summary.binary == d.binary
            && f.value.summary.additions == (if d.binary then None else Some(d.additions))
            && f.value.summary.deletions == (if d.binary then None else Some(d.deletions))
            && f.value.summary.path
               == (match d.status
                   case Added => if d.newPath.None? || d.newPath == Some("") then d.headerNew else d.newPath.value
                   case Deleted => if d.oldPath.None? || d.oldPath == Some("") then d.headerOld else d.oldPath.value
                   case Renamed => d.newPath.value
                   case Modified =>
                     if d.newPath.Some? && d.newPath != Some("") then d.newPath.value
                     else if d.oldPath.Some? && d.oldPath != Some("") then d.oldPath.value
                     else d.headerNew))
  {
  }

  // ---- binary sections ----

  lemma BinaryMarks(x: string)
    ensures IsBinaryMark("GIT binary patch") && IsBinaryMark("Binary files " + x + " differ")
  {
    var line := "Binary files " + x + " differ";
    assert line == "Binary files " + (x + " differ");
    assert line[|line| - 7..] == " differ";
  }

  /** From a binary mark on, nothing is read: every line is shown, and no count
      is claimed. */
  lemma BinarySectionReads(decode: Decoder, raws: seq<string>, k: nat)
    requires 1 <= k < |raws| && AllHeads(raws[1..k]) && IsBinaryMark(raws[k]) && !(HUNK <= raws[k])
    ensures var paths := HeaderPaths(decode, raws[0]);
      var told := if paths.None? then None else ReadAll(decode, Blank(paths.value.0, paths.value.1), raws[1..k]);
      FileOf(decode, raws)
      == if told.None? then None else Finished(told.value.(binary := true, lines := told.value.lines + Notes(raws[k..])))
  {
    hide ReadAll, HeaderPaths, IsHead, IsBinaryMark, Finished, HunkAt, HeaderLine;
    var paths := HeaderPaths(decode, raws[0]);
    if paths.Some? {
      var d := Blank(paths.value.0, paths.value.1);
      BlockScans(decode, raws, 1, d, raws[1..k]);
    }
  }

  lemma BinaryClaimsNothing(d: Draft)
    requires d.binary && Finished(d).Some?
    ensures Finished(d).value.summary.binary
    ensures Finished(d).value.summary.additions == None && Finished(d).value.summary.deletions == None
  {
  }

  // ---- a whole patch ----

  ghost predicate AllRead(decode: Decoder, sections: seq<seq<string>>, files: seq<FileDiff>) {
    && |files| == |sections| && NoneEmpty(sections)
    && forall i | 0 <= i < |sections| :: FileOf(decode, sections[i]) == Some(files[i])
  }

  lemma {:induction false} FilesExactly(decode: Decoder, sections: seq<seq<string>>, files: seq<FileDiff>)
    requires NoneEmpty(sections)
    ensures Files(decode, sections) == Some(files) <==> AllRead(decode, sections, files)
  {
    hide FileOf;
    if sections == [] {
      assert files == [] <==> |files| == 0;
    } else {
      var n := |sections| - 1;
      if |files| == |sections| {
        FilesExactly(decode, sections[..n], files[..n]);
        assert files == files[..n] + [files[n]];
      }
      if Files(decode, sections) == Some(files) {
        forall i | 0 <= i < |sections| ensures FileOf(decode, sections[i]) == Some(files[i]) { FileAt(decode, sections, i); }
      }
    }
  }

  /** The sections parse to files whose paths are the expected ones. */
  ghost predicate Fits(decode: Decoder, raws: seq<string>, expected: seq<string>, sections: seq<seq<string>>, files: seq<FileDiff>) {
    && Sections(raws) == Some(sections) && |sections| == |expected| && AllRead(decode, sections, files)
    && Distinct(Paths(files)) && SetOf(Paths(files)) == SetOf(expected)
  }

  /** All these files, in the order of their paths, with their summaries, and
      complete unless some file claims no counts. */
  ghost predicate IsShown(d: Diff, files: seq<FileDiff>) {
    && multiset(d.files) == multiset(files)
    && (forall i, j | 0 <= i < j < |d.files| :: NameLeq(d.files[i].summary.path, d.files[j].summary.path))
    && |d.summaries| == |d.files| && (forall i | 0 <= i < |d.files| :: d.summaries[i] == d.files[i].summary)
    && (d.complete <==> forall f: FileDiff | f in files :: f.summary.additions.Some? && f.summary.deletions.Some?)
  }

  /** A patch can be cut exactly when it is empty or starts with a section line. */
  lemma {:induction false} CutsExactly(raws: seq<string>)
    ensures Sections(raws).Some? <==> raws == [] || SECTION <= raws[0]
    ensures Sections(raws).Some? ==> (Sections(raws).value == [] <==> raws == [])
  {
    if raws != [] {
      CutsExactly(raws[..|raws| - 1]);
    }
  }

  /** A patch that fits is shown whole, in the order of its paths, complete
      unless some file claims no counts; one that does not shows nothing but
      the expected paths. */
  lemma DiffsExactly(decode: Decoder, raws: seq<string>, expected: seq<string>)
    ensures var d := DiffOf(decode, raws, expected);
      && (forall sections, files | Fits(decode, raws, expected, sections, files) ::
            IsShown(d, files))
      && ((forall sections, files :: !Fits(decode, raws, expected, sections, files)) ==>
            d == InvalidDiff(expected) && d.files == [] && !d.complete && |d.summaries| == |expected|
            && forall i | 0 <= i < |expected| :: d.summaries[i] == Summary(expected[i], None, None, None, false))
  {
    hide FileOf, Whole, Sections, Distinct, SetOf;
    forall sections, files | Fits(decode, raws, expected, sections, files)
      ensures var d := DiffOf(decode, raws, expected);
        IsShown(d, files)
    {
      FilesExactly(decode, sections, files);
      FittingIsWhole(decode, raws, expected, sections, files);
      WholeIsOrdered(files);
    }
    if forall sections, files :: !Fits(decode, raws, expected, sections, files) { UnfitIsInvalid(decode, raws, expected); }
  }

  lemma FittingIsWhole(decode: Decoder, raws: seq<string>, expected: seq<string>, sections: seq<seq<string>>, files: seq<FileDiff>)
    requires Fits(decode, raws, expected, sections, files) && Files(decode, sections) == Some(files)
    ensures DiffOf(decode, raws, expected) == Whole(files)
  {
    hide FileOf, Whole, Distinct, SetOf, Files;
    if raws == [] {
      NothingCut();
      assert files == [] && expected == [];
    }
  }

  lemma UnfitIsInvalid(decode: Decoder, raws: seq<string>, expected: seq<string>)
    requires forall sections, files :: !Fits(decode, raws, expected, sections, files)
    ensures DiffOf(decode, raws, expected) == InvalidDiff(expected)
  {
    hide FileOf, Whole, Distinct, SetOf, Sections;
    if raws == [] {
      NothingCut();
      EmptyFits(decode, expected);
    } else if Sections(raws).Some? && Files(decode, Sections(raws).value).Some? {
      var sections := Sections(raws).value;
      var files := Files(decode, sections).value;
      FilesExactly(decode, sections, files);
      assert !Fits(decode, raws, expected, sections, files);
    }
  }

  lemma EmptyFits(decode: Decoder, expected: seq<string>)
    ensures expected == [] ==> Fits(decode, [], expected, [], [])
  {
    NothingCut();
  }

  lemma PathsAreOrdered()
    ensures Orders(ByPath)
  {
    forall a: FileDiff, b: FileDiff ensures ByPath(a, b) || ByPath(b, a) { NamesCompare(a.summary.path, b.summary.path); }
    forall a: FileDiff, b: FileDiff, c: FileDiff | ByPath(a, b) && ByPath(b, c) ensures ByPath(a, c) {
      NamesChain(a.summary.path, b.summary.path, c.summary.path);
    }
  }

  lemma WholeIsOrdered(files: seq<FileDiff>)
    ensures IsShown(Whole(files), files)
  {
    PathsAreOrdered();
    SortedIsInOrder(files, ByPath);
    SortedPermutes(files, ByPath);
    var ordered := Sorted(files, ByPath);
    forall i, j | 0 <= i < j < |ordered| ensures NameLeq(ordered[i].summary.path, ordered[j].summary.path) {
      assert ByPath(ordered[i], ordered[j]);
    }
    hide Sorted, ByPath;
    SameMembers(files, ordered);
  }

  lemma SameMembers(a: seq<FileDiff>, b: seq<FileDiff>)
    requires multiset(a) == multiset(b)
    ensures forall f :: f in a <==> f in b
  {
    forall f ensures f in a <==> f in b { assert f in multiset(a) <==> f in multiset(b); }
  }
}
