/** Paths printed without quotes: exactly which a patch can carry. */
module PathTokens {
  import opened Prelude
  import opened Sorting
  import opened Hunks
  import opened UnifiedDiff
  import opened PatchText
  import opened ShellWords

  /** What is asked of the decoder: without a backslash a token stands for
      itself, and no escape is shorter than what it stands for. */
  ghost predicate Sane(decode: Decoder) {
    forall w :: ('\\' !in w ==> decode(w) == Some(w)) && (decode(w).Some? ==> |decode(w).value| <= |w|)
  }

  predicate HasSpace(p: string) { exists i | 0 <= i < |p| :: IsSpace(p[i]) }

  /** A tab ends a marker whose path holds a space. */
  function Tabbed(p: string): string { if HasSpace(p) then p + ['\t'] else p }

  /** Every token is the path itself. */
  predicate IsBare(s: Section, c: Change)
    requires StatesChange(s.change, c) && (s.markers == [] || StatesSides(s.markers, c))
  {
    && s.oldToken == "a/" + c.Before() && s.newToken == "b/" + c.After()
    && (c.Moved? ==> s.change == ["rename from " + c.from, "rename to " + c.to])
    && (s.markers != [] && !c.Created? ==> s.markers[0] == "--- " + ("a/" + Tabbed(c.Before())))
    && (s.markers != [] && !c.Removed? ==> s.markers[1] == "+++ " + ("b/" + Tabbed(c.After())))
  }

  // ---- one token ----

  lemma TokenRead(decode: Decoder, text: string)
    requires Sane(decode) && text != ""
    ensures Unquoted(text) ==> MetadataPath(decode, text) == Some(text)
    ensures MetadataPath(decode, text).Some? ==>
              |MetadataPath(decode, text).value| + (if Unquoted(text) then 0 else 1) <= |text|
  {
    OneWordExactly(text);
    var parts := ShellWords.Split(text);
    if Unquoted(text) {
      NoBackslash(text);
      assert decode(text) == Some(text);
    } else if parts.Some? && |parts.value| == 1 {
      var w := parts.value[0];
      assert parts.value == [w] && Total([w]) == |w|;
      assert decode(w).Some? ==> |decode(w).value| <= |w|;
    }
  }

  lemma NoBackslash(text: string)
    requires Unquoted(text)
    ensures '\\' !in text
  {
    forall c | c in text ensures c != '\\' {
      var i :| 0 <= i < |text| && text[i] == c;
      assert !IsSpecial(text[i]);
    }
  }

  /** A space and a later special character are both lost. */
  lemma SpaceAndMore(x: string, c: char, y: string, word: Option<string>)
    requires Unquoted(x) && IsSpace(c) && Specials(y) >= 1 && Words(x + [c] + y, word, ShellWords.Bare).Some?
    ensures Total(Words(x + [c] + y, word, ShellWords.Bare).value) + 2 <= |Got(word)| + |x + [c] + y|
    decreases |x|
  {
    var s := x + [c] + y;
    if x == [] {
      assert s[1..] == y;
      Shorter(y, None);
      TotalOnto(word, Words(y, None, ShellWords.Bare).value);
    } else {
      assert s[1..] == x[1..] + [c] + y && s[0] == x[0] && !IsSpecial(x[0]);
      SpaceAndMore(x[1..], c, y, Some(Got(word) + [x[0]]));
    }
  }

  /** A marker's text with its tab loses the tab and one more. */
  lemma TabbedIsShorter(text: string)
    requires HasSpace(text) && ShellWords.Split(text + ['\t']).Some?
    ensures Total(ShellWords.Split(text + ['\t']).value) < |text|
  {
    var line := text + ['\t'];
    var i :| 0 <= i < |text| && IsSpace(text[i]);
    var x, y := text[..i], text[i + 1..];
    assert text == x + [text[i]] + y && line == x + [text[i]] + (y + ['\t']);
    SpecialsAdd(y, ['\t']);
    assert Specials(['\t']) == 1;
    NoneSpecial(x);
    if Specials(x) == 0 {
      SpaceAndMore(x, text[i], y + ['\t'], None);
    } else {
      SpecialsAdd(x + [text[i]], y + ['\t']);
      SpecialsAdd(x, [text[i]]);
      assert Specials([text[i]]) == 1;
      Shorter(line, None);
    }
  }

  lemma SpaceIsSpecial(p: string)
    ensures HasSpace(p) ==> !Unquoted(p)
  {
    if HasSpace(p) {
      var i :| 0 <= i < |p| && IsSpace(p[i]);
      assert IsSpecial(p[i]);
    }
  }

  lemma PrefixedSpace(side: string, p: string)
    ensures HasSpace(p) ==> HasSpace(side + p)
  {
    if HasSpace(p) {
      var i :| 0 <= i < |p| && IsSpace(p[i]);
      assert (side + p)[|side| + i] == p[i];
    }
  }

  lemma SidedUnquoted(side: string, p: string)
    requires Unquoted(side)
    ensures Unquoted(side + p) <==> Unquoted(p)
  {
    if Unquoted(side + p) {
      forall i | 0 <= i < |p| ensures !IsSpecial(p[i]) { assert (side + p)[|side| + i] == p[i]; }
    }
  }

  /** A marker whose path is not bare is refused or read as a shorter one. */
  lemma SideRead(decode: Decoder, side: string, p: string)
    requires Sane(decode) && Unquoted(side) && side != ""
    ensures var read := MarkerPath(decode, side + Tabbed(p), side);
      read.Some? ==> read.value != "" && |read.value| + (if Unquoted(p) then 0 else 1) <= |p|
  {
    SidedUnquoted(side, p);
    SpaceIsSpecial(p);
    var text := side + Tabbed(p);
    if HasSpace(p) {
      PrefixedSpace(side, p);
      assert text == side + p + ['\t'];
      var parts := ShellWords.Split(text);
      if parts.Some? && |parts.value| == 1 {
        TabbedIsShorter(side + p);
        var w := parts.value[0];
        assert parts.value == [w] && Total([w]) == |w|;
        assert decode(w).Some? ==> |decode(w).value| <= |w|;
      }
    } else {
      TokenRead(decode, text);
    }
  }

  // ---- one section ----

  /** Both paths can stand without quotes. */
  predicate Plain(c: Change) { Unquoted(c.Before()) && Unquoted(c.After()) }

  /** A section printed without quotes; an edited file without markers is
      printed so only when its path is plain. */
  ghost predicate PrintsBare(s: Section, c: Change, hunks: seq<Hunk>) {
    LaidOut(s, c, hunks) && IsBare(s, c) && (c.Edited? && s.markers == [] ==> Plain(c))
  }

  lemma AfterPrefix(prefix: string, rest: string)
    ensures Rest(prefix + rest, prefix) == rest
  {
    assert (prefix + rest)[|prefix|..] == rest && prefix <= prefix + rest;
  }

  lemma PlainIsNamed(decode: Decoder, s: Section, c: Change, hunks: seq<Hunk>)
    requires Sane(decode) && PrintsBare(s, c, hunks) && Plain(c)
    ensures Prints(decode, s, c, hunks)
  {
    hide PrintsHunks, WellFormed, AllPlain, MetadataPath, Rest;
    var a, b := "a/" + c.Before(), "b/" + c.After();
    SidedUnquoted("a/", c.Before());
    SidedUnquoted("b/", c.After());
    TokenRead(decode, a);
    TokenRead(decode, b);
    SpaceIsSpecial(c.Before());
    SpaceIsSpecial(c.After());
    AfterPrefix("--- ", a);
    AfterPrefix("+++ ", b);
    if c.Moved? {
      TokenRead(decode, c.from);
      TokenRead(decode, c.to);
      AfterPrefix("rename from ", c.from);
      AfterPrefix("rename to ", c.to);
    }
  }

  /** The section line of a path printed without quotes names it on both sides
      if and only if it is plain. */
  lemma HeaderReadsExactly(decode: Decoder, p: string)
    requires Sane(decode) && p != ""
    ensures HeaderPaths(decode, SECTION + ("a/" + p + [' '] + ("b/" + p))) == Some((p, p)) <==> Unquoted(p)
  {
    var line := "a/" + p + [' '] + ("b/" + p);
    TwoWordsExactly("a/", "b/", p);
    assert (SECTION + line)[|SECTION|..] == line;
    assert ("a/" + p)[2..] == p && ("b/" + p)[2..] == p;
    if Unquoted(p) {
      SidedUnquoted("a/", p);
      SidedUnquoted("b/", p);
      NoBackslash("a/" + p);
      NoBackslash("b/" + p);
      assert decode("a/" + p) == Some("a/" + p) && decode("b/" + p) == Some("b/" + p);
    } else {
      var parts := ShellWords.Split(line);
      if parts.Some? && |parts.value| == 2 {
        var u, v := parts.value[0], parts.value[1];
        assert parts.value[1..] == [v] && Total([v]) == |v| && Total(parts.value) == |u| + |v|;
        assert decode(u).Some? ==> |decode(u).value| <= |u|;
        assert decode(v).Some? ==> |decode(v).value| <= |v|;
      }
    }
  }

  /** How much is named in a file's summary. */
  function Named(f: FileDiff): nat { |f.summary.path| + (if f.oldPath.Some? then |f.oldPath.value| else 0) }

  /** The names the markers give are no longer than those they stand for. */
  lemma SidesToldShorter(decode: Decoder, d: Draft, lines: seq<string>, s: Section, c: Change)
    requires Sane(decode) && StatesChange(s.change, c) && s.markers == lines && StatesSides(lines, c) && IsBare(s, c)
    requires ToldSides(decode, d, lines, c).Some?
    ensures var t := ToldSides(decode, d, lines, c).value;
      && t == d.(sawOld := true, sawNew := true, oldPath := t.oldPath, newPath := t.newPath)
      && (t.oldPath.None? <==> c.Created?) && (t.newPath.None? <==> c.Removed?)
      && (t.oldPath.Some? ==> t.oldPath.value != ""
                              && |t.oldPath.value| + (if Unquoted(c.Before()) then 0 else 1) <= |c.Before()|)
      && (t.newPath.Some? ==> t.newPath.value != ""
                              && |t.newPath.value| + (if Unquoted(c.After()) then 0 else 1) <= |c.After()|)
  {
    hide MarkerPath, Rest;
    if c.Created? { NoFile(decode, lines[0], "--- ", "a/"); } else {
      AfterPrefix("--- ", "a/" + Tabbed(c.Before()));
      SideRead(decode, "a/", c.Before());
    }
    if c.Removed? { NoFile(decode, lines[1], "+++ ", "b/"); } else {
      AfterPrefix("+++ ", "b/" + Tabbed(c.After()));
      SideRead(decode, "b/", c.After());
    }
  }

  /** And so are those the rename lines give. */
  lemma RenameToldShorter(decode: Decoder, d: Draft, s: Section, c: Change)
    requires Sane(decode) && StatesChange(s.change, c) && (s.markers == [] || StatesSides(s.markers, c)) && IsBare(s, c)
    requires c.Moved? && c.from != "" && c.to != "" && ToldChange(decode, d, s.change, c).Some?
    ensures var t := ToldChange(decode, d, s.change, c).value;
      && t == d.(status := Renamed, oldPath := t.oldPath, newPath := t.newPath) && t.oldPath.Some? && t.newPath.Some?
      && |t.oldPath.value| + (if Unquoted(c.from) then 0 else 1) <= |c.from|
      && |t.newPath.value| + (if Unquoted(c.to) then 0 else 1) <= |c.to|
  {
    hide MetadataPath, Rest;
    AfterPrefix("rename from ", c.from);
    AfterPrefix("rename to ", c.to);
    TokenRead(decode, c.from);
    TokenRead(decode, c.to);
  }

  /** A section is never read as naming more than it does, and names less
      unless its paths are plain. */
  lemma ReadsNoLonger(decode: Decoder, s: Section, c: Change, hunks: seq<Hunk>)
    requires Sane(decode) && PrintsBare(s, c, hunks) && FileOf(decode, s.Raws()).Some?
    ensures Named(FileOf(decode, s.Raws()).value) + (if Plain(c) then 0 else 1) <= Named(Shown(s, c, hunks))
    ensures !Unmarked(s, c)
  {
    if Plain(c) {
      PlainIsNamed(decode, s, c, hunks);
      SectionReadsBack(decode, s, c, hunks);
    } else {
      SectionReads(decode, s, c, hunks);
      var paths := HeaderPaths(decode, s.Header()).value;
      var told := Told(decode, s, c, paths.0, paths.1).value;
      hide FileOf, PrintsHunks, WellFormed, AllPlain, HeaderPaths, NotesIn, MarkerPath, MetadataPath, CountOf, FlatLines, Rest;
      var d := Blank(paths.0, paths.1).(lines := NotesIn(s.before) + NotesIn(s.after));
      if c.Moved? { RenameToldShorter(decode, d, s, c); }
      if s.markers != [] {
        SidesToldShorter(decode, ToldChange(decode, d, s.change, c).value, s.markers, s, c);
      }
    }
  }

  // ---- a whole patch ----

  ghost predicate AllBare(patch: seq<Printing>) {
    forall i | 0 <= i < |patch| :: PrintsBare(patch[i].section, patch[i].change, patch[i].hunks)
  }

  predicate AllPlainPaths(patch: seq<Printing>) { forall i | 0 <= i < |patch| :: Plain(patch[i].change) }

  function TotalNamed(files: seq<FileDiff>): nat {
    if files == [] then 0 else Named(files[0]) + TotalNamed(files[1..])
  }

  lemma {:induction false} NamedWithout(files: seq<FileDiff>, i: nat)
    requires i < |files|
    ensures TotalNamed(files) == Named(files[i]) + TotalNamed(files[..i] + files[i + 1..])
  {
    if i == 0 {
      assert files[..0] + files[1..] == files[1..];
    } else {
      var rest := files[1..];
      NamedWithout(rest, i - 1);
      assert (files[..i] + files[i + 1..])[1..] == rest[..i - 1] + rest[i..];
    }
  }

  lemma Without(files: seq<FileDiff>, i: nat)
    requires i < |files|
    ensures multiset(files[..i] + files[i + 1..]) == multiset(files) - multiset{files[i]}
  {
    assert files == files[..i] + [files[i]] + files[i + 1..];
  }

  lemma {:induction false} SameEmpty(a: seq<FileDiff>, b: seq<FileDiff>)
    requires multiset(a) == multiset(b)
    ensures a == [] <==> b == []
  {
    assert |a| == |multiset(a)| == |multiset(b)| == |b|;
  }

  lemma Among(x: FileDiff, b: seq<FileDiff>) returns (i: nat)
    requires x in multiset(b)
    ensures i < |b| && b[i] == x
  {
    i :| 0 <= i < |b| && b[i] == x;
  }

  /** The order of files does not change how much they name. */
  lemma {:induction false} SameNamed(a: seq<FileDiff>, b: seq<FileDiff>)
    requires multiset(a) == multiset(b)
    ensures TotalNamed(a) == TotalNamed(b)
    decreases |a|
  {
    hide *;
    SameEmpty(a, b);
    if a != [] {
      assert a[0] in multiset(b) by { assert a[0] in multiset(a); }
      var i := Among(a[0], b);
      Without(a, 0);
      Without(b, i);
      SameNamed(a[..0] + a[1..], b[..i] + b[i + 1..]);
      NamedWithout(a, 0);
      NamedWithout(b, i);
    }
  }

  ghost predicate NamesNoMore(files: seq<FileDiff>, patch: seq<Printing>) {
    |files| == |patch|
    && forall i | 0 <= i < |files| ::
         Named(files[i]) + (if Plain(patch[i].change) then 0 else 1)
           <= Named(Shown(patch[i].section, patch[i].change, patch[i].hunks))
  }

  lemma {:induction false} TotalNamesNoMore(files: seq<FileDiff>, patch: seq<Printing>)
    requires NamesNoMore(files, patch)
    ensures TotalNamed(files) + (if AllPlainPaths(patch) then 0 else 1) <= TotalNamed(AllShown(patch))
    decreases |files|
  {
    hide Named, Plain, Shown;
    if files != [] {
      var rest := patch[1..];
      assert AllShown(patch)[1..] == AllShown(rest);
      assert forall i | 0 <= i < |rest| :: rest[i] == patch[i + 1] && files[1..][i] == files[i + 1];
      TotalNamesNoMore(files[1..], rest);
      assert Plain(patch[0].change) && AllPlainPaths(rest) ==> AllPlainPaths(patch) by {
        assert forall i | 1 <= i < |patch| :: patch[i] == rest[i - 1];
      }
    }
  }

  lemma BareFiles(decode: Decoder, patch: seq<Printing>)
    requires Sane(decode) && AllBare(patch) && Files(decode, SectionsOf(patch)).Some?
    ensures NamesNoMore(Files(decode, SectionsOf(patch)).value, patch) && !SomeUnmarked(patch)
  {
    hide Files, FileOf, Named, Plain, Shown, PrintsBare, Unmarked;
    var files := Files(decode, SectionsOf(patch)).value;
    forall i | 0 <= i < |patch|
      ensures Named(files[i]) + (if Plain(patch[i].change) then 0 else 1)
                <= Named(Shown(patch[i].section, patch[i].change, patch[i].hunks))
      ensures !Unmarked(patch[i].section, patch[i].change)
    {
      FileAt(decode, SectionsOf(patch), i);
      ReadsNoLonger(decode, patch[i].section, patch[i].change, patch[i].hunks);
    }
  }

  lemma BareIsLaidOut(patch: seq<Printing>)
    requires AllBare(patch)
    ensures AllLaidOut(patch)
  {
    hide LaidOut, IsBare;
  }

  lemma PlainIsPrinted(decode: Decoder, patch: seq<Printing>)
    requires Sane(decode) && AllBare(patch) && AllPlainPaths(patch)
    ensures PrintsAll(decode, patch)
  {
    hide PrintsBare, Prints, Plain;
    forall i | 0 <= i < |patch| ensures Prints(decode, patch[i].section, patch[i].change, patch[i].hunks) {
      PlainIsNamed(decode, patch[i].section, patch[i].change, patch[i].hunks);
    }
  }

  lemma WholeIsOfFiles(a: seq<FileDiff>, b: seq<FileDiff>)
    requires Whole(a) == Whole(b)
    ensures multiset(a) == multiset(b)
  {
    hide Sorted;
    SortedPermutes(a, ByPath);
    SortedPermutes(b, ByPath);
  }

  /** What a diff that is complete was read from. */
  lemma CompleteIsWhole(decode: Decoder, raws: seq<string>, expected: seq<string>, sections: seq<seq<string>>)
    requires Sections(raws) == Some(sections) && DiffOf(decode, raws, expected).complete
    ensures NoneEmpty(sections) && Files(decode, sections).Some?
    ensures DiffOf(decode, raws, expected) == Whole(Files(decode, sections).value)
  {
    hide Files, Sorted;
    if raws == [] {
      NothingCut();
      NoFilesAtAll(decode);
    }
  }

  /** A patch of text files printed without quotes is read as exactly the changes
      it states if and only if no path holds a space, a quote or a backslash and
      no section is of an empty file created or removed. */
  lemma BarePatchReadsBack(decode: Decoder, patch: seq<Printing>, expected: seq<string>)
    requires Sane(decode) && AllBare(patch) && NoLineFeeds(patch)
    requires Distinct(expected) && Distinct(Paths(AllShown(patch))) && SetOf(Paths(AllShown(patch))) == SetOf(expected)
    ensures DiffOf(decode, Records(Unlines(PatchLines(patch))), expected) == Whole(AllShown(patch))
       <==> AllPlainPaths(patch) && !SomeUnmarked(patch)
  {
    hide *;
    BareIsLaidOut(patch);
    LinesReadBackAsRecords(patch);
    ShownIsComplete(patch);
    if AllPlainPaths(patch) {
      PlainIsPrinted(decode, patch);
      PatchReadsBack(decode, patch, expected);
      InvalidIsIncomplete(expected);
    } else if DiffOf(decode, PatchLines(patch), expected) == Whole(AllShown(patch)) {
      PatchCuts(decode, patch);
      CompleteIsWhole(decode, PatchLines(patch), expected, SectionsOf(patch));
      var files := Files(decode, SectionsOf(patch)).value;
      BareFiles(decode, patch);
      WholeIsOfFiles(files, AllShown(patch));
      SameNamed(files, AllShown(patch));
      TotalNamesNoMore(files, patch);
      assert false;
    }
  }

  lemma InvalidIsIncomplete(expected: seq<string>)
    ensures !InvalidDiff(expected).complete
  {
  }

  // ---- what fails ----

  lemma OneMoreWord(w: string, rest: string)
    requires w != "" && Unquoted(w)
    ensures ShellWords.Split(w + [' '] + rest) == Onto([w], ShellWords.Split(rest))
  {
    OneWordExactly(w);
    SideBySide(w, rest, None, ShellWords.Bare);
  }

  lemma FourWords()
    ensures ShellWords.Split("a/a" + [' '] + ("b" + [' '] + ("b/a" + [' '] + "b"))) == Some(["a/a", "b", "b/a", "b"])
  {
    hide Words;
    OneWordExactly("b");
    assert Unquoted("b") && Unquoted("b/a") && Unquoted("a/a");
    assert ShellWords.Split("b") == Some(["b"]);
    OneMoreWord("b/a", "b");
    assert ["b/a"] + ["b"] == ["b/a", "b"];
    assert ShellWords.Split("b/a" + [' '] + "b") == Some(["b/a", "b"]);
    OneMoreWord("b", "b/a" + [' '] + "b");
    assert ["b"] + ["b/a", "b"] == ["b", "b/a", "b"];
    assert ShellWords.Split("b" + [' '] + ("b/a" + [' '] + "b")) == Some(["b", "b/a", "b"]);
    assert ["a/a"] + ["b", "b/a", "b"] == ["a/a", "b", "b/a", "b"];
    OneMoreWord("a/a", "b" + [' '] + ("b/a" + [' '] + "b"));
  }

  /** Git leaves a space unquoted: the header of `a b` is four words, and its
      section is refused whatever follows. */
  lemma SpaceIsRefused(decode: Decoder, rest: seq<string>)
    ensures FileOf(decode, ["diff --git a/a b b/a b"] + rest) == None
  {
    var line := "a/a" + [' '] + ("b" + [' '] + ("b/a" + [' '] + "b"));
    FourWords();
    hide Words, Scan, Finished;
    assert "diff --git a/a b b/a b"[|SECTION|..] == line;
    assert (["diff --git a/a b b/a b"] + rest)[0] == "diff --git a/a b b/a b";
  }

  lemma {:induction false} InsideQuotes(x: string, read: string)
    requires Unquoted(x)
    ensures Words(x + ['\''], Some(read), Single) == Some([read + x])
    decreases |x|
  {
    var s := x + ['\''];
    if x == [] {
      assert s[1..] == [] && read + x == read;
    } else {
      assert !IsSpecial(x[0]) && s[0] == x[0] && s[1..] == x[1..] + ['\''];
      InsideQuotes(x[1..], read + [x[0]]);
      assert read + [x[0]] + x[1..] == read + x;
    }
  }

  /** Single quotes around a path, or its end, fall away. */
  lemma {:induction false} QuotesFall(before: string, x: string, read: string)
    requires Unquoted(before) && Unquoted(x)
    ensures Words(before + ['\''] + (x + ['\'']), if read == "" then None else Some(read), ShellWords.Bare) == Some([read + before + x])
    decreases |before|
  {
    var s := before + ['\''] + (x + ['\'']);
    if before == [] {
      assert s[1..] == x + ['\''] && read + before == read;
      InsideQuotes(x, read);
    } else {
      assert !IsSpecial(before[0]) && s[0] == before[0] && s[1..] == before[1..] + ['\''] + (x + ['\'']);
      QuotesFall(before[1..], x, read + [before[0]]);
      assert read + [before[0]] + before[1..] == read + before;
    }
  }

  lemma QuotedToken(decode: Decoder, before: string, x: string)
    requires Sane(decode) && Unquoted(before) && Unquoted(x) && before + x != ""
    ensures MetadataPath(decode, before + ['\''] + (x + ['\''])) == Some(before + x)
  {
    QuotesFall(before, x, "");
    assert [] + before + x == before + x;
    forall i | 0 <= i < |before + x| ensures !IsSpecial((before + x)[i]) {
      if i >= |before| { assert (before + x)[i] == x[i - |before|]; }
    }
    NoBackslash(before + x);
    assert '\\' !in before + x;
    assert decode(before + x) == Some(before + x);
  }

  /** A file moved from `'x'` to another name is shown as moved from `x`: nothing
      checks the old path. */
  lemma QuotedNameIsMisread(decode: Decoder, x: string, to: string)
    requires Sane(decode) && x != "" && to != "" && Unquoted(x) && Unquoted(to)
    ensures var quoted := ['\''] + (x + ['\'']);
      var s := Section("a/" + quoted, "b/" + to, [], ["rename from " + quoted, "rename to " + to], [], [], []);
      LaidOut(s, Moved(quoted, to), []) && IsBare(s, Moved(quoted, to))
      && FileOf(decode, s.Raws()) == Some(Shown(s, Moved(x, to), []))
  {
    var quoted := ['\''] + (x + ['\'']);
    var s := Section("a/" + quoted, "b/" + to, [], ["rename from " + quoted, "rename to " + to], [], [], []);
    hide MetadataPath, Rest, Shown;
    QuotedToken(decode, "a/", x);
    QuotedToken(decode, "", x);
    assert "a/" + quoted == "a/" + ['\''] + (x + ['\'']) && [] + ['\''] + (x + ['\'']) == quoted && "" + x == x;
    SidedUnquoted("b/", to);
    TokenRead(decode, "b/" + to);
    TokenRead(decode, to);
    AfterPrefix("rename from ", quoted);
    AfterPrefix("rename to ", to);
    assert Prints(decode, s, Moved(x, to), []);
    SectionReadsBack(decode, s, Moved(x, to), []);
  }

  /** The section Git prints for a new empty file, whose path is as plain as can be. */
  lemma EmptyFileIsRefused(decode: Decoder, p: string)
    requires Sane(decode) && p != "" && Unquoted(p)
    ensures var s := Section("a/" + p, "b/" + p, [], ["new file mode 100644"], ["index 0000000..e69de29"], [], []);
      PrintsBare(s, Created(p), []) && FileOf(decode, s.Raws()) == None
  {
    var s := Section("a/" + p, "b/" + p, [], ["new file mode 100644"], ["index 0000000..e69de29"], [], []);
    PlainIsNamed(decode, s, Created(p), []);
    SectionReadsBack(decode, s, Created(p), []);
  }
}
