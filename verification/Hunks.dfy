/** Unified-diff hunks: parsing, numbering, and printing them back. */
module Hunks {
  import opened Prelude

  datatype Kind = Context | Addition | Deletion | Metadata

  /** One displayable line with its place on the old and the new side. */
  datatype Line = Line(kind: Kind, oldLine: Option<nat>, newLine: Option<nat>, text: string)

  datatype Range = Range(oldStart: nat, oldCount: nat, newStart: nat, newCount: nat)

  datatype Hunk = Hunk(range: Range, lines: seq<Line>)

  const NO_NEWLINE := "\\ No newline at end of file"
  const HUNK := "@@ "

  // ---- decimal numbers ----

  predicate IsDigit(c: char) { '0' <= c <= '9' }

  function DigitOf(n: nat): char
    requires n < 10
  {
    ('0' as int + n) as char
  }

  function Decimal(n: nat): (s: string)
    ensures s != [] && forall i | 0 <= i < |s| :: IsDigit(s[i])
  {
    if n < 10 then [DigitOf(n)] else Decimal(n / 10) + [DigitOf(n % 10)]
  }

  function ValueOf(s: string): nat
    requires forall i | 0 <= i < |s| :: IsDigit(s[i])
  {
    if s == [] then 0
    else
      assert IsDigit(s[|s| - 1]);
      10 * ValueOf(s[..|s| - 1]) + (s[|s| - 1] as int - '0' as int)
  }

  lemma {:induction false} DecimalReadsBack(n: nat)
    ensures ValueOf(Decimal(n)) == n
  {
    var s := Decimal(n);
    if n < 10 {
      assert s[..0] == [];
    } else {
      DecimalReadsBack(n / 10);
      assert s[..|s| - 1] == Decimal(n / 10);
    }
  }

  /** The length of the leading run of digits. */
  function DigitRun(s: string): (k: nat)
    ensures k <= |s| && (forall i | 0 <= i < k :: IsDigit(s[i])) && (k < |s| ==> !IsDigit(s[k]))
  {
    if s == [] || !IsDigit(s[0]) then 0 else 1 + DigitRun(s[1..])
  }

  /** A number and what follows it. */
  function ReadNumber(s: string): Option<(nat, string)> {
    var k := DigitRun(s);
    if k == 0 then None else Some((ValueOf(s[..k]), s[k..]))
  }

  lemma {:induction false} DigitRunOf(digits: string, rest: string)
    requires forall i | 0 <= i < |digits| :: IsDigit(digits[i])
    requires rest != [] ==> !IsDigit(rest[0])
    ensures DigitRun(digits + rest) == |digits|
  {
    if digits == [] {
      assert digits + rest == rest;
    } else {
      assert (digits + rest)[1..] == digits[1..] + rest;
      DigitRunOf(digits[1..], rest);
    }
  }

  lemma NumberReadsBack(n: nat, rest: string)
    requires rest != [] ==> !IsDigit(rest[0])
    ensures ReadNumber(Decimal(n) + rest) == Some((n, rest))
  {
    DigitRunOf(Decimal(n), rest);
    DecimalReadsBack(n);
    assert (Decimal(n) + rest)[..|Decimal(n)|] == Decimal(n) && (Decimal(n) + rest)[|Decimal(n)|..] == rest;
  }

  // ---- hunk headers ----

  /** A count is one unless it is written. */
  function ReadCount(s: string): Option<(nat, string)> {
    if s != [] && s[0] == ',' then ReadNumber(s[1..]) else Some((1, s))
  }

  function After(s: string, prefix: string): Option<string> {
    if prefix <= s then Some(s[|prefix|..]) else None
  }

  /** `start` or `start,count`, and what follows. */
  function ReadSide(s: string): Option<(nat, nat, string)> {
    var start := ReadNumber(s);
    if start.None? then None
    else
      var count := ReadCount(start.value.1);
      if count.None? then None else Some((start.value.0, count.value.0, count.value.1))
  }

  function ReadRange(line: string): Option<Range> {
    var a := After(line, "@@ -");
    if a.None? then None
    else
      var left := ReadSide(a.value);
      if left.None? || After(left.value.2, " +").None? then None
      else
        var right := ReadSide(After(left.value.2, " +").value);
        if right.None? || After(right.value.2, " @@").None? then None
        else
          var tail := After(right.value.2, " @@").value;
          if tail != [] && tail[0] != ' ' then None
          else Some(Range(left.value.0, left.value.1, right.value.0, right.value.1))
  }

  /** How a side is printed: a count of one may be left out. */
  ghost predicate PrintsSide(s: string, start: nat, count: nat) {
    s == Decimal(start) + "," + Decimal(count) || (count == 1 && s == Decimal(start))
  }

  /** Any heading may follow, after a space. */
  ghost predicate PrintsRange(line: string, r: Range) {
    exists left, right, heading: string | PrintsSide(left, r.oldStart, r.oldCount) && PrintsSide(right, r.newStart, r.newCount) ::
      (heading == [] || heading[0] == ' ') && line == "@@ -" + (left + (" +" + (right + (" @@" + heading))))
  }

  lemma AfterOwnPrefix(prefix: string, rest: string)
    ensures After(prefix + rest, prefix) == Some(rest)
  {
    assert (prefix + rest)[|prefix|..] == rest && prefix <= prefix + rest;
  }

  lemma SideReadsBack(s: string, start: nat, count: nat, rest: string)
    requires PrintsSide(s, start, count) && rest != [] && rest[0] == ' '
    ensures ReadSide(s + rest) == Some((start, count, rest))
  {
    if s == Decimal(start) + "," + Decimal(count) {
      var tail := "," + (Decimal(count) + rest);
      assert s + rest == Decimal(start) + tail;
      NumberReadsBack(start, tail);
      assert tail[1..] == Decimal(count) + rest;
      NumberReadsBack(count, rest);
    } else {
      NumberReadsBack(start, rest);
    }
  }

  /** Every header printed in the unified format is read as the range it
      states. */
  lemma RangeReadsBack(line: string, r: Range)
    requires PrintsRange(line, r)
    ensures ReadRange(line) == Some(r) && HUNK <= line
  {
    var left, right, heading: string :| PrintsSide(left, r.oldStart, r.oldCount) && PrintsSide(right, r.newStart, r.newCount)
      && (heading == [] || heading[0] == ' ') && line == "@@ -" + (left + (" +" + (right + (" @@" + heading))));
    hide ReadSide, PrintsSide;
    var c := " @@" + heading;
    var b := " +" + (right + c);
    AfterOwnPrefix("@@ -", left + b);
    SideReadsBack(left, r.oldStart, r.oldCount, b);
    AfterOwnPrefix(" +", right + c);
    SideReadsBack(right, r.newStart, r.newCount, c);
    AfterOwnPrefix(" @@", heading);
    assert line[..3] == HUNK;
  }

  ghost predicate IsNumber(s: string, n: nat) { s != [] && (forall i | 0 <= i < |s| :: IsDigit(s[i])) && ValueOf(s) == n }

  /** `start`, which counts one line, or `start,count`. */
  ghost predicate StatesSide(s: string, start: nat, count: nat) {
    || (count == 1 && IsNumber(s, start))
    || (exists a, b :: IsNumber(a, start) && IsNumber(b, count) && s == a + "," + b)
  }

  lemma NumberIsStated(s: string) returns (digits: string)
    requires ReadNumber(s).Some?
    ensures IsNumber(digits, ReadNumber(s).value.0) && s == digits + ReadNumber(s).value.1
  {
    digits := s[..DigitRun(s)];
  }

  lemma SideIsStated(s: string) returns (side: string)
    requires ReadSide(s).Some?
    ensures StatesSide(side, ReadSide(s).value.0, ReadSide(s).value.1) && s == side + ReadSide(s).value.2
  {
    hide ReadNumber, IsNumber, ValueOf;
    var a := NumberIsStated(s);
    var rest := ReadNumber(s).value.1;
    if rest != [] && rest[0] == ',' {
      var b := NumberIsStated(rest[1..]);
      side := a + "," + b;
      assert rest == "," + rest[1..];
      assert s == side + ReadNumber(rest[1..]).value.1;
    } else {
      side := a;
    }
  }

  /** An accepted header is one of the format, stating the range read. */
  lemma RangeIsStated(line: string) returns (left: string, right: string, heading: string)
    requires ReadRange(line).Some?
    ensures var r := ReadRange(line).value;
      && StatesSide(left, r.oldStart, r.oldCount) && StatesSide(right, r.newStart, r.newCount)
      && (heading == [] || heading[0] == ' ') && line == "@@ -" + (left + (" +" + (right + (" @@" + heading))))
  {
    hide ReadSide, StatesSide;
    var a := line[4..];
    assert line == "@@ -" + a;
    left := SideIsStated(a);
    var b := ReadSide(a).value.2;
    assert b == " +" + b[2..];
    right := SideIsStated(b[2..]);
    var c := ReadSide(b[2..]).value.2;
    heading := c[3..];
    assert c == " @@" + heading;
  }

  // ---- hunk bodies ----

  predicate OnOldSide(l: Line) { l.kind == Context || l.kind == Deletion }

  predicate OnNewSide(l: Line) { l.kind == Context || l.kind == Addition }

  /** One raw line at its place, or nothing a hunk may contain. */
  function BodyLine(raw: string, left: nat, right: nat): Option<Line> {
    if raw == NO_NEWLINE then Some(Line(Metadata, None, None, raw))
    else if raw == [] then None
    else if raw[0] == ' ' then Some(Line(Context, Some(left), Some(right), raw[1..]))
    else if raw[0] == '+' then Some(Line(Addition, None, Some(right), raw[1..]))
    else if raw[0] == '-' then Some(Line(Deletion, Some(left), None, raw[1..]))
    else None
  }

  function OldCount(lines: seq<Line>): nat {
    if lines == [] then 0 else OldCount(lines[..|lines| - 1]) + (if OnOldSide(lines[|lines| - 1]) then 1 else 0)
  }

  function NewCount(lines: seq<Line>): nat {
    if lines == [] then 0 else NewCount(lines[..|lines| - 1]) + (if OnNewSide(lines[|lines| - 1]) then 1 else 0)
  }

  /** How many lines of one kind. */
  function CountOf(lines: seq<Line>, kind: Kind): nat {
    if lines == [] then 0 else CountOf(lines[..|lines| - 1], kind) + (if lines[|lines| - 1].kind == kind then 1 else 0)
  }

  /** Raw lines read in order, each placed where the lines before it end. */
  function Body(raws: seq<string>, left: nat, right: nat): Option<seq<Line>> {
    if raws == [] then Some([])
    else
      var before := Body(raws[..|raws| - 1], left, right);
      if before.None? then None
      else
        var last := BodyLine(raws[|raws| - 1], left + OldCount(before.value), right + NewCount(before.value));
        if last.None? then None else Some(before.value + [last.value])
  }

  /** A line carries exactly the numbers of the sides it is on. */
  predicate Placed(l: Line, left: nat, right: nat) {
    && l.oldLine == (if OnOldSide(l) then Some(left) else None)
    && l.newLine == (if OnNewSide(l) then Some(right) else None)
    && (l.kind == Metadata ==> l.text == NO_NEWLINE)
  }

  /** On each side the numbers run consecutively from the start. */
  ghost predicate Numbered(lines: seq<Line>, left: nat, right: nat) {
    forall i {:trigger NumberedAt(lines, left, right, i)} :: NumberedAt(lines, left, right, i)
  }

  ghost predicate NumberedAt(lines: seq<Line>, left: nat, right: nat, i: int) {
    0 <= i < |lines| ==> Placed(lines[i], left + OldCount(lines[..i]), right + NewCount(lines[..i]))
  }

  function Printed(l: Line): string {
    match l.kind
    case Context => " " + l.text
    case Addition => "+" + l.text
    case Deletion => "-" + l.text
    case Metadata => l.text
  }

  function PrintedLines(lines: seq<Line>): (raws: seq<string>)
    ensures |raws| == |lines|
  {
    seq(|lines|, i requires 0 <= i < |lines| => Printed(lines[i]))
  }

  lemma LineIsPlaced(raw: string, left: nat, right: nat)
    requires BodyLine(raw, left, right).Some?
    ensures var l := BodyLine(raw, left, right).value; Placed(l, left, right) && Printed(l) == raw
  {
  }

  lemma NumberedSnoc(before: seq<Line>, l: Line, left: nat, right: nat)
    requires Numbered(before, left, right) && Placed(l, left + OldCount(before), right + NewCount(before))
    ensures Numbered(before + [l], left, right)
  {
    hide Placed, OldCount, NewCount;
    var lines := before + [l];
    forall i ensures NumberedAt(lines, left, right, i) {
      if 0 <= i < |before| {
        assert lines[..i] == before[..i] && NumberedAt(before, left, right, i);
      } else if i == |before| {
        assert lines[..i] == before;
      }
    }
  }

  lemma NumberedPrefix(lines: seq<Line>, left: nat, right: nat)
    requires lines != [] && Numbered(lines, left, right)
    ensures var before := lines[..|lines| - 1];
      Numbered(before, left, right) && Placed(lines[|lines| - 1], left + OldCount(before), right + NewCount(before))
  {
    hide Placed, OldCount, NewCount;
    var before := lines[..|lines| - 1];
    forall i ensures NumberedAt(before, left, right, i) {
      assert NumberedAt(lines, left, right, i);
      if 0 <= i < |before| { assert lines[..i] == before[..i]; }
    }
    assert NumberedAt(lines, left, right, |before|);
  }

  lemma PrintedSnoc(before: seq<Line>, l: Line)
    ensures PrintedLines(before + [l]) == PrintedLines(before) + [Printed(l)]
  {
  }

  lemma BodyOfSnoc(raws: seq<string>, raw: string, left: nat, right: nat)
    ensures var before, after := Body(raws, left, right), Body(raws + [raw], left, right);
      if before.None? then after.None?
      else
        var next := BodyLine(raw, left + OldCount(before.value), right + NewCount(before.value));
        after == (if next.None? then None else Some(before.value + [next.value]))
  {
    hide BodyLine, OldCount, NewCount;
    assert (raws + [raw])[..|raws|] == raws;
  }

  lemma NothingCounted(lines: seq<Line>)
    requires lines == []
    ensures OldCount(lines) == NewCount(lines) == 0 && forall k :: CountOf(lines, k) == 0
  {
  }

  lemma NothingReads(left: nat, right: nat)
    ensures Body([], left, right) == Some([]) && Numbered([], left, right) && PrintedLines([]) == []
  {
  }

  /** Accepted lines are numbered consecutively and print back to exactly what
      was read. */
  lemma {:induction false} BodyIsNumbered(raws: seq<string>, left: nat, right: nat)
    requires Body(raws, left, right).Some?
    ensures Numbered(Body(raws, left, right).value, left, right)
    ensures PrintedLines(Body(raws, left, right).value) == raws
  {
    hide *;
    if raws == [] {
      NothingReads(left, right);
    } else {
      var most, raw := raws[..|raws| - 1], raws[|raws| - 1];
      assert most + [raw] == raws;
      BodyOfSnoc(most, raw, left, right);
      BodyIsNumbered(most, left, right);
      var before := Body(most, left, right).value;
      LineIsPlaced(raw, left + OldCount(before), right + NewCount(before));
      var l := BodyLine(raw, left + OldCount(before), right + NewCount(before)).value;
      NumberedSnoc(before, l, left, right);
      PrintedSnoc(before, l);
    }
  }

  lemma LineReadsBack(l: Line, left: nat, right: nat)
    requires Placed(l, left, right)
    ensures BodyLine(Printed(l), left, right) == Some(l)
  {
    assert NO_NEWLINE[0] == '\\';
    if l.kind != Metadata {
      assert Printed(l)[1..] == l.text;
      assert Printed(l)[0] != '\\';
    }
  }

  /** Numbered lines are recovered from their printed form, whatever they say. */
  lemma {:induction false} LinesReadBack(lines: seq<Line>, left: nat, right: nat)
    requires Numbered(lines, left, right)
    ensures Body(PrintedLines(lines), left, right) == Some(lines)
  {
    hide *;
    if lines == [] {
      NothingReads(left, right);
    } else {
      var before, l := lines[..|lines| - 1], lines[|lines| - 1];
      assert before + [l] == lines;
      NumberedPrefix(lines, left, right);
      LinesReadBack(before, left, right);
      PrintedSnoc(before, l);
      BodyOfSnoc(PrintedLines(before), Printed(l), left, right);
      LineReadsBack(l, left + OldCount(before), right + NewCount(before));
    }
  }

  // ---- growing a body line by line ----

  lemma CountsOfSnoc(lines: seq<Line>, l: Line)
    ensures OldCount(lines + [l]) == OldCount(lines) + (if OnOldSide(l) then 1 else 0)
    ensures NewCount(lines + [l]) == NewCount(lines) + (if OnNewSide(l) then 1 else 0)
    ensures forall k :: CountOf(lines + [l], k) == CountOf(lines, k) + (if l.kind == k then 1 else 0)
  {
    assert (lines + [l])[..|lines|] == lines;
  }

  lemma {:induction false} CountsAdd(a: seq<Line>, b: seq<Line>)
    ensures forall k :: CountOf(a + b, k) == CountOf(a, k) + CountOf(b, k)
  {
    if b == [] {
      assert a + b == a;
    } else {
      CountsAdd(a, b[..|b| - 1]);
      assert (a + b)[..|a + b| - 1] == a + b[..|b| - 1];
    }
  }

  lemma {:induction false} BodyOfPrefix(raws: seq<string>, n: nat, left: nat, right: nat)
    requires n <= |raws| && Body(raws[..n], left, right).None?
    ensures Body(raws, left, right).None?
    decreases |raws| - n
  {
    if n == |raws| {
      assert raws[..n] == raws;
    } else {
      BodyOfSnoc(raws[..n], raws[n], left, right);
      assert raws[..n + 1] == raws[..n] + [raws[n]];
      BodyOfPrefix(raws, n + 1, left, right);
    }
  }

  // ---- hunks one after another ----

  /** Where the hunk lines from `i` on end: at the next header or the end. */
  function HunkEnd(raws: seq<string>, i: nat): (j: nat)
    requires i <= |raws|
    ensures i <= j <= |raws| && (j < |raws| ==> HUNK <= raws[j])
    ensures forall k | i <= k < j :: !(HUNK <= raws[k])
    decreases |raws| - i
  {
    if i == |raws| || HUNK <= raws[i] then i else HunkEnd(raws, i + 1)
  }

  /** The hunk whose header is line `i`, if it says what it contains. */
  function HunkAt(raws: seq<string>, i: nat): Option<Hunk>
    requires i < |raws|
  {
    var range := ReadRange(raws[i]);
    if range.None? then None
    else
      var body := Body(raws[i + 1..HunkEnd(raws, i + 1)], range.value.oldStart, range.value.newStart);
      if body.None? || OldCount(body.value) != range.value.oldCount || NewCount(body.value) != range.value.newCount then None
      else Some(Hunk(range.value, body.value))
  }

  function HunksFrom(raws: seq<string>, i: nat): Option<seq<Hunk>>
    requires i <= |raws|
    decreases |raws| - i
  {
    if i == |raws| then Some([])
    else
      var first := HunkAt(raws, i);
      if first.None? then None
      else
        var rest := HunksFrom(raws, HunkEnd(raws, i + 1));
        if rest.None? then None else Some([first.value] + rest.value)
  }

  function FlatLines(hunks: seq<Hunk>): seq<Line> {
    if hunks == [] then [] else hunks[0].lines + FlatLines(hunks[1..])
  }

  /** The declared counts are exact and both sides are numbered consecutively
      from the declared starts. */
  ghost predicate WellFormed(h: Hunk) {
    && Numbered(h.lines, h.range.oldStart, h.range.newStart)
    && OldCount(h.lines) == h.range.oldCount && NewCount(h.lines) == h.range.newCount
  }

  lemma {:induction false} HunksAreWellFormed(raws: seq<string>, i: nat)
    requires i <= |raws| && HunksFrom(raws, i).Some?
    ensures forall h | h in HunksFrom(raws, i).value :: WellFormed(h)
    decreases |raws| - i
  {
    if i < |raws| {
      var r := ReadRange(raws[i]).value;
      BodyIsNumbered(raws[i + 1..HunkEnd(raws, i + 1)], r.oldStart, r.newStart);
      HunksAreWellFormed(raws, HunkEnd(raws, i + 1));
    }
  }

  /** A printed list of hunks: a header stating each range, then its lines. */
  ghost predicate PrintsHunks(raws: seq<string>, i: nat, hunks: seq<Hunk>)
    requires i <= |raws|
    decreases |hunks|
  {
    if hunks == [] then i == |raws|
    else
      var next := i + 1 + |hunks[0].lines|;
      next <= |raws| && PrintsRange(raws[i], hunks[0].range) && raws[i + 1..next] == PrintedLines(hunks[0].lines)
      && PrintsHunks(raws, next, hunks[1..])
  }

  lemma HunkLinesDoNotEnd(raws: seq<string>, i: nat, lines: seq<Line>)
    requires i + |lines| <= |raws| && raws[i..i + |lines|] == PrintedLines(lines)
    requires forall l | l in lines :: l.kind == Metadata ==> l.text == NO_NEWLINE
    requires i + |lines| < |raws| ==> HUNK <= raws[i + |lines|]
    ensures HunkEnd(raws, i) == i + |lines|
  {
    forall k | i <= k < i + |lines| ensures !(HUNK <= raws[k]) {
      var l := lines[k - i];
      assert raws[k] == PrintedLines(lines)[k - i] == Printed(l);
      assert l.kind == Metadata ==> Printed(l)[0] == NO_NEWLINE[0];
      assert HUNK[0] == '@';
    }
    EndIsFirst(raws, i, i + |lines|);
  }

  lemma {:induction false} EndIsFirst(raws: seq<string>, i: nat, j: nat)
    requires i <= j <= |raws| && (j < |raws| ==> HUNK <= raws[j]) && forall k | i <= k < j :: !(HUNK <= raws[k])
    ensures HunkEnd(raws, i) == j
    decreases j - i
  {
    if i < j { EndIsFirst(raws, i + 1, j); }
  }

  lemma HunkReadsBack(raws: seq<string>, i: nat, h: Hunk)
    requires i + 1 + |h.lines| <= |raws| && PrintsRange(raws[i], h.range) && WellFormed(h)
    requires raws[i + 1..i + 1 + |h.lines|] == PrintedLines(h.lines)
    requires i + 1 + |h.lines| < |raws| ==> HUNK <= raws[i + 1 + |h.lines|]
    ensures HunkAt(raws, i) == Some(h) && HunkEnd(raws, i + 1) == i + 1 + |h.lines|
  {
    hide PrintsRange, PrintedLines, Numbered, Body, OldCount, NewCount, ReadRange, HunkEnd;
    HunkEnds(raws, i, h);
    RangeReadsBack(raws[i], h.range);
    LinesReadBack(h.lines, h.range.oldStart, h.range.newStart);
  }

  lemma HunkEnds(raws: seq<string>, i: nat, h: Hunk)
    requires i + 1 + |h.lines| <= |raws| && WellFormed(h)
    requires raws[i + 1..i + 1 + |h.lines|] == PrintedLines(h.lines)
    requires i + 1 + |h.lines| < |raws| ==> HUNK <= raws[i + 1 + |h.lines|]
    ensures HunkEnd(raws, i + 1) == i + 1 + |h.lines|
  {
    MetadataIsMarker(h);
    hide *;
    HunkLinesDoNotEnd(raws, i + 1, h.lines);
  }

  /** Printing any well-formed hunks and parsing them gives the same hunks. */
  lemma {:induction false} HunksReadBack(raws: seq<string>, i: nat, hunks: seq<Hunk>)
    requires i <= |raws| && PrintsHunks(raws, i, hunks) && forall h | h in hunks :: WellFormed(h)
    ensures HunksFrom(raws, i) == Some(hunks)
    decreases |hunks|
  {
    hide PrintsRange, PrintedLines, WellFormed, HunkAt, HunkEnd;
    if hunks != [] {
      var h := hunks[0];
      var next := i + 1 + |h.lines|;
      HunksReadBack(raws, next, hunks[1..]);
      if next < |raws| { NextHeader(raws, next, hunks[1..]); }
      HunkReadsBack(raws, i, h);
      assert [h] + hunks[1..] == hunks;
    }
  }

  lemma NextHeader(raws: seq<string>, i: nat, hunks: seq<Hunk>)
    requires i < |raws| && PrintsHunks(raws, i, hunks)
    ensures HUNK <= raws[i]
  {
    RangeReadsBack(raws[i], hunks[0].range);
  }

  lemma MetadataIsMarker(h: Hunk)
    requires WellFormed(h)
    ensures forall l | l in h.lines :: l.kind == Metadata ==> l.text == NO_NEWLINE
  {
    forall l | l in h.lines ensures l.kind == Metadata ==> l.text == NO_NEWLINE {
      var i :| 0 <= i < |h.lines| && h.lines[i] == l;
      assert NumberedAt(h.lines, h.range.oldStart, h.range.newStart, i);
    }
  }
}
