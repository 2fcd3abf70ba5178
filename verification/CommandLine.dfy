/** Rendering argv as a PowerShell command that reads back as the same argv. */
module CommandLine {
  import opened Prelude

  /** A literal is authored in the program; any other token is a value. */
  datatype Token = Token(text: string, literal: bool)

  const QUOTE: char := '\''
  const SPACE: char := ' '

  predicate IsBare(c: char) {
    'a' <= c <= 'z' || 'A' <= c <= 'Z' || '0' <= c <= '9' || c in "-_./:=+"
  }

  predicate BareSafe(s: string) { s != [] && forall i | 0 <= i < |s| :: IsBare(s[i]) }

  /** `unsafe` is the single-line rule's character class. */
  predicate Renderable(s: string, unsafe: char -> bool) { forall i | 0 <= i < |s| :: !unsafe(s[i]) }

  /** Every single quote doubled. */
  function Doubled(s: string): string {
    if s == [] then [] else (if s[0] == QUOTE then [QUOTE, QUOTE] else [s[0]]) + Doubled(s[1..])
  }

  function Quoted(s: string): string { [QUOTE] + Doubled(s) + [QUOTE] }

  function Piece(t: Token): string { if t.literal && BareSafe(t.text) then t.text else Quoted(t.text) }

  function Joined(pieces: seq<string>): string {
    if pieces == [] then [] else if |pieces| == 1 then pieces[0] else pieces[0] + [SPACE] + Joined(pieces[1..])
  }

  function Pieces(tokens: seq<Token>): (pieces: seq<string>)
    ensures |pieces| == |tokens|
  {
    seq(|tokens|, i requires 0 <= i < |tokens| => Piece(tokens[i]))
  }

  function Texts(tokens: seq<Token>): (texts: seq<string>)
    ensures |texts| == |tokens|
  {
    seq(|tokens|, i requires 0 <= i < |tokens| => tokens[i].text)
  }

  ghost predicate AllRenderable(tokens: seq<Token>, unsafe: char -> bool) {
    forall i | 0 <= i < |tokens| :: Renderable(tokens[i].text, unsafe)
  }

  /** Refuses the whole command when some token has an unsafe character. */
  method RenderPowershell(tokens: seq<Token>, unsafe: char -> bool) returns (r: Option<string>)
    ensures r.Some? <==> AllRenderable(tokens, unsafe)
    ensures r.Some? ==> r.value == Joined(Pieces(tokens))
  {
    var rendered: seq<string> := [];
    for i := 0 to |tokens|
      invariant rendered == Pieces(tokens[..i]) && AllRenderable(tokens[..i], unsafe)
    {
      if !Renderable(tokens[i].text, unsafe) { return None; }
      assert tokens[..i + 1] == tokens[..i] + [tokens[i]];
      rendered := rendered + [Piece(tokens[i])];
    }
    assert tokens[..|tokens|] == tokens;
    return Some(Joined(rendered));
  }

  // ---- the documented literal-string rule ----

  function Emit(token: Option<string>, rest: Option<seq<string>>): Option<seq<string>> {
    if rest.None? then None else if token.None? then rest else Some([token.value] + rest.value)
  }

  function Grow(token: Option<string>, s: string): Option<string> {
    Some((if token.Some? then token.value else []) + s)
  }

  /** Unquoted spaces separate; inside single quotes everything is literal and
      a doubled quote is one quote.  `token` is the one being read.  An
      unterminated string cannot be split. */
  function Split(s: string, token: Option<string>, quoted: bool): Option<seq<string>>
    decreases |s|
  {
    if s == [] then (if quoted then None else Emit(token, Some([])))
    else if quoted then
      if s[0] != QUOTE then Split(s[1..], Grow(token, [s[0]]), true)
      else if |s| >= 2 && s[1] == QUOTE then Split(s[2..], Grow(token, [QUOTE]), true)
      else Split(s[1..], token, false)
    else if s[0] == SPACE then Emit(token, Split(s[1..], None, false))
    else if s[0] == QUOTE then Split(s[1..], Grow(token, []), true)
    else Split(s[1..], Grow(token, [s[0]]), false)
  }

  /** What follows a rendered piece: nothing, or a space. */
  predicate Ends(rest: string) { rest == [] || rest[0] == SPACE }

  lemma {:induction false} QuotedReadsBack(s: string, read: string, rest: string)
    requires Ends(rest)
    ensures Split(Doubled(s) + [QUOTE] + rest, Some(read), true) == Split(rest, Some(read + s), false)
    decreases |s|
  {
    var text := Doubled(s) + [QUOTE] + rest;
    if s == [] {
      assert text == [QUOTE] + rest && text[1..] == rest && read + s == read;
    } else {
      QuotedReadsBack(s[1..], read + [s[0]], rest);
      var skip := if s[0] == QUOTE then 2 else 1;
      assert text[skip..] == Doubled(s[1..]) + [QUOTE] + rest;
      assert read + [s[0]] + s[1..] == read + s;
      assert s[0] == QUOTE ==> text[1] == QUOTE;
    }
  }

  lemma {:induction false} BareReadsBack(s: string, token: Option<string>, rest: string)
    requires forall i | 0 <= i < |s| :: IsBare(s[i])
    ensures s != [] ==> Split(s + rest, token, false) == Split(rest, Grow(token, s), false)
    decreases |s|
  {
    if s != [] {
      var text := s + rest;
      assert text[1..] == s[1..] + rest;
      if |s| == 1 {
        assert text[1..] == rest && [s[0]] == s;
      } else {
        BareReadsBack(s[1..], Grow(token, [s[0]]), rest);
        assert Grow(Grow(token, [s[0]]), s[1..]) == Grow(token, s) by {
          var before := if token.Some? then token.value else [];
          assert before + [s[0]] + s[1..] == before + s;
        }
      }
    }
  }

  lemma QuoteOpens(inside: string)
    ensures Split([QUOTE] + inside, None, false) == Split(inside, Some([]), true)
  {
    var text := [QUOTE] + inside;
    var empty: string := [];
    assert text[1..] == inside && empty + empty == empty;
    assert Grow(None, empty) == Some(empty);
  }

  lemma PieceReadsBack(t: Token, rest: string)
    requires Ends(rest)
    ensures Split(Piece(t) + rest, None, false) == Split(rest, Some(t.text), false)
  {
    if t.literal && BareSafe(t.text) {
      BareReadsBack(t.text, None, rest);
      assert [] + t.text == t.text;
    } else {
      var text := Quoted(t.text) + rest;
      assert text == [QUOTE] + (Doubled(t.text) + [QUOTE] + rest);
      QuoteOpens(Doubled(t.text) + [QUOTE] + rest);
      QuotedReadsBack(t.text, [], rest);
      assert [] + t.text == t.text;
    }
  }

  lemma SpaceSeparates(read: string, later: string)
    ensures Split([SPACE] + later, Some(read), false) == Emit(Some(read), Split(later, None, false))
  {
    assert ([SPACE] + later)[1..] == later;
  }

  lemma JoinedFirst(tokens: seq<Token>)
    requires |tokens| >= 2
    ensures Joined(Pieces(tokens)) == Piece(tokens[0]) + ([SPACE] + Joined(Pieces(tokens[1..])))
    ensures Texts(tokens) == [tokens[0].text] + Texts(tokens[1..])
  {
    hide Piece;
    assert Pieces(tokens)[1..] == Pieces(tokens[1..]);
    var first, later := Pieces(tokens)[0], Joined(Pieces(tokens[1..]));
    hide *;
    assert first + [SPACE] + later == first + ([SPACE] + later);
  }

  lemma SingleReadsBack(t: Token)
    ensures Split(Joined(Pieces([t])), None, false) == Some(Texts([t]))
  {
    PieceReadsBack(t, []);
    assert Joined(Pieces([t])) == Piece(t) + [];
    assert Texts([t]) == [t.text] + [];
  }

  /** Splitting a rendered command recovers exactly its tokens, whatever they
      contain. */
  lemma {:induction false} RenderReadsBack(tokens: seq<Token>)
    ensures Split(Joined(Pieces(tokens)), None, false) == Some(Texts(tokens))
    decreases |tokens|
  {
    if tokens == [] {
      assert Joined(Pieces(tokens)) == [];
    } else if |tokens| == 1 {
      SingleReadsBack(tokens[0]);
      assert tokens == [tokens[0]];
    } else {
      hide Piece, Joined, Pieces, Split, Texts;
      JoinedFirst(tokens);
      var later := Joined(Pieces(tokens[1..]));
      PieceReadsBack(tokens[0], [SPACE] + later);
      SpaceSeparates(tokens[0].text, later);
      RenderReadsBack(tokens[1..]);
    }
  }

  /** Two commands that render alike are the same command. */
  lemma RenderIsInjective(a: seq<Token>, b: seq<Token>)
    requires Joined(Pieces(a)) == Joined(Pieces(b))
    ensures Texts(a) == Texts(b)
  {
    RenderReadsBack(a);
    RenderReadsBack(b);
  }

  // ---- one line, and nothing unquoted ----

  lemma {:induction false} DoubledIsSafe(s: string, unsafe: char -> bool)
    requires Renderable(s, unsafe)
    ensures Renderable(Doubled(s), unsafe)
  {
    if s != [] { DoubledIsSafe(s[1..], unsafe); }
  }

  lemma {:induction false} JoinedIsSafe(pieces: seq<string>, unsafe: char -> bool)
    requires !unsafe(SPACE) && forall i | 0 <= i < |pieces| :: Renderable(pieces[i], unsafe)
    ensures Renderable(Joined(pieces), unsafe)
  {
    if |pieces| > 1 { JoinedIsSafe(pieces[1..], unsafe); }
  }

  /** The characters that the rule of `Split` reads outside its quoted strings,
      the quotes themselves aside. */
  function Outside(s: string, quoted: bool): string
    decreases |s|
  {
    if s == [] then []
    else if quoted then
      if s[0] != QUOTE then Outside(s[1..], true)
      else if |s| >= 2 && s[1] == QUOTE then Outside(s[2..], true)
      else Outside(s[1..], false)
    else if s[0] == QUOTE then Outside(s[1..], true)
    else [s[0]] + Outside(s[1..], false)
  }

  lemma {:induction false} NothingOfQuoted(s: string, rest: string)
    requires Ends(rest)
    ensures Outside(Doubled(s) + [QUOTE] + rest, true) == Outside(rest, false)
    decreases |s|
  {
    var text := Doubled(s) + [QUOTE] + rest;
    if s == [] {
      assert text == [QUOTE] + rest && text[1..] == rest;
    } else {
      NothingOfQuoted(s[1..], rest);
      var skip := if s[0] == QUOTE then 2 else 1;
      assert text[skip..] == Doubled(s[1..]) + [QUOTE] + rest;
      assert s[0] == QUOTE ==> text[1] == QUOTE;
    }
  }

  lemma {:induction false} AllOfBare(s: string, rest: string)
    requires forall i | 0 <= i < |s| :: IsBare(s[i])
    ensures Outside(s + rest, false) == s + Outside(rest, false)
    decreases |s|
  {
    if s == [] {
      assert s + rest == rest;
    } else {
      assert (s + rest)[1..] == s[1..] + rest && (s + rest)[0] == s[0] != QUOTE;
      AllOfBare(s[1..], rest);
      assert [s[0]] + (s[1..] + Outside(rest, false)) == s + Outside(rest, false);
    }
  }

  function Unquoted(t: Token): string { if t.literal && BareSafe(t.text) then t.text else [] }

  lemma PieceOutside(t: Token, rest: string)
    requires Ends(rest)
    ensures Outside(Piece(t) + rest, false) == Unquoted(t) + Outside(rest, false)
  {
    if t.literal && BareSafe(t.text) {
      AllOfBare(t.text, rest);
    } else {
      var inside := Doubled(t.text) + [QUOTE] + rest;
      assert Piece(t) + rest == [QUOTE] + inside && ([QUOTE] + inside)[1..] == inside;
      NothingOfQuoted(t.text, rest);
    }
  }

  ghost predicate Harmless(s: string) { forall i | 0 <= i < |s| :: IsBare(s[i]) || s[i] == SPACE }

  lemma MoreOutside(t: Token, later: string)
    requires Harmless(Outside(later, false))
    ensures Harmless(Outside(Piece(t) + ([SPACE] + later), false))
  {
    PieceOutside(t, [SPACE] + later);
    assert ([SPACE] + later)[1..] == later;
  }

  lemma {:induction false} NothingElseOutside(tokens: seq<Token>)
    ensures Harmless(Outside(Joined(Pieces(tokens)), false))
    decreases |tokens|
  {
    hide Piece, Outside, Harmless;
    if |tokens| >= 2 {
      NothingElseOutside(tokens[1..]);
      JoinedFirst(tokens);
      MoreOutside(tokens[0], Joined(Pieces(tokens[1..])));
    } else {
      FewOutside(tokens);
    }
  }

  lemma FewOutside(tokens: seq<Token>)
    requires |tokens| <= 1
    ensures Harmless(Outside(Joined(Pieces(tokens)), false))
  {
    if tokens == [] {
      assert Joined(Pieces(tokens)) == [];
    } else {
      PieceOutside(tokens[0], []);
      assert Joined(Pieces(tokens)) == Piece(tokens[0]) + [];
    }
  }

  /** A rendered command stays on one line, and read by the rule that splits it
      every character outside a quoted string is bare or a separating space. */
  lemma RenderIsInert(tokens: seq<Token>, unsafe: char -> bool)
    requires AllRenderable(tokens, unsafe) && !unsafe(QUOTE) && !unsafe(SPACE)
    ensures Renderable(Joined(Pieces(tokens)), unsafe)
    ensures forall i | 0 <= i < |Outside(Joined(Pieces(tokens)), false)| ::
              IsBare(Outside(Joined(Pieces(tokens)), false)[i]) || Outside(Joined(Pieces(tokens)), false)[i] == SPACE
  {
    forall i | 0 <= i < |tokens| ensures Renderable(Pieces(tokens)[i], unsafe) {
      DoubledIsSafe(tokens[i].text, unsafe);
    }
    JoinedIsSafe(Pieces(tokens), unsafe);
    NothingElseOutside(tokens);
  }

  // ---- what a rendering looks like ----

  const LOWER := "abcdefghijklmnopqrstuvwxyz"
  const UPPER := "ABCDEFGHIJKLMNOPQRSTUVWXYZ"
  const DIGITS := "0123456789"
  const MARKS := "-_./:=+"

  predicate InTable(c: char) { c in LOWER || c in UPPER || c in DIGITS || c in MARKS }

  lemma LowerExactly(c: char)
    ensures 'a' <= c <= 'z' <==> c in LOWER
  {
    if 'a' <= c <= 'z' { assert LOWER[c as int - 97] == c; }
  }

  lemma UpperExactly(c: char)
    ensures 'A' <= c <= 'Z' <==> c in UPPER
  {
    if 'A' <= c <= 'Z' { assert UPPER[c as int - 65] == c; }
  }

  lemma DigitExactly(c: char)
    ensures '0' <= c <= '9' <==> c in DIGITS
  {
    if '0' <= c <= '9' { assert DIGITS[c as int - 48] == c; }
  }

  lemma BareExactly(c: char)
    ensures IsBare(c) <==> InTable(c)
  {
    LowerExactly(c);
    UpperExactly(c);
    DigitExactly(c);
    hide LOWER, UPPER, DIGITS;
  }

  /** A program name, subcommand or flag of bare characters is written as it
      stands, so that it runs; anything else is written as a quoted string. */
  lemma SingleRenders(t: Token)
    ensures var r := Joined(Pieces([t]));
      if t.literal && t.text != "" && forall i | 0 <= i < |t.text| :: InTable(t.text[i]) then r == t.text
      else |r| >= 2 && r[0] == '\'' && r[|r| - 1] == '\'' && Split(r, None, false) == Some([t.text])
  {
    forall i | 0 <= i < |t.text| ensures IsBare(t.text[i]) <==> InTable(t.text[i]) { BareExactly(t.text[i]); }
    SingleReadsBack(t);
    assert Texts([t]) == [t.text];
    hide IsBare, InTable;
  }

  /** Tokens are written one by one, with one space between. */
  lemma RendersOneByOne(tokens: seq<Token>)
    ensures tokens == [] ==> Joined(Pieces(tokens)) == ""
    ensures |tokens| >= 2 ==> Joined(Pieces(tokens)) == Joined(Pieces([tokens[0]])) + " " + Joined(Pieces(tokens[1..]))
  {
    hide Piece;
    if |tokens| >= 2 {
      JoinedFirst(tokens);
      JoinedOne(tokens[0]);
      hide *;
      var first, later := Piece(tokens[0]), Joined(Pieces(tokens[1..]));
      assert first + ([SPACE] + later) == first + " " + later;
    }
  }

  lemma JoinedOne(t: Token)
    ensures Joined(Pieces([t])) == Piece(t)
  {
    hide Piece;
  }
}
