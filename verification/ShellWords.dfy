/** Cutting a line into words as a POSIX shell quotes them, without comments,
    and what that does to a line nobody quoted. */
module ShellWords {
  import opened Prelude

  /** Outside quotes, inside either kind, or just after a backslash. */
  datatype Mode = Bare | Single | Double | Escape(quoted: bool)

  predicate IsSpace(c: char) { c == ' ' || c == '\t' || c == '\r' || c == '\n' }

  /** Characters that stand for something else outside quotes. */
  predicate IsSpecial(c: char) { IsSpace(c) || c == '\'' || c == '"' || c == '\\' }

  function Got(word: Option<string>): string { if word.Some? then word.value else [] }

  function Ended(word: Option<string>): seq<string> { if word.Some? then [word.value] else [] }

  function Onto(words: seq<string>, rest: Option<seq<string>>): Option<seq<string>> {
    if rest.None? then None else Some(words + rest.value)
  }

  /** `word` is the one being read.  Inside double quotes a backslash only
      escapes itself and the quote.  An open quote or a last backslash is an
      error. */
  function Words(s: string, word: Option<string>, mode: Mode): Option<seq<string>>
    decreases |s|
  {
    if s == [] then (if mode == Bare then Some(Ended(word)) else None)
    else
      var c, rest := s[0], s[1..];
      match mode
      case Bare =>
        if IsSpace(c) then Onto(Ended(word), Words(rest, None, Bare))
        else if c == '\'' then Words(rest, Some(Got(word)), Single)
        else if c == '"' then Words(rest, Some(Got(word)), Double)
        else if c == '\\' then Words(rest, Some(Got(word)), Escape(false))
        else Words(rest, Some(Got(word) + [c]), Bare)
      case Single => if c == '\'' then Words(rest, word, Bare) else Words(rest, Some(Got(word) + [c]), Single)
      case Double =>
        if c == '"' then Words(rest, word, Bare)
        else if c == '\\' then Words(rest, word, Escape(true))
        else Words(rest, Some(Got(word) + [c]), Double)
      case Escape(quoted) =>
        var kept := if quoted && c != '"' && c != '\\' then ['\\', c] else [c];
        Words(rest, Some(Got(word) + kept), if quoted then Double else Bare)
  }

  function Split(s: string): Option<seq<string>> { Words(s, None, Bare) }

  // ---- words side by side ----

  /** Two lines that split on their own split as one with a space between. */
  lemma {:induction false} SideBySide(s: string, t: string, word: Option<string>, mode: Mode)
    requires Words(s, word, mode).Some?
    ensures Words(s + [' '] + t, word, mode) == Onto(Words(s, word, mode).value, Words(t, None, Bare))
    decreases |s|
  {
    var all := s + [' '] + t;
    if s == [] {
      assert all[1..] == t;
    } else {
      var c, rest := s[0], s[1..];
      assert all[0] == c && all[1..] == rest + [' '] + t;
      match mode
      case Bare =>
        if IsSpace(c) {
          SideBySide(rest, t, None, Bare);
          Regrouped(Ended(word), Words(rest, None, Bare).value, Words(t, None, Bare));
        } else if c == '\'' {
          SideBySide(rest, t, Some(Got(word)), Single);
        } else if c == '"' {
          SideBySide(rest, t, Some(Got(word)), Double);
        } else if c == '\\' {
          SideBySide(rest, t, Some(Got(word)), Escape(false));
        } else {
          SideBySide(rest, t, Some(Got(word) + [c]), Bare);
        }
      case Single => SideBySide(rest, t, if c == '\'' then word else Some(Got(word) + [c]), if c == '\'' then Bare else Single);
      case Double =>
        SideBySide(rest, t, if c == '"' || c == '\\' then word else Some(Got(word) + [c]),
                   if c == '"' then Bare else if c == '\\' then Escape(true) else Double);
      case Escape(quoted) =>
        var kept := if quoted && c != '"' && c != '\\' then ['\\', c] else [c];
        SideBySide(rest, t, Some(Got(word) + kept), if quoted then Double else Bare);
    }
  }

  lemma Regrouped(a: seq<string>, b: seq<string>, rest: Option<seq<string>>)
    ensures Onto(a, Onto(b, rest)) == Onto(a + b, rest)
  {
    if rest.Some? { assert a + (b + rest.value) == a + b + rest.value; }
  }

  // ---- a line nobody quoted ----

  predicate Unquoted(s: string) { forall i | 0 <= i < |s| :: !IsSpecial(s[i]) }

  lemma {:induction false} UnquotedIsOneWord(s: string, word: Option<string>)
    requires Unquoted(s)
    ensures Words(s, word, Bare) == Some(if s == [] then Ended(word) else [Got(word) + s])
    decreases |s|
  {
    if s != [] {
      UnquotedIsOneWord(s[1..], Some(Got(word) + [s[0]]));
      assert Got(word) + [s[0]] + s[1..] == Got(word) + s;
      assert IsSpecial(s[0]) == false;
      if s[1..] == [] { assert Got(word) + [s[0]] == Got(word) + s; }
    }
  }

  /** The characters of all words. */
  function Total(words: seq<string>): nat { if words == [] then 0 else |words[0]| + Total(words[1..]) }

  function Specials(s: string): nat { if s == [] then 0 else (if IsSpecial(s[0]) then 1 else 0) + Specials(s[1..]) }

  lemma TotalOnto(word: Option<string>, rest: seq<string>)
    ensures Total(Ended(word) + rest) == |Got(word)| + Total(rest)
  {
    if word.Some? { assert (Ended(word) + rest)[1..] == rest; } else { assert Ended(word) + rest == rest; }
  }

  /** No splitting lengthens; a quote that is closed shortens. */
  lemma {:induction false} NeverLonger(s: string, word: Option<string>, mode: Mode)
    requires Words(s, word, mode).Some?
    ensures Total(Words(s, word, mode).value) + (if mode == Single || mode == Double then 1 else 0)
         <= |Got(word)| + |s|
    decreases |s|
  {
    if s == [] {
      TotalOnto(word, []);
      assert Ended(word) + [] == Ended(word);
    } else {
      var c, rest := s[0], s[1..];
      match mode
      case Bare =>
        if IsSpace(c) {
          NeverLonger(rest, None, Bare);
          TotalOnto(word, Words(rest, None, Bare).value);
        } else if c == '\'' {
          NeverLonger(rest, Some(Got(word)), Single);
        } else if c == '"' {
          NeverLonger(rest, Some(Got(word)), Double);
        } else if c == '\\' {
          NeverLonger(rest, Some(Got(word)), Escape(false));
        } else {
          NeverLonger(rest, Some(Got(word) + [c]), Bare);
        }
      case Single => NeverLonger(rest, if c == '\'' then word else Some(Got(word) + [c]), if c == '\'' then Bare else Single);
      case Double =>
        NeverLonger(rest, if c == '"' || c == '\\' then word else Some(Got(word) + [c]),
                    if c == '"' then Bare else if c == '\\' then Escape(true) else Double);
      case Escape(quoted) =>
        var kept := if quoted && c != '"' && c != '\\' then ['\\', c] else [c];
        NeverLonger(rest, Some(Got(word) + kept), if quoted then Double else Bare);
    }
  }

  /** A special character outside quotes is lost, and of three at least two. */
  lemma {:induction false} Shorter(s: string, word: Option<string>)
    requires Words(s, word, Bare).Some? && Specials(s) >= 1
    ensures Total(Words(s, word, Bare).value) + (if Specials(s) >= 3 then 2 else 1) <= |Got(word)| + |s|
    decreases |s|
  {
    var c, rest := s[0], s[1..];
    if IsSpace(c) {
      TotalOnto(word, Words(rest, None, Bare).value);
      NeverLonger(rest, None, Bare);
      if Specials(rest) >= 1 { Shorter(rest, None); }
    } else if c == '\'' {
      NeverLonger(rest, Some(Got(word)), Single);
    } else if c == '"' {
      NeverLonger(rest, Some(Got(word)), Double);
    } else if c == '\\' {
      NeverLonger(rest, Some(Got(word)), Escape(false));
      if Specials(s) >= 3 { Shorter(rest[1..], Some(Got(word) + [rest[0]])); }
    } else {
      Shorter(rest, Some(Got(word) + [c]));
    }
  }

  lemma {:induction false} SpecialsAdd(s: string, t: string)
    ensures Specials(s + t) == Specials(s) + Specials(t)
  {
    if s == [] {
      assert s + t == t;
    } else {
      assert (s + t)[1..] == s[1..] + t;
      SpecialsAdd(s[1..], t);
    }
  }

  lemma {:induction false} NoneSpecial(s: string)
    ensures Specials(s) == 0 <==> Unquoted(s)
  {
    if s != [] {
      NoneSpecial(s[1..]);
      assert IsSpecial(s[0]) ==> !Unquoted(s);
      forall i | 0 < i < |s| ensures IsSpecial(s[i]) ==> !Unquoted(s[1..]) { assert s[1..][i - 1] == s[i]; }
      forall i | 0 <= i < |s| - 1 ensures IsSpecial(s[1..][i]) ==> !Unquoted(s) { assert s[i + 1] == s[1..][i]; }
    }
  }

  /** Text written without quotes is read as the one word it is if and only if
      it holds no special character; otherwise what is read is shorter. */
  lemma OneWordExactly(s: string)
    requires s != []
    ensures Split(s) == Some([s]) <==> Unquoted(s)
    ensures !Unquoted(s) && Split(s).Some? ==> Total(Split(s).value) < |s|
  {
    NoneSpecial(s);
    if Unquoted(s) {
      UnquotedIsOneWord(s, None);
      assert [] + s == s;
    } else if Split(s).Some? {
      Shorter(s, None);
      assert Total([s]) == |s|;
    }
  }

  /** The same of the same text twice, after different prefixes. */
  lemma TwoWordsExactly(a: string, b: string, s: string)
    requires Unquoted(a) && Unquoted(b) && a != [] && b != []
    ensures Split(a + s + [' '] + (b + s)) == Some([a + s, b + s]) <==> Unquoted(s)
    ensures !Unquoted(s) && Split(a + s + [' '] + (b + s)).Some? ==>
              Total(Split(a + s + [' '] + (b + s)).value) < |a + s| + |b + s|
  {
    var line := a + s + [' '] + (b + s);
    NoneSpecial(s);
    if Unquoted(s) {
      UnquotedIsOneWord(a + s, None);
      UnquotedIsOneWord(b + s, None);
      assert [] + (a + s) == a + s && [] + (b + s) == b + s;
      SideBySide(a + s, b + s, None, Bare);
      assert [a + s] + [b + s] == [a + s, b + s];
    } else if Split(line).Some? {
      SpecialsAdd(a, s);
      SpecialsAdd(b, s);
      SpecialsAdd(a + s + [' '], b + s);
      SpecialsAdd(a + s, [' ']);
      assert Specials([' ']) == 1;
      Shorter(line, None);
      assert Total([b + s]) == |b + s|;
      assert [a + s, b + s][1..] == [b + s] && Total([a + s, b + s]) == |a + s| + |b + s|;
    }
  }

  // ---- quoting ----

  /** Inside double quotes a quote and a backslash are written with a backslash. */
  function Escaped(x: string): string {
    if x == [] then [] else (if x[0] == '"' || x[0] == '\\' then ['\\', x[0]] else [x[0]]) + Escaped(x[1..])
  }

  /** Any text at all can be carried in double quotes. */
  lemma {:induction false} DoubleQuotesCarry(x: string, read: string)
    ensures Words(Escaped(x) + ['"'], Some(read), Double) == Some([read + x])
    decreases |x|
  {
    var s := Escaped(x) + ['"'];
    if x == [] {
      assert s[1..] == [] && read + x == read;
    } else {
      DoubleQuotesCarry(x[1..], read + [x[0]]);
      assert read + [x[0]] + x[1..] == read + x;
      if x[0] == '"' || x[0] == '\\' {
        assert s == ['\\', x[0]] + (Escaped(x[1..]) + ['"']);
        assert s[1..] == [x[0]] + (Escaped(x[1..]) + ['"']) && s[1..][1..] == Escaped(x[1..]) + ['"'];
      } else {
        assert s == [x[0]] + (Escaped(x[1..]) + ['"']) && s[1..] == Escaped(x[1..]) + ['"'];
      }
    }
  }

  /** Text without a single quote can be carried in single quotes, whatever
      else it holds. */
  lemma {:induction false} SingleQuotesCarry(x: string, read: string)
    requires '\'' !in x
    ensures Words(x + ['\''], Some(read), Single) == Some([read + x])
    decreases |x|
  {
    var s := x + ['\''];
    if x == [] {
      assert s[1..] == [] && read + x == read;
    } else {
      assert s[0] == x[0] && s[1..] == x[1..] + ['\''] && x[0] in x;
      SingleQuotesCarry(x[1..], read + [x[0]]);
      assert read + [x[0]] + x[1..] == read + x;
    }
  }

  lemma QuotedIsOneWord(x: string)
    ensures Split(['"'] + (Escaped(x) + ['"'])) == Some([x])
    ensures '\'' !in x ==> Split(['\''] + (x + ['\''])) == Some([x])
  {
    var a, b := ['"'] + (Escaped(x) + ['"']), ['\''] + (x + ['\'']);
    assert a[1..] == Escaped(x) + ['"'] && b[1..] == x + ['\''];
    DoubleQuotesCarry(x, "");
    if '\'' !in x { SingleQuotesCarry(x, ""); }
    assert "" + x == x;
  }

  /** A backslash outside quotes makes any character part of the word; inside
      double quotes it stays before any but the quote and itself. */
  lemma BackslashCarries(c: char)
    ensures Split(['\\', c]) == Some([[c]])
    ensures c != '"' && c != '\\' ==> Split(['"', '\\', c, '"']) == Some([['\\', c]])
  {
    var none: string := [];
    var a, b := ['\\', c], ['"', '\\', c, '"'];
    assert a[1..] == [c] && [c][1..] == none && none + [c] == [c];
    assert Words(none, Some([c]), Bare) == Some([[c]]);
    assert Words([c], Some(none), Escape(false)) == Some([[c]]);
    assert Words(a, None, Bare) == Some([[c]]);
    if c != '"' && c != '\\' {
      assert b[1..] == ['\\', c, '"'] && b[1..][1..] == [c, '"'] && [c, '"'][1..] == ['"'] && ['"'][1..] == none;
      assert Words(none, Some(['\\', c]), Bare) == Some([['\\', c]]);
      assert Words(['"'], Some(['\\', c]), Double) == Some([['\\', c]]);
      assert none + ['\\', c] == ['\\', c];
      assert Words([c, '"'], Some(none), Escape(true)) == Some([['\\', c]]);
      assert ['\\', c, '"'][1..] == [c, '"'];
      assert Words(['\\', c, '"'], Some(none), Double) == Some([['\\', c]]);
    }
  }

  /** A quote that is never closed, and a last backslash, are errors. */
  lemma {:induction false} UnclosedIsAnError(x: string, read: Option<string>)
    ensures '\'' !in x ==> Words(x, read, Single) == None
    ensures '"' !in x && '\\' !in x ==> Words(x, read, Double) == None
    ensures Split(['\\']) == None
    decreases |x|
  {
    assert ['\\'][1..] == [];
    if x != [] {
      assert x[0] in x;
      assert forall c | c in x[1..] :: c in x;
      UnclosedIsAnError(x[1..], Some(Got(read) + [x[0]]));
    }
  }
}
