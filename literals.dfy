/** The string literals the code generators write: a double-quoted literal
    for Java, Go and Rust (scripts/lib/generators/java.js, go.js, rust.js)
    and a single-quoted literal for PHP (scripts/lib/generators/php.js).
    Each escaper is a chain of global replacements, backslash first; beside
    it is a reader for the literal as the target language reads it, which
    recovers the original text. */
module Literals {
  import opened Text

  // ----- double-quoted literals ------------------------------------------

  /** The chain of replacements inside the double-quoted `string` helper:
      backslash first, then the double quote, newline, carriage return and
      tab. */
  function EscapeDouble(s: string): string
  {
    ReplaceChar(ReplaceChar(ReplaceChar(ReplaceChar(ReplaceChar(s, '\\', "\\\\"), '"', "\\\""), '\n', "\\n"), '\r', "\\r"), '\t', "\\t")
  }

  /** The escape of one character. */
  function EscapeDoubleChar(c: char): string
  {
    if c == '\\' then "\\\\"
    else if c == '"' then "\\\""
    else if c == '\n' then "\\n"
    else if c == '\r' then "\\r"
    else if c == '\t' then "\\t"
    else [c]
  }

  function DoubleQuoted(s: string): string
  {
    "\"" + EscapeDouble(s) + "\""
  }

  lemma EscapeDoubleAppend(a: string, b: string)
    ensures EscapeDouble(a + b) == EscapeDouble(a) + EscapeDouble(b)
  {
    var a1, b1 := ReplaceChar(a, '\\', "\\\\"), ReplaceChar(b, '\\', "\\\\");
    ReplaceCharAppend(a, b, '\\', "\\\\");
    var a2, b2 := ReplaceChar(a1, '"', "\\\""), ReplaceChar(b1, '"', "\\\"");
    ReplaceCharAppend(a1, b1, '"', "\\\"");
    var a3, b3 := ReplaceChar(a2, '\n', "\\n"), ReplaceChar(b2, '\n', "\\n");
    ReplaceCharAppend(a2, b2, '\n', "\\n");
    var a4, b4 := ReplaceChar(a3, '\r', "\\r"), ReplaceChar(b3, '\r', "\\r");
    ReplaceCharAppend(a3, b3, '\r', "\\r");
    ReplaceCharAppend(a4, b4, '\t', "\\t");
  }

  /** Replacing a character a string does not hold changes nothing. */
  lemma ReplaceSingle(c: char, d: char, r: string)
    ensures ReplaceChar([c], d, r) == if c == d then r else [c]
  {
    assert [c][1..] == [];
  }

  /** One character at a time: each becomes its own escape. */
  lemma EscapeDoubleOne(c: char)
    ensures EscapeDouble([c]) == EscapeDoubleChar(c)
  {
    ReplaceSingle(c, '\\', "\\\\");
    var s1 := ReplaceChar([c], '\\', "\\\\");
    if c == '\\' {
      ReplaceCharAbsent(s1, '"', "\\\"");
      ReplaceCharAbsent(s1, '\n', "\\n");
      ReplaceCharAbsent(s1, '\r', "\\r");
      ReplaceCharAbsent(s1, '\t', "\\t");
    } else {
      ReplaceSingle(c, '"', "\\\"");
      var s2 := ReplaceChar(s1, '"', "\\\"");
      if c == '"' {
        ReplaceCharAbsent(s2, '\n', "\\n");
        ReplaceCharAbsent(s2, '\r', "\\r");
        ReplaceCharAbsent(s2, '\t', "\\t");
      } else {
        ReplaceSingle(c, '\n', "\\n");
        var s3 := ReplaceChar(s2, '\n', "\\n");
        if c == '\n' {
          ReplaceCharAbsent(s3, '\r', "\\r");
          ReplaceCharAbsent(s3, '\t', "\\t");
        } else {
          ReplaceSingle(c, '\r', "\\r");
          var s4 := ReplaceChar(s3, '\r', "\\r");
          if c == '\r' {
            ReplaceCharAbsent(s4, '\t', "\\t");
          } else {
            ReplaceSingle(c, '\t', "\\t");
          }
        }
      }
    }
  }

  lemma EscapeDoubleCons(s: string)
    requires s != []
    ensures EscapeDouble(s) == EscapeDoubleChar(s[0]) + EscapeDouble(s[1..])
  {
    assert s == [s[0]] + s[1..];
    EscapeDoubleAppend([s[0]], s[1..]);
    EscapeDoubleOne(s[0]);
  }

  /** The character an escape sequence `\e` stands for in a Java, Go or Rust
      string literal, for the five escapes the generators write. */
  function UnescapeDouble(e: char): Option<char>
  {
    if e == '\\' then Some('\\')
    else if e == '"' then Some('"')
    else if e == 'n' then Some('\n')
    else if e == 'r' then Some('\r')
    else if e == 't' then Some('\t')
    else None
  }

  /** Reads the body of a double-quoted literal up to its closing quote,
      giving the text it stands for and what follows the quote. A raw line
      break, or a backslash not starting one of the five escapes, is
      rejected. */
  function ReadDoubleBody(t: string): (r: Option<(string, string)>)
    ensures r.Some? ==> |r.value.1| < |t|
    decreases |t|
  {
    if t == [] then None
    else if t[0] == '"' then Some(([], t[1..]))
    else if t[0] == '\n' || t[0] == '\r' then None
    else if t[0] == '\\' then
      if |t| < 2 || UnescapeDouble(t[1]).None? then None
      else match ReadDoubleBody(t[2..])
        case None => None
        case Some((s, rest)) => Some(([UnescapeDouble(t[1]).value] + s, rest))
    else match ReadDoubleBody(t[1..])
      case None => None
      case Some((s, rest)) => Some(([t[0]] + s, rest))
  }

  /** One escaped character in front of any text is read as that
      character, then the text. */
  lemma ReadDoubleStep(c: char, tail: string)
    ensures ReadDoubleBody(EscapeDoubleChar(c) + tail) ==
      match ReadDoubleBody(tail)
      case None => None
      case Some((x, r)) => Some(([c] + x, r))
  {
    var t := EscapeDoubleChar(c) + tail;
    if c in {'\\', '"', '\n', '\r', '\t'} {
      assert t[0] == '\\' && UnescapeDouble(t[1]) == Some(c) && t[2..] == tail;
    } else {
      assert t[0] == c && t[1..] == tail;
    }
  }

  /** An escaped body followed by the closing quote reads back as the
      original text, whatever follows. */
  lemma {:induction false} ReadDoubleBodyEscaped(s: string, rest: string)
    ensures ReadDoubleBody(EscapeDouble(s) + "\"" + rest) == Some((s, rest))
  {
    if s == [] {
      assert EscapeDouble(s) + "\"" + rest == ['"'] + rest;
      assert (['"'] + rest)[1..] == rest;
    } else {
      EscapeDoubleCons(s);
      var tail := EscapeDouble(s[1..]) + "\"" + rest;
      AppendAssoc(EscapeDoubleChar(s[0]), EscapeDouble(s[1..]), "\"");
      AppendAssoc(EscapeDoubleChar(s[0]), EscapeDouble(s[1..]) + "\"", rest);
      ReadDoubleBodyEscaped(s[1..], rest);
      ReadDoubleStep(s[0], tail);
      assert [s[0]] + s[1..] == s;
    }
  }

  /** The escaped text has no raw line break or tab. */
  lemma {:induction false} EscapeDoubleNoBreaks(s: string)
    ensures '\n' !in EscapeDouble(s) && '\r' !in EscapeDouble(s) && '\t' !in EscapeDouble(s)
  {
    if s != [] {
      EscapeDoubleCons(s);
      EscapeDoubleNoBreaks(s[1..]);
    }
  }

  // ----- single-quoted literals ------------------------------------------

  /** The chain of replacements inside PHP's `string` helper: backslashes
      doubled first, then the single quote escaped. */
  function EscapeSingle(s: string): string
  {
    ReplaceChar(ReplaceChar(s, '\\', "\\\\"), '\'', "\\'")
  }

  function EscapeSingleChar(c: char): string
  {
    if c == '\\' then "\\\\" else if c == '\'' then "\\'" else [c]
  }

  function SingleQuoted(s: string): string
  {
    "'" + EscapeSingle(s) + "'"
  }

  lemma EscapeSingleCons(s: string)
    requires s != []
    ensures EscapeSingle(s) == EscapeSingleChar(s[0]) + EscapeSingle(s[1..])
  {
    var c, t := s[0], s[1..];
    assert s == [c] + t;
    ReplaceCharAppend([c], t, '\\', "\\\\");
    ReplaceSingle(c, '\\', "\\\\");
    ReplaceCharAppend(ReplaceChar([c], '\\', "\\\\"), ReplaceChar(t, '\\', "\\\\"), '\'', "\\'");
    if c == '\\' {
      ReplaceCharAbsent("\\\\", '\'', "\\'");
    } else {
      ReplaceSingle(c, '\'', "\\'");
    }
  }

  /** Reads the body of a PHP single-quoted literal up to its closing quote:
      `\\` and `\'` stand for one backslash and one quote, any other
      backslash stands for itself, and every other character, line breaks
      included, for itself. */
  function ReadSingleBody(t: string): (r: Option<(string, string)>)
    ensures r.Some? ==> |r.value.1| < |t|
    decreases |t|
  {
    if t == [] then None
    else if t[0] == '\'' then Some(([], t[1..]))
    else if t[0] == '\\' && |t| >= 2 && (t[1] == '\\' || t[1] == '\'') then
      match ReadSingleBody(t[2..])
      case None => None
      case Some((s, rest)) => Some(([t[1]] + s, rest))
    else match ReadSingleBody(t[1..])
      case None => None
      case Some((s, rest)) => Some(([t[0]] + s, rest))
  }

  /** One escaped character in front of any text is read as that
      character, then the text. */
  lemma ReadSingleStep(c: char, tail: string)
    ensures ReadSingleBody(EscapeSingleChar(c) + tail) ==
      match ReadSingleBody(tail)
      case None => None
      case Some((x, r)) => Some(([c] + x, r))
  {
    var t := EscapeSingleChar(c) + tail;
    if c == '\\' || c == '\'' {
      assert t[0] == '\\' && t[1] == c && t[2..] == tail;
    } else {
      assert t[0] == c && t[1..] == tail;
    }
  }

  /** An escaped body followed by the closing quote reads back as the
      original text, whatever follows. */
  lemma {:induction false} ReadSingleBodyEscaped(s: string, rest: string)
    ensures ReadSingleBody(EscapeSingle(s) + "'" + rest) == Some((s, rest))
  {
    if s == [] {
      assert EscapeSingle(s) + "'" + rest == ['\''] + rest;
      assert (['\''] + rest)[1..] == rest;
    } else {
      EscapeSingleCons(s);
      var tail := EscapeSingle(s[1..]) + "'" + rest;
      AppendAssoc(EscapeSingleChar(s[0]), EscapeSingle(s[1..]), "'");
      AppendAssoc(EscapeSingleChar(s[0]), EscapeSingle(s[1..]) + "'", rest);
      ReadSingleBodyEscaped(s[1..], rest);
      ReadSingleStep(s[0], tail);
      assert [s[0]] + s[1..] == s;
    }
  }

  // ----- literals and lists of literals ----------------------------------

  datatype Quote = Double | Single

  function Quoted(q: Quote, s: string): string
  {
    match q
    case Double => DoubleQuoted(s)
    case Single => SingleQuoted(s)
  }

  /** Reads one literal at the front of `t`. */
  function ReadLiteral(q: Quote, t: string): (r: Option<(string, string)>)
    ensures r.Some? ==> |r.value.1| < |t|
  {
    var open := if q == Double then '"' else '\'';
    if t == [] || t[0] != open then None
    else if q == Double then ReadDoubleBody(t[1..])
    else ReadSingleBody(t[1..])
  }

  /** A body between two one-character quotes, then any text: the first
      character is the quote and the body follows it. */
  lemma QuotedSplit(o: string, e: string, rest: string)
    requires |o| == 1
    ensures var t := o + e + o + rest; |t| > 0 && t[0] == o[0] && t[1..] == e + o + rest
  {
    var t := o + e + o + rest;
    assert t == o + (e + o + rest);
  }

  /** A literal reads back as its text, whatever follows it. */
  lemma ReadLiteralQuoted(q: Quote, s: string, rest: string)
    ensures ReadLiteral(q, Quoted(q, s) + rest) == Some((s, rest))
  {
    if q == Double {
      QuotedSplit("\"", EscapeDouble(s), rest);
      ReadDoubleBodyEscaped(s, rest);
    } else {
      QuotedSplit("'", EscapeSingle(s), rest);
      ReadSingleBodyEscaped(s, rest);
    }
  }

  /** `t` starts with the list separator `, `. */
  predicate StartsWithComma(t: string)
  {
    |t| >= 2 && t[..2] == ", "
  }

  /** Reads literals separated by `, `, as a list literal's elements. */
  function ReadList(q: Quote, t: string): Option<(seq<string>, string)>
    decreases |t|
  {
    match ReadLiteral(q, t)
    case None => None
    case Some((s, rest)) =>
      if StartsWithComma(rest) then
        match ReadList(q, rest[2..])
        case None => None
        case Some((ss, after)) => Some(([s] + ss, after))
      else Some(([s], rest))
  }

  /** `items.map(s => string(s))`. */
  function QuotedAll(q: Quote, ss: seq<string>): (r: seq<string>)
    ensures |r| == |ss| && forall i :: 0 <= i < |ss| ==> r[i] == Quoted(q, ss[i])
  {
    if ss == [] then [] else [Quoted(q, ss[0])] + QuotedAll(q, ss[1..])
  }

  /** A literal not followed by `, ` is a list of one. */
  lemma ReadListOne(q: Quote, s: string, close: string)
    requires !StartsWithComma(close)
    ensures ReadList(q, Quoted(q, s) + close) == Some(([s], close))
  {
    ReadLiteralQuoted(q, s, close);
  }

  /** A literal followed by `, ` and a list is one more element. */
  lemma ReadListCons(q: Quote, s: string, t: string, ss: seq<string>, close: string)
    requires ReadList(q, t) == Some((ss, close))
    ensures ReadList(q, Quoted(q, s) + (", " + t)) == Some(([s] + ss, close))
  {
    var rest := ", " + t;
    ReadLiteralQuoted(q, s, rest);
    assert StartsWithComma(rest) && rest[2..] == t;
  }

  /** The literals of a non-empty list of texts, joined by `, `, read back as
      those texts, when what follows does not itself start with `, `. */
  lemma {:induction false} ReadListJoined(q: Quote, ss: seq<string>, close: string)
    requires |ss| > 0 && !StartsWithComma(close)
    ensures ReadList(q, Join(QuotedAll(q, ss), ", ") + close) == Some((ss, close))
  {
    if |ss| == 1 {
      JoinQuotedOne(q, ss, close);
      ReadListOne(q, ss[0], close);
    } else {
      var tail := Join(QuotedAll(q, ss[1..]), ", ") + close;
      JoinQuotedCons(q, ss, close);
      ReadListJoined(q, ss[1..], close);
      ReadListCons(q, ss[0], tail, ss[1..], close);
      assert ss == [ss[0]] + ss[1..];
    }
  }

  lemma JoinQuotedOne(q: Quote, ss: seq<string>, close: string)
    requires |ss| == 1
    ensures Join(QuotedAll(q, ss), ", ") + close == Quoted(q, ss[0]) + close
    ensures ss == [ss[0]]
  {
  }

  lemma JoinQuotedCons(q: Quote, ss: seq<string>, close: string)
    requires |ss| > 1
    ensures Join(QuotedAll(q, ss), ", ") + close == Quoted(q, ss[0]) + (", " + (Join(QuotedAll(q, ss[1..]), ", ") + close))
  {
    var qs := QuotedAll(q, ss);
    assert qs == [Quoted(q, ss[0])] + QuotedAll(q, ss[1..]);
    assert qs[1..] == QuotedAll(q, ss[1..]);
    var x := Quoted(q, ss[0]);
    var j := Join(QuotedAll(q, ss[1..]), ", ");
    assert Join(qs, ", ") == x + ", " + j;
    AppendAssoc(x + ", ", j, close);
    AppendAssoc(x, ", ", j + close);
  }
}
