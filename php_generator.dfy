/** scripts/lib/generators/php.js: the PHP literal of a catalog value and the
    simplified and detailed PHP data files. */
module PhpGenerator {
  import opened Text
  import opened Json
  import opened Literals
  import opened Generated

  /** `php.array(items)`: a short array of the items, or `[]`. */
  function PhpArray(items: seq<string>): (r: string)
    ensures |items| > 0 ==> |r| >= 2 && r[0] == '[' && r[|r| - 1] == ']' && r[1..|r| - 1] == Join(items, ", ")
    ensures |items| == 0 ==> r == "[]"
  {
    if |items| > 0 then "[" + Join(items, ", ") + "]" else "[]"
  }

  /** `toPhpValue(val)`: `null` for null and undefined, booleans and numbers
      as themselves, strings single-quoted and escaped, arrays as short
      arrays of their elements' literals, objects as short arrays of
      `'key' => value` entries in key order. */
  function ToPhpValue(v: Value): string
    decreases v
  {
    match v
    case Undefined => "null"
    case Null => "null"
    case Bool(b) => if b then "true" else "false"
    case Num(n) => IntToString(n)
    case Str(s) => SingleQuoted(s)
    case Arr(xs) => PhpArray(seq(|xs|, i requires 0 <= i < |xs| => ToPhpValue(xs[i])))
    case Obj(fs) => PhpArray(seq(|fs|, i requires 0 <= i < |fs| => Entry(fs[i])))
  }

  /** One `'key' => value` entry of an object's array. */
  function Entry(f: Field): string
    decreases f
  {
    SingleQuoted(f.key) + " => " + ToPhpValue(f.value)
  }

  /** A string's literal reads back as the string. */
  lemma PhpStringReadsBack(s: string, rest: string)
    ensures ReadLiteral(Single, ToPhpValue(Str(s)) + rest) == Some((s, rest))
  {
    ReadLiteralQuoted(Single, s, rest);
  }

  /** An object entry starts with its key's literal, which reads back as the
      key, followed by the arrow and the value's literal. */
  lemma EntryReadsBack(f: Field)
    ensures ReadLiteral(Single, Entry(f)) == Some((f.key, " => " + ToPhpValue(f.value)))
  {
    assert Entry(f) == Quoted(Single, f.key) + (" => " + ToPhpValue(f.value));
    ReadLiteralQuoted(Single, f.key, " => " + ToPhpValue(f.value));
  }

  /** A non-empty array of strings is a short array whose elements read back
      as the strings, in order. */
  lemma PhpStringArrayReadsBack(ss: seq<string>)
    requires |ss| > 0
    ensures var lit := ToPhpValue(Arr(Strs(ss)));
      |lit| >= 1 && lit[0] == '[' && ReadList(Single, lit[1..]) == Some((ss, "]"))
  {
    var xs := Strs(ss);
    var elems := seq(|xs|, i requires 0 <= i < |xs| => ToPhpValue(xs[i]));
    ListLiteralReadsBack(Single, ss, elems, "[", "]");
    assert ToPhpValue(Arr(xs)) == "[" + Join(elems, ", ") + "]";
  }

  /** A non-empty array of numbers is a short array of their decimal texts. */
  lemma PhpIntArray(xs: seq<Value>)
    requires |xs| > 0 && forall i :: 0 <= i < |xs| ==> xs[i].Num?
    ensures ToPhpValue(Arr(xs)) == "[" + Join(NumberTexts(xs), ", ") + "]"
  {
    var elems := seq(|xs|, i requires 0 <= i < |xs| => ToPhpValue(xs[i]));
    assert elems == NumberTexts(xs);
  }

  /** Escaping for a single-quoted literal neither adds nor removes line
      breaks: a string with a newline is written with a raw newline. */
  lemma {:induction false} EscapeSingleBreaks(s: string)
    ensures '\n' in EscapeSingle(s) <==> '\n' in s
  {
    if s != [] {
      EscapeSingleCons(s);
      EscapeSingleBreaks(s[1..]);
      assert s == [s[0]] + s[1..];
    }
  }

  /** Every string and key inside `v` is free of newlines. */
  predicate NoBreakText(v: Value)
    decreases v
  {
    match v
    case Str(s) => '\n' !in s
    case Arr(xs) => forall i :: 0 <= i < |xs| ==> NoBreakText(xs[i])
    case Obj(fs) => forall i :: 0 <= i < |fs| ==> '\n' !in fs[i].key && NoBreakText(fs[i].value)
    case _ => true
  }

  /** The literal of a value fits on one line exactly when no string inside
      it holds a newline; for a string, in both directions. */
  lemma {:induction false} PhpValueOneLine(v: Value)
    requires NoBreakText(v)
    ensures '\n' !in ToPhpValue(v)
    decreases v
  {
    match v
    case Num(n) => IntTextOneLine(n);
    case Str(s) => EscapeSingleBreaks(s);
    case Arr(xs) =>
      var elems := seq(|xs|, i requires 0 <= i < |xs| => ToPhpValue(xs[i]));
      forall i | 0 <= i < |xs| ensures '\n' !in elems[i] {
        PhpValueOneLine(xs[i]);
      }
      if |xs| > 0 {
        JoinOneLine(elems, ", ");
      }
    case Obj(fs) =>
      var elems := seq(|fs|, i requires 0 <= i < |fs| => Entry(fs[i]));
      forall i | 0 <= i < |fs| ensures '\n' !in elems[i] {
        EscapeSingleBreaks(fs[i].key);
        PhpValueOneLine(fs[i].value);
      }
      if |fs| > 0 {
        JoinOneLine(elems, ", ");
      }
    case _ =>
  }

  /** A string holding a newline is written across lines. */
  lemma PhpStringKeepsNewline(s: string)
    requires '\n' in s
    ensures '\n' in ToPhpValue(Str(s))
  {
    EscapeSingleBreaks(s);
  }

  const Labels: seq<string> := [
    "                'name' => ", "                'priorityOver' => ", "                'regexpBin' => ",
    "                'regexpFull' => ", "                'regexpCvv' => "]

  /** The seven lines `generatePhp` pushes for one brand. */
  function BrandBlock(b: Value): (r: seq<string>)
    ensures |r| == 7
  {
    ["            ["] + FieldLines(b, Labels, ToPhpValue) + ["            ],"]
  }

  /** The block written out line by line, as the generator pushes it. */
  lemma BrandBlockLines(b: Value)
    ensures BrandBlock(b) == ["            [",
      Labels[0] + ToPhpValue(Get(b, "name")) + ",", Labels[1] + ToPhpValue(Get(b, "priorityOver")) + ",",
      Labels[2] + ToPhpValue(Get(b, "regexpBin")) + ",", Labels[3] + ToPhpValue(Get(b, "regexpFull")) + ",",
      Labels[4] + ToPhpValue(Get(b, "regexpCvv")) + ",", "            ],"]
  {
    assert SimplifiedFields[0] == "name" && SimplifiedFields[1] == "priorityOver";
    assert SimplifiedFields[2] == "regexpBin" && SimplifiedFields[3] == "regexpFull" && SimplifiedFields[4] == "regexpCvv";
  }

  const Opening := "<?php"
  const Closing: seq<string> := ["        ];", "    }", "}", ""]

  /** The lines before the brands: the opening tag, the two cut header
      lines and the fixed class text. */
  function Head(h0: string, h1: string, fixed: seq<string>): seq<string>
  {
    [Opening] + Headers(h0, h1) + fixed
  }

  /** The lines of the simplified file: the head, seven lines per brand, and
      the closing lines. */
  function PhpLines(h0: string, h1: string, fixed: seq<string>, brands: seq<Value>): seq<string>
  {
    Head(h0, h1, fixed) + Blocks(brands, BrandBlock) + Closing
  }

  /** `generatePhp(brands)`, given the first two lines of `fileHeader('//')`,
      the fixed class text after them, and the brands as
      `extractSimplifiedBrand` gives them. */
  method GeneratePhp(h0: string, h1: string, fixed: seq<string>, brands: seq<Value>) returns (text: string)
    ensures text == Join(PhpLines(h0, h1, fixed, brands), "\n")
  {
    var lines := [Opening, HeaderLine(h0), HeaderLine(h1)] + fixed;
    var i := 0;
    while i < |brands|
      invariant 0 <= i <= |brands|
      invariant lines == Head(h0, h1, fixed) + Blocks(brands[..i], BrandBlock)
    {
      BlocksStep(brands, BrandBlock, i);
      var b := brands[i];
      AppendAssoc(Head(h0, h1, fixed), Blocks(brands[..i], BrandBlock), BrandBlock(b));
      lines := lines + BrandBlock(b);
      i := i + 1;
    }
    BlocksAll(brands, BrandBlock);
    lines := lines + Closing;
    assert lines == PhpLines(h0, h1, fixed, brands);
    text := Join(lines, "\n");
  }

  /** Each string field reads back from its line of the brand's block. */
  lemma BrandFieldReadsBack(b: Value, j: nat, s: string)
    requires j < 5 && Get(b, SimplifiedFields[j]) == Str(s)
    ensures var line := BrandBlock(b)[j + 1];
      |Labels[j]| <= |line| && ReadLiteral(Single, line[|Labels[j]|..]) == Some((s, ","))
  {
    FieldLineReadsBack(b, Labels, ToPhpValue, Single, j, s);
  }

  /** A brand whose fields hold no newline in any string. */
  predicate NoBreakBrand(b: Value)
  {
    forall j :: 0 <= j < 5 ==> NoBreakText(Get(b, SimplifiedFields[j]))
  }

  /** A brand's block holds no newline when its fields' strings hold
      none. */
  lemma BrandBlockOneLine(b: Value)
    requires NoBreakBrand(b)
    ensures OneLineEach(BrandBlock(b))
  {
    forall j | 0 <= j < 5 ensures '\n' !in ToPhpValue(Get(b, SimplifiedFields[j])) {
      PhpValueOneLine(Get(b, SimplifiedFields[j]));
    }
    FieldLinesOneLine(b, Labels, ToPhpValue);
    FileOneLine(["            ["], FieldLines(b, Labels, ToPhpValue), ["            ],"]);
  }

  /** No line of the file holds a newline. */
  lemma PhpLinesOneLine(h0: string, h1: string, fixed: seq<string>, brands: seq<Value>)
    requires '\n' !in h0 && '\n' !in h1 && OneLineEach(fixed)
    requires forall i :: 0 <= i < |brands| ==> NoBreakBrand(brands[i])
    ensures OneLineEach(PhpLines(h0, h1, fixed, brands))
  {
    forall i | 0 <= i < |brands| ensures OneLineEach(BrandBlock(brands[i])) {
      BrandBlockOneLine(brands[i]);
    }
    BlocksOneLineEach(brands, BrandBlock);
    HeadOneLine(h0, h1, fixed);
    FileOneLine(Head(h0, h1, fixed), Blocks(brands, BrandBlock), Closing);
  }

  lemma HeadOneLine(h0: string, h1: string, fixed: seq<string>)
    requires '\n' !in h0 && '\n' !in h1 && OneLineEach(fixed)
    ensures OneLineEach(Head(h0, h1, fixed))
  {
    FileOneLine([Opening], Headers(h0, h1), fixed);
  }

  /** For brands whose strings hold no newline and one-line header and
      class text, the file holds exactly seven lines per brand, in brand
      order, between the head and the four closing lines. */
  lemma PhpFileLayout(h0: string, h1: string, fixed: seq<string>, brands: seq<Value>)
    requires '\n' !in h0 && '\n' !in h1 && OneLineEach(fixed)
    requires forall i :: 0 <= i < |brands| ==> NoBreakBrand(brands[i])
    ensures Split(Join(PhpLines(h0, h1, fixed, brands), "\n"), '\n') == PhpLines(h0, h1, fixed, brands)
    ensures PhpLines(h0, h1, fixed, brands)[0] == "<?php"
    ensures |PhpLines(h0, h1, fixed, brands)| == 3 + |fixed| + 7 * |brands| + 4
    ensures forall i :: 0 <= i < |brands| ==>
      PhpLines(h0, h1, fixed, brands)[3 + |fixed| + 7 * i .. 3 + |fixed| + 7 * i + 7] == BrandBlock(brands[i])
  {
    PhpLinesOneLine(h0, h1, fixed, brands);
    FileLayout(Head(h0, h1, fixed), brands, BrandBlock, 7, Closing);
    TimesIsMul(7, |brands|);
    forall i | 0 <= i < |brands| ensures Times(7, i) == 7 * i {
      TimesIsMul(7, i);
    }
  }

  /** `generatePhpDetailed(detailed)`: the opening tag, the cut header lines
      and a fixed class that loads the detailed catalog at run time; the
      argument is not read. */
  function GeneratePhpDetailed(h0: string, h1: string, fixed: seq<string>, detailed: Value): (text: string)
    ensures '\n' !in h0 && '\n' !in h1 && OneLineEach(fixed) ==>
      Split(text, '\n') == [Opening, HeaderLine(h0), HeaderLine(h1)] + fixed
  {
    assert '\n' !in h0 && '\n' !in h1 ==> OneLineEach([Opening] + Headers(h0, h1)) by {
      if '\n' !in h0 && '\n' !in h1 {
        FileOneLine([Opening], Headers(h0, h1), []);
      }
    }
    DetailedText([Opening] + Headers(h0, h1), fixed)
  }
}
