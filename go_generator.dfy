/** scripts/lib/generators/go.js: the Go literal of a catalog value and the
    simplified and detailed Go data files. */
module GoGenerator {
  import opened Text
  import opened Json
  import opened Literals
  import opened Generated

  /** `toGoValue(val)`: null and undefined as the empty string literal,
      booleans and numbers as themselves, strings double-quoted and escaped,
      an array led by a number as an `[]int` of its elements as written, any
      other array as a `[]string` of its elements' literals. */
  function ToGoValue(v: Value): string
    decreases v
  {
    match v
    case Undefined => "\"\""
    case Null => "\"\""
    case Bool(b) => if b then "true" else "false"
    case Num(n) => IntToString(n)
    case Str(s) => DoubleQuoted(s)
    case Arr(xs) =>
      if |xs| == 0 then "[]string{}"
      else if xs[0].Num? then "[]int{" + JoinItems(xs, ", ") + "}"
      else "[]string{" + Join(seq(|xs|, i requires 0 <= i < |xs| => ToGoValue(xs[i])), ", ") + "}"
    case Obj(_) => "[object Object]"
  }

  /** A string's literal reads back as the string; null and undefined are
      written as the literal of the empty string, not as `nil`. */
  lemma GoStringReadsBack(s: string, rest: string)
    ensures ReadLiteral(Double, ToGoValue(Str(s)) + rest) == Some((s, rest))
    ensures ReadLiteral(Double, ToGoValue(Null) + rest) == Some(("", rest))
    ensures ReadLiteral(Double, ToGoValue(Undefined) + rest) == Some(("", rest))
  {
    ReadLiteralQuoted(Double, s, rest);
    ReadLiteralQuoted(Double, "", rest);
    assert EscapeDouble("") == "";
  }

  /** A non-empty array of strings is a `[]string` whose elements read back
      as the strings, in order. */
  lemma GoStringArrayReadsBack(ss: seq<string>)
    requires |ss| > 0
    ensures var lit := ToGoValue(Arr(Strs(ss)));
      |lit| >= 9 && lit[..9] == "[]string{" && ReadList(Double, lit[9..]) == Some((ss, "}"))
  {
    var xs := Strs(ss);
    var elems := seq(|xs|, i requires 0 <= i < |xs| => ToGoValue(xs[i]));
    ListLiteralReadsBack(Double, ss, elems, "[]string{", "}");
    assert ToGoValue(Arr(xs)) == "[]string{" + Join(elems, ", ") + "}";
  }

  /** Every literal of catalog-shaped data fits on one line. */
  lemma {:induction false} GoValueOneLine(v: Value)
    requires Uniform(v)
    ensures '\n' !in ToGoValue(v)
    decreases v
  {
    match v
    case Num(n) => IntTextOneLine(n);
    case Str(s) => EscapeDoubleNoBreaks(s);
    case Arr(xs) =>
      if |xs| > 0 {
        if xs[0].Num? {
          JoinNumbersOneLine(xs, ", ");
        } else {
          var elems := seq(|xs|, i requires 0 <= i < |xs| => ToGoValue(xs[i]));
          forall i | 0 <= i < |xs| ensures '\n' !in elems[i] {
            GoValueOneLine(xs[i]);
          }
          JoinOneLine(elems, ", ");
        }
      }
    case _ =>
  }

  const Labels: seq<string> := [
    "        Name:         ", "        PriorityOver: ", "        RegexpBin:    ",
    "        RegexpFull:   ", "        RegexpCvv:    "]

  /** The seven lines `generateGo` pushes for one brand. */
  function BrandBlock(b: Value): (r: seq<string>)
    ensures |r| == 7
  {
    ["    {"] + FieldLines(b, Labels, ToGoValue) + ["    },"]
  }

  /** The block written out line by line, as the generator pushes it. */
  lemma BrandBlockLines(b: Value)
    ensures BrandBlock(b) == ["    {",
      Labels[0] + ToGoValue(Get(b, "name")) + ",", Labels[1] + ToGoValue(Get(b, "priorityOver")) + ",",
      Labels[2] + ToGoValue(Get(b, "regexpBin")) + ",", Labels[3] + ToGoValue(Get(b, "regexpFull")) + ",",
      Labels[4] + ToGoValue(Get(b, "regexpCvv")) + ",", "    },"]
  {
    assert SimplifiedFields[0] == "name" && SimplifiedFields[1] == "priorityOver";
    assert SimplifiedFields[2] == "regexpBin" && SimplifiedFields[3] == "regexpFull" && SimplifiedFields[4] == "regexpCvv";
  }

  const Closing: seq<string> := ["}", ""]

  /** The lines of the simplified file: the two cut header lines, the fixed
      type text, seven lines per brand, and the closing lines. */
  function GoLines(h0: string, h1: string, fixed: seq<string>, brands: seq<Value>): seq<string>
  {
    [HeaderLine(h0), HeaderLine(h1)] + fixed + Blocks(brands, BrandBlock) + Closing
  }

  /** `generateGo(brands)`, given the first two lines of `fileHeader('//')`,
      the fixed type text between them and the brands, and the brands as
      `extractSimplifiedBrand` gives them. */
  method GenerateGo(h0: string, h1: string, fixed: seq<string>, brands: seq<Value>) returns (text: string)
    ensures text == Join(GoLines(h0, h1, fixed, brands), "\n")
  {
    var lines := [HeaderLine(h0), HeaderLine(h1)] + fixed;
    var i := 0;
    while i < |brands|
      invariant 0 <= i <= |brands|
      invariant lines == [HeaderLine(h0), HeaderLine(h1)] + fixed + Blocks(brands[..i], BrandBlock)
    {
      BlocksStep(brands, BrandBlock, i);
      var b := brands[i];
      AppendAssoc([HeaderLine(h0), HeaderLine(h1)] + fixed, Blocks(brands[..i], BrandBlock), BrandBlock(b));
      lines := lines + BrandBlock(b);
      i := i + 1;
    }
    BlocksAll(brands, BrandBlock);
    lines := lines + Closing;
    assert lines == GoLines(h0, h1, fixed, brands);
    text := Join(lines, "\n");
  }

  /** Each string field reads back from its line of the brand's block. */
  lemma BrandFieldReadsBack(b: Value, j: nat, s: string)
    requires j < 5 && Get(b, SimplifiedFields[j]) == Str(s)
    ensures var line := BrandBlock(b)[j + 1];
      |Labels[j]| <= |line| && ReadLiteral(Double, line[|Labels[j]|..]) == Some((s, ","))
  {
    FieldLineReadsBack(b, Labels, ToGoValue, Double, j, s);
  }

  /** A catalog-shaped brand's block holds no newline. */
  lemma BrandBlockOneLine(b: Value)
    requires UniformBrand(b)
    ensures OneLineEach(BrandBlock(b))
  {
    UniformFields(b);
    forall j | 0 <= j < 5 ensures '\n' !in ToGoValue(Get(b, SimplifiedFields[j])) {
      GoValueOneLine(Get(b, SimplifiedFields[j]));
    }
    FieldLinesOneLine(b, Labels, ToGoValue);
    FileOneLine(["    {"], FieldLines(b, Labels, ToGoValue), ["    },"]);
  }

  /** No line of the file holds a newline. */
  lemma GoLinesOneLine(h0: string, h1: string, fixed: seq<string>, brands: seq<Value>)
    requires '\n' !in h0 && '\n' !in h1 && OneLineEach(fixed)
    requires forall i :: 0 <= i < |brands| ==> UniformBrand(brands[i])
    ensures OneLineEach(GoLines(h0, h1, fixed, brands))
  {
    forall i | 0 <= i < |brands| ensures OneLineEach(BrandBlock(brands[i])) {
      BrandBlockOneLine(brands[i]);
    }
    BlocksOneLineEach(brands, BrandBlock);
    HeaderOneLine(h0);
    HeaderOneLine(h1);
    FileOneLine([HeaderLine(h0), HeaderLine(h1)] + fixed, Blocks(brands, BrandBlock), Closing);
  }

  /** For catalog-shaped brands and one-line header and type text, the file
      holds exactly seven lines per brand, in brand order, between the fixed
      text and the two closing lines. */
  lemma GoFileLayout(h0: string, h1: string, fixed: seq<string>, brands: seq<Value>)
    requires '\n' !in h0 && '\n' !in h1 && OneLineEach(fixed)
    requires forall i :: 0 <= i < |brands| ==> UniformBrand(brands[i])
    ensures Split(Join(GoLines(h0, h1, fixed, brands), "\n"), '\n') == GoLines(h0, h1, fixed, brands)
    ensures |GoLines(h0, h1, fixed, brands)| == 2 + |fixed| + 7 * |brands| + 2
    ensures forall i :: 0 <= i < |brands| ==>
      GoLines(h0, h1, fixed, brands)[2 + |fixed| + 7 * i .. 2 + |fixed| + 7 * i + 7] == BrandBlock(brands[i])
  {
    GoLinesOneLine(h0, h1, fixed, brands);
    FileLayout([HeaderLine(h0), HeaderLine(h1)] + fixed, brands, BrandBlock, 7, Closing);
    TimesIsMul(7, |brands|);
    forall i | 0 <= i < |brands| ensures Times(7, i) == 7 * i {
      TimesIsMul(7, i);
    }
  }

  /** `generateGoDetailed(detailed)`: the cut header lines and fixed code
      that loads the detailed catalog at run time; the argument is not
      read. */
  function GenerateGoDetailed(h0: string, h1: string, fixed: seq<string>, detailed: Value): (text: string)
    ensures '\n' !in h0 && '\n' !in h1 && OneLineEach(fixed) ==>
      Split(text, '\n') == [HeaderLine(h0), HeaderLine(h1)] + fixed
  {
    DetailedText(Headers(h0, h1), fixed)
  }
}
