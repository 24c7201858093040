/** scripts/lib/generators/java.js: the Java literal of a catalog value and
    the simplified and detailed Java data files. */
module JavaGenerator {
  import opened Text
  import opened Json
  import opened Literals
  import opened Generated

  /** `toJavaValue(val)`: `null` for null and undefined, booleans and
      numbers as themselves, strings double-quoted and escaped, an array led
      by a number as an `int[]` of its elements as written, any other array
      as a `String[]` of its elements' literals. */
  function ToJavaValue(v: Value): string
    decreases v
  {
    match v
    case Undefined => "null"
    case Null => "null"
    case Bool(b) => if b then "true" else "false"
    case Num(n) => IntToString(n)
    case Str(s) => DoubleQuoted(s)
    case Arr(xs) =>
      if |xs| == 0 then "new String[0]"
      else if xs[0].Num? then "new int[] { " + JoinItems(xs, ", ") + " }"
      else "new String[] { " + Join(seq(|xs|, i requires 0 <= i < |xs| => ToJavaValue(xs[i])), ", ") + " }"
    case Obj(_) => "[object Object]"
  }

  /** A string's literal reads back as the string, and holds no raw line
      break or tab. */
  lemma JavaStringReadsBack(s: string, rest: string)
    ensures ReadLiteral(Double, ToJavaValue(Str(s)) + rest) == Some((s, rest))
    ensures '\n' !in ToJavaValue(Str(s)) && '\r' !in ToJavaValue(Str(s)) && '\t' !in ToJavaValue(Str(s))
  {
    ReadLiteralQuoted(Double, s, rest);
    EscapeDoubleNoBreaks(s);
  }

  /** A non-empty array of strings is a `String[]` whose elements read back
      as the strings, in order. */
  lemma JavaStringArrayReadsBack(ss: seq<string>)
    requires |ss| > 0
    ensures var lit := ToJavaValue(Arr(Strs(ss)));
      |lit| >= 15 && lit[..15] == "new String[] { " && ReadList(Double, lit[15..]) == Some((ss, " }"))
  {
    var xs := Strs(ss);
    var elems := seq(|xs|, i requires 0 <= i < |xs| => ToJavaValue(xs[i]));
    assert " }"[0] == ' ';
    ListLiteralReadsBack(Double, ss, elems, "new String[] { ", " }");
    assert ToJavaValue(Arr(xs)) == "new String[] { " + Join(elems, ", ") + " }";
  }

  /** A non-empty array of numbers is an `int[]` of their decimal texts. */
  lemma JavaIntArray(xs: seq<Value>)
    requires |xs| > 0 && forall i :: 0 <= i < |xs| ==> xs[i].Num?
    ensures ToJavaValue(Arr(xs)) == "new int[] { " + Join(NumberTexts(xs), ", ") + " }"
  {
    JoinItemsNumbers(xs, ", ");
  }

  /** Every literal of catalog-shaped data fits on one line. */
  lemma {:induction false} JavaValueOneLine(v: Value)
    requires Uniform(v)
    ensures '\n' !in ToJavaValue(v)
    decreases v
  {
    match v
    case Num(n) => IntTextOneLine(n);
    case Str(s) => EscapeDoubleNoBreaks(s);
    case Arr(xs) =>
      if |xs| > 0 {
        if xs[0].Num? {
          JoinNumbersOneLine(xs, ", ");
        } else {
          var elems := seq(|xs|, i requires 0 <= i < |xs| => ToJavaValue(xs[i]));
          forall i | 0 <= i < |xs| ensures '\n' !in elems[i] {
            JavaValueOneLine(xs[i]);
          }
          JoinOneLine(elems, ", ");
        }
      }
    case _ =>
  }

  const BrandLinePrefix := "        add(new Brand("

  /** The line `generateJava` pushes for one brand. */
  function BrandLine(b: Value): string
  {
    BrandLinePrefix + ToJavaValue(Get(b, "name")) + AfterName(b)
  }

  /** The rest of the constructor call after the name argument. */
  function AfterName(b: Value): string
  {
    ", " + ToJavaValue(Get(b, "priorityOver")) + ", " + ToJavaValue(Get(b, "regexpBin")) + ", "
      + ToJavaValue(Get(b, "regexpFull")) + ", " + ToJavaValue(Get(b, "regexpCvv")) + "));"
  }

  function BrandBlock(b: Value): seq<string>
  {
    [BrandLine(b)]
  }

  /** The lines after the brands. */
  const Closing: seq<string> := ["    }};", "}", ""]

  /** The lines of the simplified file: the two cut header lines, the fixed
      class text, one line per brand, and the closing lines. */
  function JavaLines(h0: string, h1: string, fixed: seq<string>, brands: seq<Value>): seq<string>
  {
    [HeaderLine(h0), HeaderLine(h1)] + fixed + Blocks(brands, BrandBlock) + Closing
  }

  /** `generateJava(brands)`, given the first two lines of `fileHeader('//')`,
      the fixed class text between them and the brands, and the brands as
      `extractSimplifiedBrand` gives them. */
  method GenerateJava(h0: string, h1: string, fixed: seq<string>, brands: seq<Value>) returns (text: string)
    ensures text == Join(JavaLines(h0, h1, fixed, brands), "\n")
  {
    var lines := [HeaderLine(h0), HeaderLine(h1)] + fixed;
    var i := 0;
    while i < |brands|
      invariant 0 <= i <= |brands|
      invariant lines == [HeaderLine(h0), HeaderLine(h1)] + fixed + Blocks(brands[..i], BrandBlock)
    {
      BlocksStep(brands, BrandBlock, i);
      AppendAssoc([HeaderLine(h0), HeaderLine(h1)] + fixed, Blocks(brands[..i], BrandBlock), BrandBlock(brands[i]));
      lines := lines + [BrandLine(brands[i])];
      i := i + 1;
    }
    BlocksAll(brands, BrandBlock);
    lines := lines + Closing;
    assert lines == JavaLines(h0, h1, fixed, brands);
    text := Join(lines, "\n");
  }

  /** The brand's name, when a string, reads back from its line. */
  lemma BrandLineName(b: Value, name: string)
    requires Get(b, "name") == Str(name)
    ensures |BrandLinePrefix| <= |BrandLine(b)|
    ensures ReadLiteral(Double, BrandLine(b)[|BrandLinePrefix|..]) == Some((name, AfterName(b)))
  {
    LiteralAfter(Double, BrandLinePrefix, name, AfterName(b));
  }

  /** A catalog-shaped brand's line holds no newline. */
  lemma BrandLineOneLine(b: Value)
    requires UniformBrand(b)
    ensures OneLineEach(BrandBlock(b))
  {
    UniformFields(b);
    forall j | 0 <= j < 5 ensures '\n' !in ToJavaValue(Get(b, SimplifiedFields[j])) {
      JavaValueOneLine(Get(b, SimplifiedFields[j]));
    }
    assert SimplifiedFields[0] == "name" && SimplifiedFields[1] == "priorityOver";
    assert SimplifiedFields[2] == "regexpBin" && SimplifiedFields[3] == "regexpFull" && SimplifiedFields[4] == "regexpCvv";
    assert '\n' !in AfterName(b);
    assert '\n' !in BrandLine(b);
  }

  /** No line of the file holds a newline. */
  lemma JavaLinesOneLine(h0: string, h1: string, fixed: seq<string>, brands: seq<Value>)
    requires '\n' !in h0 && '\n' !in h1 && OneLineEach(fixed)
    requires forall i :: 0 <= i < |brands| ==> UniformBrand(brands[i])
    ensures OneLineEach(JavaLines(h0, h1, fixed, brands))
  {
    forall i | 0 <= i < |brands| ensures OneLineEach(BrandBlock(brands[i])) {
      BrandLineOneLine(brands[i]);
    }
    BlocksOneLineEach(brands, BrandBlock);
    HeaderOneLine(h0);
    HeaderOneLine(h1);
    FileOneLine([HeaderLine(h0), HeaderLine(h1)] + fixed, Blocks(brands, BrandBlock), Closing);
  }

  /** Brand `i`'s line sits after the head and the lines of the brands
      before it. */
  lemma BrandLineAt(h0: string, h1: string, fixed: seq<string>, brands: seq<Value>, i: nat)
    requires i < |brands|
    ensures 2 + |fixed| + i < |JavaLines(h0, h1, fixed, brands)|
    ensures JavaLines(h0, h1, fixed, brands)[2 + |fixed| + i] == BrandLine(brands[i])
  {
    var head := [HeaderLine(h0), HeaderLine(h1)] + fixed;
    var mid := Blocks(brands, BrandBlock);
    BlockAt(brands, BrandBlock, 1, i);
    TimesIsMul(1, i);
    assert mid[i] == mid[i .. i + 1][0] == BrandLine(brands[i]);
    MiddleAt(head, mid, Closing, i);
  }

  /** For catalog-shaped brands and one-line header and class text, the
      file holds exactly one line per brand, in brand order, between the
      fixed text and the three closing lines. */
  lemma JavaFileLayout(h0: string, h1: string, fixed: seq<string>, brands: seq<Value>)
    requires '\n' !in h0 && '\n' !in h1 && OneLineEach(fixed)
    requires forall i :: 0 <= i < |brands| ==> UniformBrand(brands[i])
    ensures Split(Join(JavaLines(h0, h1, fixed, brands), "\n"), '\n') == JavaLines(h0, h1, fixed, brands)
    ensures |JavaLines(h0, h1, fixed, brands)| == 2 + |fixed| + |brands| + 3
    ensures forall i :: 0 <= i < |brands| ==> JavaLines(h0, h1, fixed, brands)[2 + |fixed| + i] == BrandLine(brands[i])
  {
    JavaLinesOneLine(h0, h1, fixed, brands);
    TextLines(JavaLines(h0, h1, fixed, brands));
    BlocksLength(brands, BrandBlock, 1);
    TimesIsMul(1, |brands|);
    forall i | 0 <= i < |brands| ensures JavaLines(h0, h1, fixed, brands)[2 + |fixed| + i] == BrandLine(brands[i]) {
      BrandLineAt(h0, h1, fixed, brands, i);
    }
  }

  /** `generateJavaDetailed(detailed)`: the cut header lines and a fixed
      class that loads the detailed catalog at run time; the argument is not
      read. */
  function GenerateJavaDetailed(h0: string, h1: string, fixed: seq<string>, detailed: Value): (text: string)
    ensures '\n' !in h0 && '\n' !in h1 && OneLineEach(fixed) ==>
      Split(text, '\n') == [HeaderLine(h0), HeaderLine(h1)] + fixed
  {
    DetailedText(Headers(h0, h1), fixed)
  }
}
