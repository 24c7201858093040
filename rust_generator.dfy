/** scripts/lib/generators/rust.js: the Rust literal of a catalog value and
    the simplified and detailed Rust data files. */
module RustGenerator {
  import opened Text
  import opened Json
  import opened Literals
  import opened Generated

  /** `toRustValue(val, optional)`: null and undefined as `None` when the
      field is optional and as the empty string literal otherwise, booleans
      and numbers as themselves, strings double-quoted and escaped (wrapped
      in `Some(..)` when optional), an array led by a number as a slice of
      its elements' `String()` texts (`null` and `undefined` spelled out),
      any other array as a slice of its elements'
      (non-optional) literals. */
  function ToRustValue(v: Value, optional: bool): string
    decreases v
  {
    match v
    case Undefined => if optional then "None" else "\"\""
    case Null => if optional then "None" else "\"\""
    case Bool(b) => if b then "true" else "false"
    case Num(n) => IntToString(n)
    case Str(s) => if optional then "Some(" + DoubleQuoted(s) + ")" else DoubleQuoted(s)
    case Arr(xs) =>
      if |xs| == 0 then "&[]"
      else if xs[0].Num? then "&[" + Join(seq(|xs|, i requires 0 <= i < |xs| => ToJsString(xs[i])), ", ") + "]"
      else "&[" + Join(seq(|xs|, i requires 0 <= i < |xs| => ToRustValue(xs[i], false)), ", ") + "]"
    case Obj(_) => "[object Object]"
  }

  /** The literal of a required field, the only form the simplified file
      writes. */
  function Field(v: Value): string
  {
    ToRustValue(v, false)
  }

  /** A required string's literal reads back as the string; null and
      undefined read back as the empty string. */
  lemma RustStringReadsBack(s: string, rest: string)
    ensures ReadLiteral(Double, Field(Str(s)) + rest) == Some((s, rest))
    ensures ReadLiteral(Double, Field(Null) + rest) == Some(("", rest))
    ensures ReadLiteral(Double, Field(Undefined) + rest) == Some(("", rest))
  {
    ReadLiteralQuoted(Double, s, rest);
    ReadLiteralQuoted(Double, "", rest);
    assert EscapeDouble("") == "";
  }

  /** An optional field is `None` when missing, and otherwise `Some` of a
      literal that reads back as the string. */
  lemma RustOptionalReadsBack(s: string)
    ensures ToRustValue(Null, true) == "None" && ToRustValue(Undefined, true) == "None"
    ensures var lit := ToRustValue(Str(s), true);
      |lit| >= 5 && lit[..5] == "Some(" && ReadLiteral(Double, lit[5..]) == Some((s, ")"))
  {
    var lit := ToRustValue(Str(s), true);
    assert lit[5..] == Quoted(Double, s) + ")";
    ReadLiteralQuoted(Double, s, ")");
  }

  /** A non-empty array of strings is a slice whose elements read back as
      the strings, in order. */
  lemma RustStringArrayReadsBack(ss: seq<string>)
    requires |ss| > 0
    ensures var lit := Field(Arr(Strs(ss)));
      |lit| >= 2 && lit[..2] == "&[" && ReadList(Double, lit[2..]) == Some((ss, "]"))
  {
    var xs := Strs(ss);
    var elems := seq(|xs|, i requires 0 <= i < |xs| => ToRustValue(xs[i], false));
    ListLiteralReadsBack(Double, ss, elems, "&[", "]");
    assert Field(Arr(xs)) == "&[" + Join(elems, ", ") + "]";
  }

  /** Every literal of catalog-shaped data fits on one line. */
  lemma {:induction false} RustValueOneLine(v: Value, optional: bool)
    requires Uniform(v)
    ensures '\n' !in ToRustValue(v, optional)
    decreases v
  {
    match v
    case Num(n) => IntTextOneLine(n);
    case Str(s) => EscapeDoubleNoBreaks(s);
    case Arr(xs) =>
      if |xs| > 0 {
        if xs[0].Num? {
          NumbersOneLine(xs);
        } else {
          var elems := seq(|xs|, i requires 0 <= i < |xs| => ToRustValue(xs[i], false));
          forall i | 0 <= i < |xs| ensures '\n' !in elems[i] {
            RustValueOneLine(xs[i], false);
          }
          JoinOneLine(elems, ", ");
        }
      }
    case _ =>
  }

  /** The `String()` texts of numbers, joined by commas, fit on one line. */
  lemma NumbersOneLine(xs: seq<Value>)
    requires forall i :: 0 <= i < |xs| ==> xs[i].Num?
    ensures '\n' !in Join(seq(|xs|, i requires 0 <= i < |xs| => ToJsString(xs[i])), ", ")
  {
    var texts := seq(|xs|, i requires 0 <= i < |xs| => ToJsString(xs[i]));
    forall i | 0 <= i < |xs| ensures '\n' !in texts[i] {
      IntTextOneLine(xs[i].n);
    }
    JoinOneLine(texts, ", ");
  }

  const Labels: seq<string> := [
    "        name: ", "        priority_over: ", "        regexp_bin: ",
    "        regexp_full: ", "        regexp_cvv: "]

  /** The seven lines `generateRust` pushes for one brand. */
  function BrandBlock(b: Value): (r: seq<string>)
    ensures |r| == 7
  {
    ["    Brand {"] + FieldLines(b, Labels, Field) + ["    },"]
  }

  /** The block written out line by line, as the generator pushes it. */
  lemma BrandBlockLines(b: Value)
    ensures BrandBlock(b) == ["    Brand {",
      Labels[0] + Field(Get(b, "name")) + ",", Labels[1] + Field(Get(b, "priorityOver")) + ",",
      Labels[2] + Field(Get(b, "regexpBin")) + ",", Labels[3] + Field(Get(b, "regexpFull")) + ",",
      Labels[4] + Field(Get(b, "regexpCvv")) + ",", "    },"]
  {
    assert SimplifiedFields[0] == "name" && SimplifiedFields[1] == "priorityOver";
    assert SimplifiedFields[2] == "regexpBin" && SimplifiedFields[3] == "regexpFull" && SimplifiedFields[4] == "regexpCvv";
  }

  const Closing: seq<string> := ["];", ""]

  /** The lines of the simplified file: the two cut header lines, the fixed
      type text, seven lines per brand, and the closing lines. */
  function RustLines(h0: string, h1: string, fixed: seq<string>, brands: seq<Value>): seq<string>
  {
    [HeaderLine(h0), HeaderLine(h1)] + fixed + Blocks(brands, BrandBlock) + Closing
  }

  /** `generateRust(brands)`, given the first two lines of
      `fileHeader('//')`, the fixed type text after them, and the brands as
      `extractSimplifiedBrand` gives them. */
  method GenerateRust(h0: string, h1: string, fixed: seq<string>, brands: seq<Value>) returns (text: string)
    ensures text == Join(RustLines(h0, h1, fixed, brands), "\n")
  {
    var lines := [HeaderLine(h0), HeaderLine(h1)] + fixed;
    var i := 0;
    while i < |brands|
      invariant 0 <= i <= |brands|
      invariant lines == [HeaderLine(h0), HeaderLine(h1)] + fixed + Blocks(brands[..i], BrandBlock)
    {
      BlocksStep(brands, BrandBlock, i);
      var b := brands[i];
      AppendAssoc([HeaderLine(h0), HeaderLine(h1)] + fixed, Blocks(brands[..i], BrandBlock), BrandBlock(b));
      lines := lines + BrandBlock(b);
      i := i + 1;
    }
    BlocksAll(brands, BrandBlock);
    lines := lines + Closing;
    assert lines == RustLines(h0, h1, fixed, brands);
    text := Join(lines, "\n");
  }

  /** Each string field reads back from its line of the brand's block. */
  lemma BrandFieldReadsBack(b: Value, j: nat, s: string)
    requires j < 5 && Get(b, SimplifiedFields[j]) == Str(s)
    ensures var line := BrandBlock(b)[j + 1];
      |Labels[j]| <= |line| && ReadLiteral(Double, line[|Labels[j]|..]) == Some((s, ","))
  {
    FieldLineReadsBack(b, Labels, Field, Double, j, s);
  }

  /** A catalog-shaped brand's block holds no newline. */
  lemma BrandBlockOneLine(b: Value)
    requires UniformBrand(b)
    ensures OneLineEach(BrandBlock(b))
  {
    UniformFields(b);
    forall j | 0 <= j < 5 ensures '\n' !in Field(Get(b, SimplifiedFields[j])) {
      RustValueOneLine(Get(b, SimplifiedFields[j]), false);
    }
    FieldLinesOneLine(b, Labels, Field);
    FileOneLine(["    Brand {"], FieldLines(b, Labels, Field), ["    },"]);
  }

  /** No line of the file holds a newline. */
  lemma RustLinesOneLine(h0: string, h1: string, fixed: seq<string>, brands: seq<Value>)
    requires '\n' !in h0 && '\n' !in h1 && OneLineEach(fixed)
    requires forall i :: 0 <= i < |brands| ==> UniformBrand(brands[i])
    ensures OneLineEach(RustLines(h0, h1, fixed, brands))
  {
    forall i | 0 <= i < |brands| ensures OneLineEach(BrandBlock(brands[i])) {
      BrandBlockOneLine(brands[i]);
    }
    BlocksOneLineEach(brands, BrandBlock);
    HeaderOneLine(h0);
    HeaderOneLine(h1);
    FileOneLine([HeaderLine(h0), HeaderLine(h1)] + fixed, Blocks(brands, BrandBlock), Closing);
  }

  /** For catalog-shaped brands and one-line header and type text, the file
      holds exactly seven lines per brand, in brand order, between the fixed
      text and the two closing lines. */
  lemma RustFileLayout(h0: string, h1: string, fixed: seq<string>, brands: seq<Value>)
    requires '\n' !in h0 && '\n' !in h1 && OneLineEach(fixed)
    requires forall i :: 0 <= i < |brands| ==> UniformBrand(brands[i])
    ensures Split(Join(RustLines(h0, h1, fixed, brands), "\n"), '\n') == RustLines(h0, h1, fixed, brands)
    ensures |RustLines(h0, h1, fixed, brands)| == 2 + |fixed| + 7 * |brands| + 2
    ensures forall i :: 0 <= i < |brands| ==>
      RustLines(h0, h1, fixed, brands)[2 + |fixed| + 7 * i .. 2 + |fixed| + 7 * i + 7] == BrandBlock(brands[i])
  {
    RustLinesOneLine(h0, h1, fixed, brands);
    FileLayout([HeaderLine(h0), HeaderLine(h1)] + fixed, brands, BrandBlock, 7, Closing);
    TimesIsMul(7, |brands|);
    forall i | 0 <= i < |brands| ensures Times(7, i) == 7 * i {
      TimesIsMul(7, i);
    }
  }

  /** `generateRustDetailed(detailed)`: the cut header lines and fixed code
      that loads the detailed catalog at run time; the argument is not
      read. */
  function GenerateRustDetailed(h0: string, h1: string, fixed: seq<string>, detailed: Value): (text: string)
    ensures '\n' !in h0 && '\n' !in h1 && OneLineEach(fixed) ==>
      Split(text, '\n') == [HeaderLine(h0), HeaderLine(h1)] + fixed
  {
    DetailedText(Headers(h0, h1), fixed)
  }
}
