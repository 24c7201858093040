/** What the code generators under scripts/lib/generators share: the two
    header lines cut from `fileHeader` (scripts/lib/generators/utils.js is
    not part of this model, so its lines are parameters), the per-brand
    blocks of lines a `for (const brand of brands)` loop pushes, and the
    shape of data under which an emitted value stays on one line. */
module Generated {
  import opened Text
  import opened Json
  import Literals

  /** `'// ' + line.substring(3)`. */
  function HeaderLine(h: string): string
  {
    "// " + Substring(h, 3)
  }

  /** The lines a loop pushing `block(b)` for each brand `b` builds. */
  function Blocks(bs: seq<Value>, block: Value -> seq<string>): seq<string>
  {
    if bs == [] then [] else Blocks(bs[..|bs| - 1], block) + block(bs[|bs| - 1])
  }

  /** One more brand adds its block at the end. */
  lemma BlocksStep(bs: seq<Value>, block: Value -> seq<string>, i: nat)
    requires i < |bs|
    ensures Blocks(bs[..i + 1], block) == Blocks(bs[..i], block) + block(bs[i])
  {
    assert bs[..i + 1][..i] == bs[..i];
  }

  /** Taking every brand is the whole list. */
  lemma BlocksAll(bs: seq<Value>, block: Value -> seq<string>)
    ensures Blocks(bs[..|bs|], block) == Blocks(bs, block)
  {
    assert bs[..|bs|] == bs;
  }

  /** `k * n` as repeated addition, which keeps the layout proofs free of
      non-linear arithmetic. */
  function Times(k: nat, n: nat): nat
  {
    if n == 0 then 0 else Times(k, n - 1) + k
  }

  lemma {:induction false} TimesIsMul(k: nat, n: nat)
    ensures Times(k, n) == k * n
  {
    if n > 0 {
      TimesIsMul(k, n - 1);
    }
  }

  lemma {:induction false} TimesMono(k: nat, a: nat, b: nat)
    requires a <= b
    ensures Times(k, a) <= Times(k, b)
  {
    if a < b {
      TimesMono(k, a, b - 1);
    }
  }

  /** With `k` lines per brand there are `k` lines for each brand. */
  lemma {:induction false} BlocksLength(bs: seq<Value>, block: Value -> seq<string>, k: nat)
    requires forall b :: |block(b)| == k
    ensures |Blocks(bs, block)| == Times(k, |bs|)
  {
    if bs != [] {
      BlocksLength(bs[..|bs| - 1], block, k);
    }
  }

  /** With `k` lines per brand, brand `i`'s lines are lines `k*i` to
      `k*i + k - 1`. */
  lemma {:induction false} BlockAt(bs: seq<Value>, block: Value -> seq<string>, k: nat, i: nat)
    requires forall b :: |block(b)| == k
    requires i < |bs|
    ensures Times(k, i) + k <= |Blocks(bs, block)|
    ensures Blocks(bs, block)[Times(k, i) .. Times(k, i) + k] == block(bs[i])
  {
    var init := bs[..|bs| - 1];
    var before := Blocks(init, block);
    var after := block(bs[|bs| - 1]);
    BlocksLength(init, block, k);
    var lo := Times(k, i);
    assert Blocks(bs, block) == before + after;
    if i < |init| {
      TimesMono(k, i + 1, |init|);
      BlockAt(init, block, k, i);
      assert init[i] == bs[i];
      assert (before + after)[lo .. lo + k] == before[lo .. lo + k];
    } else {
      assert lo == |before|;
      assert (before + after)[lo .. lo + k] == after;
    }
  }

  /** No line holds a newline. */
  predicate OneLineEach(ls: seq<string>)
  {
    forall j :: 0 <= j < |ls| ==> '\n' !in ls[j]
  }

  /** When every brand's block has no newline, neither do the blocks. */
  lemma {:induction false} BlocksOneLineEach(bs: seq<Value>, block: Value -> seq<string>)
    requires forall i :: 0 <= i < |bs| ==> OneLineEach(block(bs[i]))
    ensures OneLineEach(Blocks(bs, block))
  {
    if bs != [] {
      var init := bs[..|bs| - 1];
      assert forall i :: 0 <= i < |init| ==> init[i] == bs[i];
      BlocksOneLineEach(init, block);
      var a, b := Blocks(init, block), block(bs[|bs| - 1]);
      assert Blocks(bs, block) == a + b;
      forall j | 0 <= j < |a + b| ensures '\n' !in (a + b)[j] {
        if j >= |a| {
          assert (a + b)[j] == b[j - |a|];
        }
      }
    }
  }

  /** The generated file: its lines joined by newlines splits back into
      those lines when none holds a newline. */
  lemma TextLines(lines: seq<string>)
    requires |lines| > 0 && OneLineEach(lines)
    ensures Split(Join(lines, "\n"), '\n') == lines
  {
    assert "\n" == ['\n'];
    SplitJoin(lines, '\n');
  }

  /** Data as the catalog holds it: an array that starts with a number holds
      only numbers, at every depth. */
  predicate Uniform(v: Value)
    decreases v
  {
    match v
    case Arr(xs) =>
      (|xs| > 0 && xs[0].Num? ==> forall i :: 0 <= i < |xs| ==> xs[i].Num?)
      && forall i :: 0 <= i < |xs| ==> Uniform(xs[i])
    case _ => true
  }

  /** The decimal text of an integer holds no newline. */
  lemma IntTextOneLine(n: int)
    ensures '\n' !in IntToString(n)
  {
    var d := NatToString(if n < 0 then -n else n);
    assert forall i :: 0 <= i < |d| ==> IsDigit(d[i]);
  }

  /** Joining numbers holds a newline only where the separator does. */
  lemma {:induction false} JoinNumbersOneLine(xs: seq<Value>, sep: string)
    requires forall i :: 0 <= i < |xs| ==> xs[i].Num?
    requires '\n' !in sep
    ensures '\n' !in JoinItems(xs, sep)
  {
    if |xs| > 0 {
      IntTextOneLine(xs[0].n);
      if |xs| > 1 {
        JoinNumbersOneLine(xs[1..], sep);
      }
    }
  }

  /** `items.map(v => String(v))` on numbers: their decimal texts. */
  function NumberTexts(xs: seq<Value>): (r: seq<string>)
    ensures |r| == |xs| && forall i :: 0 <= i < |xs| ==> r[i] == ToJsString(xs[i])
  {
    seq(|xs|, i requires 0 <= i < |xs| => ToJsString(xs[i]))
  }

  /** Joining pieces with a separator holds a newline only where a piece or
      the separator does. */
  lemma {:induction false} JoinOneLine(xs: seq<string>, sep: string)
    requires OneLineEach(xs) && '\n' !in sep
    ensures '\n' !in Join(xs, sep)
  {
    if |xs| > 1 {
      assert OneLineEach(xs[1..]) by {
        assert forall j :: 0 <= j < |xs[1..]| ==> xs[1..][j] == xs[j + 1];
      }
      JoinOneLine(xs[1..], sep);
    }
  }

  /** Joining numbers is joining their decimal texts. */
  lemma {:induction false} JoinItemsNumbers(xs: seq<Value>, sep: string)
    requires forall i :: 0 <= i < |xs| ==> xs[i].Num?
    ensures JoinItems(xs, sep) == Join(NumberTexts(xs), sep)
  {
    if |xs| > 1 {
      JoinItemsNumbers(xs[1..], sep);
      assert NumberTexts(xs)[1..] == NumberTexts(xs[1..]);
    }
  }

  /** The fields of a brand as `extractSimplifiedBrand` gives them, as
      catalog data: none holds an array led by a number and holding
      anything else. */
  predicate UniformBrand(b: Value)
  {
    Uniform(Get(b, "name")) && Uniform(Get(b, "priorityOver")) && Uniform(Get(b, "regexpBin"))
    && Uniform(Get(b, "regexpFull")) && Uniform(Get(b, "regexpCvv"))
  }

  /** `strings.map(s => s)` as values. */
  function Strs(ss: seq<string>): (r: seq<Value>)
    ensures |r| == |ss| && forall i :: 0 <= i < |ss| ==> r[i] == Str(ss[i])
  {
    seq(|ss|, i requires 0 <= i < |ss| => Str(ss[i]))
  }

  /** A list literal, its elements the texts' literals joined by `, `
      between an opening and a closing that does not start with `, `, reads
      back after the opening as the texts. */
  lemma ListLiteralReadsBack(q: Literals.Quote, ss: seq<string>, elems: seq<string>, open: string, close: string)
    requires |ss| > 0 && !Literals.StartsWithComma(close)
    requires |elems| == |ss| && forall i :: 0 <= i < |ss| ==> elems[i] == Literals.Quoted(q, ss[i])
    ensures var lit := open + Join(elems, ", ") + close;
      |open| <= |lit| && lit[..|open|] == open && Literals.ReadList(q, lit[|open|..]) == Some((ss, close))
  {
    assert elems == Literals.QuotedAll(q, ss);
    var lit := open + Join(elems, ", ") + close;
    assert lit == open + (Join(elems, ", ") + close);
    Literals.ReadListJoined(q, ss, close);
  }

  /** A literal written after a fixed prefix reads back from the end of the
      prefix. */
  lemma LiteralAfter(q: Literals.Quote, prefix: string, s: string, suffix: string)
    ensures var line := prefix + Literals.Quoted(q, s) + suffix;
      |prefix| <= |line| && Literals.ReadLiteral(q, line[|prefix|..]) == Some((s, suffix))
  {
    var line := prefix + Literals.Quoted(q, s) + suffix;
    assert line[|prefix|..] == Literals.Quoted(q, s) + suffix;
    Literals.ReadLiteralQuoted(q, s, suffix);
  }

  /** A cut header line holds no newline when the header line holds none. */
  lemma HeaderOneLine(h: string)
    requires '\n' !in h
    ensures '\n' !in HeaderLine(h)
  {
    assert forall i :: 3 <= i < |h| ==> h[i] == Substring(h, 3)[i - 3];
  }

  /** A file of three parts with no newline in any line. */
  lemma FileOneLine(head: seq<string>, body: seq<string>, tail: seq<string>)
    requires OneLineEach(head) && OneLineEach(body) && OneLineEach(tail)
    ensures OneLineEach(head + body + tail)
  {
    var lines := head + body + tail;
    forall j | 0 <= j < |lines| ensures '\n' !in lines[j] {
      if j < |head| {
        assert lines[j] == head[j];
      } else if j < |head| + |body| {
        assert lines[j] == body[j - |head|];
      } else {
        assert lines[j] == tail[j - |head| - |body|];
      }
    }
  }

  /** An element of the middle part sits after the head. */
  lemma MiddleAt(head: seq<string>, mid: seq<string>, tail: seq<string>, j: nat)
    requires j < |mid|
    ensures |head| + j < |head + mid + tail| && (head + mid + tail)[|head| + j] == mid[j]
  {
  }

  /** A slice of the middle part of three. */
  lemma MiddleSlice(head: seq<string>, mid: seq<string>, tail: seq<string>, lo: nat, k: nat)
    requires lo + k <= |mid|
    ensures (head + mid + tail)[|head| + lo .. |head| + lo + k] == mid[lo .. lo + k]
  {
  }

  /** Brand `i`'s block sits after the head and the blocks of the brands
      before it. */
  lemma BlocksInFile(head: seq<string>, bs: seq<Value>, block: Value -> seq<string>, k: nat, tail: seq<string>)
    requires forall b :: |block(b)| == k
    ensures forall i :: 0 <= i < |bs| ==>
      |head| + Times(k, i) + k <= |head + Blocks(bs, block) + tail|
      && (head + Blocks(bs, block) + tail)[|head| + Times(k, i) .. |head| + Times(k, i) + k] == block(bs[i])
  {
    forall i | 0 <= i < |bs|
      ensures |head| + Times(k, i) + k <= |head + Blocks(bs, block) + tail|
      ensures (head + Blocks(bs, block) + tail)[|head| + Times(k, i) .. |head| + Times(k, i) + k] == block(bs[i])
    {
      BlockAt(bs, block, k, i);
      MiddleSlice(head, Blocks(bs, block), tail, Times(k, i), k);
    }
  }

  /** A generated file of fixed head lines, one block of `k` lines per
      brand and fixed tail lines, none holding a newline, splits back into
      those lines, with brand `i`'s block after the head and the blocks of
      the brands before it. */
  lemma FileLayout(head: seq<string>, bs: seq<Value>, block: Value -> seq<string>, k: nat, tail: seq<string>)
    requires forall b :: |block(b)| == k
    requires |head| > 0 && OneLineEach(head + Blocks(bs, block) + tail)
    ensures Split(Join(head + Blocks(bs, block) + tail, "\n"), '\n') == head + Blocks(bs, block) + tail
    ensures |head + Blocks(bs, block) + tail| == |head| + Times(k, |bs|) + |tail|
    ensures forall i :: 0 <= i < |bs| ==>
      |head| + Times(k, i) + k <= |head + Blocks(bs, block) + tail|
      && (head + Blocks(bs, block) + tail)[|head| + Times(k, i) .. |head| + Times(k, i) + k] == block(bs[i])
  {
    BlocksLength(bs, block, k);
    TextLines(head + Blocks(bs, block) + tail);
    BlocksInFile(head, bs, block, k, tail);
  }

  /** The fields `extractSimplifiedBrand` gives each brand, in the order the
      generators write them. */
  const SimplifiedFields: seq<string> := ["name", "priorityOver", "regexpBin", "regexpFull", "regexpCvv"]

  /** The five lines `label + literal(field) + ','` a generator pushes for
      the fields of one brand. */
  function FieldLines(b: Value, labels: seq<string>, lit: Value -> string): (r: seq<string>)
    requires |labels| == 5
    ensures |r| == 5 && forall j :: 0 <= j < 5 ==> r[j] == labels[j] + lit(Get(b, SimplifiedFields[j])) + ","
  {
    seq(5, j requires 0 <= j < 5 => labels[j] + lit(Get(b, SimplifiedFields[j])) + ",")
  }

  /** A field holding a string reads back from its line, up to the closing
      comma, when the generator writes strings as literals of one quote
      style. */
  lemma FieldLineReadsBack(b: Value, labels: seq<string>, lit: Value -> string, q: Literals.Quote, j: nat, s: string)
    requires |labels| == 5 && j < 5
    requires forall t :: lit(Str(t)) == Literals.Quoted(q, t)
    requires Get(b, SimplifiedFields[j]) == Str(s)
    ensures var line := FieldLines(b, labels, lit)[j];
      |labels[j]| <= |line| && Literals.ReadLiteral(q, line[|labels[j]|..]) == Some((s, ","))
  {
    LiteralAfter(q, labels[j], s, ",");
  }

  /** The field lines hold no newline when neither the labels nor the
      literals do. */
  lemma FieldLinesOneLine(b: Value, labels: seq<string>, lit: Value -> string)
    requires |labels| == 5 && OneLineEach(labels)
    requires forall j :: 0 <= j < 5 ==> '\n' !in lit(Get(b, SimplifiedFields[j]))
    ensures OneLineEach(FieldLines(b, labels, lit))
  {
    var r := FieldLines(b, labels, lit);
    forall j | 0 <= j < 5 ensures '\n' !in r[j] {
      var a, c := labels[j], lit(Get(b, SimplifiedFields[j]));
      assert r[j] == a + c + ",";
      forall x | 0 <= x < |r[j]| ensures r[j][x] != '\n' {
        if x < |a| {
          assert r[j][x] == a[x];
        } else if x < |a| + |c| {
          assert r[j][x] == c[x - |a|];
        }
      }
    }
  }

  /** A catalog-shaped brand has every simplified field catalog-shaped. */
  lemma UniformFields(b: Value)
    requires UniformBrand(b)
    ensures forall j :: 0 <= j < 5 ==> Uniform(Get(b, SimplifiedFields[j]))
  {
    assert SimplifiedFields[0] == "name" && SimplifiedFields[1] == "priorityOver";
    assert SimplifiedFields[2] == "regexpBin" && SimplifiedFields[3] == "regexpFull" && SimplifiedFields[4] == "regexpCvv";
  }

  /** The text a detailed generator returns: the fixed lines, joined. */
  function DetailedText(head: seq<string>, fixed: seq<string>): (text: string)
    ensures |head| > 0 && OneLineEach(head) && OneLineEach(fixed) ==> Split(text, '\n') == head + fixed
  {
    assert |head| > 0 && OneLineEach(head) && OneLineEach(fixed) ==> Split(Join(head + fixed, "\n"), '\n') == head + fixed by {
      if |head| > 0 && OneLineEach(head) && OneLineEach(fixed) {
        FileOneLine(head, fixed, []);
        assert head + fixed + [] == head + fixed;
        TextLines(head + fixed);
      }
    }
    Join(head + fixed, "\n")
  }

  /** The two cut header lines, one line each when the header lines are. */
  function Headers(h0: string, h1: string): (r: seq<string>)
    ensures |r| == 2
    ensures '\n' !in h0 && '\n' !in h1 ==> OneLineEach(r)
  {
    HeaderOneLineIf(h0);
    HeaderOneLineIf(h1);
    [HeaderLine(h0), HeaderLine(h1)]
  }

  lemma HeaderOneLineIf(h: string)
    ensures '\n' !in h ==> '\n' !in HeaderLine(h)
  {
    if '\n' !in h {
      HeaderOneLine(h);
    }
  }
}
