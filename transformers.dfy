/** scripts/lib/transformers.js: turns one brand's source description into
    the catalog records. The simplified record carries the BIN pattern, the
    full pattern with its length lookahead and the CVV pattern; the detailed
    record carries the source data with defaults filled in. */
module Transformers {
  import opened Text
  import Json
  import Catalog
  import opened JsNumber

  // ----- source patterns --------------------------------------------------

  /** One entry of a source's `patterns` array: its `bin`, and its
      `length`, `cvvLength` and `luhn` as they are written. */
  datatype SourcePattern = SourcePattern(bin: string, length: Json.Value, cvvLength: Json.Value, luhn: Json.Value)

  /** Reads one pattern: the script calls `p.bin.replace`, which throws
      unless `bin` is a string; every other field is taken as it is. */
  function DecodePattern(v: Json.Value): (r: Option<SourcePattern>)
    ensures r.Some? <==> Json.Get(v, "bin").Str?
    ensures r.Some? ==> r.value == SourcePattern(Json.Get(v, "bin").s, Json.Get(v, "length"),
      Json.Get(v, "cvvLength"), Json.Get(v, "luhn"))
  {
    var bin := Json.Get(v, "bin");
    if !bin.Str? then None
    else Some(SourcePattern(bin.s, Json.Get(v, "length"), Json.Get(v, "cvvLength"), Json.Get(v, "luhn")))
  }

  /** Reads a `patterns` array. */
  function DecodePatterns(v: Json.Value): (r: Option<seq<SourcePattern>>)
    ensures r.Some? ==> v.Arr? && |r.value| == |v.items|
    ensures r.Some? ==> forall i :: 0 <= i < |v.items| ==> DecodePattern(v.items[i]) == Some(r.value[i])
  {
    if !v.Arr? then None else DecodeAll(v.items)
  }

  function DecodeAll(items: seq<Json.Value>): (r: Option<seq<SourcePattern>>)
    ensures r.Some? ==> |r.value| == |items|
    ensures r.Some? ==> forall i :: 0 <= i < |items| ==> DecodePattern(items[i]) == Some(r.value[i])
    ensures r.None? ==> exists i :: 0 <= i < |items| && DecodePattern(items[i]).None?
  {
    if items == [] then Some([])
    else match (DecodePattern(items[0]), DecodeAll(items[1..]))
      case (Some(p), Some(ps)) => Some([p] + ps)
      case (None, _) => None
      case (_, None) =>
        var i :| 0 <= i < |items[1..]| && DecodePattern(items[1..][i]).None?;
        assert DecodePattern(items[i + 1]).None?;
        None
  }

  // ----- lengths ------------------------------------------------------------

  /** Every declared length, pattern after pattern: `p.length` when it is an
      array, `[p.length]` otherwise (`flatMap`). */
  function FlatLengths(ps: seq<SourcePattern>): (r: seq<Json.Value>)
    ensures forall x :: x in r <==> exists i :: 0 <= i < |ps| && x in Json.AsList(ps[i].length)
  {
    if ps == [] then []
    else
      var r := Json.AsList(ps[0].length) + FlatLengths(ps[1..]);
      assert forall i :: 1 <= i < |ps| ==> ps[i] == ps[1..][i - 1];
      r
  }

  /** `lengths`: the distinct declared lengths, `sort`ed with `a - b`. */
  function SortedLengths(ps: seq<SourcePattern>): seq<Json.Value>
  {
    JsSort(Dedup(FlatLengths(ps)))
  }

  /** The lengths listed are exactly the declared ones, each once. When no
      declared length other than `undefined` converts to NaN they are in
      increasing numeric order, `undefined` last; when all are numbers they
      strictly increase. */
  lemma SortedLengthsSpec(ps: seq<SourcePattern>)
    ensures forall x :: x in SortedLengths(ps) <==> x in FlatLengths(ps)
    ensures forall i, j :: 0 <= i < j < |SortedLengths(ps)| ==> SortedLengths(ps)[i] != SortedLengths(ps)[j]
    ensures NoNaN(DefinedOnes(Dedup(FlatLengths(ps)))) ==> forall i, j :: 0 <= i < j < |SortedLengths(ps)| ==>
      (SortedLengths(ps)[i].Undefined? ==> SortedLengths(ps)[j].Undefined?)
      && (!SortedLengths(ps)[j].Undefined? ==> !Less(ToNumber(SortedLengths(ps)[j]), ToNumber(SortedLengths(ps)[i])))
    ensures (forall x :: x in FlatLengths(ps) ==> x.Num?) ==> forall i, j :: 0 <= i < j < |SortedLengths(ps)| ==>
      SortedLengths(ps)[i].Num? && SortedLengths(ps)[j].Num? && SortedLengths(ps)[i].n < SortedLengths(ps)[j].n
  {
    var d := Dedup(FlatLengths(ps));
    JsSortDistinct(d);
    if forall x :: x in FlatLengths(ps) ==> x.Num? {
      JsSortNumbersIncrease(d);
    }
  }

  // ----- BIN alternatives ---------------------------------------------------

  /** `s.replace(/^\^/, '')`: drops one leading '^'. */
  function StripCaret(s: string): (r: string)
    ensures |s| > 0 && s[0] == '^' ==> r == s[1..]
    ensures !(|s| > 0 && s[0] == '^') ==> r == s
  {
    if |s| > 0 && s[0] == '^' then s[1..] else s
  }

  function StripEach(xs: seq<string>): (r: seq<string>)
    ensures |r| == |xs|
    ensures forall i :: 0 <= i < |xs| ==> r[i] == StripCaret(xs[i])
  {
    if xs == [] then [] else [StripCaret(xs[0])] + StripEach(xs[1..])
  }

  /** The BIN alternatives of one pattern: its bin without a leading '^',
      split on '|', each piece without a leading '^'. */
  function BinAlternatives(bin: string): (r: seq<string>)
    ensures |r| > 0
    ensures forall i :: 0 <= i < |r| ==> '|' !in r[i]
  {
    StripEach(Split(StripCaret(bin), '|'))
  }

  /** The alternatives of every pattern, in order (`flatMap`). */
  function Alternatives(ps: seq<SourcePattern>): (r: seq<string>)
    ensures |ps| > 0 ==> |r| > 0
    ensures forall i :: 0 <= i < |r| ==> '|' !in r[i]
  {
    if ps == [] then [] else BinAlternatives(ps[0].bin) + Alternatives(ps[1..])
  }

  /** `allBins`: the alternatives joined with '|'. */
  function AllBins(ps: seq<SourcePattern>): string
  {
    Join(Alternatives(ps), "|")
  }

  /** Splitting `allBins` on '|' gives back the alternatives. */
  lemma AllBinsSplits(ps: seq<SourcePattern>)
    requires |ps| > 0
    ensures Split(AllBins(ps), '|') == Alternatives(ps)
  {
    SplitJoin(Alternatives(ps), '|');
  }

  // ----- extractPatternMetadata --------------------------------------------

  datatype Metadata = Metadata(binPattern: string, lengths: seq<Json.Value>, cvvLength: Json.Value)

  /** `extractPatternMetadata`; reading `patterns[0]` of an empty list
      throws, which is `None` here. */
  function ExtractPatternMetadata(ps: seq<SourcePattern>): (r: Option<Metadata>)
    ensures r.None? <==> ps == []
    ensures r.Some? ==> r.value.binPattern == "^(" + AllBins(ps) + ")"
    ensures r.Some? ==> r.value.lengths == SortedLengths(ps)
    ensures r.Some? ==> r.value.cvvLength == ps[0].cvvLength
  {
    if ps == [] then None
    else Some(Metadata("^(" + AllBins(ps) + ")", SortedLengths(ps), ps[0].cvvLength))
  }

  // ----- buildFullPattern ------------------------------------------------

  /** `^(?=.{lower}$)(?:bins)[0-9]*$`, or with `{lower,upper}`. */
  function FullPatternText(lower: string, upper: Option<string>, bins: string): string
  {
    match upper
    case None => "^(?=.{" + lower + "}$)(?:" + bins + ")[0-9]*$"
    case Some(u) => "^(?=.{" + lower + "," + u + "}$)(?:" + bins + ")[0-9]*$"
  }

  /** `buildFullPattern`: the bins behind a lookahead on `Math.min` and
      `Math.max` of the distinct declared lengths, written with `String()`;
      one bound when the two are `===`, both otherwise. */
  function BuildFullPattern(ps: seq<SourcePattern>): string
  {
    var ls := Dedup(FlatLengths(ps));
    var lo, hi := MathMin(ls), MathMax(ls);
    FullPatternText(NumberText(lo), if StrictEquals(lo, hi) then None else Some(NumberText(hi)), AllBins(ps))
  }

  /** The bounds of the full pattern's lookahead when they are integers:
      there is a declared length and every one converts to a finite number.
      They are then the least and the greatest converted length. */
  function LengthBounds(ps: seq<SourcePattern>): (r: Option<(int, int)>)
    ensures r.Some? <==> FlatLengths(ps) != [] && AllFinite(FlatLengths(ps))
    ensures r.Some? ==> r.value.0 <= r.value.1
    ensures r.Some? ==> exists x :: x in FlatLengths(ps) && ToNumber(x) == Finite(r.value.0)
    ensures r.Some? ==> exists x :: x in FlatLengths(ps) && ToNumber(x) == Finite(r.value.1)
    ensures r.Some? ==> forall x :: x in FlatLengths(ps) ==> r.value.0 <= ToNumber(x).v <= r.value.1
  {
    var fl := FlatLengths(ps);
    var ls := Dedup(fl);
    var lo, hi := MathMin(ls), MathMax(ls);
    FiniteBounds(ls);
    assert fl != [] ==> fl[0] in ls;
    if lo.Finite? && hi.Finite? then
      FiniteBoundsEnclose(ls);
      Some((lo.v, hi.v))
    else
      None
  }

  /** The full pattern is the lookahead on `LengthBounds` in front of the
      bins when those exist: one bound when they coincide, a range
      otherwise, so the interval admits every declared length (and the
      undeclared ones between). Without lengths it is `{Infinity,-Infinity}`,
      and a length that converts to NaN makes it `{NaN,NaN}`. */
  lemma BuildFullPatternSpec(ps: seq<SourcePattern>)
    ensures LengthBounds(ps).Some? ==>
      var (lo, hi) := LengthBounds(ps).value;
      BuildFullPattern(ps) == FullPatternText(IntToString(lo), if lo == hi then None else Some(IntToString(hi)), AllBins(ps))
    ensures FlatLengths(ps) == [] ==> BuildFullPattern(ps) == FullPatternText("Infinity", Some("-Infinity"), AllBins(ps))
    ensures HasNaN(FlatLengths(ps)) ==> BuildFullPattern(ps) == FullPatternText("NaN", Some("NaN"), AllBins(ps))
  {
    if LengthBounds(ps).Some? {
      FiniteWindow(ps);
    }
    if HasNaN(FlatLengths(ps)) {
      NaNWindow(ps);
    }
  }

  lemma FiniteWindow(ps: seq<SourcePattern>)
    requires LengthBounds(ps).Some?
    ensures var (lo, hi) := LengthBounds(ps).value;
      BuildFullPattern(ps) == FullPatternText(IntToString(lo), if lo == hi then None else Some(IntToString(hi)), AllBins(ps))
  {
  }

  lemma NaNWindow(ps: seq<SourcePattern>)
    requires HasNaN(FlatLengths(ps))
    ensures BuildFullPattern(ps) == FullPatternText("NaN", Some("NaN"), AllBins(ps))
  {
    var fl := FlatLengths(ps);
    var ls := Dedup(fl);
    var i :| 0 <= i < |fl| && ToNumber(fl[i]).NaN?;
    assert fl[i] in ls;
    var j :| 0 <= j < |ls| && ls[j] == fl[i];
    assert HasNaN(ls);
  }

  /** A pattern without a `length` gives the `{NaN,NaN}` window. */
  lemma MissingLengthWindow(ps: seq<SourcePattern>, k: nat)
    requires k < |ps| && ps[k].length.Undefined?
    ensures BuildFullPattern(ps) == FullPatternText("NaN", Some("NaN"), AllBins(ps))
  {
    var fl := FlatLengths(ps);
    assert Json.Undefined in Json.AsList(ps[k].length);
    assert Json.Undefined in fl;
    var j :| 0 <= j < |fl| && fl[j] == Json.Undefined;
    assert ToNumber(fl[j]).NaN?;
    BuildFullPatternSpec(ps);
  }

  /** A single `length` written as the decimal text of a number is read as
      that number. */
  lemma StringLengthWindow(p: SourcePattern, n: nat)
    requires p.length == Json.Str(NatToString(n))
    ensures BuildFullPattern([p]) == FullPatternText(NatToString(n), None, AllBins([p]))
  {
    var ps := [p];
    assert FlatLengths(ps) == [p.length] by {
      assert FlatLengths(ps[1..]) == [];
    }
    DecimalReadsBack(n, "", "");
    assert "" + NatToString(n) + "" == NatToString(n);
    assert ToNumber(p.length) == Finite(n);
    BuildFullPatternSpec(ps);
  }

  /** A `null` beside a positive length is read as 0. */
  lemma NullLengthWindow(p: SourcePattern, n: nat)
    requires n > 0 && p.length == Json.Arr([Json.Num(n), Json.Null])
    ensures BuildFullPattern([p]) == FullPatternText("0", Some(NatToString(n)), AllBins([p]))
  {
    var ps := [p];
    var fl := FlatLengths(ps);
    assert fl == [Json.Num(n), Json.Null] by {
      assert FlatLengths(ps[1..]) == [];
    }
    assert AllFinite(fl);
    var (lo, hi) := LengthBounds(ps).value;
    assert Json.Null in fl && Json.Num(n) in fl;
    assert lo <= 0 && n <= hi;
    var x :| x in fl && ToNumber(x) == Finite(lo);
    var y :| y in fl && ToNumber(y) == Finite(hi);
    assert x == Json.Null && y == Json.Num(n);
    FiniteWindow(ps);
    assert IntToString(0) == "0";
  }

  // ----- toSimplifiedFormat --------------------------------------------------

  /** The five fields of a simplified record, in the script's order. */
  function SimplifiedFields(schemeName: string, priorityOver: Json.Value, bin: string, full: string, cvv: string)
    : (fs: seq<Json.Field>)
    ensures Json.Keys(fs) == ["name", "priorityOver", "regexpBin", "regexpFull", "regexpCvv"]
    ensures Json.Lookup(fs, "name") == Json.Str(schemeName)
    ensures Json.Lookup(fs, "priorityOver") == priorityOver
    ensures Json.Lookup(fs, "regexpBin") == Json.Str(bin)
    ensures Json.Lookup(fs, "regexpFull") == Json.Str(full)
    ensures Json.Lookup(fs, "regexpCvv") == Json.Str(cvv)
  {
    var f0, f1, f2 := Json.Field("name", Json.Str(schemeName)), Json.Field("priorityOver", priorityOver), Json.Field("regexpBin", Json.Str(bin));
    var f3, f4 := Json.Field("regexpFull", Json.Str(full)), Json.Field("regexpCvv", Json.Str(cvv));
    var t4 := [f4];
    var t3 := [f3] + t4;
    var t2 := [f2] + t3;
    var t1 := [f1] + t2;
    var fs := [f0] + t1;
    assert Json.Lookup(fs, "name") == Json.Str(schemeName) by {
      Json.LookupCons(f0, t1, "name");
    }
    assert Json.Lookup(fs, "priorityOver") == priorityOver by {
      Json.LookupCons(f1, t2, "priorityOver");
      Json.LookupCons(f0, t1, "priorityOver");
    }
    assert Json.Lookup(fs, "regexpBin") == Json.Str(bin) by {
      Json.LookupCons(f2, t3, "regexpBin");
      Json.LookupCons(f1, t2, "regexpBin");
      Json.LookupCons(f0, t1, "regexpBin");
    }
    assert Json.Lookup(fs, "regexpFull") == Json.Str(full) by {
      Json.LookupCons(f3, t4, "regexpFull");
      Json.LookupCons(f2, t3, "regexpFull");
      Json.LookupCons(f1, t2, "regexpFull");
      Json.LookupCons(f0, t1, "regexpFull");
    }
    assert Json.Lookup(fs, "regexpCvv") == Json.Str(cvv) by {
      Json.LookupCons(f4, [], "regexpCvv");
      Json.LookupCons(f3, t4, "regexpCvv");
      Json.LookupCons(f2, t3, "regexpCvv");
      Json.LookupCons(f1, t2, "regexpCvv");
      Json.LookupCons(f0, t1, "regexpCvv");
    }
    assert Json.Keys(fs) == ["name", "priorityOver", "regexpBin", "regexpFull", "regexpCvv"] by {
      assert forall i :: 0 <= i < 5 ==> Json.Keys(fs)[i] == fs[i].key;
    }
    fs
  }

  /** `toSimplifiedFormat`: the catalog record of one brand, or `None` where
      the script throws: `patterns` is not an array, is empty, or has an
      entry whose `bin` is not a string. */
  function ToSimplifiedFormat(source: Json.Value, schemeName: string): Option<Json.Value>
  {
    match DecodePatterns(Json.Get(source, "patterns"))
    case None => None
    case Some(ps) =>
      match ExtractPatternMetadata(ps)
      case None => None
      case Some(md) =>
        Some(Json.Obj(SimplifiedFields(schemeName, Json.Or(Json.Get(source, "priorityOver"), Json.Arr([])),
          md.binPattern, BuildFullPattern(ps), Catalog.CvvPatternText(Json.ToJsString(md.cvvLength)))))
  }

  /** The simplified record exists exactly for a non-empty `patterns` array
      whose entries all have a string `bin`, whatever their `length`; its
      BIN pattern wraps all alternatives and its full pattern is
      `BuildFullPattern` of the patterns. */
  lemma ToSimplifiedFormatSpec(source: Json.Value, schemeName: string)
    ensures var ps := DecodePatterns(Json.Get(source, "patterns"));
      ToSimplifiedFormat(source, schemeName).Some? <==> ps.Some? && |ps.value| > 0
    ensures ToSimplifiedFormat(source, schemeName).Some? ==>
      var ps := DecodePatterns(Json.Get(source, "patterns")).value;
      var fs := ToSimplifiedFormat(source, schemeName).value.fields;
      && Json.Keys(fs) == ["name", "priorityOver", "regexpBin", "regexpFull", "regexpCvv"]
      && Json.Lookup(fs, "name") == Json.Str(schemeName)
      && Json.Lookup(fs, "priorityOver") == Json.Or(Json.Get(source, "priorityOver"), Json.Arr([]))
      && Json.Lookup(fs, "regexpBin") == Json.Str("^(" + AllBins(ps) + ")")
      && Json.Lookup(fs, "regexpFull") == Json.Str(BuildFullPattern(ps))
      && Json.Lookup(fs, "regexpCvv") == Json.Str(Catalog.CvvPatternText(Json.ToJsString(ps[0].cvvLength)))
  {
  }

  /** For a `cvvLength` that is a number n >= 0, the CVV pattern written is
      `^\d{n}$`, which every runtime port reads back as "n digits". */
  lemma SimplifiedCvvReadsBack(n: nat)
    ensures Catalog.CvvPatternText(Json.ToJsString(Json.Num(n))) == Catalog.CvvPattern(n)
    ensures Catalog.ParseCvvPattern(Catalog.CvvPatternText(Json.ToJsString(Json.Num(n)))) == Some(n)
  {
    Catalog.ParseCvvPatternRoundTrip(n);
  }

  // ----- toDetailedFormat ---------------------------------------------------

  const StandardSourceFields: seq<string> := ["scheme", "brand", "patterns", "type", "countries", "bins", "priorityOver"]
  const StandardBinFields: seq<string> := ["bin", "type", "category", "issuer", "countries"]

  function StrArray(xs: seq<string>): (r: seq<Json.Value>)
    ensures |r| == |xs|
    ensures forall i :: 0 <= i < |xs| ==> r[i] == Json.Str(xs[i])
  {
    if xs == [] then [] else [Json.Str(xs[0])] + StrArray(xs[1..])
  }

  /** `metadata.sourceFile`: the file name for one file, the array otherwise. */
  function SourceFile(sourceFiles: seq<string>): (r: Json.Value)
    ensures |sourceFiles| == 1 ==> r == Json.Str(sourceFiles[0])
    ensures |sourceFiles| != 1 ==> r.Arr? && |r.items| == |sourceFiles|
    ensures |sourceFiles| != 1 ==> forall i :: 0 <= i < |sourceFiles| ==> r.items[i] == Json.Str(sourceFiles[i])
  {
    if |sourceFiles| == 1 then Json.Str(sourceFiles[0]) else Json.Arr(StrArray(sourceFiles))
  }

  /** The own fields of a value, as `Object.entries` lists them for an object. */
  function Entries(v: Json.Value): seq<Json.Field>
  {
    if v.Obj? then v.fields else []
  }

  /** One entry of the detailed `bins`: the standard fields with `null` for
      the missing ones, then the entry's other fields. */
  function DetailedBin(b: Json.Value): Json.Value
  {
    Json.Obj(Json.Spread([
      Json.Field("bin", Json.Get(b, "bin")),
      Json.Field("type", Json.Or(Json.Get(b, "type"), Json.Null)),
      Json.Field("category", Json.Or(Json.Get(b, "category"), Json.Null)),
      Json.Field("issuer", Json.Or(Json.Get(b, "issuer"), Json.Null)),
      Json.Field("countries", Json.Or(Json.Get(b, "countries"), Json.Null))],
      Json.WithoutKeys(Entries(b), StandardBinFields)))
  }

  function DetailedBins(bs: seq<Json.Value>): (r: seq<Json.Value>)
    ensures |r| == |bs|
    ensures forall i :: 0 <= i < |bs| ==> r[i] == DetailedBin(bs[i])
  {
    if bs == [] then [] else [DetailedBin(bs[0])] + DetailedBins(bs[1..])
  }

  /** The keys of the standard fields of a detailed record, in the script's
      order. */
  const DetailedKeys: seq<string> :=
    ["scheme", "brand", "type", "priorityOver", "number", "cvv", "patterns", "countries", "metadata"]

  lemma DetailedKeysDistinct()
    ensures forall i, j :: 0 <= i < j < |DetailedKeys| ==> DetailedKeys[i] != DetailedKeys[j]
    ensures "bins" !in DetailedKeys
  {
  }

  /** The nine standard fields of a detailed record, in the script's order. */
  function DetailedFields(scheme: Json.Value, brand: Json.Value, typ: Json.Value, priorityOver: Json.Value,
                          number: Json.Value, cvv: Json.Value, patterns: Json.Value, countries: Json.Value,
                          metadata: Json.Value): (fs: seq<Json.Field>)
    ensures Json.Keys(fs) == DetailedKeys
    ensures Json.Lookup(fs, "scheme") == scheme
    ensures Json.Lookup(fs, "brand") == brand
    ensures Json.Lookup(fs, "type") == typ
    ensures Json.Lookup(fs, "priorityOver") == priorityOver
    ensures Json.Lookup(fs, "number") == number
    ensures Json.Lookup(fs, "cvv") == cvv
    ensures Json.Lookup(fs, "patterns") == patterns
    ensures Json.Lookup(fs, "countries") == countries
    ensures Json.Lookup(fs, "metadata") == metadata
    ensures !Json.HasKey(fs, "bins")
  {
    var vs := [scheme, brand, typ, priorityOver, number, cvv, patterns, countries, metadata];
    var fs := Json.Zip(DetailedKeys, vs);
    DetailedKeysDistinct();
    forall i | 0 <= i < 9 ensures Json.Lookup(fs, DetailedKeys[i]) == vs[i] {
      Json.LookupZip(DetailedKeys, vs, i);
    }
    assert DetailedKeys[0] == "scheme" && DetailedKeys[1] == "brand" && DetailedKeys[2] == "type";
    assert DetailedKeys[3] == "priorityOver" && DetailedKeys[4] == "number" && DetailedKeys[5] == "cvv";
    assert DetailedKeys[6] == "patterns" && DetailedKeys[7] == "countries" && DetailedKeys[8] == "metadata";
    assert Json.Keys(fs) == DetailedKeys;
    Json.HasKeyKeys(fs, "bins");
    fs
  }

  /** The fields `toDetailedFormat` writes before the custom ones. */
  function DetailedBase(source: Json.Value, schemeName: string, sourceFiles: seq<string>, ps: seq<SourcePattern>, md: Metadata)
    : seq<Json.Field>
    requires |ps| > 0
  {
    DetailedFields(
      Json.Str(schemeName),
      Json.Get(source, "brand"),
      Json.Or(Json.Get(source, "type"), Json.Str("credit")),
      Json.Or(Json.Get(source, "priorityOver"), Json.Arr([])),
      Json.Obj([Json.Field("lengths", Json.Arr(md.lengths)), Json.Field("luhn", ps[0].luhn)]),
      Json.Obj([Json.Field("length", md.cvvLength)]),
      Json.Get(source, "patterns"),
      Json.Or(Json.Get(source, "countries"), Json.Arr([])),
      Json.Obj([Json.Field("sourceFile", SourceFile(sourceFiles))]))
  }

  /** `source.bins?.length > 0`, the `length` converted to a number. */
  predicate HasBins(source: Json.Value)
  {
    Positive(ToNumber(Json.Get(Json.Get(source, "bins"), "length")))
  }

  /** Some entry of the array is `null` or `undefined`, on which `b.bin`
      throws. */
  predicate AnyAbsent(bs: seq<Json.Value>)
  {
    exists i :: 0 <= i < |bs| && (bs[i].Null? || bs[i].Undefined?)
  }

  /** The detailed record before `bins`: the standard fields, then every
      non-standard source field spread over them. */
  function DetailedRecord(source: Json.Value, schemeName: string, sourceFiles: seq<string>, ps: seq<SourcePattern>, md: Metadata)
    : seq<Json.Field>
    requires |ps| > 0
  {
    Json.Spread(DetailedBase(source, schemeName, sourceFiles, ps, md), Json.WithoutKeys(Entries(source), StandardSourceFields))
  }

  /** A standard source field reads as the base writes it (no source field
      can override it), and `bins` is absent. */
  lemma DetailedRecordStandard(source: Json.Value, schemeName: string, sourceFiles: seq<string>, ps: seq<SourcePattern>, md: Metadata)
    requires |ps| > 0
    ensures var d := DetailedRecord(source, schemeName, sourceFiles, ps, md);
      && Json.Lookup(d, "scheme") == Json.Str(schemeName)
      && Json.Lookup(d, "brand") == Json.Get(source, "brand")
      && Json.Lookup(d, "type") == Json.Or(Json.Get(source, "type"), Json.Str("credit"))
      && Json.Lookup(d, "priorityOver") == Json.Or(Json.Get(source, "priorityOver"), Json.Arr([]))
      && Json.Lookup(d, "countries") == Json.Or(Json.Get(source, "countries"), Json.Arr([]))
      && Json.Lookup(d, "patterns") == Json.Get(source, "patterns")
      && !Json.HasKey(d, "bins")
  {
    var base := DetailedBase(source, schemeName, sourceFiles, ps, md);
    SpreadStandard(base, source, "scheme");
    SpreadStandard(base, source, "brand");
    SpreadStandard(base, source, "type");
    SpreadStandard(base, source, "priorityOver");
    SpreadStandard(base, source, "countries");
    SpreadStandard(base, source, "patterns");
    SpreadStandard(base, source, "bins");
  }

  /** Spreading the non-standard fields of a source leaves a standard key
      as it was. */
  lemma SpreadStandard(base: seq<Json.Field>, source: Json.Value, s: string)
    requires s in StandardSourceFields
    ensures var extra := Json.WithoutKeys(Entries(source), StandardSourceFields);
      && Json.Lookup(Json.Spread(base, extra), s) == Json.Lookup(base, s)
      && (Json.HasKey(Json.Spread(base, extra), s) <==> Json.HasKey(base, s))
  {
    Json.SpreadKeeps(base, Json.WithoutKeys(Entries(source), StandardSourceFields), s);
  }

  /** A non-standard source field reads as in the source, even where its
      name is `number`, `cvv` or `metadata` and it so replaces the computed
      field. */
  lemma DetailedRecordCustom(source: Json.Value, schemeName: string, sourceFiles: seq<string>, ps: seq<SourcePattern>, md: Metadata, k: string)
    requires |ps| > 0
    requires Json.DistinctKeys(Entries(source))
    requires k !in StandardSourceFields && Json.HasKey(Entries(source), k)
    ensures Json.Lookup(DetailedRecord(source, schemeName, sourceFiles, ps, md), k) == Json.Get(source, k)
  {
    var base := DetailedBase(source, schemeName, sourceFiles, ps, md);
    var extra := Json.WithoutKeys(Entries(source), StandardSourceFields);
    Json.WithoutKeysLookup(Entries(source), StandardSourceFields, k);
    Json.WithoutKeysDistinct(Entries(source), StandardSourceFields);
    Json.SpreadOverrides(base, extra, k);
  }

  /** Without a custom field of that name, `metadata.sourceFile` is the one
      file name for a single file and the array of names otherwise. */
  lemma DetailedSourceFile(source: Json.Value, schemeName: string, sourceFiles: seq<string>, ps: seq<SourcePattern>, md: Metadata)
    requires |ps| > 0
    requires !Json.HasKey(Entries(source), "metadata")
    ensures Json.Lookup(DetailedRecord(source, schemeName, sourceFiles, ps, md), "metadata")
      == Json.Obj([Json.Field("sourceFile", SourceFile(sourceFiles))])
  {
    var base := DetailedBase(source, schemeName, sourceFiles, ps, md);
    var extra := Json.WithoutKeys(Entries(source), StandardSourceFields);
    assert "metadata" !in StandardSourceFields;
    Json.WithoutKeysLookup(Entries(source), StandardSourceFields, "metadata");
    assert !Json.HasKey(extra, "metadata");
    Json.SpreadKeeps(base, extra, "metadata");
  }

  /** `toDetailedFormat`: `None` where the script throws, that is where
      `toSimplifiedFormat` does, for a `bins` with a positive `length` that
      is not an array, and for a `null` or `undefined` entry of such an
      array. */
  function ToDetailedFormat(source: Json.Value, schemeName: string, sourceFiles: seq<string>): Option<Json.Value>
  {
    match DecodePatterns(Json.Get(source, "patterns"))
    case None => None
    case Some(ps) =>
      match ExtractPatternMetadata(ps)
      case None => None
      case Some(md) =>
        var detailed := DetailedRecord(source, schemeName, sourceFiles, ps, md);
        var bins := Json.Get(source, "bins");
        if !HasBins(source) then Some(Json.Obj(detailed))
        else if bins.Arr? && !AnyAbsent(bins.items) then
          Some(Json.Obj(Json.Put(detailed, "bins", Json.Arr(DetailedBins(bins.items)))))
        else None
  }

  /** The detailed record exists exactly when the patterns decode to a
      non-empty list, whatever their lengths, and `bins`, when it has a
      positive length, is an array without `null` or `undefined` entries. */
  lemma ToDetailedFormatDefined(source: Json.Value, schemeName: string, sourceFiles: seq<string>)
    ensures ToDetailedFormat(source, schemeName, sourceFiles).None? <==>
      var ps := DecodePatterns(Json.Get(source, "patterns"));
      var bins := Json.Get(source, "bins");
      ps.None? || |ps.value| == 0 || (HasBins(source) && (!bins.Arr? || AnyAbsent(bins.items)))
  {
  }

  /** The detailed record is `DetailedRecord` plus `bins` exactly when the
      source has a non-empty bins array, each entry mapped by `DetailedBin`. */
  lemma ToDetailedFormatBins(source: Json.Value, schemeName: string, sourceFiles: seq<string>, ps: seq<SourcePattern>, md: Metadata)
    requires DecodePatterns(Json.Get(source, "patterns")) == Some(ps)
    requires ExtractPatternMetadata(ps) == Some(md)
    requires HasBins(source) ==> Json.Get(source, "bins").Arr? && !AnyAbsent(Json.Get(source, "bins").items)
    ensures ToDetailedFormat(source, schemeName, sourceFiles).Some?
    ensures ToDetailedFormat(source, schemeName, sourceFiles).value.Obj?
    ensures var d := ToDetailedFormat(source, schemeName, sourceFiles).value.fields;
      && (Json.HasKey(d, "bins") <==> HasBins(source))
      && (forall j :: j != "bins" ==> Json.Lookup(d, j) == Json.Lookup(DetailedRecord(source, schemeName, sourceFiles, ps, md), j))
      && (HasBins(source) ==> Json.Lookup(d, "bins") == Json.Arr(DetailedBins(Json.Get(source, "bins").items)))
  {
    var detailed := DetailedRecord(source, schemeName, sourceFiles, ps, md);
    DetailedRecordStandard(source, schemeName, sourceFiles, ps, md);
    if HasBins(source) {
      var b := Json.Arr(DetailedBins(Json.Get(source, "bins").items));
      assert ToDetailedFormat(source, schemeName, sourceFiles) == Some(Json.Obj(Json.Put(detailed, "bins", b)));
      Json.PutHasKey(detailed, "bins", b, "bins");
    } else {
      assert ToDetailedFormat(source, schemeName, sourceFiles) == Some(Json.Obj(detailed));
    }
  }
}
