/** scripts/lib/source-reader.js, `mergeSources`: several source files of
    one brand merged into a single record. A source is a parsed JSON value;
    reading a property of `null` or `undefined`, and iterating something that
    is not an array, throws, which the model reports as `None`. */
module SourceReader {
  import opened Text
  import opened Json
  import JsNumber

  /** `null` and `undefined`, whose properties cannot be read. */
  predicate Absent(v: Value)
  {
    v.Null? || v.Undefined?
  }

  /** Some element is `null` or `undefined`. */
  predicate AnyAbsent(vs: seq<Value>)
  {
    exists i :: 0 <= i < |vs| && Absent(vs[i])
  }

  /** Some source has a truthy `countries` that is not an array. */
  predicate AnyBadCountries(ss: seq<Value>)
  {
    exists i :: 0 <= i < |ss| && CountriesOf(ss[i]).None?
  }

  /** `s.patterns && s.patterns.length > 0`: the source declares patterns;
      `>` converts the `length` value to a number first. */
  predicate HasPatterns(s: Value)
  {
    Truthy(Get(s, "patterns"))
    && JsNumber.Positive(JsNumber.ToNumber(Get(Get(s, "patterns"), "length")))
  }

  /** The `length > 0` test converts before comparing: an array or a string
      of patterns counts when non-empty, and an object's `length` field
      counts when it is the text of a positive number or an array holding
      that number alone. */
  lemma HasPatternsConverts(s: Value, n: nat)
    ensures Get(s, "patterns").Arr? ==> (HasPatterns(s) <==> |Get(s, "patterns").items| > 0)
    ensures Get(s, "patterns").Str? ==> (HasPatterns(s) <==> |Get(s, "patterns").s| > 0)
    ensures Get(s, "patterns").Obj? && Get(Get(s, "patterns"), "length") == Str(NatToString(n)) ==>
      (HasPatterns(s) <==> n > 0)
    ensures Get(s, "patterns").Obj? && Get(Get(s, "patterns"), "length") == Arr([Num(n)]) ==>
      (HasPatterns(s) <==> n > 0)
  {
    JsNumber.DigitsToNumber(n);
  }

  /** The index of the first source with patterns, if any. */
  function FirstWithPatterns(ss: seq<Value>): (r: Option<nat>)
    ensures r.Some? ==> r.value < |ss| && HasPatterns(ss[r.value])
    ensures r.Some? ==> forall j :: 0 <= j < r.value ==> !HasPatterns(ss[j])
    ensures r.None? ==> forall j :: 0 <= j < |ss| ==> !HasPatterns(ss[j])
  {
    if ss == [] then None
    else
      var f := FirstWithPatterns(ss[..|ss| - 1]);
      assert forall j :: 0 <= j < |ss| - 1 ==> ss[..|ss| - 1][j] == ss[j];
      if f.Some? then f
      else if HasPatterns(ss[|ss| - 1]) then Some(|ss| - 1)
      else None
  }

  /** `baseSources[0] || sources[0]`: the base source's index. */
  function BaseIndex(ss: seq<Value>): nat
  {
    match FirstWithPatterns(ss)
    case Some(i) => i
    case None => 0
  }

  /** The elements `flatMap(s => s.patterns)` takes from a source kept by
      `filter(s => s.patterns)`. */
  function PatternsOf(s: Value): seq<Value>
  {
    var p := Get(s, "patterns");
    if Truthy(p) then AsList(p) else []
  }

  /** The elements `flatMap(s => s.bins || [])` takes from a source. */
  function BinsOf(s: Value): seq<Value>
  {
    var b := Get(s, "bins");
    if Truthy(b) then AsList(b) else []
  }

  /** The countries `s.countries.forEach` visits when `s.countries` is truthy;
      `None` when it is truthy but not an array, so that the call throws. */
  function CountriesOf(s: Value): Option<seq<Value>>
  {
    var c := Get(s, "countries");
    if !Truthy(c) then Some([])
    else if c.Arr? then Some(c.items)
    else None
  }

  /** All sources' patterns in order. */
  function FlatPatterns(ss: seq<Value>): seq<Value>
  {
    if ss == [] then [] else FlatPatterns(ss[..|ss| - 1]) + PatternsOf(ss[|ss| - 1])
  }

  /** All sources' bin entries in order. */
  function FlatBins(ss: seq<Value>): seq<Value>
  {
    if ss == [] then [] else FlatBins(ss[..|ss| - 1]) + BinsOf(ss[|ss| - 1])
  }

  /** All sources' countries in order, or `None` when one of them has a
      truthy `countries` that is not an array. */
  function FlatCountries(ss: seq<Value>): Option<seq<Value>>
  {
    if ss == [] then Some([])
    else match (FlatCountries(ss[..|ss| - 1]), CountriesOf(ss[|ss| - 1]))
      case (Some(a), Some(b)) => Some(a + b)
      case _ => None
  }

  /** The deduplication key of a bin entry: its `bin` property. */
  function BinKey(b: Value): Value
  {
    Get(b, "bin")
  }

  /** The merged record: scheme, brand, type, countries, patterns and, when
      any bin survives, bins, in that order. */
  function Merged(base: Value, schemeName: string, countries: seq<Value>, patterns: seq<Value>, bins: seq<Value>): Value
  {
    Obj([Field("scheme", Or(Get(base, "scheme"), Str(schemeName))),
         Field("brand", Get(base, "brand")),
         Field("type", Get(base, "type")),
         Field("countries", Arr(countries)),
         Field("patterns", Arr(patterns))]
        + (if |bins| > 0 then [Field("bins", Arr(bins))] else []))
  }

  /** What `mergeSources(sources, schemeName)` returns, or `None` where it
      throws. */
  function MergeSpec(ss: seq<Value>, schemeName: string): Option<Value>
  {
    if |ss| == 1 then Some(ss[0])
    else if |ss| == 0 || AnyAbsent(ss) then None
    else if AnyAbsent(FlatBins(ss)) then None
    else
      var base := ss[BaseIndex(ss)];
      match (CountriesOf(base), FlatCountries(ss))
      case (Some(bc), Some(fc)) =>
        Some(Merged(base, schemeName, Dedup(bc + fc), Dedup(FlatPatterns(ss)), DedupBy(FlatBins(ss), BinKey, {})))
      case _ => None
  }

  /** Once one source's countries cannot be iterated, the whole list
      cannot. */
  lemma {:induction false} FlatCountriesNone(ss: seq<Value>, k: nat)
    requires k <= |ss| && FlatCountries(ss[..k]).None?
    ensures FlatCountries(ss).None?
    decreases |ss| - k
  {
    if k == |ss| {
      assert ss[..k] == ss;
    } else {
      assert ss[..k + 1][..k] == ss[..k];
      FlatCountriesNone(ss, k + 1);
    }
  }

  /** `sources.filter(s => s.patterns && s.patterns.length > 0)`, which
      reads a property of every source: `None` when one of them is `null` or
      `undefined`, else the index of the first source with patterns. */
  method ScanSources(ss: seq<Value>) returns (r: Option<Option<nat>>)
    ensures r.None? <==> AnyAbsent(ss)
    ensures r.Some? ==> r.value == FirstWithPatterns(ss)
  {
    var first: Option<nat> := None;
    var i := 0;
    while i < |ss|
      invariant 0 <= i <= |ss|
      invariant forall j :: 0 <= j < i ==> !Absent(ss[j])
      invariant first == FirstWithPatterns(ss[..i])
    {
      assert ss[..i + 1][..i] == ss[..i];
      if Absent(ss[i]) {
        return None;
      }
      if first.None? && HasPatterns(ss[i]) {
        first := Some(i);
      }
      i := i + 1;
    }
    assert ss[..|ss|] == ss;
    return Some(first);
  }

  /** The `flatMap` over the patterns and over the bins of all sources. */
  method Flatten(ss: seq<Value>) returns (patterns: seq<Value>, bins: seq<Value>)
    ensures patterns == FlatPatterns(ss) && bins == FlatBins(ss)
  {
    patterns := [];
    bins := [];
    var i := 0;
    while i < |ss|
      invariant 0 <= i <= |ss|
      invariant patterns == FlatPatterns(ss[..i])
      invariant bins == FlatBins(ss[..i])
    {
      assert ss[..i + 1][..i] == ss[..i];
      patterns := patterns + PatternsOf(ss[i]);
      bins := bins + BinsOf(ss[i]);
      i := i + 1;
    }
    assert ss[..|ss|] == ss;
  }

  /** Whether `b.bin` can be read on every bin entry. */
  method AllPresent(bins: seq<Value>) returns (ok: bool)
    ensures ok <==> forall j :: 0 <= j < |bins| ==> !Absent(bins[j])
  {
    var i := 0;
    while i < |bins|
      invariant 0 <= i <= |bins|
      invariant forall j :: 0 <= j < i ==> !Absent(bins[j])
    {
      if Absent(bins[i]) {
        return false;
      }
      i := i + 1;
    }
    return true;
  }

  /** `new Set(base.countries || [])` followed by `s.countries.forEach` for
      each source, before duplicates are dropped: the base's countries, then
      every source's. */
  method CollectCountries(ss: seq<Value>, bc: seq<Value>) returns (r: Option<seq<Value>>)
    ensures FlatCountries(ss).None? ==> r.None?
    ensures FlatCountries(ss).Some? ==> r == Some(bc + FlatCountries(ss).value)
  {
    var countries := bc;
    var i := 0;
    assert ss[..0] == [] && countries[|bc|..] == [];
    while i < |ss|
      invariant 0 <= i <= |ss|
      invariant |bc| <= |countries| && countries[..|bc|] == bc
      invariant FlatCountries(ss[..i]) == Some(countries[|bc|..])
    {
      assert ss[..i + 1][..i] == ss[..i];
      var c := CountriesOf(ss[i]);
      if c.None? {
        assert FlatCountries(ss[..i + 1]).None?;
        FlatCountriesNone(ss, i + 1);
        return None;
      }
      assert (countries + c.value)[|bc|..] == countries[|bc|..] + c.value;
      countries := countries + c.value;
      i := i + 1;
    }
    assert ss[..|ss|] == ss;
    assert countries == bc + countries[|bc|..];
    return Some(countries);
  }

  /** The countries of all sources can be listed exactly when no source has
      a truthy `countries` that is not an array. */
  lemma {:induction false} FlatCountriesFail(ss: seq<Value>)
    ensures FlatCountries(ss).None? <==> AnyBadCountries(ss)
  {
    if ss != [] {
      var init := ss[..|ss| - 1];
      FlatCountriesFail(init);
      if AnyBadCountries(init) {
        var i :| 0 <= i < |init| && CountriesOf(init[i]).None?;
        assert ss[i] == init[i];
      }
      if AnyBadCountries(ss) {
        var i :| 0 <= i < |ss| && CountriesOf(ss[i]).None?;
        if i < |init| {
          assert init[i] == ss[i];
          assert AnyBadCountries(init);
        }
      }
    }
  }

  /** `mergeSources` throws exactly when there is not a single source and
      there are none, or a source is `null` or `undefined`, or a bin entry
      is, or some source's `countries` is truthy but not an array. */
  lemma MergeFails(ss: seq<Value>, schemeName: string)
    ensures MergeSpec(ss, schemeName).None? <==>
      |ss| != 1 && (|ss| == 0 || AnyAbsent(ss) || AnyAbsent(FlatBins(ss)) || AnyBadCountries(ss))
  {
    FlatCountriesFail(ss);
    if |ss| > 1 && !AnyAbsent(ss) && !AnyAbsent(FlatBins(ss)) {
      var k := BaseIndex(ss);
      assert k < |ss|;
      if CountriesOf(ss[k]).None? {
        assert AnyBadCountries(ss);
      }
    }
  }

  /** `mergeSources`. */
  method MergeSources(ss: seq<Value>, schemeName: string) returns (r: Option<Value>)
    ensures |ss| == 1 ==> r == Some(ss[0])
    ensures r == MergeSpec(ss, schemeName)
  {
    if |ss| == 1 {
      return Some(ss[0]);
    }
    var scan := ScanSources(ss);
    if scan.None? || |ss| == 0 {
      return None;
    }
    var base := if scan.value.Some? then ss[scan.value.value] else ss[0];
    assert base == ss[BaseIndex(ss)];
    var patterns, bins := Flatten(ss);
    patterns := FirstOccurrences(patterns, Id);
    var present := AllPresent(bins);
    if !present {
      return None;
    }
    bins := FirstOccurrences(bins, BinKey);
    var bc := CountriesOf(base);
    if bc.None? {
      return None;
    }
    var all := CollectCountries(ss, bc.value);
    if all.None? {
      return None;
    }
    var countries := FirstOccurrences(all.value, Id);
    r := Some(Merged(base, schemeName, countries, patterns, bins));
  }

  /** The keys of the merged record, and what each of them reads. */
  lemma MergedFields(base: Value, schemeName: string, cs: seq<Value>, ps: seq<Value>, bs: seq<Value>)
    ensures Merged(base, schemeName, cs, ps, bs).Obj?
    ensures var fs := Merged(base, schemeName, cs, ps, bs).fields;
      && Keys(fs) == ["scheme", "brand", "type", "countries", "patterns"] + (if |bs| > 0 then ["bins"] else [])
      && Lookup(fs, "scheme") == Or(Get(base, "scheme"), Str(schemeName))
      && Lookup(fs, "brand") == Get(base, "brand")
      && Lookup(fs, "type") == Get(base, "type")
      && Lookup(fs, "countries") == Arr(cs)
      && Lookup(fs, "patterns") == Arr(ps)
      && (HasKey(fs, "bins") <==> |bs| > 0)
      && (|bs| > 0 ==> Lookup(fs, "bins") == Arr(bs))
  {
    MergedKeys(base, schemeName, cs, ps, bs);
    MergedLookups(base, schemeName, cs, ps, bs);
    if |bs| > 0 {
      MergedBinsField(base, schemeName, cs, ps, bs);
    }
  }

  /** The merged record's fields, one cons at a time. */
  lemma MergedCons(base: Value, schemeName: string, cs: seq<Value>, ps: seq<Value>, bs: seq<Value>)
    ensures Merged(base, schemeName, cs, ps, bs).fields ==
      [Field("scheme", Or(Get(base, "scheme"), Str(schemeName)))] + ([Field("brand", Get(base, "brand"))]
      + ([Field("type", Get(base, "type"))] + ([Field("countries", Arr(cs))] + ([Field("patterns", Arr(ps))]
      + (if |bs| > 0 then [Field("bins", Arr(bs))] else [])))))
  {
  }

  lemma MergedKeys(base: Value, schemeName: string, cs: seq<Value>, ps: seq<Value>, bs: seq<Value>)
    ensures Merged(base, schemeName, cs, ps, bs).Obj?
    ensures var fs := Merged(base, schemeName, cs, ps, bs).fields;
      && Keys(fs) == ["scheme", "brand", "type", "countries", "patterns"] + (if |bs| > 0 then ["bins"] else [])
      && (HasKey(fs, "bins") <==> |bs| > 0)
  {
    var fs := Merged(base, schemeName, cs, ps, bs).fields;
    if |bs| > 0 {
      assert fs[5].key == "bins";
    }
    assert Keys(fs) == ["scheme", "brand", "type", "countries", "patterns"] + (if |bs| > 0 then ["bins"] else []) by {
      assert forall i :: 0 <= i < |fs| ==> Keys(fs)[i] == fs[i].key;
    }
    HasKeyKeys(fs, "bins");
  }

  lemma MergedLookups(base: Value, schemeName: string, cs: seq<Value>, ps: seq<Value>, bs: seq<Value>)
    ensures var fs := Merged(base, schemeName, cs, ps, bs).fields;
      && Lookup(fs, "scheme") == Or(Get(base, "scheme"), Str(schemeName))
      && Lookup(fs, "brand") == Get(base, "brand")
      && Lookup(fs, "type") == Get(base, "type")
      && Lookup(fs, "countries") == Arr(cs)
      && Lookup(fs, "patterns") == Arr(ps)
  {
    var f0, f1, f2 := Field("scheme", Or(Get(base, "scheme"), Str(schemeName))), Field("brand", Get(base, "brand")), Field("type", Get(base, "type"));
    var f3, f4 := Field("countries", Arr(cs)), Field("patterns", Arr(ps));
    var t5: seq<Field> := if |bs| > 0 then [Field("bins", Arr(bs))] else [];
    var t4 := [f4] + t5;
    var t3 := [f3] + t4;
    var t2 := [f2] + t3;
    var t1 := [f1] + t2;
    MergedCons(base, schemeName, cs, ps, bs);
    LookupCons(f0, t1, "scheme");
    LookupCons(f0, t1, "brand");
    LookupCons(f1, t2, "brand");
    LookupCons(f0, t1, "type");
    LookupCons(f1, t2, "type");
    LookupCons(f2, t3, "type");
    LookupCons(f0, t1, "countries");
    LookupCons(f1, t2, "countries");
    LookupCons(f2, t3, "countries");
    LookupCons(f3, t4, "countries");
    LookupCons(f0, t1, "patterns");
    LookupCons(f1, t2, "patterns");
    LookupCons(f2, t3, "patterns");
    LookupCons(f3, t4, "patterns");
    LookupCons(f4, t5, "patterns");
  }

  lemma MergedBinsField(base: Value, schemeName: string, cs: seq<Value>, ps: seq<Value>, bs: seq<Value>)
    requires |bs| > 0
    ensures Lookup(Merged(base, schemeName, cs, ps, bs).fields, "bins") == Arr(bs)
  {
    var f0, f1, f2 := Field("scheme", Or(Get(base, "scheme"), Str(schemeName))), Field("brand", Get(base, "brand")), Field("type", Get(base, "type"));
    var f3, f4 := Field("countries", Arr(cs)), Field("patterns", Arr(ps));
    var t5: seq<Field> := [Field("bins", Arr(bs))];
    var t4 := [f4] + t5;
    var t3 := [f3] + t4;
    var t2 := [f2] + t3;
    var t1 := [f1] + t2;
    MergedCons(base, schemeName, cs, ps, bs);
    LookupCons(Field("bins", Arr(bs)), [], "bins");
    LookupCons(f4, t5, "bins");
    LookupCons(f3, t4, "bins");
    LookupCons(f2, t3, "bins");
    LookupCons(f1, t2, "bins");
    LookupCons(f0, t1, "bins");
  }

  /** Deduplication keeps exactly the distinct elements, each at its first
      occurrence. */
  lemma DedupFirst(xs: seq<Value>)
    ensures Dedup(xs) == FirstByKey(xs, Id)
  {
    DedupByIsFirstByKey(xs, Id);
  }

  /** With more than one source, a merge that succeeds takes scheme, brand
      and type from the base, the first source with patterns (else the
      first source), and sets `bins` exactly when some source has a bin
      entry. */
  lemma MergedRecord(ss: seq<Value>, schemeName: string)
    requires |ss| != 1 && MergeSpec(ss, schemeName).Some?
    ensures MergeSpec(ss, schemeName).value.Obj?
    ensures var fs := MergeSpec(ss, schemeName).value.fields;
      var base := ss[BaseIndex(ss)];
      && (forall j :: 0 <= j < BaseIndex(ss) ==> !HasPatterns(ss[j]))
      && (HasPatterns(base) || forall j :: 0 <= j < |ss| ==> !HasPatterns(ss[j]))
      && Keys(fs) == ["scheme", "brand", "type", "countries", "patterns"] + (if |FlatBins(ss)| > 0 then ["bins"] else [])
      && Lookup(fs, "scheme") == Or(Get(base, "scheme"), Str(schemeName))
      && Lookup(fs, "brand") == Get(base, "brand")
      && Lookup(fs, "type") == Get(base, "type")
      && (HasKey(fs, "bins") <==> |FlatBins(ss)| > 0)
  {
    var base := ss[BaseIndex(ss)];
    var bc, fc := CountriesOf(base).value, FlatCountries(ss).value;
    var bs := DedupBy(FlatBins(ss), BinKey, {});
    if |FlatBins(ss)| > 0 {
      assert KeyIn(FlatBins(ss), BinKey, BinKey(FlatBins(ss)[0]));
      DedupByCovers(FlatBins(ss), BinKey, {}, BinKey(FlatBins(ss)[0]));
    }
    MergedFields(base, schemeName, Dedup(bc + fc), Dedup(FlatPatterns(ss)), bs);
  }

  /** The merged patterns: every source's patterns, concatenated in order,
      each distinct pattern once, where it first occurs. */
  lemma MergedPatterns(ss: seq<Value>, schemeName: string)
    requires |ss| != 1 && MergeSpec(ss, schemeName).Some?
    ensures MergeSpec(ss, schemeName).value.Obj?
    ensures var p := Lookup(MergeSpec(ss, schemeName).value.fields, "patterns");
      && p.Arr?
      && (forall x :: x in p.items <==> x in FlatPatterns(ss))
      && (forall i, j :: 0 <= i < j < |p.items| ==> p.items[i] != p.items[j])
      && p.items == FirstByKey(FlatPatterns(ss), Id)
  {
    var base := ss[BaseIndex(ss)];
    var bc, fc := CountriesOf(base).value, FlatCountries(ss).value;
    MergedFields(base, schemeName, Dedup(bc + fc), Dedup(FlatPatterns(ss)), DedupBy(FlatBins(ss), BinKey, {}));
    DedupFirst(FlatPatterns(ss));
  }

  /** The merged bins, when present: entries of the sources' bins, one per
      distinct `bin` value, the first entry of each in order. */
  lemma MergedBins(ss: seq<Value>, schemeName: string)
    requires |ss| != 1 && MergeSpec(ss, schemeName).Some?
    requires |FlatBins(ss)| > 0
    ensures MergeSpec(ss, schemeName).value.Obj?
    ensures var b := Lookup(MergeSpec(ss, schemeName).value.fields, "bins");
      && b.Arr?
      && (forall i :: 0 <= i < |b.items| ==> b.items[i] in FlatBins(ss))
      && (forall x :: x in FlatBins(ss) ==> KeyIn(b.items, BinKey, BinKey(x)))
      && (forall i, j :: 0 <= i < j < |b.items| ==> BinKey(b.items[i]) != BinKey(b.items[j]))
      && b.items == FirstByKey(FlatBins(ss), BinKey)
  {
    var base := ss[BaseIndex(ss)];
    var bc, fc := CountriesOf(base).value, FlatCountries(ss).value;
    var flat := FlatBins(ss);
    var bs := DedupBy(flat, BinKey, {});
    assert KeyIn(flat, BinKey, BinKey(flat[0]));
    DedupByCovers(flat, BinKey, {}, BinKey(flat[0]));
    MergedFields(base, schemeName, Dedup(bc + fc), Dedup(FlatPatterns(ss)), bs);
    assert Lookup(MergeSpec(ss, schemeName).value.fields, "bins") == Arr(bs);
    forall x | x in flat
      ensures KeyIn(bs, BinKey, BinKey(x))
    {
      DedupByCovers(flat, BinKey, {}, BinKey(x));
    }
    DedupByIsFirstByKey(flat, BinKey);
  }

  /** The merged countries: each distinct country once, the base's own
      countries first, in order, then the others in source order. */
  lemma MergedCountries(ss: seq<Value>, schemeName: string)
    requires |ss| != 1 && MergeSpec(ss, schemeName).Some?
    ensures MergeSpec(ss, schemeName).value.Obj?
    ensures var c := Lookup(MergeSpec(ss, schemeName).value.fields, "countries");
      var bc := CountriesOf(ss[BaseIndex(ss)]).value;
      && c.Arr?
      && (forall x :: x in c.items <==> x in bc || x in FlatCountries(ss).value)
      && (forall i, j :: 0 <= i < j < |c.items| ==> c.items[i] != c.items[j])
      && Dedup(bc) <= c.items
  {
    var base := ss[BaseIndex(ss)];
    var bc, fc := CountriesOf(base).value, FlatCountries(ss).value;
    MergedFields(base, schemeName, Dedup(bc + fc), Dedup(FlatPatterns(ss)), DedupBy(FlatBins(ss), BinKey, {}));
    DedupFirst(bc);
    DedupFirst(bc + fc);
    FirstByKeyPrefix(bc, fc, Id);
  }
}
