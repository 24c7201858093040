/** scripts/build.js: the older catalog build. `buildPatterns` turns a
    source's patterns into a BIN pattern, a full pattern with one
    alternative per pattern and supported length, the distinct lengths and
    the CVV length; `buildData` maps each source to a compiled record and a
    legacy record; `validate` counts the problems of the compiled records.
    Reading a property of `null` or `undefined`, or calling `map` on
    something that is not an array, throws; the model reports it as `None`. */
module Build {
  import opened Text
  import opened Json
  import Catalog

  /** What `buildPatterns` returns. */
  datatype Built = Built(binPattern: string, fullPattern: string, lengths: seq<Value>, cvvLength: Value)

  predicate Absent(v: Value)
  {
    v.Null? || v.Undefined?
  }

  /** `Array.isArray(p.length) ? p.length : [p.length]`. */
  function LengthsOf(p: Value): seq<Value>
  {
    AsList(Get(p, "length"))
  }

  /** `${pattern.bin}`. */
  function BinText(p: Value): string
  {
    ToJsString(Get(p, "bin"))
  }

  /** The alternative one declared length adds to the full pattern: the BIN
      followed by the digits that can complete a number of that length, for
      the five lengths the script knows. */
  function Alternative(binPart: string, len: Value): Option<string>
  {
    match Window(len)
    case Some(w) => Some(binPart + w)
    case None => None
  }

  /** The digit window the chain of length tests appends to the BIN part. */
  function Window(len: Value): Option<string>
  {
    if len == Num(13) then Some(Window13)
    else if len == Num(14) then Some(Window14)
    else if len == Num(15) then Some(Window15)
    else if len == Num(16) then Some(Window16)
    else if len == Num(19) then Some(Window19)
    else None
  }

  const Window13 := "[0-9]{9,12}"
  const Window14 := "[0-9]{10,13}"
  const Window15 := "[0-9]{11,14}"
  const Window16 := "[0-9]{12,15}"
  const Window19 := "[0-9]{15,18}"

  /** A length L among 13, 14, 15, 16 and 19 adds `bin[0-9]{L-4,L-1}`; any
      other value adds nothing. */
  lemma AlternativeWindow(binPart: string, len: Value)
    ensures Alternative(binPart, len).Some? <==> len.Num? && len.n in {13, 14, 15, 16, 19}
    ensures Alternative(binPart, len).Some? ==>
      Alternative(binPart, len).value == binPart + "[0-9]{" + NatToString(len.n - 4) + "," + NatToString(len.n - 1) + "}"
  {
    if len.Num? && len.n in {13, 14, 15, 16, 19} {
      WindowText(len.n);
    }
  }

  /** The window after the BIN part: from four fewer digits than the card
      length to one fewer. */
  lemma WindowText(n: nat)
    requires n in {13, 14, 15, 16, 19}
    ensures Window(Num(n)) == Some("[0-9]{" + NatToString(n - 4) + "," + NatToString(n - 1) + "}")
  {
    if n == 13 {
      WindowDigits(Window13, 9, 12);
    } else {
      WindowTextTeens(n);
    }
  }

  /** The windows whose both bounds have two digits. */
  lemma WindowTextTeens(n: nat)
    requires n in {14, 15, 16, 19}
    ensures Window(Num(n)) == Some("[0-9]{" + NatToString(n - 4) + "," + NatToString(n - 1) + "}")
  {
    if n == 14 {
      WindowDigits(Window14, 10, 13);
    } else if n == 15 {
      WindowDigits(Window15, 11, 14);
    } else if n == 16 {
      WindowDigits(Window16, 12, 15);
    } else {
      WindowDigits(Window19, 15, 18);
    }
  }

  lemma WindowDigits(w: string, lo: nat, hi: nat)
    requires 9 <= lo < 20 && 10 <= hi < 20
    requires w == "[0-9]{" + (if lo < 10 then [DigitChar(lo)] else ['1', DigitChar(lo - 10)]) + "," + ['1', DigitChar(hi - 10)] + "}"
    ensures w == "[0-9]{" + NatToString(lo) + "," + NatToString(hi) + "}"
  {
    TeenText(NatToString(hi), hi);
    if lo >= 10 {
      TeenText(NatToString(lo), lo);
    }
  }



  /** The decimal text of a number from 10 to 19. */
  lemma TeenText(t: string, n: nat)
    requires 10 <= n < 20 && t == NatToString(n)
    ensures t == ['1', DigitChar(n - 10)]
  {
    assert NatToString(n / 10) == "1";
  }

  /** The alternatives of one pattern, for its lengths in order. */
  function PatternAlternatives(binPart: string, lens: seq<Value>): seq<string>
  {
    if lens == [] then []
    else
      PatternAlternatives(binPart, lens[..|lens| - 1])
        + (match Alternative(binPart, lens[|lens| - 1]) case Some(a) => [a] case None => [])
  }

  /** `fullPatterns` after the nested loops. */
  function AllAlternatives(ps: seq<Value>): seq<string>
  {
    if ps == [] then []
    else AllAlternatives(ps[..|ps| - 1]) + PatternAlternatives(BinText(ps[|ps| - 1]), LengthsOf(ps[|ps| - 1]))
  }

  /** `patterns.flatMap(p => Array.isArray(p.length) ? p.length : [p.length])`. */
  function AllLengths(ps: seq<Value>): seq<Value>
  {
    if ps == [] then [] else AllLengths(ps[..|ps| - 1]) + LengthsOf(ps[|ps| - 1])
  }

  /** `patterns.map(p => p.bin)`. */
  function Bins(ps: seq<Value>): (bs: seq<Value>)
    ensures |bs| == |ps| && forall i :: 0 <= i < |ps| ==> bs[i] == Get(ps[i], "bin")
  {
    if ps == [] then [] else Bins(ps[..|ps| - 1]) + [Get(ps[|ps| - 1], "bin")]
  }

  /** What `buildPatterns(patterns)` returns, or `None` where it throws. */
  function BuildSpec(patterns: Value): Option<Built>
  {
    if !patterns.Arr? || |patterns.items| == 0 then None
    else if exists i :: 0 <= i < |patterns.items| && Absent(patterns.items[i]) then None
    else
      var ps := patterns.items;
      Some(Built(JoinItems(Bins(ps), "|"), "(" + Join(Dedup(AllAlternatives(ps)), "|") + ")",
        Dedup(AllLengths(ps)), Get(ps[0], "cvvLength")))
  }

  /** `patterns.map(p => p.bin)`, which reads `bin` on every pattern. */
  method MapBins(ps: seq<Value>) returns (r: Option<seq<Value>>)
    ensures r.None? <==> exists i :: 0 <= i < |ps| && Absent(ps[i])
    ensures r.Some? ==> r.value == Bins(ps)
  {
    var bins: seq<Value> := [];
    var i := 0;
    while i < |ps|
      invariant 0 <= i <= |ps|
      invariant forall j :: 0 <= j < i ==> !Absent(ps[j])
      invariant bins == Bins(ps[..i])
    {
      assert ps[..i + 1][..i] == ps[..i];
      if Absent(ps[i]) {
        return None;
      }
      bins := bins + [Get(ps[i], "bin")];
      i := i + 1;
    }
    assert ps[..|ps|] == ps;
    return Some(bins);
  }

  /** The nested loops of `buildPatterns`: for each pattern, for each of its
      lengths, push the alternative when there is one; and the lengths,
      flattened. */
  method CollectAlternatives(ps: seq<Value>) returns (full: seq<string>, lengths: seq<Value>)
    ensures full == AllAlternatives(ps) && lengths == AllLengths(ps)
  {
    full := [];
    lengths := [];
    var i := 0;
    while i < |ps|
      invariant 0 <= i <= |ps|
      invariant full == AllAlternatives(ps[..i])
      invariant lengths == AllLengths(ps[..i])
    {
      AllStep(ps, i);
      var lens := LengthsOf(ps[i]);
      full := PushAlternatives(full, BinText(ps[i]), lens);
      lengths := lengths + lens;
      i := i + 1;
    }
    assert ps[..|ps|] == ps;
  }

  lemma AllStep(ps: seq<Value>, i: nat)
    requires i < |ps|
    ensures AllAlternatives(ps[..i + 1]) == AllAlternatives(ps[..i]) + PatternAlternatives(BinText(ps[i]), LengthsOf(ps[i]))
    ensures AllLengths(ps[..i + 1]) == AllLengths(ps[..i]) + LengthsOf(ps[i])
  {
    assert ps[..i + 1][..i] == ps[..i];
  }

  /** The inner loop over one pattern's lengths, pushing onto `full`. */
  method PushAlternatives(full0: seq<string>, binPart: string, lens: seq<Value>) returns (full: seq<string>)
    ensures full == full0 + PatternAlternatives(binPart, lens)
  {
    full := full0;
    var j := 0;
    while j < |lens|
      invariant 0 <= j <= |lens|
      invariant full == full0 + PatternAlternatives(binPart, lens[..j])
    {
      var alt := Alternative(binPart, lens[j]);
      PatternAlternativesStep(binPart, lens, j);
      if alt.Some? {
        AppendAssoc(full0, PatternAlternatives(binPart, lens[..j]), [alt.value]);
        full := full + [alt.value];
      }
      j := j + 1;
    }
    assert lens[..|lens|] == lens;
  }

  lemma PatternAlternativesStep(binPart: string, lens: seq<Value>, j: nat)
    requires j < |lens|
    ensures PatternAlternatives(binPart, lens[..j + 1]) == PatternAlternatives(binPart, lens[..j])
      + (if Alternative(binPart, lens[j]).Some? then [Alternative(binPart, lens[j]).value] else [])
  {
    assert lens[..j + 1][..j] == lens[..j];
  }

  /** `buildPatterns(patterns)`. */
  method BuildPatterns(patterns: Value) returns (r: Option<Built>)
    ensures r == BuildSpec(patterns)
  {
    if !patterns.Arr? {
      return None;
    }
    var ps := patterns.items;
    var bins := MapBins(ps);
    if bins.None? {
      return None;
    }
    var full, lengths := CollectAlternatives(ps);
    var unique := FirstOccurrences(full, Id);
    var distinctLengths := FirstOccurrences(lengths, Id);
    if |ps| == 0 {
      return None;
    }
    return Some(Built(JoinItems(bins.value, "|"), "(" + Join(unique, "|") + ")", distinctLengths, Get(ps[0], "cvvLength")));
  }

  /** Some declared length of pattern `p` adds the alternative `s`. */
  predicate Adds(p: Value, s: string)
  {
    exists j :: 0 <= j < |LengthsOf(p)| && Alternative(BinText(p), LengthsOf(p)[j]) == Some(s)
  }

  /** An alternative is in the list exactly when some pattern's length adds
      it. */
  lemma {:induction false} AllAlternativesMembers(ps: seq<Value>, s: string)
    ensures s in AllAlternatives(ps) <==> exists i :: 0 <= i < |ps| && Adds(ps[i], s)
  {
    if ps != [] {
      var init := ps[..|ps| - 1];
      var last := ps[|ps| - 1];
      var rest := PatternAlternatives(BinText(last), LengthsOf(last));
      assert AllAlternatives(ps) == AllAlternatives(init) + rest;
      assert s in AllAlternatives(ps) <==> s in AllAlternatives(init) || s in rest;
      AllAlternativesMembers(init, s);
      PatternAlternativesMembers(BinText(last), LengthsOf(last), s);
      assert s in rest <==> Adds(last, s);
      if s in AllAlternatives(ps) {
        if s in AllAlternatives(init) {
          var i :| 0 <= i < |init| && Adds(init[i], s);
          assert init[i] == ps[i];
        } else {
          assert Adds(ps[|ps| - 1], s);
        }
      } else {
        forall i | 0 <= i < |ps| ensures !Adds(ps[i], s) {
          if i < |init| {
            assert init[i] == ps[i];
          }
        }
      }
    }
  }

  lemma {:induction false} PatternAlternativesMembers(binPart: string, lens: seq<Value>, s: string)
    ensures s in PatternAlternatives(binPart, lens) <==> exists j :: 0 <= j < |lens| && Alternative(binPart, lens[j]) == Some(s)
  {
    if lens != [] {
      var init := lens[..|lens| - 1];
      PatternAlternativesMembers(binPart, init, s);
      if exists j :: 0 <= j < |init| && Alternative(binPart, init[j]) == Some(s) {
        var j :| 0 <= j < |init| && Alternative(binPart, init[j]) == Some(s);
        assert lens[j] == init[j];
      }
      if exists j :: 0 <= j < |lens| && Alternative(binPart, lens[j]) == Some(s) {
        var j :| 0 <= j < |lens| && Alternative(binPart, lens[j]) == Some(s);
        if j < |init| {
          assert init[j] == lens[j];
        }
      }
    }
  }

  /** The full pattern is one group of distinct alternatives, each the
      alternative some pattern's length adds, and every such alternative
      appears, where it first occurs. */
  lemma BuiltFullPattern(patterns: Value)
    requires BuildSpec(patterns).Some?
    ensures var u := Dedup(AllAlternatives(patterns.items));
      && BuildSpec(patterns).value.fullPattern == "(" + Join(u, "|") + ")"
      && (forall i, j :: 0 <= i < j < |u| ==> u[i] != u[j])
      && u == FirstByKey(AllAlternatives(patterns.items), Id)
      && (forall s :: s in u <==> exists i :: 0 <= i < |patterns.items| && Adds(patterns.items[i], s))
  {
    var ps := patterns.items;
    DedupByIsFirstByKey(AllAlternatives(ps), Id);
    forall s: string
      ensures s in Dedup(AllAlternatives(ps)) <==> exists i :: 0 <= i < |ps| && Adds(ps[i], s)
    {
      AllAlternativesMembers(ps, s);
    }
  }

  /** Every value is among the flattened lengths exactly when some pattern
      declares it. */
  lemma {:induction false} AllLengthsMembers(ps: seq<Value>, v: Value)
    ensures v in AllLengths(ps) <==> exists i :: 0 <= i < |ps| && v in LengthsOf(ps[i])
  {
    if ps != [] {
      var init := ps[..|ps| - 1];
      AllLengthsMembers(init, v);
      if exists i :: 0 <= i < |ps| && v in LengthsOf(ps[i]) {
        var i :| 0 <= i < |ps| && v in LengthsOf(ps[i]);
        if i < |init| {
          assert init[i] == ps[i];
        }
      }
      if exists i :: 0 <= i < |init| && v in LengthsOf(init[i]) {
        var i :| 0 <= i < |init| && v in LengthsOf(init[i]);
        assert init[i] == ps[i];
      }
    }
  }

  /** The lengths are the distinct declared lengths, unsorted, each where
      it first occurs, and the CVV length is the first pattern's. */
  lemma BuiltLengths(patterns: Value)
    requires BuildSpec(patterns).Some?
    ensures var b := BuildSpec(patterns).value;
      && (forall v :: v in b.lengths <==> exists i :: 0 <= i < |patterns.items| && v in LengthsOf(patterns.items[i]))
      && (forall i, j :: 0 <= i < j < |b.lengths| ==> b.lengths[i] != b.lengths[j])
      && b.lengths == FirstByKey(AllLengths(patterns.items), Id)
      && b.cvvLength == Get(patterns.items[0], "cvvLength")
  {
    var ps := patterns.items;
    DedupByIsFirstByKey(AllLengths(ps), Id);
    forall v | true
      ensures v in Dedup(AllLengths(ps)) <==> exists i :: 0 <= i < |ps| && v in LengthsOf(ps[i])
    {
      AllLengthsMembers(ps, v);
    }
  }

  /** Joining string values is joining the strings. */
  lemma {:induction false} JoinItemsStrings(vs: seq<Value>, ss: seq<string>, sep: string)
    requires |vs| == |ss| && forall i :: 0 <= i < |vs| ==> vs[i] == Str(ss[i])
    ensures JoinItems(vs, sep) == Join(ss, sep)
  {
    if |vs| > 1 {
      JoinItemsStrings(vs[1..], ss[1..], sep);
    }
  }

  /** When every BIN is a string without '|', splitting the BIN pattern on
      '|' gives the BINs back, in order. */
  lemma BinPatternSplits(patterns: Value, bins: seq<string>)
    requires BuildSpec(patterns).Some?
    requires |bins| == |patterns.items|
    requires forall i :: 0 <= i < |bins| ==> Get(patterns.items[i], "bin") == Str(bins[i]) && '|' !in bins[i]
    ensures Split(BuildSpec(patterns).value.binPattern, '|') == bins
  {
    JoinItemsStrings(Bins(patterns.items), bins, "|");
    SplitJoin(bins, '|');
  }

  // ----- buildData -----------------------------------------------------------

  /** The enhanced record `buildData` writes for one source file. */
  datatype CompiledBrand = CompiledBrand(
    scheme: Value, brand: Value, cardType: Value,
    lengths: seq<Value>, luhn: Value, cvvLength: Value,
    bin: string, full: string, countries: Value, sourceFile: string)

  /** The legacy record `buildData` builds for one source file. */
  datatype LegacyBrand = LegacyBrand(name: Value, regexpBin: string, regexpFull: string, regexpCvv: string)

  function Compiled(source: Value, file: string, b: Built): CompiledBrand
  {
    CompiledBrand(Get(source, "scheme"), Get(source, "brand"), Or(Get(source, "type"), Str("credit")),
      b.lengths, Get(First(Get(source, "patterns")), "luhn"), b.cvvLength,
      b.binPattern, b.fullPattern, Or(Get(source, "countries"), Arr([])), file)
  }

  function Legacy(source: Value, b: Built): LegacyBrand
  {
    LegacyBrand(Get(source, "scheme"), b.binPattern, b.fullPattern, Catalog.CvvPatternText(ToJsString(b.cvvLength)))
  }

  /** `source.patterns[0]`: element 0 of an array. */
  function First(v: Value): Value
  {
    if v.Arr? && |v.items| > 0 then v.items[0] else Undefined
  }

  /** The two records `buildData` builds for one parsed source file, or
      `None` where reading the source throws. */
  function BuildOne(file: string, source: Value): Option<(CompiledBrand, LegacyBrand)>
  {
    if Absent(source) then None
    else match BuildSpec(Get(source, "patterns"))
      case None => None
      case Some(b) => Some((Compiled(source, file, b), Legacy(source, b)))
  }

  /** The records of all files, in file order, or `None` when one throws. */
  function BuildAll(files: seq<(string, Value)>): Option<(seq<CompiledBrand>, seq<LegacyBrand>)>
  {
    Collect(files, BuildOne)
  }

  /** The loop over the files with the per-file step `one`: the records in
      file order, or `None` at the first file that fails. */
  function Collect(files: seq<(string, Value)>, one: (string, Value) -> Option<(CompiledBrand, LegacyBrand)>)
    : Option<(seq<CompiledBrand>, seq<LegacyBrand>)>
  {
    if files == [] then Some(([], []))
    else
      var last := files[|files| - 1];
      match (Collect(files[..|files| - 1], one), one(last.0, last.1))
      case (Some((cs, ls)), Some((c, l))) => Some((cs + [c], ls + [l]))
      case _ => None
  }

  /** The statistics call `b.countries.includes(...)`, which exists on
      arrays and strings only. */
  predicate Countable(c: CompiledBrand)
  {
    c.countries.Arr? || c.countries.Str?
  }

  /** What `buildData()` returns for the parsed source files, in the order
      read, or `None` where it throws. */
  function BuildDataSpec(files: seq<(string, Value)>): Option<(seq<CompiledBrand>, seq<LegacyBrand>)>
  {
    match BuildAll(files)
    case None => None
    case Some((cs, ls)) => if forall i :: 0 <= i < |cs| ==> Countable(cs[i]) then Some((cs, ls)) else None
  }

  /** `buildData()`: one compiled and one legacy record per source file. */
  method BuildData(files: seq<(string, Value)>) returns (r: Option<(seq<CompiledBrand>, seq<LegacyBrand>)>)
    ensures r == BuildDataSpec(files)
  {
    r := BuildRecords(files);
    if r.Some? {
      var countable := AllCountable(r.value.0);
      if !countable {
        return None;
      }
    }
  }

  /** The loop over the source files. */
  method BuildRecords(files: seq<(string, Value)>) returns (r: Option<(seq<CompiledBrand>, seq<LegacyBrand>)>)
    ensures r == BuildAll(files)
  {
    var compiled: seq<CompiledBrand> := [];
    var legacy: seq<LegacyBrand> := [];
    var i := 0;
    while i < |files|
      invariant 0 <= i <= |files|
      invariant BuildAll(files[..i]) == Some((compiled, legacy))
    {
      assert files[..i + 1][..i] == files[..i];
      var (file, source) := files[i];
      if Absent(source) {
        CollectFails(files, BuildOne, i + 1);
        return None;
      }
      var patterns := BuildPatterns(Get(source, "patterns"));
      if patterns.None? {
        CollectFails(files, BuildOne, i + 1);
        return None;
      }
      compiled := compiled + [Compiled(source, file, patterns.value)];
      legacy := legacy + [Legacy(source, patterns.value)];
      i := i + 1;
    }
    assert files[..|files|] == files;
    return Some((compiled, legacy));
  }

  /** The statistics pass, which calls `includes` on every record's
      countries. */
  method AllCountable(cs: seq<CompiledBrand>) returns (ok: bool)
    ensures ok <==> forall i :: 0 <= i < |cs| ==> Countable(cs[i])
  {
    var j := 0;
    while j < |cs|
      invariant 0 <= j <= |cs|
      invariant forall k :: 0 <= k < j ==> Countable(cs[k])
    {
      if !Countable(cs[j]) {
        return false;
      }
      j := j + 1;
    }
    return true;
  }

  /** Once one file throws, the whole build throws. */
  lemma {:induction false} CollectFails(files: seq<(string, Value)>, one: (string, Value) -> Option<(CompiledBrand, LegacyBrand)>, n: nat)
    requires n <= |files| && Collect(files[..n], one).None?
    ensures Collect(files, one).None?
    decreases |files| - n
  {
    if n < |files| {
      assert files[..n + 1][..n] == files[..n];
      CollectFails(files, one, n + 1);
    } else {
      assert files[..n] == files;
    }
  }

  lemma {:induction false} CollectNone(files: seq<(string, Value)>, one: (string, Value) -> Option<(CompiledBrand, LegacyBrand)>)
    ensures Collect(files, one).None? <==> exists i :: 0 <= i < |files| && one(files[i].0, files[i].1).None?
  {
    if files != [] {
      var init := files[..|files| - 1];
      var last := files[|files| - 1];
      CollectNone(init, one);
      if Collect(init, one).None? {
        var i :| 0 <= i < |init| && one(init[i].0, init[i].1).None?;
        assert init[i] == files[i];
      } else if one(last.0, last.1).Some? {
        forall i | 0 <= i < |files| ensures one(files[i].0, files[i].1).Some? {
          if i < |init| {
            assert init[i] == files[i];
          }
        }
      }
    }
  }

  lemma {:induction false} CollectSome(files: seq<(string, Value)>, one: (string, Value) -> Option<(CompiledBrand, LegacyBrand)>)
    requires Collect(files, one).Some?
    ensures |Collect(files, one).value.0| == |files| && |Collect(files, one).value.1| == |files|
    ensures forall i :: 0 <= i < |files| ==>
      one(files[i].0, files[i].1) == Some((Collect(files, one).value.0[i], Collect(files, one).value.1[i]))
  {
    if files != [] {
      var init := files[..|files| - 1];
      var last := files[|files| - 1];
      var r := Collect(files, one).value;
      var p := Collect(init, one);
      var q := one(last.0, last.1);
      assert p.Some? && q.Some?;
      assert r == (p.value.0 + [q.value.0], p.value.1 + [q.value.1]);
      CollectSome(init, one);
      forall i | 0 <= i < |files| ensures one(files[i].0, files[i].1) == Some((r.0[i], r.1[i])) {
        if i < |init| {
          assert files[i] == init[i];
        }
      }
    }
  }

  /** The build fails exactly when some file's records cannot be built. */
  lemma BuildAllNone(files: seq<(string, Value)>)
    ensures BuildAll(files).None? <==> exists i :: 0 <= i < |files| && BuildOne(files[i].0, files[i].1).None?
  {
    CollectNone(files, BuildOne);
  }

  /** A build that succeeds holds, at each file's position, that file's two
      records. */
  lemma BuildAllSome(files: seq<(string, Value)>)
    requires BuildAll(files).Some?
    ensures |BuildAll(files).value.0| == |files| && |BuildAll(files).value.1| == |files|
    ensures forall i :: 0 <= i < |files| ==>
      BuildOne(files[i].0, files[i].1) == Some((BuildAll(files).value.0[i], BuildAll(files).value.1[i]))
  {
    CollectSome(files, BuildOne);
  }

  /** The two records of a file agree: the legacy name is the scheme, the
      legacy patterns are the compiled ones, the legacy CVV pattern reads back
      as the compiled CVV length; the type defaults to 'credit', so it is
      never missing; the countries default to an empty array; the luhn flag
      is the first pattern's; and the file name is kept. */
  lemma RecordsAgree(file: string, source: Value, b: Built)
    ensures var (c, l) := (Compiled(source, file, b), Legacy(source, b));
      && l.name == c.scheme && l.regexpBin == c.bin && l.regexpFull == c.full
      && (c.cvvLength.Num? && c.cvvLength.n >= 0 ==> Catalog.ParseCvvPattern(l.regexpCvv) == Some(c.cvvLength.n))
      && Truthy(c.cardType)
      && (Truthy(Get(source, "type")) ==> c.cardType == Get(source, "type"))
      && (!Truthy(Get(source, "type")) ==> c.cardType == Str("credit"))
      && (!Truthy(Get(source, "countries")) ==> c.countries == Arr([]))
      && c.sourceFile == file
      && c.luhn == Get(First(Get(source, "patterns")), "luhn")
  {
    if b.cvvLength.Num? && b.cvvLength.n >= 0 {
      LegacyCvvReadsBack(source, b, b.cvvLength.n);
    }
  }

  /** The legacy CVV pattern of a non-negative CVV length reads back as it. */
  lemma LegacyCvvReadsBack(source: Value, b: Built, n: nat)
    requires b.cvvLength == Num(n)
    ensures Catalog.ParseCvvPattern(Legacy(source, b).regexpCvv) == Some(n)
  {
    Catalog.ParseCvvPatternRoundTrip(n);
    assert Legacy(source, b).regexpCvv == Catalog.CvvPattern(n);
  }

  /** `buildData()` throws exactly when some file's records cannot be built
      or some record's countries is neither an array nor a string. */
  lemma BuildDataFails(files: seq<(string, Value)>)
    ensures BuildDataSpec(files).None? <==>
      (exists i :: 0 <= i < |files| && BuildOne(files[i].0, files[i].1).None?)
      || (exists i :: 0 <= i < |files| && BuildOne(files[i].0, files[i].1).Some? && !Countable(BuildOne(files[i].0, files[i].1).value.0))
  {
    BuildAllNone(files);
    if BuildAll(files).Some? {
      BuildAllSome(files);
    }
  }

  // ----- validate ------------------------------------------------------------

  /** The fields `validate` requires of a compiled record. */
  const Required: seq<string> := ["scheme", "brand", "type", "number", "cvv", "patterns"]

  /** `brand[field]` on a compiled record. */
  function Member(c: CompiledBrand, field: string): Value
  {
    if field == "scheme" then c.scheme
    else if field == "brand" then c.brand
    else if field == "type" then c.cardType
    else if field == "number" then Obj([Field("lengths", Arr(c.lengths)), Field("luhn", c.luhn)])
    else if field == "cvv" then Obj([Field("length", c.cvvLength)])
    else if field == "patterns" then Obj([Field("bin", Str(c.bin)), Field("full", Str(c.full))])
    else if field == "countries" then c.countries
    else if field == "metadata" then Obj([Field("sourceFile", Str(c.sourceFile))])
    else Undefined
  }

  /** The number of the given fields that are falsy on the record. */
  function Missing(c: CompiledBrand, fields: seq<string>): nat
  {
    if fields == [] then 0
    else Missing(c, fields[..|fields| - 1]) + (if Truthy(Member(c, fields[|fields| - 1])) then 0 else 1)
  }

  /** Whether `new RegExp(source)` succeeds. */
  type Compiles = string -> bool

  /** The errors `validate` counts for one record: one per missing required
      field, and one when either pattern does not compile. */
  function RecordErrors(c: CompiledBrand, compiles: Compiles): nat
  {
    Missing(c, Required) + (if compiles(c.bin) && compiles(c.full) then 0 else 1)
  }

  function ErrorCount(cs: seq<CompiledBrand>, compiles: Compiles): nat
  {
    if cs == [] then 0 else ErrorCount(cs[..|cs| - 1], compiles) + RecordErrors(cs[|cs| - 1], compiles)
  }

  /** `validate(data)`: counts the errors and passes when there are none. */
  method Validate(cs: seq<CompiledBrand>, compiles: Compiles) returns (errors: nat, ok: bool)
    ensures errors == ErrorCount(cs, compiles)
    ensures ok <==> errors == 0
  {
    errors := 0;
    var i := 0;
    while i < |cs|
      invariant 0 <= i <= |cs|
      invariant errors == ErrorCount(cs[..i], compiles)
    {
      assert cs[..i + 1][..i] == cs[..i];
      var missing := CountMissing(cs[i], Required);
      errors := errors + missing;
      if !(compiles(cs[i].bin) && compiles(cs[i].full)) {
        errors := errors + 1;
      }
      i := i + 1;
    }
    assert cs[..|cs|] == cs;
    ok := errors == 0;
  }

  /** The loop over the required fields of one record. */
  method CountMissing(c: CompiledBrand, fields: seq<string>) returns (n: nat)
    ensures n == Missing(c, fields)
  {
    n := 0;
    var j := 0;
    while j < |fields|
      invariant 0 <= j <= |fields|
      invariant n == Missing(c, fields[..j])
    {
      assert fields[..j + 1][..j] == fields[..j];
      if !Truthy(Member(c, fields[j])) {
        n := n + 1;
      }
      j := j + 1;
    }
    assert fields[..|fields|] == fields;
  }

  /** No field is missing exactly when every field is truthy. */
  lemma {:induction false} MissingNone(c: CompiledBrand, fields: seq<string>)
    ensures Missing(c, fields) == 0 <==> forall i :: 0 <= i < |fields| ==> Truthy(Member(c, fields[i]))
    ensures Missing(c, fields) <= |fields|
  {
    if fields != [] {
      var init := fields[..|fields| - 1];
      MissingNone(c, init);
      assert forall i :: 0 <= i < |init| ==> init[i] == fields[i];
    }
  }

  /** A record passes exactly when its scheme, brand and type are truthy and
      both its patterns compile: number, cvv and patterns are objects and so
      never missing. */
  lemma RecordPasses(c: CompiledBrand, compiles: Compiles)
    ensures RecordErrors(c, compiles) == 0 <==>
      Truthy(c.scheme) && Truthy(c.brand) && Truthy(c.cardType) && compiles(c.bin) && compiles(c.full)
  {
    MissingNone(c, Required);
    assert Required[0] == "scheme" && Required[1] == "brand" && Required[2] == "type";
    assert Required[3] == "number" && Required[4] == "cvv" && Required[5] == "patterns";
  }

  /** The count is zero exactly when every record passes. */
  lemma {:induction false} ErrorCountZero(cs: seq<CompiledBrand>, compiles: Compiles)
    ensures ErrorCount(cs, compiles) == 0 <==> forall i :: 0 <= i < |cs| ==> RecordErrors(cs[i], compiles) == 0
  {
    if cs != [] {
      var init := cs[..|cs| - 1];
      ErrorCountZero(init, compiles);
      assert forall i :: 0 <= i < |init| ==> init[i] == cs[i];
    }
  }

  /** Validating what `buildData` built passes exactly when every record's
      scheme and brand are truthy and both its patterns compile: the
      defaulted type never fails. */
  lemma BuiltDataPasses(files: seq<(string, Value)>, compiles: Compiles)
    requires BuildDataSpec(files).Some?
    ensures var cs := BuildDataSpec(files).value.0;
      ErrorCount(cs, compiles) == 0 <==>
        forall i :: 0 <= i < |cs| ==> Truthy(cs[i].scheme) && Truthy(cs[i].brand) && compiles(cs[i].bin) && compiles(cs[i].full)
  {
    var cs := BuildDataSpec(files).value.0;
    BuildAllSome(files);
    ErrorCountZero(cs, compiles);
    forall i | 0 <= i < |cs|
      ensures RecordErrors(cs[i], compiles) == 0 <==> Truthy(cs[i].scheme) && Truthy(cs[i].brand) && compiles(cs[i].bin) && compiles(cs[i].full)
    {
      RecordsAgree(files[i].0, files[i].1, BuildSpec(Get(files[i].1, "patterns")).value);
      RecordPasses(cs[i], compiles);
    }
  }
}
