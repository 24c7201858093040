/** libs/go/validator.go: the Go port. Each catalog brand is compiled once
    into a record whose full pattern has its `(?=.{N}$)` / `(?=.{M,N}$)`
    length lookahead cut out and turned into a numeric length window;
    `FindBrand` filters on that window before matching and resolves several
    matches with the priority rule. */
module GoValidator {
  import opened Text
  import opened Catalog
  import Luhn

  // ----- extractLengthFromRegex ------------------------------------------

  /** A length lookahead `(?=.{lower}$)` or `(?=.{lower,upper}$)` at the
      start of a string, `size` characters long. */
  datatype Lookahead = Lookahead(lower: string, upper: Option<string>, size: nat)

  /** The text of a lookahead with the given bounds. */
  function LookaheadText(lower: string, upper: Option<string>): string
  {
    match upper
    case None => Opening + lower + Close
    case Some(u) => Opening + lower + "," + u + Close
  }

  /** The text that opens a lookahead, and the text that closes it. */
  const Opening: string := "(?=.{"
  const Close: string := "}$)"

  /** Matches `\(\?=\.\{(\d+)(,(\d+))?\}\$\)` at the start of `t`; `\d` is
      an ASCII digit in Go's regexp package, and `\d+` is greedy. */
  function LookaheadAt(t: string): (r: Option<Lookahead>)
    ensures r.Some? ==> 7 <= r.value.size <= |t|
  {
    if Opens(t) then
      match BoundsAt(t[5..])
      case None => None
      case Some(la) => Some(Lookahead(la.lower, la.upper, 5 + la.size))
    else None
  }

  /** The bounds of a lookahead are non-empty runs of digits, and its text is
      at least `(?=.{d}$)` long. */
  predicate WellFormed(la: Lookahead)
  {
    |la.lower| > 0 && AllDigits(la.lower) && la.size >= 9 &&
    (la.upper.Some? ==> |la.upper.value| > 0 && AllDigits(la.upper.value))
  }

  /** What is read as a lookahead has digit runs as bounds and is at least
      `(?=.{d}$)` long. */
  lemma LookaheadWellFormed(t: string)
    requires LookaheadAt(t).Some?
    ensures WellFormed(LookaheadAt(t).value)
  {
    var a := t[5..];
    var k := DigitRun(a);
    DigitRunDigits(a);
    var b := a[k..];
    if !Closes(b) {
      DigitRunDigits(b[1..]);
    }
  }

  /** The part after `(?=.{`: the digits, an optional `,` and digits, and
      `}$)`; `size` counts what was read. */
  function BoundsAt(a: string): (r: Option<Lookahead>)
    ensures r.Some? ==> 2 <= r.value.size <= |a|
  {
    var k := DigitRun(a);
    if k == 0 then None
    else
      var b := a[k..];
      if Closes(b) then Some(Lookahead(a[..k], None, k + 3))
      else if |b| >= 1 && b[0] == ',' then
        var c := b[1..];
        var k2 := DigitRun(c);
        if k2 > 0 && Closes(c[k2..]) then Some(Lookahead(a[..k], Some(c[..k2]), k + 1 + k2 + 3))
        else None
      else None
  }

  /** `s` starts with `(?=.{`. */
  predicate Opens(s: string)
  {
    |s| >= 5 && s[0] == '(' && s[1] == '?' && s[2] == '=' && s[3] == '.' && s[4] == '{'
  }

  /** `s` starts with `}$)`. */
  predicate Closes(s: string)
  {
    |s| >= 3 && s[0] == '}' && s[1] == '$' && s[2] == ')'
  }

  /** The leftmost lookahead in `s`, as `FindStringSubmatch` reports it. */
  function FirstLookahead(s: string): Option<Lookahead>
  {
    if LookaheadAt(s).Some? then LookaheadAt(s)
    else if s == [] then None
    else FirstLookahead(s[1..])
  }

  /** `ReplaceAllString(s, "")`: the non-overlapping lookaheads, found left
      to right, are cut out. */
  function RemoveLookaheads(s: string): string
    decreases |s|
  {
    if s == [] then ""
    else match LookaheadAt(s)
      case Some(la) => RemoveLookaheads(s[la.size..])
      case None => [s[0]] + RemoveLookaheads(s[1..])
  }

  /** Go's `int` on a 64-bit platform. */
  const MaxInt: int := 0x7FFF_FFFF_FFFF_FFFF

  /** `strconv.Atoi` on a run of ASCII digits: fails when out of range. */
  function Atoi(d: string): (r: Option<nat>)
    ensures r.Some? <==> AllDigits(d) && DigitsValue(d) <= MaxInt
    ensures r.Some? ==> AllDigits(d) && r.value == DigitsValue(d)
  {
    if AllDigits(d) && DigitsValue(d) <= MaxInt then Some(DigitsValue(d)) else None
  }

  /** The result of `extractLengthFromRegex`. */
  datatype Extracted = Extracted(cleanPattern: string, minLen: int, maxLen: int)

  /** Cuts the length lookahead out of a full pattern and reads its bounds.
      Without a lookahead the pattern comes back unchanged with (0, 0); a
      bound that does not parse as a Go int leaves its side 0. */
  function ExtractLengthFromRegex(pattern: string): (r: Extracted)
    ensures FirstLookahead(pattern).None? ==> r == Extracted(pattern, 0, 0)
    ensures FirstLookahead(pattern).Some? ==> r.cleanPattern == RemoveLookaheads(pattern)
    ensures 0 <= r.minLen <= MaxInt && 0 <= r.maxLen <= MaxInt
  {
    match FirstLookahead(pattern)
    case None => Extracted(pattern, 0, 0)
    case Some(la) =>
      var clean := RemoveLookaheads(pattern);
      if la.upper.None? then
        match Atoi(la.lower)
        case Some(v) => Extracted(clean, v, v)
        case None => Extracted(clean, 0, 0)
      else
        var lo := match Atoi(la.lower) case Some(v) => v case None => 0;
        var hi := if la.upper.value != "" then match Atoi(la.upper.value) case Some(v) => v case None => 0 else 0;
        Extracted(clean, lo, hi)
  }

  /** With no lookahead in front, a string with a single '$' as its last
      character holds no lookahead anywhere, and nothing is removed. */
  lemma {:induction false} NoLookaheadBeforeFinalDollar(s: string)
    requires forall i :: 0 <= i < |s| - 1 ==> s[i] != '$'
    ensures FirstLookahead(s).None?
    ensures RemoveLookaheads(s) == s
  {
    DollarInLookahead(s);
    if s != [] {
      NoLookaheadBeforeFinalDollar(s[1..]);
    }
  }

  /** A lookahead holds a '$' that is not the last character of the string. */
  lemma DollarInLookahead(t: string)
    ensures LookaheadAt(t).Some? ==> exists i :: 0 <= i < |t| - 1 && t[i] == '$'
  {
    if LookaheadAt(t).Some? {
      var a := t[5..];
      BoundsDollar(a);
      var k := BoundsAt(a).value.size - 2;
      assert t[5 + k] == a[k] == '$';
    }
  }

  /** The bounds read end in `}$)`, so the '$' sits two before their end. */
  lemma BoundsDollar(a: string)
    requires BoundsAt(a).Some?
    ensures a[BoundsAt(a).value.size - 2] == '$'
  {
    var k := DigitRun(a);
    var b := a[k..];
    if !Closes(b) {
      var c := b[1..];
      var k2 := DigitRun(c);
      assert a[k + 1 + k2 + 1] == c[k2 + 1];
    }
  }

  // ----- compiled brands ----------------------------------------------------

  /** `CompiledBrand`: the full pattern here is the cleaned one, the original
      is kept in `originalFull`. */
  datatype CompiledBrand = CompiledBrand(
    name: string,
    priorityOver: seq<string>,
    minLength: int,
    maxLength: int,
    regexpBin: string,
    regexpFull: string,
    regexpCvv: string,
    originalFull: string)

  /** The per-brand step of `getCompiledBrands`. */
  function Compile(b: Brand): (c: CompiledBrand)
    ensures c.name == b.name && c.priorityOver == b.priorityOver && c.regexpCvv == b.regexpCvv
    ensures c.originalFull == b.regexpFull
  {
    var e := ExtractLengthFromRegex(b.regexpFull);
    CompiledBrand(b.name, b.priorityOver, e.minLen, e.maxLen, b.regexpBin, e.cleanPattern, b.regexpCvv, b.regexpFull)
  }

  /** `getCompiledBrands`: one compiled record per brand, in catalog order. */
  function CompileAll(cat: seq<Brand>): (r: seq<CompiledBrand>)
    ensures |r| == |cat|
    ensures forall i :: 0 <= i < |cat| ==> r[i] == Compile(cat[i])
  {
    if cat == [] then [] else [Compile(cat[0])] + CompileAll(cat[1..])
  }

  // ----- FindBrand ------------------------------------------------------------

  /** A brand with a positive bound is skipped for a number outside it. */
  predicate InWindow(c: CompiledBrand, len: nat)
  {
    !(c.minLength > 0 && len < c.minLength) && !(c.maxLength > 0 && len > c.maxLength)
  }

  /** The window is checked against `len(cardNumber)`, the number of bytes
      of the number's UTF-8 encoding. */
  predicate Survives(c: CompiledBrand, m: Matcher, number: string)
  {
    InWindow(c, Utf8Length(number)) && m(c.regexpFull, number)
  }

  /** The compiled brands that pass the window and match, in catalog order. */
  function Survivors(cs: seq<CompiledBrand>, m: Matcher, number: string): (r: seq<CompiledBrand>)
    ensures |r| <= |cs|
  {
    if cs == [] then []
    else
      var last := cs[|cs| - 1];
      Survivors(cs[..|cs| - 1], m, number) + (if Survives(last, m, number) then [last] else [])
  }

  /** A brand is among the survivors exactly when it is in the catalog and
      survives. */
  lemma {:induction false} SurvivorsMembers(cs: seq<CompiledBrand>, m: Matcher, number: string)
    ensures forall c :: c in Survivors(cs, m, number) <==> c in cs && Survives(c, m, number)
  {
    if cs != [] {
      var init := cs[..|cs| - 1];
      SurvivorsMembers(init, m, number);
      assert cs == init + [cs[|cs| - 1]];
    }
  }

  /** One more brand is appended exactly when it survives. */
  lemma SurvivorsStep(cs: seq<CompiledBrand>, m: Matcher, number: string, i: nat)
    requires i < |cs|
    ensures Survivors(cs[..i + 1], m, number)
      == Survivors(cs[..i], m, number) + (if Survives(cs[i], m, number) then [cs[i]] else [])
  {
    assert cs[..i + 1][..i] == cs[..i];
  }

  function Candidates(cs: seq<CompiledBrand>): (r: seq<Candidate>)
    ensures |r| == |cs|
    ensures forall i :: 0 <= i < |cs| ==> r[i] == Candidate(cs[i].name, cs[i].priorityOver)
  {
    if cs == [] then [] else [Candidate(cs[0].name, cs[0].priorityOver)] + Candidates(cs[1..])
  }

  /** What `FindBrand` answers. */
  function Select(cat: seq<Brand>, m: Matcher, number: string): Option<string>
  {
    if |number| == 0 then None
    else Resolve(Candidates(Survivors(CompileAll(cat), m, number)))
  }

  /** `FindBrand`: nothing for the empty number or when no brand passes its
      window and matches; otherwise a surviving brand's name, chosen by the
      priority rule: whenever a survivor is the rule's winner, that winner's
      name. */
  lemma SelectSpec(cat: seq<Brand>, m: Matcher, number: string)
    ensures Select(cat, m, number).None? <==>
      |number| == 0 || forall i :: 0 <= i < |cat| ==> !Survives(Compile(cat[i]), m, number)
    ensures Select(cat, m, number).Some? ==>
      exists i :: 0 <= i < |cat| && Survives(Compile(cat[i]), m, number) && cat[i].name == Select(cat, m, number).value
    ensures |number| > 0 ==> forall w: nat ::
      IsWinner(Candidates(Survivors(CompileAll(cat), m, number)), w) ==>
      Select(cat, m, number) == Some(Candidates(Survivors(CompileAll(cat), m, number))[w].name)
  {
    var cs := CompileAll(cat);
    var ss := Survivors(cs, m, number);
    forall w: nat | IsWinner(Candidates(ss), w)
      ensures Resolve(Candidates(ss)) == Some(Candidates(ss)[w].name)
    {
      ResolvePicksWinner(Candidates(ss), w);
    }
    SurvivorsMembers(cs, m, number);
    if |number| > 0 {
      if |ss| > 0 {
        assert ss[0] in ss;
        assert cs[IndexIn(cs, ss[0])] == ss[0];
      } else {
        forall i | 0 <= i < |cat|
          ensures !Survives(Compile(cat[i]), m, number)
        {
          assert cs[i] in cs;
        }
      }
      match Select(cat, m, number)
      case None =>
      case Some(name) =>
        var k :| 0 <= k < |ss| && Candidates(ss)[k].name == name;
        assert ss[k] in ss;
        var i := IndexIn(cs, ss[k]);
        assert cat[i].name == name;
    }
  }

  function IndexIn(cs: seq<CompiledBrand>, c: CompiledBrand): (i: nat)
    requires c in cs
    ensures i < |cs| && cs[i] == c
  {
    if cs[0] == c then 0 else 1 + IndexIn(cs[1..], c)
  }

  /** The Go `FindBrand`: collect the surviving matches in catalog order,
      return a single one as is, and otherwise the first one whose
      `PriorityOver` names a matching brand, else the first. */
  method FindBrand(cat: seq<Brand>, m: Matcher, cardNumber: string) returns (r: Option<string>)
    ensures r == Select(cat, m, cardNumber)
  {
    if |cardNumber| == 0 {
      return None;
    }
    var compiled := CompileAll(cat);
    var matching := CollectMatches(compiled, m, cardNumber);
    if |matching| == 0 {
      return None;
    }
    if |matching| == 1 {
      return Some(matching[0].name);
    }
    var cands := Candidates(matching);
    var names := NameSet(cands);
    r := PriorityScan(cands, names);
  }

  /** The first loop of `FindBrand`: skip brands whose window excludes the
      number, append the ones whose full pattern matches. */
  method CollectMatches(compiled: seq<CompiledBrand>, m: Matcher, cardNumber: string)
    returns (matching: seq<CompiledBrand>)
    ensures matching == Survivors(compiled, m, cardNumber)
  {
    var cardLen := Utf8Length(cardNumber);
    matching := [];
    var i := 0;
    while i < |compiled|
      invariant 0 <= i <= |compiled|
      invariant matching == Survivors(compiled[..i], m, cardNumber)
    {
      var brand := compiled[i];
      SurvivorsStep(compiled, m, cardNumber, i);
      if brand.minLength > 0 && cardLen < brand.minLength {
        assert !Survives(brand, m, cardNumber);
        i := i + 1;
        continue;
      }
      if brand.maxLength > 0 && cardLen > brand.maxLength {
        assert !Survives(brand, m, cardNumber);
        i := i + 1;
        continue;
      }
      assert InWindow(brand, cardLen);
      if m(brand.regexpFull, cardNumber) {
        matching := matching + [brand];
      }
      i := i + 1;
    }
    assert compiled[..|compiled|] == compiled;
  }

  /** `IsSupported`: whether `FindBrand` finds a brand. */
  method IsSupported(cat: seq<Brand>, m: Matcher, cardNumber: string) returns (ok: bool)
    ensures ok <==> Select(cat, m, cardNumber).Some?
  {
    var r := FindBrand(cat, m, cardNumber);
    ok := r.Some?;
  }

  /** `FindBrandDetailed`: the first detailed record whose scheme is the
      name `FindBrand` returns. */
  method FindBrandDetailed(cat: seq<Brand>, details: seq<DetailedBrand>, m: Matcher, cardNumber: string)
    returns (r: Option<DetailedBrand>)
    ensures Select(cat, m, cardNumber).None? ==> r.None?
    ensures Select(cat, m, cardNumber).Some? ==> r == DetailedNamed(details, Select(cat, m, cardNumber).value)
  {
    var name := FindBrand(cat, m, cardNumber);
    if name.None? {
      return None;
    }
    var i := 0;
    while i < |details|
      invariant 0 <= i <= |details|
      invariant forall j :: 0 <= j < i ==> details[j].scheme != name.value
    {
      if details[i].scheme == name.value {
        return Some(details[i]);
      }
      i := i + 1;
    }
    return None;
  }

  /** The CVV pattern of the first compiled brand named `brandName`. */
  function CompiledCvv(cs: seq<CompiledBrand>, brandName: string): Option<string>
  {
    if cs == [] then None
    else if cs[0].name == brandName then Some(cs[0].regexpCvv)
    else CompiledCvv(cs[1..], brandName)
  }

  /** `ValidateCVV`: false for an empty CVV or an unknown brand, otherwise
      the first brand of that name's CVV pattern decides; Go's `$` matches
      only at the end of the text. */
  function ValidateCvv(cat: seq<Brand>, m: Matcher, cvv: string, brandName: string): bool
  {
    |cvv| > 0 &&
    match CompiledCvv(CompileAll(cat), brandName)
    case None => false
    case Some(p) => CvvMatches(EndOfText, m, p, cvv)
  }

  /** Compiling keeps each brand's name and CVV pattern, so the lookup over
      the compiled brands is the catalog lookup by name. */
  lemma {:induction false} CompiledCvvIsCatalogLookup(cat: seq<Brand>, brandName: string)
    ensures CompiledCvv(CompileAll(cat), brandName) ==
      match BrandNamed(cat, brandName) case None => None case Some(b) => Some(b.regexpCvv)
  {
    if cat != [] {
      var cs := CompileAll(cat);
      assert cs[0] == Compile(cat[0]);
      if cat[0].name == brandName {
        assert IndexOfName(cat, brandName) == Some(0);
      } else {
        CompiledCvvIsCatalogLookup(cat[1..], brandName);
        assert cs[1..] == CompileAll(cat[1..]);
        assert CompiledCvv(cs, brandName) == CompiledCvv(cs[1..], brandName);
        match IndexOfName(cat[1..], brandName)
        case None =>
        case Some(i) =>
          assert IndexOfName(cat, brandName) == Some(i + 1);
      }
    }
  }

  /** `ValidateCVV` in terms of the catalog: a brand whose CVV pattern is
      `^\d{n}$` accepts exactly the non-empty runs of n ASCII digits. */
  lemma ValidateCvvSpec(cat: seq<Brand>, m: Matcher, cvv: string, brandName: string, n: nat)
    requires BrandNamed(cat, brandName).Some? && BrandNamed(cat, brandName).value.regexpCvv == CvvPattern(n)
    ensures ValidateCvv(cat, m, cvv, brandName) <==> |cvv| == n && n > 0 && AllDigits(cvv)
  {
    CompiledCvvIsCatalogLookup(cat, brandName);
    CvvPatternAccepts(EndOfText, m, n, cvv);
  }

  /** An unknown brand or an empty CVV never validates. */
  lemma ValidateCvvRejects(cat: seq<Brand>, m: Matcher, cvv: string, brandName: string)
    requires |cvv| == 0 || BrandNamed(cat, brandName).None?
    ensures !ValidateCvv(cat, m, cvv, brandName)
  {
    CompiledCvvIsCatalogLookup(cat, brandName);
  }

  /** `ListBrands`: a fresh array of the names, in catalog order. */
  method ListBrands(cat: seq<Brand>) returns (brands: array<string>)
    ensures brands.Length == |cat|
    ensures brands[..] == Names(cat)
  {
    brands := new string[|cat|];
    var i := 0;
    while i < |cat|
      invariant 0 <= i <= |cat|
      invariant forall j :: 0 <= j < i ==> brands[j] == cat[j].name
    {
      brands[i] := cat[i].name;
      i := i + 1;
    }
  }

  /** `Luhn` is the shared scan. */
  method LuhnCheck(number: string) returns (valid: bool)
    ensures valid == Luhn.LuhnValid(number)
  {
    valid := Luhn.Luhn(number);
  }
}
