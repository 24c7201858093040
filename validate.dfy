/** scripts/validate.js: the structural check of the brand source files and
    of the compiled catalog. Every check appends to one collector; problems
    that make the data unusable are errors, matters of style are warnings,
    and a run succeeds exactly when no error was added.

    Whether a BIN pattern compiles as a JavaScript regular expression is a
    parameter (`RegexCheck`); the three small fixed patterns the script tests
    against are written out as predicates. Reading a property of `null` or
    `undefined` throws in the script, so the validators require the values
    they read to be present. */
module Validate {
  import opened Text
  import opened Json

  /** One collected problem: where it was found, and what it is. The place
      is stored as the script passes it: a file or pattern name, or for a
      compiled brand its `scheme` value itself. */
  datatype Issue = Issue(source: Value, message: string)

  /** Errors and warnings, each in the order they were added. */
  datatype Report = Report(errors: seq<Issue>, warnings: seq<Issue>)

  /** `new RegExp(v)`: `None` when the value, as a pattern, compiles, else
      the message of the `SyntaxError` it throws. */
  type RegexCheck = Value -> Option<string>

  /** `ValidationResult`: the collector every validator writes to. */
  class ValidationResult {
    var errors: seq<Issue>
    var warnings: seq<Issue>

    constructor()
      ensures errors == [] && warnings == []
    {
      errors := [];
      warnings := [];
    }

    /** `addError`: one more error; the warnings stay as they are. */
    method AddError(source: Value, message: string)
      modifies this
      ensures errors == old(errors) + [Issue(source, message)]
      ensures warnings == old(warnings)
    {
      errors := errors + [Issue(source, message)];
    }

    /** `addWarning`: one more warning; the errors stay as they are. */
    method AddWarning(source: Value, message: string)
      modifies this
      ensures warnings == old(warnings) + [Issue(source, message)]
      ensures errors == old(errors)
    {
      warnings := warnings + [Issue(source, message)];
    }

    /** `get hasErrors`. */
    predicate HasErrors()
      reads this
    {
      |errors| > 0
    }
  }

  function NoIssues(): Report
  {
    Report([], [])
  }

  function Error(source: Value, message: string): Report
  {
    Report([Issue(source, message)], [])
  }

  function Warning(source: Value, message: string): Report
  {
    Report([], [Issue(source, message)])
  }

  /** Two reports, one after the other. */
  function Then(a: Report, b: Report): Report
  {
    Report(a.errors + b.errors, a.warnings + b.warnings)
  }

  // ----- messages ------------------------------------------------------------

  const MissingBin: string := "Pattern missing \"bin\" field"
  const InvalidBinRegex: string := "Invalid BIN regex: "
  const MissingLength: string := "Pattern missing \"length\" field"
  const BadLength: string := "Pattern \"length\" must be a number or array of numbers"
  const BadLuhn: string := "Pattern missing or invalid \"luhn\" field (must be boolean)"
  const BadCvvLength: string := "Pattern missing or invalid \"cvvLength\" field (must be number)"
  const BadBinField: string := "BIN entry missing or invalid \"bin\" field"
  const BinNotDigits: string := " should be 6-8 digits"
  const BinMissingType: string := " missing \"type\" field"
  const BinCountriesNotArray: string := " countries must be an array"
  const BinCountryLead: string := " country "
  const CountryLead: string := "Country "
  const BadCountryTail: string := "\" should be ISO 3166-1 alpha-2 or \"GLOBAL\""
  const MissingField: string := "Missing required field \""
  const BadScheme: string := "Scheme should be lowercase alphanumeric with hyphens"
  const BadPatterns: string := "\"patterns\" must be a non-empty array"
  const BadType: string := "Type should be \"credit\" or \"debit\""
  const CountriesNotArray: string := "\"countries\" must be an array"
  const BinsNotArray: string := "\"bins\" must be an array"
  const PartialWithoutBins: string := "Partial source must have a \"bins\" array"
  const PartialWithPatterns: string := "Partial source should not define \"patterns\" (use base.json)"

  predicate Present(v: Value)
  {
    !v.Null? && !v.Undefined?
  }

  predicate AllPresent(xs: seq<Value>)
  {
    forall i :: 0 <= i < |xs| ==> Present(xs[i])
  }

  predicate IsUpper(c: char)
  {
    'A' <= c <= 'Z'
  }

  predicate IsLower(c: char)
  {
    'a' <= c <= 'z'
  }

  /** `/^\d{6,8}$/.test(s)`. */
  predicate BinDigits(s: string)
  {
    6 <= |s| <= 8 && AllDigits(s)
  }

  /** `/^[A-Z]{2}$/.test(s)`. */
  predicate TwoUpper(s: string)
  {
    |s| == 2 && IsUpper(s[0]) && IsUpper(s[1])
  }

  /** `/^[a-z][a-z0-9-]*$/.test(s)`. */
  predicate SchemeFormat(s: string)
  {
    |s| > 0 && IsLower(s[0]) && forall i :: 1 <= i < |s| ==> IsLower(s[i]) || IsDigit(s[i]) || s[i] == '-'
  }

  /** `c !== 'GLOBAL' && !/^[A-Z]{2}$/.test(c)` is false: an acceptable
      country code. */
  predicate CountryCode(c: Value)
  {
    c == Str("GLOBAL") || TwoUpper(ToJsString(c))
  }

  // ----- validatePattern -----------------------------------------------------

  /** The `bin` check of `validatePattern`. */
  function BinErrors(bin: Value, name: string, compile: RegexCheck): seq<Issue>
  {
    if !Truthy(bin) then [Issue(Str(name), MissingBin)]
    else match compile(bin)
      case None => []
      case Some(m) => [Issue(Str(name), InvalidBinRegex + m)]
  }

  /** The `length` check of `validatePattern`. */
  function LengthErrors(len: Value, name: string): seq<Issue>
  {
    if !Truthy(len) then [Issue(Str(name), MissingLength)]
    else if !len.Arr? && !len.Num? then [Issue(Str(name), BadLength)]
    else []
  }

  /** The `luhn` check of `validatePattern`. */
  function LuhnErrors(luhn: Value, name: string): seq<Issue>
  {
    if !luhn.Bool? then [Issue(Str(name), BadLuhn)] else []
  }

  /** The `cvvLength` check of `validatePattern`. */
  function CvvLengthErrors(cvvLength: Value, name: string): seq<Issue>
  {
    if !cvvLength.Num? then [Issue(Str(name), BadCvvLength)] else []
  }

  /** The errors `validatePattern` adds for one pattern; it adds no warnings. */
  function PatternErrors(p: Value, name: string, compile: RegexCheck): seq<Issue>
  {
    BinErrors(Get(p, "bin"), name, compile) + LengthErrors(Get(p, "length"), name)
      + LuhnErrors(Get(p, "luhn"), name) + CvvLengthErrors(Get(p, "cvvLength"), name)
  }

  /** A pattern draws no error exactly when it has a truthy `bin` that
      compiles, a truthy `length` that is a number or an array, a boolean
      `luhn` and a numeric `cvvLength`; it draws at most one error per
      field, each naming the pattern. */
  lemma PatternAccepted(p: Value, name: string, compile: RegexCheck)
    ensures PatternErrors(p, name, compile) == [] <==>
      && Truthy(Get(p, "bin")) && compile(Get(p, "bin")).None?
      && Truthy(Get(p, "length")) && (Get(p, "length").Arr? || Get(p, "length").Num?)
      && Get(p, "luhn").Bool?
      && Get(p, "cvvLength").Num?
    ensures forall i :: 0 <= i < |PatternErrors(p, name, compile)| ==> PatternErrors(p, name, compile)[i].source == Str(name)
    ensures |PatternErrors(p, name, compile)| <= 4
  {
  }

  method CheckBin(bin: Value, name: string, compile: RegexCheck, result: ValidationResult)
    modifies result
    ensures result.errors == old(result.errors) + BinErrors(bin, name, compile)
    ensures result.warnings == old(result.warnings)
  {
    if !Truthy(bin) {
      result.AddError(Str(name), MissingBin);
    } else {
      var failure := compile(bin);
      if failure.Some? {
        result.AddError(Str(name), InvalidBinRegex + failure.value);
      }
    }
  }

  method CheckLength(len: Value, name: string, result: ValidationResult)
    modifies result
    ensures result.errors == old(result.errors) + LengthErrors(len, name)
    ensures result.warnings == old(result.warnings)
  {
    if !Truthy(len) {
      result.AddError(Str(name), MissingLength);
    } else if !len.Arr? && !len.Num? {
      result.AddError(Str(name), BadLength);
    }
  }

  /** `validatePattern(pattern, sourceName, result)`. */
  method ValidatePattern(p: Value, name: string, compile: RegexCheck, result: ValidationResult)
    requires Present(p)
    modifies result
    ensures result.errors == old(result.errors) + PatternErrors(p, name, compile)
    ensures result.warnings == old(result.warnings)
  {
    CheckBin(Get(p, "bin"), name, compile, result);
    CheckLength(Get(p, "length"), name, result);
    ghost var e2 := result.errors;
    if !Get(p, "luhn").Bool? {
      result.AddError(Str(name), BadLuhn);
    }
    assert result.errors == e2 + LuhnErrors(Get(p, "luhn"), name);
    ghost var e3 := result.errors;
    if !Get(p, "cvvLength").Num? {
      result.AddError(Str(name), BadCvvLength);
    }
    assert result.errors == e3 + CvvLengthErrors(Get(p, "cvvLength"), name);
    ghost var a, b, c, d := BinErrors(Get(p, "bin"), name, compile), LengthErrors(Get(p, "length"), name),
      LuhnErrors(Get(p, "luhn"), name), CvvLengthErrors(Get(p, "cvvLength"), name);
    assert old(result.errors) + a + b + c + d == old(result.errors) + (a + b + c + d);
  }

  /** `${sourceName}[pattern ${i}]`. */
  function PatternName(base: string, i: nat): string
  {
    base + "[pattern " + NatToString(i) + "]"
  }

  /** The errors of `patterns.forEach((p, i) => validatePattern(p, …))`. */
  function PatternsErrors(ps: seq<Value>, base: string, compile: RegexCheck): seq<Issue>
  {
    if ps == [] then []
    else PatternsErrors(ps[..|ps| - 1], base, compile) + PatternErrors(ps[|ps| - 1], PatternName(base, |ps| - 1), compile)
  }

  /** The patterns draw no error exactly when none of them does. */
  lemma {:induction false} PatternsAccepted(ps: seq<Value>, base: string, compile: RegexCheck)
    ensures PatternsErrors(ps, base, compile) == [] <==>
      forall i :: 0 <= i < |ps| ==> PatternErrors(ps[i], PatternName(base, i), compile) == []
  {
    if ps != [] {
      var init := ps[..|ps| - 1];
      PatternsAccepted(init, base, compile);
      forall i | 0 <= i < |init|
        ensures PatternErrors(init[i], PatternName(base, i), compile) == PatternErrors(ps[i], PatternName(base, i), compile)
      {
        assert init[i] == ps[i];
      }
    }
  }

  method ValidatePatterns(ps: seq<Value>, base: string, compile: RegexCheck, result: ValidationResult)
    requires AllPresent(ps)
    modifies result
    ensures result.errors == old(result.errors) + PatternsErrors(ps, base, compile)
    ensures result.warnings == old(result.warnings)
  {
    var i := 0;
    while i < |ps|
      invariant 0 <= i <= |ps|
      invariant result.errors == old(result.errors) + PatternsErrors(ps[..i], base, compile)
      invariant result.warnings == old(result.warnings)
    {
      PatternsErrorsStep(ps, base, compile, i);
      AppendAssoc(old(result.errors), PatternsErrors(ps[..i], base, compile), PatternErrors(ps[i], PatternName(base, i), compile));
      ValidatePattern(ps[i], PatternName(base, i), compile, result);
      i := i + 1;
    }
    assert ps[..|ps|] == ps;
  }

  lemma PatternsErrorsStep(ps: seq<Value>, base: string, compile: RegexCheck, i: nat)
    requires i < |ps|
    ensures PatternsErrors(ps[..i + 1], base, compile) ==
      PatternsErrors(ps[..i], base, compile) + PatternErrors(ps[i], PatternName(base, i), compile)
  {
    assert ps[..i + 1][..i] == ps[..i];
  }

  // ----- country lists -------------------------------------------------------

  /** The warnings of `countries.forEach(c => …)`, each message starting with
      `lead`. */
  function CountryWarnings(cs: seq<Value>, name: string, lead: string): seq<Issue>
  {
    if cs == [] then []
    else
      var c := cs[|cs| - 1];
      CountryWarnings(cs[..|cs| - 1], name, lead)
        + (if CountryCode(c) then []
           else [Issue(Str(name), lead + "\"" + ToJsString(c) + BadCountryTail)])
  }

  /** One warning per country that is neither "GLOBAL" nor two capital
      letters. */
  lemma {:induction false} CountryWarningsCount(cs: seq<Value>, name: string, lead: string)
    ensures CountryWarnings(cs, name, lead) == [] <==> forall i :: 0 <= i < |cs| ==> CountryCode(cs[i])
    ensures |CountryWarnings(cs, name, lead)| <= |cs|
  {
    if cs != [] {
      var init := cs[..|cs| - 1];
      CountryWarningsCount(init, name, lead);
      assert forall i :: 0 <= i < |init| ==> init[i] == cs[i];
    }
  }

  method WarnCountries(cs: seq<Value>, name: string, lead: string, result: ValidationResult)
    modifies result
    ensures result.warnings == old(result.warnings) + CountryWarnings(cs, name, lead)
    ensures result.errors == old(result.errors)
  {
    var i := 0;
    while i < |cs|
      invariant 0 <= i <= |cs|
      invariant result.warnings == old(result.warnings) + CountryWarnings(cs[..i], name, lead)
      invariant result.errors == old(result.errors)
    {
      assert cs[..i + 1][..i] == cs[..i];
      var c := cs[i];
      if c != Str("GLOBAL") && !TwoUpper(ToJsString(c)) {
        result.AddWarning(Str(name), lead + "\"" + ToJsString(c) + BadCountryTail);
      }
      i := i + 1;
    }
    assert cs[..|cs|] == cs;
  }

  /** The `countries` check shared by sources and BIN entries: an error for a
      truthy value that is not an array, else a warning per bad code. */
  function CountriesReport(cs: Value, name: string, notArray: string, lead: string): Report
  {
    if !Truthy(cs) then NoIssues()
    else if !cs.Arr? then Error(Str(name), notArray)
    else Report([], CountryWarnings(cs.items, name, lead))
  }

  method CheckCountries(cs: Value, name: string, notArray: string, lead: string, result: ValidationResult)
    modifies result
    ensures result.errors == old(result.errors) + CountriesReport(cs, name, notArray, lead).errors
    ensures result.warnings == old(result.warnings) + CountriesReport(cs, name, notArray, lead).warnings
  {
    if Truthy(cs) {
      if !cs.Arr? {
        result.AddError(Str(name), notArray);
      } else {
        WarnCountries(cs.items, name, lead, result);
      }
    }
  }

  // ----- validateBin ---------------------------------------------------------

  /** `BIN "${bin.bin}"`, the opening of the BIN checks' messages. */
  function Shown(bin: Value): string
  {
    "BIN \"" + ToJsString(bin) + "\""
  }

  /** The `bin` check of `validateBin`. */
  function BinFieldReport(bin: Value, name: string): Report
  {
    if !Truthy(bin) || !bin.Str? then Error(Str(name), BadBinField)
    else if !BinDigits(bin.s) then Warning(Str(name), Shown(bin) + BinNotDigits)
    else NoIssues()
  }

  /** The `type` check of `validateBin`, which only warns. */
  function BinTypeWarnings(bin: Value, ty: Value, name: string): seq<Issue>
  {
    if !Truthy(ty) then [Issue(Str(name), Shown(bin) + BinMissingType)] else []
  }

  /** What `validateBin` adds for one BIN entry. */
  function BinReport(b: Value, name: string): Report
  {
    var bin := Get(b, "bin");
    Then(BinFieldReport(bin, name),
      Then(Report([], BinTypeWarnings(bin, Get(b, "type"), name)),
        CountriesReport(Get(b, "countries"), name, Shown(bin) + BinCountriesNotArray, Shown(bin) + BinCountryLead)))
  }

  /** A BIN entry draws an error only for a missing or non-string `bin` or a
      non-array `countries`; a `bin` that is not 6 to 8 digits, a missing
      `type` and an unusual country code draw warnings only. */
  lemma BinAccepted(b: Value, name: string)
    ensures BinReport(b, name).errors == [] <==>
      Get(b, "bin").Str? && Get(b, "bin").s != "" &&
      (Truthy(Get(b, "countries")) ==> Get(b, "countries").Arr?)
    ensures Get(b, "bin").Str? && Get(b, "bin").s != "" ==>
      (BinReport(b, name).warnings == [] <==>
        BinDigits(Get(b, "bin").s) && Truthy(Get(b, "type")) &&
        (Get(b, "countries").Arr? ==> forall i :: 0 <= i < |Get(b, "countries").items| ==> CountryCode(Get(b, "countries").items[i])))
  {
    var cs := Get(b, "countries");
    if cs.Arr? {
      CountryWarningsCount(cs.items, name, Shown(Get(b, "bin")) + BinCountryLead);
    }
  }

  method CheckBinField(bin: Value, name: string, result: ValidationResult)
    modifies result
    ensures result.errors == old(result.errors) + BinFieldReport(bin, name).errors
    ensures result.warnings == old(result.warnings) + BinFieldReport(bin, name).warnings
  {
    if !Truthy(bin) || !bin.Str? {
      result.AddError(Str(name), BadBinField);
    } else if !BinDigits(bin.s) {
      result.AddWarning(Str(name), Shown(bin) + BinNotDigits);
    }
  }

  /** `validateBin(bin, sourceName, result)`. */
  method ValidateBin(b: Value, name: string, result: ValidationResult)
    requires Present(b)
    modifies result
    ensures result.errors == old(result.errors) + BinReport(b, name).errors
    ensures result.warnings == old(result.warnings) + BinReport(b, name).warnings
  {
    var bin := Get(b, "bin");
    CheckBinField(bin, name, result);
    ghost var w1 := result.warnings;
    if !Truthy(Get(b, "type")) {
      result.AddWarning(Str(name), Shown(bin) + BinMissingType);
    }
    ghost var t := BinTypeWarnings(bin, Get(b, "type"), name);
    assert result.warnings == w1 + t;
    CheckCountries(Get(b, "countries"), name, Shown(bin) + BinCountriesNotArray, Shown(bin) + BinCountryLead, result);
    ghost var f := BinFieldReport(bin, name);
    ghost var k := CountriesReport(Get(b, "countries"), name, Shown(bin) + BinCountriesNotArray, Shown(bin) + BinCountryLead);
    assert old(result.errors) + f.errors + k.errors == old(result.errors) + (f.errors + ([] + k.errors));
    assert old(result.warnings) + f.warnings + t + k.warnings == old(result.warnings) + (f.warnings + (t + k.warnings));
  }

  /** What `bins.forEach(b => validateBin(b, …))` adds. */
  function BinsReport(bs: seq<Value>, name: string): Report
  {
    if bs == [] then NoIssues()
    else Then(BinsReport(bs[..|bs| - 1], name), BinReport(bs[|bs| - 1], name))
  }

  /** The BIN entries draw no error exactly when none of them does. */
  lemma {:induction false} BinsAccepted(bs: seq<Value>, name: string)
    ensures BinsReport(bs, name).errors == [] <==> forall i :: 0 <= i < |bs| ==> BinReport(bs[i], name).errors == []
  {
    if bs != [] {
      var init := bs[..|bs| - 1];
      BinsAccepted(init, name);
      forall i | 0 <= i < |init| ensures BinReport(init[i], name) == BinReport(bs[i], name) {
        assert init[i] == bs[i];
      }
    }
  }

  lemma BinsReportStep(bs: seq<Value>, i: nat, name: string)
    requires i < |bs|
    ensures BinsReport(bs[..i + 1], name).errors == BinsReport(bs[..i], name).errors + BinReport(bs[i], name).errors
    ensures BinsReport(bs[..i + 1], name).warnings == BinsReport(bs[..i], name).warnings + BinReport(bs[i], name).warnings
  {
    assert bs[..i + 1][..i] == bs[..i];
  }

  method ValidateBins(bs: seq<Value>, name: string, result: ValidationResult)
    requires AllPresent(bs)
    modifies result
    ensures result.errors == old(result.errors) + BinsReport(bs, name).errors
    ensures result.warnings == old(result.warnings) + BinsReport(bs, name).warnings
  {
    var i := 0;
    while i < |bs|
      invariant 0 <= i <= |bs|
      invariant result.errors == old(result.errors) + BinsReport(bs[..i], name).errors
      invariant result.warnings == old(result.warnings) + BinsReport(bs[..i], name).warnings
    {
      ghost var before := BinsReport(bs[..i], name);
      ghost var one := BinReport(bs[i], name);
      BinsReportStep(bs, i, name);
      ValidateBin(bs[i], name, result);
      AppendAssoc(old(result.errors), before.errors, one.errors);
      AppendAssoc(old(result.warnings), before.warnings, one.warnings);
      i := i + 1;
    }
    assert bs[..|bs|] == bs;
  }

  // ----- validateSource ------------------------------------------------------

  const SourceRequired: seq<string> := ["scheme", "brand", "patterns"]

  const CompiledRequired: seq<string> := ["scheme", "brand", "type", "number", "cvv", "patterns"]

  /** The errors of `for (const field of required) if (!v[field]) …`. */
  function RequiredErrors(v: Value, fields: seq<string>, tag: Value): seq<Issue>
  {
    if fields == [] then []
    else
      var f := fields[|fields| - 1];
      RequiredErrors(v, fields[..|fields| - 1], tag)
        + (if Truthy(Get(v, f)) then [] else [Issue(tag, MissingField + f + "\"")])
  }

  /** No required-field error exactly when every required field is truthy. */
  lemma {:induction false} RequiredAccepted(v: Value, fields: seq<string>, tag: Value)
    ensures RequiredErrors(v, fields, tag) == [] <==> forall i :: 0 <= i < |fields| ==> Truthy(Get(v, fields[i]))
    ensures |RequiredErrors(v, fields, tag)| <= |fields|
  {
    if fields != [] {
      var init := fields[..|fields| - 1];
      RequiredAccepted(v, init, tag);
      assert forall i :: 0 <= i < |init| ==> init[i] == fields[i];
    }
  }

  method CheckRequired(v: Value, fields: seq<string>, tag: Value, result: ValidationResult)
    modifies result
    ensures result.errors == old(result.errors) + RequiredErrors(v, fields, tag)
    ensures result.warnings == old(result.warnings)
  {
    var i := 0;
    while i < |fields|
      invariant 0 <= i <= |fields|
      invariant result.errors == old(result.errors) + RequiredErrors(v, fields[..i], tag)
      invariant result.warnings == old(result.warnings)
    {
      assert fields[..i + 1][..i] == fields[..i];
      if !Truthy(Get(v, fields[i])) {
        result.AddError(tag, MissingField + fields[i] + "\"");
      }
      i := i + 1;
    }
    assert fields[..|fields|] == fields;
  }

  /** The patterns check of `validateSource`. */
  function SourcePatternsReport(ps: Value, name: string, compile: RegexCheck): Report
  {
    if !ps.Arr? || |ps.items| == 0 then Error(Str(name), BadPatterns)
    else Report(PatternsErrors(ps.items, name, compile), [])
  }

  /** The bins check of `validateSource`. */
  function SourceBinsReport(bs: Value, name: string): Report
  {
    if !Truthy(bs) then NoIssues()
    else if !bs.Arr? then Error(Str(name), BinsNotArray)
    else BinsReport(bs.items, name)
  }

  /** The scheme format check of `validateSource`, which only warns. */
  function SchemeWarnings(scheme: Value, name: string): seq<Issue>
  {
    if Truthy(scheme) && !SchemeFormat(ToJsString(scheme)) then [Issue(Str(name), BadScheme)]
    else []
  }

  /** The type check of `validateSource`, which only warns. */
  function TypeWarnings(ty: Value, name: string): seq<Issue>
  {
    if Truthy(ty) && ty != Str("credit") && ty != Str("debit") then [Issue(Str(name), BadType)]
    else []
  }

  /** What `validateSource(source, sourceName, result)` adds: required
      fields, scheme format, patterns, type, countries and bins, in that
      order. */
  function SourceReport(source: Value, name: string, compile: RegexCheck): Report
  {
    Then(Report(RequiredErrors(source, SourceRequired, Str(name)), SchemeWarnings(Get(source, "scheme"), name)),
         FieldsReport(source, name, compile))
  }

  /** The part after the required fields and the scheme. */
  function FieldsReport(source: Value, name: string, compile: RegexCheck): Report
  {
    Then(SourcePatternsReport(Get(source, "patterns"), name, compile),
    Then(Report([], TypeWarnings(Get(source, "type"), name)), ListsReport(source, name)))
  }

  /** The part about `countries` and `bins`. */
  function ListsReport(source: Value, name: string): Report
  {
    Then(CountriesReport(Get(source, "countries"), name, CountriesNotArray, CountryLead),
         SourceBinsReport(Get(source, "bins"), name))
  }

  /** The values `validateSource` reads properties of are present: the
      source, and the patterns and BIN entries it visits. */
  predicate Readable(source: Value)
  {
    && Present(source)
    && (Get(source, "patterns").Arr? ==> AllPresent(Get(source, "patterns").items))
    && (Get(source, "bins").Arr? ==> AllPresent(Get(source, "bins").items))
  }

  /** A source draws no error exactly when scheme, brand and patterns are
      truthy, the patterns are a non-empty array of patterns that draw no
      error, and `countries` and `bins`, when truthy, are arrays, the latter
      of BIN entries that draw no error. The scheme's format, the type and
      the country codes never cause an error. */
  lemma SourceAccepted(source: Value, name: string, compile: RegexCheck)
    ensures SourceReport(source, name, compile).errors == [] <==>
      var ps := Get(source, "patterns");
      var cs := Get(source, "countries");
      var bs := Get(source, "bins");
      && Truthy(Get(source, "scheme")) && Truthy(Get(source, "brand"))
      && ps.Arr? && |ps.items| > 0
      && (forall i :: 0 <= i < |ps.items| ==> PatternErrors(ps.items[i], PatternName(name, i), compile) == [])
      && (Truthy(cs) ==> cs.Arr?)
      && (Truthy(bs) ==> bs.Arr? && forall i :: 0 <= i < |bs.items| ==> BinReport(bs.items[i], name).errors == [])
  {
    SourceRequiredAccepted(source, name);
    FieldsAccepted(source, name, compile);
    ListsAccepted(source, name);
    assert SourceReport(source, name, compile).errors
      == RequiredErrors(source, SourceRequired, Str(name)) + FieldsReport(source, name, compile).errors;
  }

  lemma SourceRequiredAccepted(source: Value, name: string)
    ensures RequiredErrors(source, SourceRequired, Str(name)) == [] <==>
      Truthy(Get(source, "scheme")) && Truthy(Get(source, "brand")) && Truthy(Get(source, "patterns"))
  {
    RequiredAccepted(source, SourceRequired, Str(name));
    assert SourceRequired[0] == "scheme" && SourceRequired[1] == "brand" && SourceRequired[2] == "patterns";
  }

  lemma FieldsAccepted(source: Value, name: string, compile: RegexCheck)
    ensures FieldsReport(source, name, compile).errors == [] <==>
      var ps := Get(source, "patterns");
      && ps.Arr? && |ps.items| > 0
      && (forall i :: 0 <= i < |ps.items| ==> PatternErrors(ps.items[i], PatternName(name, i), compile) == [])
      && ListsReport(source, name).errors == []
  {
    var ps := Get(source, "patterns");
    if ps.Arr? {
      PatternsAccepted(ps.items, name, compile);
    }
  }

  lemma ListsAccepted(source: Value, name: string)
    ensures ListsReport(source, name).errors == [] <==>
      var cs := Get(source, "countries");
      var bs := Get(source, "bins");
      && (Truthy(cs) ==> cs.Arr?)
      && (Truthy(bs) ==> bs.Arr? && forall i :: 0 <= i < |bs.items| ==> BinReport(bs.items[i], name).errors == [])
  {
    var bs := Get(source, "bins");
    if bs.Arr? {
      BinsAccepted(bs.items, name);
    }
  }

  method CheckScheme(scheme: Value, name: string, result: ValidationResult)
    modifies result
    ensures result.errors == old(result.errors)
    ensures result.warnings == old(result.warnings) + SchemeWarnings(scheme, name)
  {
    if Truthy(scheme) && !SchemeFormat(ToJsString(scheme)) {
      result.AddWarning(Str(name), BadScheme);
    }
  }

  method CheckSourcePatterns(ps: Value, name: string, compile: RegexCheck, result: ValidationResult)
    requires ps.Arr? ==> AllPresent(ps.items)
    modifies result
    ensures result.errors == old(result.errors) + SourcePatternsReport(ps, name, compile).errors
    ensures result.warnings == old(result.warnings)
  {
    if !ps.Arr? || |ps.items| == 0 {
      result.AddError(Str(name), BadPatterns);
    } else {
      ValidatePatterns(ps.items, name, compile, result);
    }
  }

  method CheckType(ty: Value, name: string, result: ValidationResult)
    modifies result
    ensures result.errors == old(result.errors)
    ensures result.warnings == old(result.warnings) + TypeWarnings(ty, name)
  {
    if Truthy(ty) && ty != Str("credit") && ty != Str("debit") {
      result.AddWarning(Str(name), BadType);
    }
  }

  method CheckSourceBins(bs: Value, name: string, result: ValidationResult)
    requires bs.Arr? ==> AllPresent(bs.items)
    modifies result
    ensures result.errors == old(result.errors) + SourceBinsReport(bs, name).errors
    ensures result.warnings == old(result.warnings) + SourceBinsReport(bs, name).warnings
  {
    if Truthy(bs) {
      if !bs.Arr? {
        result.AddError(Str(name), BinsNotArray);
      } else {
        ValidateBins(bs.items, name, result);
      }
    }
  }

  /** `validateSource(source, sourceName, result)`. */
  method ValidateSource(source: Value, name: string, compile: RegexCheck, result: ValidationResult)
    requires Readable(source)
    modifies result
    ensures result.errors == old(result.errors) + SourceReport(source, name, compile).errors
    ensures result.warnings == old(result.warnings) + SourceReport(source, name, compile).warnings
  {
    ghost var e0, w0 := result.errors, result.warnings;
    ghost var req := RequiredErrors(source, SourceRequired, Str(name));
    ghost var sw := SchemeWarnings(Get(source, "scheme"), name);
    ghost var fr := FieldsReport(source, name, compile);
    CheckRequired(source, SourceRequired, Str(name), result);
    CheckScheme(Get(source, "scheme"), name, result);
    CheckFields(source, name, compile, result);
    AppendAssoc(e0, req, fr.errors);
    AppendAssoc(w0, sw, fr.warnings);
  }

  /** Patterns, type, countries and bins, in that order. */
  method CheckFields(source: Value, name: string, compile: RegexCheck, result: ValidationResult)
    requires Readable(source)
    modifies result
    ensures result.errors == old(result.errors) + FieldsReport(source, name, compile).errors
    ensures result.warnings == old(result.warnings) + FieldsReport(source, name, compile).warnings
  {
    ghost var e0, w0 := result.errors, result.warnings;
    ghost var pr := SourcePatternsReport(Get(source, "patterns"), name, compile);
    ghost var tw := TypeWarnings(Get(source, "type"), name);
    ghost var lr := ListsReport(source, name);
    CheckSourcePatterns(Get(source, "patterns"), name, compile, result);
    CheckType(Get(source, "type"), name, result);
    CheckLists(source, name, result);
    assert FieldsReport(source, name, compile).errors == pr.errors + ([] + lr.errors);
    assert FieldsReport(source, name, compile).warnings == pr.warnings + (tw + lr.warnings);
    assert pr.warnings == [];
    assert [] + lr.errors == lr.errors;
    AppendAssoc(e0, pr.errors, lr.errors);
    AppendAssoc(w0, tw, lr.warnings);
  }

  /** Countries, then bins. */
  method CheckLists(source: Value, name: string, result: ValidationResult)
    requires Readable(source)
    modifies result
    ensures result.errors == old(result.errors) + ListsReport(source, name).errors
    ensures result.warnings == old(result.warnings) + ListsReport(source, name).warnings
  {
    ghost var e0, w0 := result.errors, result.warnings;
    ghost var cr := CountriesReport(Get(source, "countries"), name, CountriesNotArray, CountryLead);
    ghost var br := SourceBinsReport(Get(source, "bins"), name);
    CheckCountries(Get(source, "countries"), name, CountriesNotArray, CountryLead, result);
    CheckSourceBins(Get(source, "bins"), name, result);
    AppendAssoc(e0, cr.errors, br.errors);
    AppendAssoc(w0, cr.warnings, br.warnings);
  }

  // ----- partial sources -----------------------------------------------------

  /** `isPartialSource`: a BIN-only file, with bins and without patterns. */
  predicate IsPartialSource(source: Value)
  {
    Truthy(Get(source, "bins")) && !Truthy(Get(source, "patterns"))
  }

  /** What `validatePartialSource(source, sourceName, result)` adds. */
  function PartialReport(source: Value, name: string): Report
  {
    var bs := Get(source, "bins");
    if !Truthy(bs) || !bs.Arr? then Error(Str(name), PartialWithoutBins)
    else Then(BinsReport(bs.items, name),
      if Truthy(Get(source, "patterns")) then Warning(Str(name), PartialWithPatterns)
      else NoIssues())
  }

  /** Without a bins array a partial source draws exactly one error and
      nothing else; with one, it draws an error only through its BIN
      entries, and defining patterns only warns. */
  lemma PartialAccepted(source: Value, name: string)
    ensures !Get(source, "bins").Arr? ==>
      PartialReport(source, name) == Error(Str(name), PartialWithoutBins)
    ensures PartialReport(source, name).errors == [] <==>
      Get(source, "bins").Arr? && forall i :: 0 <= i < |Get(source, "bins").items| ==> BinReport(Get(source, "bins").items[i], name).errors == []
  {
    var bs := Get(source, "bins");
    if bs.Arr? {
      BinsAccepted(bs.items, name);
    }
  }

  /** `validatePartialSource(source, sourceName, result)`. */
  method ValidatePartialSource(source: Value, name: string, result: ValidationResult)
    requires Present(source) && (Get(source, "bins").Arr? ==> AllPresent(Get(source, "bins").items))
    modifies result
    ensures result.errors == old(result.errors) + PartialReport(source, name).errors
    ensures result.warnings == old(result.warnings) + PartialReport(source, name).warnings
  {
    var bs := Get(source, "bins");
    if !Truthy(bs) || !bs.Arr? {
      result.AddError(Str(name), PartialWithoutBins);
      return;
    }
    ValidateBins(bs.items, name, result);
    if Truthy(Get(source, "patterns")) {
      result.AddWarning(Str(name), PartialWithPatterns);
    }
  }

  // ----- whole runs ----------------------------------------------------------

  /** One merged source as the reader hands it over. */
  datatype SourceEntry = SourceEntry(source: Value, schemeName: string, sourceFiles: seq<string>)

  /** The name issues of a source are filed under: its file when it has one,
      else its scheme's directory. */
  function EntryName(e: SourceEntry): string
  {
    if |e.sourceFiles| == 1 then e.sourceFiles[0] else e.schemeName
  }

  /** The errors the source of one entry draws. */
  function EntryErrors(compile: RegexCheck): SourceEntry -> seq<Issue>
  {
    (e: SourceEntry) => SourceReport(e.source, EntryName(e), compile).errors
  }

  /** `validateSources` after reading: validate every source into one
      collector and succeed exactly when no error was added. */
  method ValidateSources(entries: seq<SourceEntry>, compile: RegexCheck) returns (ok: bool)
    requires forall k :: 0 <= k < |entries| ==> Readable(entries[k].source)
    ensures ok <==> forall k :: 0 <= k < |entries| ==> SourceReport(entries[k].source, EntryName(entries[k]), compile).errors == []
  {
    var result := new ValidationResult();
    var k := 0;
    while k < |entries|
      invariant 0 <= k <= |entries|
      invariant result.errors == FlatMap(entries[..k], EntryErrors(compile))
    {
      var e := entries[k];
      var name := if |e.sourceFiles| == 1 then e.sourceFiles[0] else e.schemeName;
      FlatMapStep(entries, EntryErrors(compile), k);
      ValidateSource(e.source, name, compile, result);
      k := k + 1;
    }
    assert entries[..k] == entries;
    FlatMapEmpty(entries, EntryErrors(compile));
    ok := !result.HasErrors();
  }

  /** `validatePath` on one `.json` file after reading it: a partial source
      is validated as such, any other as a full source, and the run succeeds
      exactly when no error was added; warnings never make it fail. */
  method ValidateFile(source: Value, fileName: string, compile: RegexCheck) returns (ok: bool)
    requires Readable(source)
    ensures IsPartialSource(source) ==> (ok <==> PartialReport(source, fileName).errors == [])
    ensures !IsPartialSource(source) ==> (ok <==> SourceReport(source, fileName, compile).errors == [])
  {
    var result := new ValidationResult();
    if Truthy(Get(source, "bins")) && !Truthy(Get(source, "patterns")) {
      ValidatePartialSource(source, fileName, result);
    } else {
      ValidateSource(source, fileName, compile, result);
    }
    ok := !result.HasErrors();
  }

  /** The errors `validateCompiled` adds for one compiled brand: a missing
      required field, filed under its scheme or 'unknown', then the errors of
      its patterns when they are an array. */
  function CompiledErrors(brand: Value, compile: RegexCheck): seq<Issue>
  {
    var scheme := Get(brand, "scheme");
    var ps := Get(brand, "patterns");
    RequiredErrors(brand, CompiledRequired, Or(scheme, Str("unknown")))
      + (if ps.Arr? then PatternsErrors(ps.items, ToJsString(scheme), compile) else [])
  }

  /** A compiled brand draws no error exactly when its six required fields
      are truthy and its patterns, an array, draw none. */
  lemma CompiledAccepted(brand: Value, compile: RegexCheck)
    ensures CompiledErrors(brand, compile) == [] <==>
      var ps := Get(brand, "patterns");
      && (forall i :: 0 <= i < |CompiledRequired| ==> Truthy(Get(brand, CompiledRequired[i])))
      && (ps.Arr? ==> forall i :: 0 <= i < |ps.items| ==> PatternErrors(ps.items[i], PatternName(ToJsString(Get(brand, "scheme")), i), compile) == [])
  {
    var ps := Get(brand, "patterns");
    RequiredAccepted(brand, CompiledRequired, Or(Get(brand, "scheme"), Str("unknown")));
    if ps.Arr? {
      PatternsAccepted(ps.items, ToJsString(Get(brand, "scheme")), compile);
    }
  }

  /** `validateCompiled(compiledBrands)`: succeeds exactly when no brand
      draws an error. */
  method ValidateCompiled(brands: seq<Value>, compile: RegexCheck) returns (ok: bool)
    requires forall k :: 0 <= k < |brands| ==> Present(brands[k])
    requires forall k :: 0 <= k < |brands| ==> Get(brands[k], "patterns").Arr? ==> AllPresent(Get(brands[k], "patterns").items)
    ensures ok <==> forall k :: 0 <= k < |brands| ==> CompiledErrors(brands[k], compile) == []
  {
    var result := new ValidationResult();
    var k := 0;
    while k < |brands|
      invariant 0 <= k <= |brands|
      invariant result.errors == [] <==> forall j :: 0 <= j < k ==> CompiledErrors(brands[j], compile) == []
    {
      var brand := brands[k];
      var scheme := Get(brand, "scheme");
      CheckRequired(brand, CompiledRequired, if Truthy(scheme) then scheme else Str("unknown"), result);
      var ps := Get(brand, "patterns");
      if ps.Arr? {
        ValidatePatterns(ps.items, ToJsString(scheme), compile, result);
      }
      k := k + 1;
    }
    ok := !result.HasErrors();
  }
}
