# bin-cc, modelled in Dafny

bin-cc identifies the brand of a payment card (Visa, Mastercard, Elo, Amex,
Hipercard, …) from its number, checks the number's Luhn check digit and
validates a CVV against the brand. One catalog of brands drives everything.
Each brand has a name, the brands it takes priority over, a BIN pattern, a
full-number pattern and a CVV pattern. The catalog is compiled at build time
from JSON source files and shipped to runtime libraries in Go, PHP, Java,
Rust, JavaScript, Python, Ruby and .NET.

This project models the classification engine and the build pipeline that
produces its catalog:

- **The Luhn check** (`luhn.dfy`). This is the right-to-left mod-10 scan of
  ISO/IEC 7812-1, Annex B, with its doubled-digit lookup table. It is proved
  against a total-based definition, with the PHP `empty("0")` and Java null
  variants.
- **The catalog and selection rules** (`catalog.dfy`):
  - lookup by name;
  - CVV patterns `^\d{n}$`, read back and matched concretely under each
    engine's anchoring of `$`;
  - the first match in catalog order;
  - the `priorityOver` rule of the Go and PHP ports, with its loops proved
    against it.
- **Each runtime port's lookups**: `go_validator.dfy`, `php_validator.dfy`,
  `java_validator.dfy`, `rust_validator.dfy`, `js_identifier.dfy`, and
  `first_match_validator.dfy` for Python, Ruby and .NET. Go's length
  window, parsed out of a lookahead in the full pattern, is modelled in
  full. `cross_port.dfy` compares the ports with one another.
- **The build pipeline**:
  - `transformers.js` metadata, full-pattern synthesis and the simplified
    and detailed record formats (`transformers.dfy`), with the JavaScript
    number conversion, `Math.min`, `Math.max` and `sort((a, b) => a - b)`
    they rely on (`js_number.dfy`);
  - the Go port reading the build's full pattern back
    (`pattern_round_trip.dfy`);
  - multi-file source merging (`source_reader.dfy`);
  - the structural validator with its error and warning collector
    (`validate.dfy`);
  - the older `build.js` pattern building, record mapping and error count
    (`build.dfy`).
- **The code generators' literal writers and file layouts**:
  `literals.dfy`, `generated.dfy`, `java_generator.dfy`,
  `go_generator.dfy`, `rust_generator.dfy` and `php_generator.dfy`. Escaped
  literals are proved to read back as the text they encode, and each
  generated file is proved to hold one block per brand, in input order.

JSON values and JavaScript values are one datatype (`json.dfy`).
String utilities that mirror JavaScript's `split`, `join`, `replace` and
set-based deduplication are in `text.dfy`.

Regular-expression matching of full and BIN patterns is a parameter
`m(pattern, text)` about which nothing is assumed. "Does this pattern
compile" is likewise a parameter. Catalog data, file contents, the
generators' fixed text and `fileHeader` lines are parameters too. Nothing
is read from disk.

Behaviours of the code that the model keeps as written:

- Java picks a brand in `HashMap` iteration order. That order is a
  parameter, and `JavaValidator.AgreesWithFirstMatch` states when it does
  not matter.
- Go removes *every* length lookahead from the full pattern but reads its
  bounds from the first one.
- The Python, Ruby and .NET CVV checks have no emptiness guard, so a
  declared CVV length of 0 accepts "".
- `build.js` keeps lengths in first-occurrence order, unsorted, where
  `transformers.js` sorts them.
- `transformers.js` does not reject a missing or non-numeric `length`: it
  converts it the JavaScript way, so a missing one gives the window
  `{NaN,NaN}`, "16" gives `{16}` and `null` counts as 0.
- Go compares its length window with the byte length of the number's UTF-8
  encoding, not with its number of characters.

## Model

| member | source | states |
|---|---|---|
| `Luhn.LookupIsDoubledDigitSum` | libs/go/validator.go:10 | each entry of the lookup table is the digit sum of twice its index |
| `Luhn.ContributionMeaning` | libs/java/src/main/java/com/creditcard/identifier/CreditCardValidator.java:69-70 | a digit an even number of places from the right adds itself, one an odd number of places adds the digit sum of its double |
| `Luhn.Luhn` | libs/go/validator.go:89-113 | the scan returns true exactly for a non-empty string of ASCII digits whose weighted total is a multiple of ten; empty input and any non-digit give false (the same loop as lib.rs:46-69 and the Java and PHP loops) |
| `Luhn.LuhnPhp` | libs/php/src/CreditCardValidator.php:51-71 | as the shared scan, except that `empty()` also refuses "0" |
| `Luhn.LuhnJava` | libs/java/src/main/java/com/creditcard/identifier/CreditCardValidator.java:55-74 | null is not valid; otherwise as the shared scan |
| `Luhn.PhpDiffersOnlyOnZero` | libs/php/src/CreditCardValidator.php:53-55 | PHP and the other ports disagree on exactly one input, "0" |
| `Luhn.ExampleVisaValid` | libs/rust/src/lib.rs:186 | "4012001037141112" is valid |
| `Luhn.ExampleVisaInvalid` | libs/rust/src/lib.rs:187 | "4012001037141113" is not valid |
| `Luhn.ExampleAmexValid` | libs/go/validator_test.go:11 | "378282246310005" is valid |
| `Luhn.ExampleSequenceInvalid` | libs/go/validator_test.go:23 | "1234567890123456" is not valid |
| `Luhn.ExampleMalformed` | libs/go/validator_test.go:24 | "" and a number written with dashes are not valid |
| `Luhn.SingleDigitErrorDetected` | libs/go/validator.go:112 | changing any one digit of a valid number makes it invalid |
| `Catalog.IndexOfName` | libs/go/validator.go:209-216 | the position of the first brand with the name, none when no brand has it |
| `Catalog.BrandNamed` | libs/rust/src/lib.rs:154-156 | brand-info lookup: the first brand with that name, or nothing when none has it |
| `Catalog.DetailedNamed` | libs/go/validator.go:219-226 | detailed lookup: the first detailed record with that scheme, or nothing |
| `Catalog.Names` | libs/rust/src/lib.rs:176-178 | the names, same length and order as the catalog |
| `Catalog.ParseCvvPattern` | scripts/lib/transformers.js:117 | reading `^\d{n}$` back: a result n means the text is exactly the pattern of n |
| `Catalog.ParseCvvPatternRoundTrip` | scripts/lib/transformers.js:117 | the CVV pattern written for n >= 0 reads back as n |
| `Catalog.CvvPatternAccepts` | libs/go/validator.go:198-203 | the CVV pattern of n accepts what the engine's anchoring lets `^\d{n}$` accept |
| `Catalog.DigitsAcceptedEverywhere` | libs/php/src/CreditCardValidator.php:164 | exactly n ASCII digits pass under every anchoring |
| `Catalog.AnchoringsAgreeWithoutNewline` | libs/dotnet/CreditCardIdentifier/Validator.cs:59 | without a newline every anchoring accepts exactly the runs of n digits |
| `Catalog.AnchoringsDifferOnNewline` | libs/python/creditcard_identifier/validator.py:83-84 | "123\n" passes a three-digit check in Python, PHP and .NET but not Go; "12\n123" only in Ruby |
| `Catalog.FirstMatchIndex` | libs/rust/src/lib.rs:86-89 | the first position whose full pattern matches: it matches and none before it does |
| `Catalog.FirstMatch` | libs/rust/src/lib.rs:80-90 | nothing exactly when no brand matches; otherwise the name of a matching brand with no match before it |
| `Catalog.Matching` | libs/php/src/CreditCardValidator.php:86-91 | a brand is kept exactly when it is in the catalog and its full pattern matches; never more than the catalog |
| `Catalog.MatchingPositions` | libs/php/src/CreditCardValidator.php:86-91 | the positions of the matching brands: each matching position once, in increasing order, and no other |
| `Catalog.MatchingInOrder` | libs/php/src/CreditCardValidator.php:86-91 | the match list holds the brands at those positions, in catalog order, one entry per position |
| `Catalog.FirstMatchIndexIs` | libs/rust/src/lib.rs:88 | a matching position after a run of non-matching ones is the first match |
| `Catalog.MatchingNonEmpty` | libs/php/src/CreditCardValidator.php:93-95 | the match list is empty exactly when no brand matches |
| `Catalog.MatchingStartsWithFirstMatch` | libs/php/src/CreditCardValidator.php:112-113 | the first element of the match list is the first match in catalog order |
| `Catalog.FirstWithPriority` | libs/php/src/CreditCardValidator.php:104-110 | the first candidate at or after a position whose `priorityOver` names a matching brand; none before it has one |
| `Catalog.Resolve` | libs/php/src/CreditCardValidator.php:93-113 | nothing exactly when there is no match; otherwise the name of a match (which one: `ResolvePicksWinner`) |
| `Catalog.WinnerExists` | libs/go/validator.go:146-168 | every non-empty match list has a winner under the priority rule |
| `Catalog.ResolvePicksWinner` | libs/php/src/CreditCardValidator.php:97-113 | the answer is the winner's name, so the single-match shortcut agrees with the general rule |
| `Catalog.WinnerUnique` | libs/go/validator.go:158-167 | the winner is unique |
| `Catalog.NameSet` | libs/go/validator.go:148-151 | the set of matching names, built one brand at a time |
| `Catalog.PriorityScan` | libs/go/validator.go:153-167 | for two or more matches the nested loops answer what `Resolve` does |
| `Catalog.OrderCovers` | libs/java/src/main/java/com/creditcard/identifier/CreditCardValidator.java:87 | a visiting order lists exactly the brand positions, each once |
| `CrossPort.PriorityFreeIsFirstMatch` | libs/php/src/CreditCardValidator.php:97-113 | when no brand declares `priorityOver`, the priority rule answers the first match; PHP then answers like the first-match ports on every number but "0" on which PCRE and their engine agree |
| `CrossPort.MatchingAgrees` | libs/php/src/CreditCardValidator.php:86-91 | engines that agree on the catalog's patterns keep the same matching brands |
| `CrossPort.FirstMatchAgrees` | libs/rust/src/lib.rs:80-90 | engines that agree on the catalog's patterns find the same first match |
| `CrossPort.CompileWithoutLookahead` | libs/go/validator.go:71-81 | a full pattern without a length lookahead compiles to itself with no length window |
| `CrossPort.SurvivorsWithoutLookahead` | libs/go/validator.go:124-139 | without lookaheads, Go's surviving brands are exactly the matching brands |
| `CrossPort.GoAgreesWithPhpWithoutLookaheads` | libs/go/validator.go:116-168 | without lookaheads Go and PHP give the same answer on every number except "0" on which RE2 and PCRE agree about the catalog's patterns |
| `CrossPort.PhpPicksElo` | libs/php/src/CreditCardValidator.php:101-110 | on a number both Visa and Elo match, with Elo over Visa, PHP picks Elo |
| `CrossPort.FirstMatchPortsPickVisa` | libs/rust/src/lib.rs:86-89 | on the same input Rust, Python, Ruby, .NET and JavaScript pick Visa |
| `CrossPort.JavaDependsOnOrder` | libs/java/src/main/java/com/creditcard/identifier/CreditCardValidator.java:87-91 | Java picks Visa under one hash order and Elo under the other |
| `CrossPort.ZeroNumberOnlyRefusedByPhp` | libs/php/src/CreditCardValidator.php:81-83 | a catalog matching "0" gets a brand from Go and Rust and nothing from PHP |
| `CrossPort.EmptyCvvOnlyAcceptedWithoutGuard` | libs/python/creditcard_identifier/validator.py:79-84 | with a declared CVV length 0, Python, Ruby and .NET accept "" while Go, Rust and PHP refuse it |
| `FirstMatchValidator.FindBrand` | libs/python/creditcard_identifier/validator.py:46-54 | nothing for a missing or empty number, otherwise the first brand whose full pattern matches (also creditcard_identifier.rb:33-42 and Validator.cs:28-35) |
| `FirstMatchValidator.IsSupported` | libs/ruby/lib/creditcard_identifier.rb:49-51 | true exactly when `FindBrand` finds a brand (also validator.py:56-66, Validator.cs:42-45) |
| `FirstMatchValidator.ValidateCvv` | libs/dotnet/CreditCardIdentifier/Validator.cs:53-60 | false for an unknown brand, else the first same-named brand's CVV pattern decides (also validator.py:79-84, creditcard_identifier.rb:59-65) |
| `FirstMatchValidator.ValidateCvvSpec` | libs/python/creditcard_identifier/validator.py:79-84 | for a CVV pattern `^\d{n}$`: what the anchoring accepts; without a newline, exactly the runs of n ASCII digits, "" included when n is 0 |
| `FirstMatchValidator.DefaultValidator.constructor` | libs/python/creditcard_identifier/validator.py:108-109 | no default validator exists yet |
| `FirstMatchValidator.DefaultValidator.Get` | libs/python/creditcard_identifier/validator.py:112-117 | creates the validator only the first time and returns the same one afterwards |
| `FirstMatchValidator.DefaultValidator.FindBrandDefault` | libs/ruby/lib/creditcard_identifier.rb:120-122 | the module-level call answers as the default validator's `FindBrand` on the bundled catalog |
| `FirstMatchValidator.DefaultValidator.IsSupportedDefault` | libs/dotnet/CreditCardIdentifier/Validator.cs:113-116 | the static call answers as the default validator's `IsSupported` |
| `GoValidator.LookaheadAt` | libs/go/validator.go:37-38 | a lookahead read at the front of a text is at least seven characters and no longer than the text (`(?=.{d}$)` at least) |
| `GoValidator.LookaheadWellFormed` | libs/go/validator.go:37 | what is read as a lookahead is well formed and at least `(?=.{d}$)` long |
| `GoValidator.BoundsAt` | libs/go/validator.go:37 | the bounds and `}$)` read after `(?=.{` take at least two characters and no more than the text |
| `GoValidator.Atoi` | libs/go/validator.go:47 | `strconv.Atoi` on digits: the value when it fits in a Go int, failure otherwise |
| `GoValidator.ExtractLengthFromRegex` | libs/go/validator.go:31-65 | no lookahead: the pattern unchanged with (0, 0); otherwise every lookahead removed; both bounds between 0 and Go's largest int |
| `GoValidator.NoLookaheadBeforeFinalDollar` | libs/go/validator.go:40-42 | a text whose only '$' is its last character holds no lookahead and is kept whole |
| `GoValidator.DollarInLookahead` | libs/go/validator.go:42 | every lookahead holds a '$' before the end of the text |
| `GoValidator.BoundsDollar` | libs/go/validator.go:37 | the bounds end in `}$)` |
| `GoValidator.Compile` | libs/go/validator.go:71-81 | a compiled brand keeps the name, `priorityOver`, CVV pattern and original full pattern |
| `GoValidator.CompileAll` | libs/go/validator.go:67-86 | one compiled record per brand, in catalog order |
| `GoValidator.Survivors` | libs/go/validator.go:124-139 | the surviving matches are at most as many as the brands |
| `GoValidator.SurvivorsMembers` | libs/go/validator.go:122-139 | a brand survives the first loop exactly when it is in the catalog, its window admits the number's UTF-8 byte length and its pattern matches |
| `Text.Utf8Length` | libs/go/validator.go:122 | Go's `len`: at least the number of characters, zero only for "", equal to it exactly for ASCII text |
| `GoValidator.SelectSpec` | libs/go/validator.go:116-168 | nothing for "" or when no brand survives; otherwise a surviving brand's name, and whenever a survivor is the priority winner, that winner's name |
| `GoValidator.Select` | libs/go/validator.go:116-168 | what `FindBrand` answers; its contract is stated by `SelectSpec` and `FindBrand` |
| `GoValidator.FindBrand` | libs/go/validator.go:116-168 | the loops of `FindBrand` answer `Select`, which `SelectSpec` characterises |
| `GoValidator.CollectMatches` | libs/go/validator.go:124-139 | the first loop collects exactly the survivors, in order |
| `GoValidator.IsSupported` | libs/go/validator.go:188-190 | true exactly when `FindBrand` finds a brand |
| `GoValidator.FindBrandDetailed` | libs/go/validator.go:172-185 | nothing when `FindBrand` finds nothing, else the first detailed record with that scheme |
| `GoValidator.CompiledCvvIsCatalogLookup` | libs/go/validator.go:198-203 | the CVV lookup over compiled brands is the catalog lookup by name |
| `GoValidator.ValidateCvvSpec` | libs/go/validator.go:193-206 | for a CVV pattern `^\d{n}$`, exactly the non-empty runs of n ASCII digits pass |
| `GoValidator.ValidateCvvRejects` | libs/go/validator.go:194-196 | an empty CVV or an unknown brand never passes |
| `GoValidator.ListBrands` | libs/go/validator.go:229-235 | an array of the names, same length and order as the catalog |
| `GoValidator.LuhnCheck` | libs/go/validator.go:89 | `Luhn` answers `LuhnValid` |
| `PatternRoundTrip.LeadReadBack` | libs/go/validator.go:37-38 | a lookahead on digit runs is read back at the front of any text with those bounds and its own length |
| `PatternRoundTrip.CutLeading` | libs/go/validator.go:42 | removing a leading lookahead leaves what follows it |
| `PatternRoundTrip.ExtractFound` | libs/go/validator.go:44-61 | a lookahead with decimal bounds within Go's int range yields those bounds |
| `PatternRoundTrip.FullPatternShape` | scripts/lib/transformers.js:48-51 | the full pattern is `^`, the lookahead on its bounds, then `(?:bins)[0-9]*$` |
| `PatternRoundTrip.BuildThenExtract` | scripts/lib/transformers.js:42-51 | Go reads the build's full pattern back as the least and greatest declared length and `^(?:bins)[0-9]*$` |
| `PatternRoundTrip.BuiltBrandWindow` | libs/go/validator.go:127-132 | a built brand survives Go's length filter exactly for numbers whose length lies between the least and greatest declared length |
| `JavaValidator.FirstInOrder` | libs/java/src/main/java/com/creditcard/identifier/CreditCardValidator.java:87-91 | the first position in the visiting order whose brand matches, none when no brand matches |
| `JavaValidator.SelectSpec` | libs/java/src/main/java/com/creditcard/identifier/CreditCardValidator.java:82-94 | null for null or "" and when no brand matches; otherwise the name of some matching brand |
| `JavaValidator.AgreesWithFirstMatch` | libs/java/src/main/java/com/creditcard/identifier/CreditCardValidator.java:87-91 | when every match carries the same name, every order gives the first match in catalog order |
| `JavaValidator.FindBrand` | libs/java/src/main/java/com/creditcard/identifier/CreditCardValidator.java:82-94 | the loop over the visiting order answers `Select`: null for null or "", else the first brand in that order that matches |
| `JavaValidator.IsSupported` | libs/java/src/main/java/com/creditcard/identifier/CreditCardValidator.java:123-125 | true exactly when `findBrand` finds a brand |
| `JavaValidator.FindBrandDetailed` | libs/java/src/main/java/com/creditcard/identifier/CreditCardValidator.java:102-115 | null when `findBrand` is null, else the first detailed record with that scheme |
| `JavaValidator.CvvInOrder` | libs/java/src/main/java/com/creditcard/identifier/CreditCardValidator.java:139-143 | the CVV pattern of the first visited brand with the name |
| `JavaValidator.ValidateCvv` | libs/java/src/main/java/com/creditcard/identifier/CreditCardValidator.java:134-146 | false for a null argument or an unknown brand, else the first visited same-named brand's pattern decides |
| `JavaValidator.ValidateCvvSpec` | libs/java/src/main/java/com/creditcard/identifier/CreditCardValidator.java:139-142 | with one brand of that name, every order consults that brand's pattern |
| `JavaValidator.ListBrands` | libs/java/src/main/java/com/creditcard/identifier/CreditCardValidator.java:183-189 | an array of the names, same length and order as the catalog |
| `PhpValidator.SelectSpec` | libs/php/src/CreditCardValidator.php:79-114 | null for an `empty()` number or no match; otherwise a matching brand's name, and whenever a match is the priority winner, that winner's name |
| `PhpValidator.Select` | libs/php/src/CreditCardValidator.php:79-114 | what `findBrand` answers; its contract is stated by `SelectSpec` and `FindBrand` |
| `PhpValidator.FindBrand` | libs/php/src/CreditCardValidator.php:79-114 | the loops answer `Select`, which `SelectSpec` characterises |
| `PhpValidator.IsSupported` | libs/php/src/CreditCardValidator.php:144-147 | true exactly when `findBrand` finds a brand |
| `PhpValidator.FindBrandDetailed` | libs/php/src/CreditCardValidator.php:122-136 | null when `findBrand` is null, else the first detailed record with that scheme |
| `PhpValidator.ValidateCvv` | libs/php/src/CreditCardValidator.php:156-169 | false for an `empty()` CVV (so also "0") or an unknown brand, else the first same-named brand's pattern decides |
| `PhpValidator.ValidateCvvSpec` | libs/php/src/CreditCardValidator.php:158-164 | for a pattern `^\d{n}$`: the runs of n digits, optionally followed by one newline, except "0" |
| `RustValidator.FindBrand` | libs/rust/src/lib.rs:80-90 | None for "", otherwise the first match |
| `RustValidator.FindBrandDetailed` | libs/rust/src/lib.rs:101-107 | None when `find_brand` is None, else the first detailed record with that scheme |
| `RustValidator.IsSupported` | libs/rust/src/lib.rs:118-120 | true exactly for a non-empty number that some full pattern matches, which is when `find_brand` finds a brand |
| `RustValidator.ValidateCvv` | libs/rust/src/lib.rs:132-143 | false for "" or an unknown brand, else the first same-named brand's pattern decides |
| `RustValidator.ValidateCvvSpec` | libs/rust/src/lib.rs:141 | for a pattern `^\d{n}$`, exactly the non-empty runs of n ASCII digits pass |
| `JsIdentifier.FilterByNumber` | libs/javascript/creditcard-identifier.js:6-12 | throws exactly when there is a brand to test and the number is not a string; otherwise the matching brands |
| `JsIdentifier.FindBrandInput` | libs/javascript/creditcard-identifier.js:27-30 | a falsy argument becomes '000000', any other is kept |
| `JsIdentifier.FindBrandSpec` | libs/javascript/creditcard-identifier.js:27-40 | the first matching brand's name, 'card number not supported' thrown when none matches, never undefined |
| `JsIdentifier.IsSupported` | libs/javascript/creditcard-identifier.js:42-52 | falsy input becomes '0000000000000001'; for a string, whether some brand matches; a truthy non-string throws when there is a brand |
| `JsIdentifier.SupportedIffFound` | libs/javascript/creditcard-identifier.js:42-52 | on a truthy string, `isSupported` holds exactly when `findBrand` does not throw |
| `JsIdentifier.HipercardRegexp` | libs/javascript/creditcard-identifier.js:18-25 | hipercard's full pattern when that brand exists, else `^$` |
| `JsIdentifier.NameFilterFirst` | libs/javascript/creditcard-identifier.js:14-19 | the first brand with the name, as the brand-info lookup finds it |
| `Literals.ReadDoubleBodyEscaped` | scripts/lib/generators/java.js:14 | the `\`-first escaping reads back as the original text up to the closing quote |
| `Literals.EscapeDoubleNoBreaks` | scripts/lib/generators/rust.js:13 | the double-quoted escaping leaves no raw newline, carriage return or tab |
| `Literals.ReadSingleBodyEscaped` | scripts/lib/generators/php.js:14 | the single-quoted escaping reads back as the original text |
| `Literals.ReadLiteralQuoted` | scripts/lib/generators/go.js:12 | a quoted literal reads back as its text, whatever follows it |
| `Literals.ReadListJoined` | scripts/lib/generators/go.js:13 | literals joined by `, ` read back as the list of texts |
| `JavaGenerator.JavaStringReadsBack` | scripts/lib/generators/java.js:14 | a string's literal reads back as the string and holds no raw newline, CR or tab |
| `JavaGenerator.JavaStringArrayReadsBack` | scripts/lib/generators/java.js:16 | a non-empty string array is `new String[] { … }` whose elements read back as the strings, in order |
| `JavaGenerator.JavaIntArray` | scripts/lib/generators/java.js:15 | a non-empty number array is `new int[] { … }` of the decimal texts |
| `JavaGenerator.JavaValueOneLine` | scripts/lib/generators/java.js:22-34 | every literal of catalog-shaped data fits on one line |
| `JavaGenerator.ToJavaValue` | scripts/lib/generators/java.js:22-34 | the Java literal of a value; its contract is stated by `JavaStringReadsBack`, `JavaStringArrayReadsBack`, `JavaIntArray` and `JavaValueOneLine` |
| `JavaGenerator.GenerateJava` | scripts/lib/generators/java.js:39-80 | the text is the head, one `add(new Brand(…))` line per brand and the closing lines, joined by newlines |
| `JavaGenerator.BrandLineName` | scripts/lib/generators/java.js:75 | the brand's name reads back from its line |
| `JavaGenerator.BrandLineOneLine` | scripts/lib/generators/java.js:74-75 | a catalog-shaped brand's line holds no newline |
| `JavaGenerator.JavaLinesOneLine` | scripts/lib/generators/java.js:40-78 | no line of the file holds a newline |
| `JavaGenerator.BrandLineAt` | scripts/lib/generators/java.js:73-76 | brand i's line follows the head and the lines of the brands before it |
| `JavaGenerator.JavaFileLayout` | scripts/lib/generators/java.js:73-79 | the file splits back into its lines: exactly one line per brand, in input order |
| `JavaGenerator.GenerateJavaDetailed` | scripts/lib/generators/java.js:86-173 | the text is the cut header lines and the fixed class; the argument is not read |
| `GoGenerator.GoStringReadsBack` | scripts/lib/generators/go.js:21 | a string's literal reads back as it; null and undefined are written `""`, not `nil` |
| `GoGenerator.GoStringArrayReadsBack` | scripts/lib/generators/go.js:26-29 | a non-empty string array is `[]string{…}` whose elements read back in order |
| `GoGenerator.GoValueOneLine` | scripts/lib/generators/go.js:20-32 | every literal of catalog-shaped data fits on one line |
| `GoGenerator.ToGoValue` | scripts/lib/generators/go.js:20-32 | the Go literal of a value; its contract is stated by `GoStringReadsBack`, `GoStringArrayReadsBack` and `GoValueOneLine` |
| `GoGenerator.BrandBlock` | scripts/lib/generators/go.js:59-65 | seven lines per brand |
| `GoGenerator.BrandBlockLines` | scripts/lib/generators/go.js:60-64 | the block line by line, each field with its label |
| `GoGenerator.GenerateGo` | scripts/lib/generators/go.js:37-70 | the text is the head, each brand's block and the closing lines, joined by newlines |
| `GoGenerator.BrandFieldReadsBack` | scripts/lib/generators/go.js:62-64 | each string field reads back from its line |
| `GoGenerator.BrandBlockOneLine` | scripts/lib/generators/go.js:57-66 | a catalog-shaped brand's block holds no newline |
| `GoGenerator.GoLinesOneLine` | scripts/lib/generators/go.js:38-68 | no line of the file holds a newline |
| `GoGenerator.GoFileLayout` | scripts/lib/generators/go.js:57-69 | the file splits back into its lines: exactly seven per brand, in input order |
| `GoGenerator.GenerateGoDetailed` | scripts/lib/generators/go.js:76-155 | the text is the cut header lines and the fixed code; the argument is not read |
| `RustGenerator.RustStringReadsBack` | scripts/lib/generators/rust.js:21-28 | a required string reads back as it; null and undefined read back as "" |
| `RustGenerator.RustOptionalReadsBack` | scripts/lib/generators/rust.js:20-30 | an optional field is `None` when missing, else `Some` of a literal reading back as the string |
| `RustGenerator.RustStringArrayReadsBack` | scripts/lib/generators/rust.js:31-36 | a non-empty string array is `&[…]` whose elements read back in order |
| `RustGenerator.RustValueOneLine` | scripts/lib/generators/rust.js:20-38 | every literal of catalog-shaped data fits on one line |
| `RustGenerator.ToRustValue` | scripts/lib/generators/rust.js:20-38 | the Rust literal of a value, an array led by a number written with each element's `String()` text; its contract is stated by `RustStringReadsBack`, `RustOptionalReadsBack`, `RustStringArrayReadsBack` and `RustValueOneLine` |
| `RustGenerator.BrandBlock` | scripts/lib/generators/rust.js:64-70 | seven lines per brand |
| `RustGenerator.BrandBlockLines` | scripts/lib/generators/rust.js:65-69 | the block line by line, each field with its label |
| `RustGenerator.GenerateRust` | scripts/lib/generators/rust.js:43-75 | the text is the head, each brand's block and the closing lines, joined by newlines |
| `RustGenerator.BrandFieldReadsBack` | scripts/lib/generators/rust.js:67-69 | each string field reads back from its line |
| `RustGenerator.BrandBlockOneLine` | scripts/lib/generators/rust.js:62-71 | a catalog-shaped brand's block holds no newline |
| `RustGenerator.RustLinesOneLine` | scripts/lib/generators/rust.js:44-73 | no line of the file holds a newline |
| `RustGenerator.RustFileLayout` | scripts/lib/generators/rust.js:62-74 | the file splits back into its lines: exactly seven per brand, in input order |
| `RustGenerator.GenerateRustDetailed` | scripts/lib/generators/rust.js:81-158 | the text is the cut header lines and the fixed code; the argument is not read |
| `PhpGenerator.PhpArray` | scripts/lib/generators/php.js:15 | `[]` for no items, else the items joined by `, ` in brackets |
| `PhpGenerator.PhpStringReadsBack` | scripts/lib/generators/php.js:14 | a string's single-quoted literal reads back as the string |
| `PhpGenerator.EntryReadsBack` | scripts/lib/generators/php.js:31 | an object entry is its key's literal, ` => ` and the value's literal |
| `PhpGenerator.PhpStringArrayReadsBack` | scripts/lib/generators/php.js:27-29 | a non-empty string array is a short array whose elements read back in order |
| `PhpGenerator.PhpIntArray` | scripts/lib/generators/php.js:25-28 | a non-empty number array is a short array of decimal texts |
| `PhpGenerator.EscapeSingleBreaks` | scripts/lib/generators/php.js:14 | the escaping neither adds nor removes newlines |
| `PhpGenerator.PhpValueOneLine` | scripts/lib/generators/php.js:21-35 | a literal fits on one line exactly when no string inside holds a newline |
| `PhpGenerator.ToPhpValue` | scripts/lib/generators/php.js:21-35 | the PHP literal of a value; its contract is stated by `PhpStringReadsBack`, `EntryReadsBack`, `PhpStringArrayReadsBack`, `PhpIntArray` and `PhpValueOneLine` |
| `PhpGenerator.PhpStringKeepsNewline` | scripts/lib/generators/php.js:26 | a string with a newline is written across lines |
| `PhpGenerator.BrandBlock` | scripts/lib/generators/php.js:63-69 | seven lines per brand |
| `PhpGenerator.BrandBlockLines` | scripts/lib/generators/php.js:64-68 | the block line by line, each field with its key |
| `PhpGenerator.GeneratePhp` | scripts/lib/generators/php.js:40-76 | the text is the head, each brand's block and the closing lines, joined by newlines |
| `PhpGenerator.BrandFieldReadsBack` | scripts/lib/generators/php.js:66-68 | each string field reads back from its line |
| `PhpGenerator.BrandBlockOneLine` | scripts/lib/generators/php.js:61-70 | a block holds no newline when the brand's strings hold none |
| `PhpGenerator.PhpLinesOneLine` | scripts/lib/generators/php.js:41-74 | no line of the file holds a newline |
| `PhpGenerator.PhpFileLayout` | scripts/lib/generators/php.js:61-75 | the file splits back into its lines: exactly seven per brand, in input order |
| `PhpGenerator.GeneratePhpDetailed` | scripts/lib/generators/php.js:82-128 | the text is the opening tag, the cut header lines and the fixed class; the argument is not read |
| `Transformers.DecodePattern` | scripts/lib/transformers.js:15 | a pattern is read exactly when its `bin` is a string (`replace` throws otherwise); `length`, `cvvLength` and `luhn` are kept as written |
| `Transformers.DecodePatterns` | scripts/lib/transformers.js:14-16 | a patterns value is read only as an array, entry by entry |
| `Transformers.DecodeAll` | scripts/lib/transformers.js:14-16 | every entry read in order, or nothing when some entry cannot be read |
| `Transformers.FlatLengths` | scripts/lib/transformers.js:9-10 | a value is listed exactly when some pattern declares it, as a scalar (`undefined` for a missing one) or in an array |
| `Transformers.SortedLengthsSpec` | scripts/lib/transformers.js:9-11 | the lengths are exactly the declared ones, each once; without a NaN among them they are in numeric order with `undefined` last; all numbers, they strictly increase |
| `JsNumber.ToNumber` | scripts/lib/transformers.js:42-43 | a number is itself, `undefined` NaN, `null` 0; strings, arrays and objects are read through their text |
| `JsNumber.Trim` | scripts/lib/transformers.js:42 | the white space around a text goes: both ends are other characters, nothing non-blank is lost, and a text without white space is unchanged |
| `JsNumber.DecimalReadsBack` | scripts/lib/transformers.js:42-43 | the decimal text of a natural number, white space around it or not, converts to that number |
| `JsNumber.DigitsToNumber` | scripts/lib/source-reader.js:17 | a natural number's decimal text, and the one-element array holding the number, both convert to that number |
| `JsNumber.NegativeDecimalReadsBack` | scripts/lib/transformers.js:42-43 | so does the text of a negative integer |
| `JsNumber.LessTotal` | scripts/lib/transformers.js:11 | without NaN, `<` is a strict total order |
| `JsNumber.MathMin` | scripts/lib/transformers.js:42 | NaN exactly when an argument converts to NaN, `Infinity` for none, otherwise an argument's number below none of the others |
| `JsNumber.MathMax` | scripts/lib/transformers.js:43 | NaN exactly when an argument converts to NaN, `-Infinity` for none, otherwise an argument's number above none of the others |
| `JsNumber.FiniteBounds` | scripts/lib/transformers.js:42-43 | both results are finite exactly when there are arguments and all convert to finite numbers |
| `JsNumber.FiniteBoundsEnclose` | scripts/lib/transformers.js:42-43 | finite results are attained and enclose every argument |
| `JsNumber.InsertByNumber` | scripts/lib/transformers.js:11 | inserting adds exactly the one value |
| `JsNumber.InsertKeepsOrder` | scripts/lib/transformers.js:11 | inserting into a list sorted by number keeps it sorted |
| `JsNumber.SortByNumber` | scripts/lib/transformers.js:11 | the sort is a permutation of its input |
| `JsNumber.SortByNumberSorts` | scripts/lib/transformers.js:11 | values none of which converts to NaN come out sorted by number |
| `JsNumber.PartsPermute` | scripts/lib/transformers.js:11 | setting the `undefined` elements aside loses and adds nothing |
| `JsNumber.JsSort` | scripts/lib/transformers.js:11 | `sort((a, b) => a - b)` permutes its input; without NaN among the other elements, numeric order with `undefined` last |
| `JsNumber.JsSortDistinct` | scripts/lib/transformers.js:9-11 | the sort keeps exactly the elements, so distinct ones stay distinct |
| `JsNumber.JsSortNumbersIncrease` | scripts/lib/transformers.js:9-11 | distinct numbers come out strictly increasing |
| `Transformers.StripCaret` | scripts/lib/transformers.js:15 | one leading '^' removed, nothing else |
| `Transformers.BinAlternatives` | scripts/lib/transformers.js:15-16 | at least one alternative per bin, none holding the bar character |
| `Transformers.Alternatives` | scripts/lib/transformers.js:14-16 | at least one alternative for non-empty patterns, none holding the bar character |
| `Transformers.AllBinsSplits` | scripts/lib/transformers.js:14-17 | splitting `allBins` on the bar character gives the alternatives back |
| `Transformers.ExtractPatternMetadata` | scripts/lib/transformers.js:7-24 | nothing exactly for an empty list (`patterns[0]` throws); otherwise `^(` + allBins + `)`, the sorted distinct lengths and the first pattern's `cvvLength` |
| `Transformers.LengthBounds` | scripts/lib/transformers.js:38-43 | integer bounds exactly when some length is declared and every one converts to a finite number; then the least and greatest converted length, both attained |
| `Transformers.BuildFullPatternSpec` | scripts/lib/transformers.js:30-52 | with integer bounds, `^(?=.{n}$)` when they coincide, else `^(?=.{min,max}$)`, then `(?:bins)[0-9]*$`; `{Infinity,-Infinity}` without lengths; `{NaN,NaN}` when a length converts to NaN |
| `Transformers.BuildFullPattern` | scripts/lib/transformers.js:30-52 | the full pattern; its contract is stated by `BuildFullPatternSpec` |
| `Transformers.MissingLengthWindow` | scripts/lib/transformers.js:9-10 | a pattern without `length` makes the window `{NaN,NaN}` |
| `Transformers.StringLengthWindow` | scripts/lib/transformers.js:42-49 | a single `length` written as the decimal text of n, such as "16", gives the window `{n}` |
| `Transformers.NullLengthWindow` | scripts/lib/transformers.js:42-51 | a `length` of `[n, null]` with n > 0 gives the window `{0,n}` |
| `Transformers.SimplifiedFields` | scripts/lib/transformers.js:112-118 | the five simplified keys in the script's order, each reading the value given |
| `Transformers.ToSimplifiedFormatSpec` | scripts/lib/transformers.js:109-119 | defined exactly for a non-empty patterns array whose entries all have a string `bin`, whatever their lengths; name, `priorityOver` defaulting to [], the BIN, full and CVV patterns |
| `Transformers.ToSimplifiedFormat` | scripts/lib/transformers.js:109-119 | the simplified record; its contract is stated by `ToSimplifiedFormatSpec` |
| `Transformers.SimplifiedCvvReadsBack` | scripts/lib/transformers.js:117 | the CVV pattern of n >= 0 reads back as n |
| `Transformers.SourceFile` | scripts/lib/transformers.js:81 | the one file name for one file, the array otherwise |
| `Transformers.DetailedFields` | scripts/lib/transformers.js:66-82 | the nine standard keys in the script's order, each reading the value given, and no `bins` |
| `Transformers.DetailedRecordStandard` | scripts/lib/transformers.js:66-86 | a standard source key reads as the base writes it and `bins` is absent |
| `Transformers.SpreadStandard` | scripts/lib/transformers.js:57 | spreading non-standard source keys leaves standard keys alone |
| `Transformers.DetailedRecordCustom` | scripts/lib/transformers.js:83-86 | a non-standard source key reads as in the source, even over `number`, `cvv` or `metadata` |
| `Transformers.DetailedSourceFile` | scripts/lib/transformers.js:80-82 | without a custom override `metadata.sourceFile` is the single name or the array |
| `Transformers.ToDetailedFormatDefined` | scripts/lib/transformers.js:63-104 | defined exactly when the patterns decode to a non-empty list and a `bins` whose `length` is positive is an array without `null` or `undefined` entries |
| `Transformers.ToDetailedFormat` | scripts/lib/transformers.js:63-104 | the detailed record; its contract is stated by `ToDetailedFormatDefined` and `ToDetailedFormatBins` |
| `Transformers.ToDetailedFormatBins` | scripts/lib/transformers.js:89-101 | `bins` is added exactly when its `length` converts to a positive number, each entry mapped with its defaults; every other key is as in the record without it |
| `SourceReader.FirstWithPatterns` | scripts/lib/source-reader.js:17-18 | the first source whose truthy `patterns` has a `length` that converts to a number above 0, none when there is none |
| `SourceReader.HasPatternsConverts` | scripts/lib/source-reader.js:17 | `patterns.length > 0` converts `length` first: an array or string counts when non-empty, an object's `length` of "n" or `[n]` counts exactly when n > 0 |
| `SourceReader.FlatCountriesNone` | scripts/lib/source-reader.js:55-57 | once one source's countries cannot be iterated, the whole list cannot |
| `SourceReader.ScanSources` | scripts/lib/source-reader.js:17 | fails exactly when some source is null or undefined; otherwise the first source whose `patterns.length` converts to a number above 0 |
| `SourceReader.Flatten` | scripts/lib/source-reader.js:29-31 | the `flatMap` loop is the concatenation of every source's list |
| `SourceReader.AllPresent` | scripts/lib/source-reader.js:43-44 | true exactly when every bin entry can be read |
| `SourceReader.CollectCountries` | scripts/lib/source-reader.js:54-57 | fails when some truthy `countries` is not an array; otherwise the base's countries, then every source's, before deduplication |
| `SourceReader.FlatCountriesFail` | scripts/lib/source-reader.js:55-57 | the countries can be listed exactly when no truthy `countries` is a non-array |
| `SourceReader.MergeFails` | scripts/lib/source-reader.js:11-61 | throws exactly when there are no sources, or a source or bin entry is null, or a truthy `countries` is not an array |
| `SourceReader.MergeSources` | scripts/lib/source-reader.js:11-61 | one source is returned unchanged; otherwise the merge of `MergeSpec` |
| `SourceReader.MergeSpec` | scripts/lib/source-reader.js:11-61 | the merged source; its contract is stated by `MergeFails`, `MergedRecord`, `MergedPatterns`, `MergedBins` and `MergedCountries` |
| `SourceReader.MergedFields` | scripts/lib/source-reader.js:20-51 | the merged keys in order and what each reads |
| `SourceReader.DedupFirst` | scripts/lib/source-reader.js:32-37 | deduplication keeps exactly the distinct elements, each at its first occurrence |
| `SourceReader.MergedRecord` | scripts/lib/source-reader.js:16-25 | scheme (falling back to the scheme name), brand and type come from the base, the first source passing the converted `patterns.length > 0` test; `bins` is set exactly when some bin survives |
| `SourceReader.MergedPatterns` | scripts/lib/source-reader.js:28-37 | every source's patterns, in order, each distinct pattern once where it first occurs |
| `SourceReader.MergedBins` | scripts/lib/source-reader.js:39-51 | one entry per distinct `bin`, the first of each, in order |
| `SourceReader.MergedCountries` | scripts/lib/source-reader.js:53-58 | each distinct country once, the base's first, then the others in source order |
| `Text.FirstOccurrences` | scripts/lib/source-reader.js:40-47 | the filter with a seen-set keeps the first element of each key, in order |
| `Text.DedupByIsFirstByKey` | scripts/lib/source-reader.js:28-37 | the left-to-right filter keeps exactly the first element of each key |
| `Text.SplitJoin` | scripts/lib/transformers.js:16-17 | splitting a join recovers the pieces when none holds the separator |
| `Json.Put` | scripts/lib/transformers.js:90 | assignment sets its key, keeps every other, and a new key goes last |
| `Json.WithoutKeysLookup` | scripts/lib/transformers.js:84-86 | dropped keys are gone and every other key reads as before |
| `Json.SpreadOverrides` | scripts/lib/transformers.js:83-86 | after a spread a key of the spread object reads as in it |
| `Json.SpreadKeeps` | scripts/lib/transformers.js:66-86 | after a spread a key absent from the spread object reads as in the base |
| `Validate.ValidationResult.constructor` | scripts/validate.js:13-16 | no errors and no warnings |
| `Validate.ValidationResult.AddError` | scripts/validate.js:18-20 | one error appended, warnings unchanged |
| `Validate.ValidationResult.AddWarning` | scripts/validate.js:22-24 | one warning appended, errors unchanged |
| `Validate.PatternAccepted` | scripts/validate.js:50-78 | no error exactly when the bin is truthy and compiles, the length is truthy and a number or array, luhn a boolean and cvvLength a number; at most four errors |
| `Validate.CheckBin` | scripts/validate.js:52-60 | an error for a missing bin or one that does not compile |
| `Validate.CheckLength` | scripts/validate.js:63-67 | an error for a falsy length or one neither number nor array |
| `Validate.ValidatePattern` | scripts/validate.js:50-78 | appends the pattern's errors in the script's order, never a warning |
| `Validate.PatternsAccepted` | scripts/validate.js:128 | the patterns draw no error exactly when none does |
| `Validate.ValidatePatterns` | scripts/validate.js:128 | appends each pattern's report, in order, named by index |
| `Validate.CountryWarningsCount` | scripts/validate.js:141-145 | one warning per country that is neither "GLOBAL" nor two capitals |
| `Validate.WarnCountries` | scripts/validate.js:141-145 | appends those warnings |
| `Validate.CheckCountries` | scripts/validate.js:137-147 | an error for a truthy non-array, else the warnings |
| `Validate.BinAccepted` | scripts/validate.js:83-105 | an error only for a missing or non-string bin or non-array countries; format, type and country problems only warn |
| `Validate.CheckBinField` | scripts/validate.js:84-88 | an error for a missing or non-string bin, a warning when it is not 6 to 8 digits |
| `Validate.ValidateBin` | scripts/validate.js:83-105 | appends the entry's report |
| `Validate.BinsAccepted` | scripts/validate.js:154 | the entries draw no error exactly when none does |
| `Validate.ValidateBins` | scripts/validate.js:154 | appends each entry's report in order |
| `Validate.RequiredAccepted` | scripts/validate.js:112-117 | no required-field error exactly when scheme, brand and patterns are truthy |
| `Validate.CheckRequired` | scripts/validate.js:112-117 | one error per falsy required field |
| `Validate.SourceAccepted` | scripts/validate.js:110-157 | no error exactly when the required fields are truthy, patterns a non-empty array of clean patterns, and truthy countries and bins arrays with clean entries; scheme and type only warn |
| `Validate.CheckScheme` | scripts/validate.js:120-122 | a warning for a scheme outside `^[a-z][a-z0-9-]*$` |
| `Validate.CheckSourcePatterns` | scripts/validate.js:125-129 | an error for a non-array or empty patterns field, else each pattern's report |
| `Validate.CheckType` | scripts/validate.js:132-134 | a warning for a type other than credit or debit |
| `Validate.CheckSourceBins` | scripts/validate.js:150-156 | an error for truthy non-array bins, else each entry's report |
| `Validate.ValidateSource` | scripts/validate.js:110-157 | appends the source's whole report in the script's order |
| `Validate.CheckFields` | scripts/validate.js:124-156 | patterns, type, countries and bins reports, in order |
| `Validate.CheckLists` | scripts/validate.js:136-156 | countries then bins reports |
| `Validate.PartialAccepted` | scripts/validate.js:162-175 | without a bins array exactly one error and nothing else; with one, errors only from entries, and patterns only warn |
| `Validate.ValidatePartialSource` | scripts/validate.js:162-175 | appends the partial source's report |
| `Validate.ValidateSources` | scripts/validate.js:187-205 | succeeds exactly when no source draws an error; warnings never fail |
| `Validate.IsPartialSource` | scripts/validate.js:180-182 | a partial source has truthy `bins` and falsy `patterns`; `ValidateFile` states how it is validated |
| `Validate.ValidateFile` | scripts/validate.js:261-278 | a partial source (truthy bins, falsy patterns) is validated as partial, any other as full; succeeds exactly when no error was added |
| `Validate.CompiledAccepted` | scripts/validate.js:215-225 | no error exactly when the six required fields are truthy and the patterns draw none |
| `Validate.ValidateCompiled` | scripts/validate.js:210-231 | succeeds exactly when no compiled brand draws an error |
| `Build.AlternativeWindow` | scripts/build.js:51-61 | lengths 13, 14, 15, 16 and 19 add `bin[0-9]{L-4,L-1}`, any other nothing |
| `Build.WindowText` | scripts/build.js:52-60 | the window text runs from L-4 to L-1 digits |
| `Build.Bins` | scripts/build.js:32 | each pattern's `bin`, in order |
| `Build.MapBins` | scripts/build.js:32 | fails exactly when some pattern is null or undefined; otherwise each pattern's `bin` |
| `Build.CollectAlternatives` | scripts/build.js:38-63 | the nested loops push every pattern's alternatives and flatten the lengths, in order |
| `Build.PushAlternatives` | scripts/build.js:41-62 | the inner loop pushes one alternative per supported length |
| `Build.BuildPatterns` | scripts/build.js:30-74 | the loops answer `BuildSpec`: the BIN pattern, the grouped distinct alternatives, the distinct lengths and the first pattern's CVV length |
| `Build.BuildSpec` | scripts/build.js:30-74 | what `buildPatterns` returns; its contract is stated by `BuildPatterns`, `BuiltFullPattern`, `BuiltLengths` and `BinPatternSplits` |
| `Build.AllAlternativesMembers` | scripts/build.js:38-63 | an alternative is listed exactly when some pattern's length adds it |
| `Build.BuiltFullPattern` | scripts/build.js:66-70 | the full pattern is one group of distinct alternatives, each added by some length, each where it first occurs |
| `Build.AllLengthsMembers` | scripts/build.js:71 | a value is among the flattened lengths exactly when some pattern declares it |
| `Build.BuiltLengths` | scripts/build.js:71-72 | the distinct lengths in first-occurrence order, unsorted; the CVV length is the first pattern's |
| `Build.BinPatternSplits` | scripts/build.js:32 | splitting the BIN pattern on the bar character gives the bins back when none holds the bar character |
| `Build.BuildData` | scripts/build.js:79-148 | the loop and the statistics pass answer `BuildDataSpec`: one compiled and one legacy record per file, or failure |
| `Build.BuildRecords` | scripts/build.js:89-130 | the loop builds each file's two records, in file order |
| `Build.BuildOne` | scripts/build.js:89-130 | one file's two records; its contract is stated by `RecordsAgree`, `BuildAllNone` and `BuildAllSome` |
| `Build.AllCountable` | scripts/build.js:144-145 | true exactly when every record's countries supports `includes` |
| `Build.CollectFails` | scripts/build.js:89-130 | once one file fails, the whole build fails |
| `Build.BuildAllNone` | scripts/build.js:89-130 | the build fails exactly when some file's records cannot be built |
| `Build.BuildAllSome` | scripts/build.js:119-129 | a successful build holds each file's two records at its position |
| `Build.RecordsAgree` | scripts/build.js:98-127 | the legacy name is the scheme, the patterns agree, the CVV pattern reads back as the CVV length, type defaults to 'credit', countries to [], luhn is the first pattern's, the file name is kept |
| `Build.LegacyCvvReadsBack` | scripts/build.js:126 | the legacy CVV pattern of n >= 0 reads back as n |
| `Build.BuildDataFails` | scripts/build.js:79-148 | fails exactly when a file's records cannot be built or some countries is neither array nor string |
| `Build.Validate` | scripts/build.js:153-184 | counts the errors and passes exactly when there are none |
| `Build.CountMissing` | scripts/build.js:160-166 | the inner loop counts the falsy required fields |
| `Build.MissingNone` | scripts/build.js:161-166 | no field is missing exactly when every one is truthy |
| `Build.RecordPasses` | scripts/build.js:158-176 | a record passes exactly when scheme, brand and type are truthy and both patterns compile |
| `Build.ErrorCountZero` | scripts/build.js:178-183 | the count is zero exactly when every record passes |
| `Build.BuiltDataPasses` | scripts/build.js:153-184 | validating built data passes exactly when each record's scheme and brand are truthy and its patterns compile |

## Left out

- File, directory and network I/O (`readdirSync`, `readFileSync`, `writeFileSync`, `mkdirSync`, `readAllSources`, `readSourceDirectory`, `download-data.js`), console output, `ValidationResult.print` and `process.exit`. Files arrive as already-parsed values and results are returned.
- `JSON.parse` and `JSON.stringify`. Sources are `Json.Value` trees, and structural equality stands in for equality of the JSON text when patterns are deduplicated.
- The regular-expression engines (Go `regexp`, PCRE, `java.util.regex`, Rust `regex`, Python `re`, Ruby `Regexp`, .NET `Regex`, JavaScript `RegExp`) for full and BIN patterns. So is the compile check of `validatePattern` and `validate`. Both are parameters. Only `^\d{n}$` CVV patterns are matched concretely.
- scripts/lib/generators/utils.js is not part of this model. `fileHeader`'s two lines are parameters, and the brands are taken as `extractSimplifiedBrand` returns them.
- The fixed text around the brand blocks in every generator, and the whole body of the detailed generators, are parameters. Only their independence from the argument and their line structure are stated.
- scripts/lib/generators/python.js and scripts/lib/generators/index.js are not part of this model.
- Lazy, once-only and synchronised initialisation (`sync.Once`, `OnceLock`, the PHP and Java constructors pre-compiling patterns). These ports take the catalog as an immutable parameter. The Python, Ruby and .NET default validators are modelled as a class with an optional instance, without concurrency.
- Numbers are integers only. Fractional JSON numbers and `String()` of a float are not modelled.
- JavaScript `Set` equality (SameValueZero) is modelled as Dafny equality on values.
- `validatePath` on a directory, a missing path and a non-`.json` file. Only the `.json` branch is modelled (`Validate.ValidateFile`).
- Reading a property of `null` or `undefined` throws in scripts/validate.js. The validators below require the values they read to be present instead of modelling that throw:
- Validate.ValidatePattern: requires the pattern to be present; a `null` there throws in the script.
- Validate.ValidatePatterns: requires every pattern to be present; a `null` there throws in the script.
- Validate.ValidateBin: requires the BIN entry to be present; a `null` there throws in the script.
- Validate.ValidateBins: requires every BIN entry to be present; a `null` there throws in the script.
- Validate.CheckSourcePatterns: requires every pattern of a patterns array to be present; a `null` there throws in the script.
- Validate.CheckSourceBins: requires every entry of a bins array to be present; a `null` there throws in the script.
- Validate.ValidateSource: requires the source, its patterns and its BIN entries to be present; a `null` there throws in the script.
- Validate.CheckFields: requires the source, its patterns and its BIN entries to be present; a `null` there throws in the script.
- Validate.CheckLists: requires the source, its patterns and its BIN entries to be present; a `null` there throws in the script.
- Validate.ValidatePartialSource: requires the source and its BIN entries to be present; a `null` there throws in the script.
- Validate.ValidateSources: requires every source, its patterns and its BIN entries to be present; a `null` there throws in the script.
- Validate.ValidateFile: requires the source, its patterns and its BIN entries to be present; a `null` there throws in the script.
- Validate.ValidateCompiled: requires every compiled brand and its patterns to be present; a `null` there throws in the script.
- Transformers.ToDetailedFormatBins: `Object.entries` on a non-object BIN entry is taken as having no extra keys.
- JavaValidator.FindBrand: the `HashMap` iteration order is a parameter, not Java's hashing.
- The lines of the generated PHP files other than the opening `<?php` (`PhpGenerator.Opening`), the header lines and the brand blocks are part of the fixed text.
- GoValidator.Survivors: its own contract bounds only the length; membership is stated in `GoValidator.SurvivorsMembers`.
- The generator loops push each brand's whole block in one step instead of line by line. `BrandBlockLines` states the block line by line.
- Build.BuildData: takes the source files as a list of names and parsed contents, in the order given. The directory listing, its filtering to `.json` names and its sort are not modelled.
- Luhn.Luhn: the running total is an unbounded integer. Rust's `u32` total and Java's `int` total would wrap only for numbers of more than about 2×10^8 digits; that wrap is not modelled.
- Luhn.LuhnJava: the same holds for Java's `int` total.
- Json.Put: keys keep their insertion order. JavaScript lists integer-like keys ("0", "42") first, in ascending order; that reordering is not modelled.
- Json.Spread: the same insertion order is kept when fields are spread.
- Catalog.Matching: its own contract states membership and size. Order, and one entry per matching position, are stated in `Catalog.MatchingInOrder`.
- JsNumber.StringToNumber: only optionally signed decimal integers and `Infinity` are read. Fractions, exponents and `0x`, `0o` and `0b` literals convert to NaN here.
- JsNumber.JsSort: when an element other than `undefined` converts to NaN, the comparator `a - b` is inconsistent and the engine's order is unspecified. The model then keeps the input order.
- FirstMatchValidator.ValidateCvvSpec: `\d` is read as an ASCII digit. Python's `re` and .NET's `Regex` also accept other Unicode decimal digits (such as Arabic-Indic ones); those are not modelled.
- RustValidator.ValidateCvvSpec: `\d` is read as an ASCII digit. The `regex` crate's `\d` also matches other Unicode decimal digits; those are not modelled.
- CrossPort.PriorityFreeIsFirstMatch: the regular-expression engines are parameters. Its comparison of PHP with the first-match ports assumes that PCRE and the other engine agree on the catalog's patterns for that number (`CrossPort.Agree`). They do not always: PCRE's `$` also matches before a final newline.
- CrossPort.GoAgreesWithPhpWithoutLookaheads: it likewise assumes that RE2 and PCRE agree on the catalog's patterns for that number.
