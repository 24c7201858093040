/** libs/javascript/creditcard-identifier.js: the JavaScript library. Its
    functions take any JavaScript value, fall back to a fixed placeholder
    number for falsy input, keep every brand whose full pattern matches and
    use the first of them; failures are thrown errors. */
module JsIdentifier {
  import opened Text
  import opened Catalog
  import Json

  /** A call either returns a value or throws an `Error` with a message. */
  datatype Outcome<T> = Returns(value: T) | Throws(message: string)

  const NotAString := "Card number should be a string"
  const NotSupported := "card number not supported"

  /** `brands.filter(cardNumberFilter.bind(this, cardNumber))`: the filter
      calls the predicate on each brand in turn, and the predicate throws as
      soon as it sees a number that is not a string, so with at least one
      brand a non-string throws; with none the predicate never runs. */
  function FilterByNumber(cat: seq<Brand>, m: Matcher, cardNumber: Json.Value): (r: Outcome<seq<Brand>>)
    ensures r.Throws? <==> |cat| > 0 && !cardNumber.Str?
    ensures r.Throws? ==> r.message == NotAString
    ensures r.Returns? && cardNumber.Str? ==> r.value == Matching(cat, m, cardNumber.s)
    ensures r.Returns? && !cardNumber.Str? ==> r.value == []
  {
    if cat == [] then Returns([])
    else if !cardNumber.Str? then Throws(NotAString)
    else Returns(Matching(cat, m, cardNumber.s))
  }

  /** The number `findBrand` looks up: a falsy argument becomes '000000'. */
  function FindBrandInput(cardNumber: Json.Value): (r: Json.Value)
    ensures !Json.Truthy(cardNumber) ==> r == Json.Str("000000")
    ensures Json.Truthy(cardNumber) ==> r == cardNumber
  {
    if !Json.Truthy(cardNumber) || cardNumber == Json.Str("") then Json.Str("000000") else cardNumber
  }

  /** `findBrand`. */
  function FindBrand(cat: seq<Brand>, m: Matcher, cardNumber: Json.Value): Outcome<string>
  {
    match FilterByNumber(cat, m, FindBrandInput(cardNumber))
    case Throws(e) => Throws(e)
    case Returns(bs) => if bs == [] then Throws(NotSupported) else Returns(bs[0].name)
  }

  /** `findBrand` returns the name of the first brand whose full pattern
      matches the (possibly replaced) number and throws 'card number not
      supported' when none does; a truthy non-string throws 'Card number
      should be a string' unless the catalog is empty. */
  lemma FindBrandSpec(cat: seq<Brand>, m: Matcher, cardNumber: Json.Value)
    ensures var n := FindBrandInput(cardNumber);
      && (n.Str? ==> (FindBrand(cat, m, cardNumber).Returns? <==> AnyMatches(cat, m, n.s)))
      && (n.Str? && AnyMatches(cat, m, n.s) ==> FindBrand(cat, m, cardNumber) == Returns(FirstMatch(cat, m, n.s).value))
      && (n.Str? && !AnyMatches(cat, m, n.s) ==> FindBrand(cat, m, cardNumber) == Throws(NotSupported))
      && (!n.Str? ==> FindBrand(cat, m, cardNumber) == Throws(if |cat| > 0 then NotAString else NotSupported))
  {
    var n := FindBrandInput(cardNumber);
    if n.Str? {
      MatchingNonEmpty(cat, m, n.s);
      MatchingStartsWithFirstMatch(cat, m, n.s);
    }
  }

  /** `isSupported`: whether the filter keeps any brand; a falsy argument
      becomes '0000000000000001'. */
  function IsSupported(cat: seq<Brand>, m: Matcher, cardNumber: Json.Value): (r: Outcome<bool>)
    ensures var n := if Json.Truthy(cardNumber) then cardNumber else Json.Str("0000000000000001");
      && (n.Str? ==> r == Returns(AnyMatches(cat, m, n.s)))
      && (!n.Str? ==> r == (if |cat| > 0 then Throws(NotAString) else Returns(false)))
  {
    var number := if Json.Truthy(cardNumber) then cardNumber else Json.Str("0000000000000001");
    MatchingNonEmpty(cat, m, if number.Str? then number.s else "");
    match FilterByNumber(cat, m, number)
    case Throws(e) => Throws(e)
    case Returns(bs) => Returns(bs != [])
  }

  /** On a truthy string, `isSupported` answers true exactly when `findBrand`
      returns instead of throwing. */
  lemma SupportedIffFound(cat: seq<Brand>, m: Matcher, s: string)
    requires s != ""
    ensures IsSupported(cat, m, Json.Str(s)) == Returns(FindBrand(cat, m, Json.Str(s)).Returns?)
  {
    FindBrandSpec(cat, m, Json.Str(s));
  }

  /** `hipercardRegexp`: the full pattern of the first brand named
      'hipercard', or `^$` when there is none. */
  function HipercardRegexp(cat: seq<Brand>): (r: string)
    ensures BrandNamed(cat, "hipercard").Some? ==> r == BrandNamed(cat, "hipercard").value.regexpFull
    ensures BrandNamed(cat, "hipercard").None? ==> r == "^$"
  {
    match NameFilterFirst(cat, "hipercard")
    case Some(b) => b.regexpFull
    case None => "^$"
  }

  /** `brands.filter(cardNameFilter.bind(this, name))[0]`. */
  function NameFilterFirst(cat: seq<Brand>, name: string): (r: Option<Brand>)
    ensures r == BrandNamed(cat, name)
  {
    if cat == [] then None
    else if cat[0].name == name then Some(cat[0])
    else
      var r := NameFilterFirst(cat[1..], name);
      assert IndexOfName(cat, name) == match IndexOfName(cat[1..], name) case None => None case Some(i) => Some(i + 1);
      r
  }
}
