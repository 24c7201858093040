/** libs/java/src/main/java/com/creditcard/identifier/CreditCardValidator.java:
    the Java port. Its compiled brands live in a `HashMap` keyed by brand, so
    `findBrand` and `validateCvv` visit them in the map's iteration order,
    which the model takes as a parameter: `order` lists every catalog
    position once. There is no priority rule; the first brand visited whose
    full pattern matches wins. */
module JavaValidator {
  import opened Text
  import opened Catalog

  /** The position in `order` of the first visited brand whose full pattern
      matches. */
  function FirstInOrder(cat: seq<Brand>, order: seq<nat>, m: Matcher, number: string): (r: Option<nat>)
    requires forall k :: 0 <= k < |order| ==> order[k] < |cat|
    ensures r.Some? ==> r.value < |order| && m(cat[order[r.value]].regexpFull, number)
    ensures r.Some? ==> forall j :: 0 <= j < r.value ==> !m(cat[order[j]].regexpFull, number)
    ensures r.None? ==> forall j :: 0 <= j < |order| ==> !m(cat[order[j]].regexpFull, number)
  {
    if order == [] then None
    else if m(cat[order[0]].regexpFull, number) then Some(0)
    else match FirstInOrder(cat, order[1..], m, number)
      case None => None
      case Some(k) => Some(k + 1)
  }

  /** What `findBrand` answers; `None` stands for a null argument. */
  function Select(cat: seq<Brand>, order: seq<nat>, m: Matcher, cardNumber: Option<string>): Option<string>
    requires forall k :: 0 <= k < |order| ==> order[k] < |cat|
  {
    if cardNumber.None? || cardNumber.value == "" then None
    else match FirstInOrder(cat, order, m, cardNumber.value)
      case None => None
      case Some(k) => Some(cat[order[k]].name)
  }

  /** `findBrand`: null for a null or empty number and when no brand
      matches; otherwise the name of some brand whose full pattern matches. */
  lemma SelectSpec(cat: seq<Brand>, order: seq<nat>, m: Matcher, cardNumber: Option<string>)
    requires IsOrder(order, |cat|)
    ensures forall k :: 0 <= k < |order| ==> order[k] < |cat|
    ensures Select(cat, order, m, cardNumber).None? <==>
      cardNumber.None? || cardNumber.value == "" || !AnyMatches(cat, m, cardNumber.value)
    ensures Select(cat, order, m, cardNumber).Some? ==>
      exists i :: 0 <= i < |cat| && m(cat[i].regexpFull, cardNumber.value)
                  && cat[i].name == Select(cat, order, m, cardNumber).value
  {
    OrderCovers(order, |cat|);
    if cardNumber.Some? && cardNumber.value != "" && AnyMatches(cat, m, cardNumber.value) {
      var i :| 0 <= i < |cat| && m(cat[i].regexpFull, cardNumber.value);
      assert i in order;
      var k :| 0 <= k < |order| && order[k] == i;
      assert FirstInOrder(cat, order, m, cardNumber.value).Some?;
    }
  }

  /** When every matching brand carries the same name (in particular when
      only one matches), the iteration order does not matter and Java agrees
      with the first match in catalog order. */
  lemma AgreesWithFirstMatch(cat: seq<Brand>, order: seq<nat>, m: Matcher, number: string)
    requires IsOrder(order, |cat|)
    requires number != ""
    requires forall i, j ::
      0 <= i < |cat| && 0 <= j < |cat| && m(cat[i].regexpFull, number) && m(cat[j].regexpFull, number)
      ==> cat[i].name == cat[j].name
    ensures forall k :: 0 <= k < |order| ==> order[k] < |cat|
    ensures Select(cat, order, m, Some(number)) == FirstMatch(cat, m, number)
  {
    SelectSpec(cat, order, m, Some(number));
  }

  /** `findBrand`: the loop over `compiledBrands.values()`. */
  method FindBrand(cat: seq<Brand>, order: seq<nat>, m: Matcher, cardNumber: Option<string>)
    returns (r: Option<string>)
    requires IsOrder(order, |cat|)
    ensures forall k :: 0 <= k < |order| ==> order[k] < |cat|
    ensures r == Select(cat, order, m, cardNumber)
  {
    OrderCovers(order, |cat|);
    if cardNumber.None? || cardNumber.value == "" {
      return None;
    }
    var number := cardNumber.value;
    var k := 0;
    while k < |order|
      invariant 0 <= k <= |order|
      invariant forall j :: 0 <= j < k ==> !m(cat[order[j]].regexpFull, number)
    {
      var compiled := cat[order[k]];
      if m(compiled.regexpFull, number) {
        return Some(compiled.name);
      }
      k := k + 1;
    }
    return None;
  }

  /** `isSupported`: whether `findBrand` finds a brand. */
  method IsSupported(cat: seq<Brand>, order: seq<nat>, m: Matcher, cardNumber: Option<string>)
    returns (ok: bool)
    requires IsOrder(order, |cat|)
    ensures ok <==> cardNumber.Some? && cardNumber.value != "" && AnyMatches(cat, m, cardNumber.value)
  {
    var r := FindBrand(cat, order, m, cardNumber);
    SelectSpec(cat, order, m, cardNumber);
    ok := r.Some?;
  }

  /** `findBrandDetailed`: the first detailed record, in list order, whose
      scheme equals the name `findBrand` returns. */
  method FindBrandDetailed(cat: seq<Brand>, order: seq<nat>, details: seq<DetailedBrand>, m: Matcher,
                           cardNumber: Option<string>)
    returns (r: Option<DetailedBrand>)
    requires IsOrder(order, |cat|)
    ensures forall k :: 0 <= k < |order| ==> order[k] < |cat|
    ensures Select(cat, order, m, cardNumber).None? ==> r.None?
    ensures Select(cat, order, m, cardNumber).Some? ==>
      r == DetailedNamed(details, Select(cat, order, m, cardNumber).value)
  {
    var name := FindBrand(cat, order, m, cardNumber);
    if name.None? {
      return None;
    }
    var i := 0;
    while i < |details|
      invariant 0 <= i <= |details|
      invariant forall j :: 0 <= j < i ==> details[j].scheme != name.value
    {
      if details[i].scheme == name.value {
        return Some(details[i]);
      }
      i := i + 1;
    }
    return None;
  }

  /** The CVV pattern of the first brand visited whose name is `brandName`. */
  function CvvInOrder(cat: seq<Brand>, order: seq<nat>, brandName: string): (r: Option<string>)
    requires forall k :: 0 <= k < |order| ==> order[k] < |cat|
    ensures r.None? <==> forall k :: 0 <= k < |order| ==> cat[order[k]].name != brandName
    ensures r.Some? ==> exists k :: 0 <= k < |order| && cat[order[k]].name == brandName
                                    && cat[order[k]].regexpCvv == r.value
  {
    if order == [] then None
    else if cat[order[0]].name == brandName then Some(cat[order[0]].regexpCvv)
    else
      var r := CvvInOrder(cat, order[1..], brandName);
      assert forall k :: 1 <= k < |order| ==> order[k] == order[1..][k - 1];
      r
  }

  /** `validateCvv`: false when either argument is null or the brand is
      unknown; otherwise the CVV pattern of the first same-named brand
      visited decides. */
  method ValidateCvv(cat: seq<Brand>, order: seq<nat>, m: Matcher, cvv: Option<string>, brandName: Option<string>)
    returns (ok: bool)
    requires IsOrder(order, |cat|)
    ensures forall k :: 0 <= k < |order| ==> order[k] < |cat|
    ensures ok <==> cvv.Some? && brandName.Some? && CvvInOrder(cat, order, brandName.value).Some?
                    && CvvMatches(EndOfText, m, CvvInOrder(cat, order, brandName.value).value, cvv.value)
  {
    OrderCovers(order, |cat|);
    if cvv.None? || brandName.None? {
      return false;
    }
    var k := 0;
    while k < |order|
      invariant 0 <= k <= |order|
      invariant CvvInOrder(cat, order, brandName.value) == CvvInOrder(cat, order[k..], brandName.value)
    {
      var compiled := cat[order[k]];
      assert order[k..][1..] == order[k + 1..];
      if compiled.name == brandName.value {
        return CvvMatches(EndOfText, m, compiled.regexpCvv, cvv.value);
      }
      k := k + 1;
    }
    return false;
  }

  /** With a single brand of that name the iteration order does not matter:
      whatever the order, the CVV pattern consulted is that brand's. */
  lemma ValidateCvvSpec(cat: seq<Brand>, order: seq<nat>, m: Matcher, cvv: string, brandName: string, i: nat)
    requires IsOrder(order, |cat|)
    requires i < |cat| && cat[i].name == brandName
    requires forall j :: 0 <= j < |cat| && j != i ==> cat[j].name != brandName
    ensures forall k :: 0 <= k < |order| ==> order[k] < |cat|
    ensures CvvInOrder(cat, order, brandName) == Some(cat[i].regexpCvv)
  {
    OrderCovers(order, |cat|);
    assert i in order;
  }

  /** `listBrands`: an array of the names, filled index by index in list order. */
  method ListBrands(cat: seq<Brand>) returns (names: array<string>)
    ensures names.Length == |cat|
    ensures names[..] == Names(cat)
  {
    names := new string[|cat|];
    var i := 0;
    while i < |cat|
      invariant 0 <= i <= |cat|
      invariant forall j :: 0 <= j < i ==> names[j] == cat[j].name
    {
      names[i] := cat[i].name;
      i := i + 1;
    }
  }
}
