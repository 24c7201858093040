/** libs/php/src/CreditCardValidator.php: the PHP port. It matches every
    full pattern as written (no length window) and resolves several matches
    with the priority rule. Its guards use PHP's `empty()`, which is true for
    the string "0" as well as for "". */
module PhpValidator {
  import opened Text
  import opened Catalog

  /** PHP's `empty()` on a string. */
  predicate Empty(s: string)
  {
    s == "" || s == "0"
  }

  /** What `findBrand` answers. */
  function Select(cat: seq<Brand>, m: Matcher, cardNumber: string): Option<string>
  {
    if Empty(cardNumber) then None
    else Resolve(AsCandidates(Matching(cat, m, cardNumber)))
  }

  /** `findBrand`: null for an `empty()` number or when no full pattern
      matches; otherwise a matching brand's name, chosen by the priority
      rule: whenever a match is the rule's winner, that winner's name. */
  lemma SelectSpec(cat: seq<Brand>, m: Matcher, cardNumber: string)
    ensures Select(cat, m, cardNumber).None? <==> Empty(cardNumber) || !AnyMatches(cat, m, cardNumber)
    ensures Select(cat, m, cardNumber).Some? ==>
      exists i :: 0 <= i < |cat| && m(cat[i].regexpFull, cardNumber) && cat[i].name == Select(cat, m, cardNumber).value
    ensures !Empty(cardNumber) ==> forall w: nat ::
      IsWinner(AsCandidates(Matching(cat, m, cardNumber)), w) ==>
      Select(cat, m, cardNumber) == Some(AsCandidates(Matching(cat, m, cardNumber))[w].name)
  {
    var ms := Matching(cat, m, cardNumber);
    forall w: nat | IsWinner(AsCandidates(ms), w)
      ensures Resolve(AsCandidates(ms)) == Some(AsCandidates(ms)[w].name)
    {
      ResolvePicksWinner(AsCandidates(ms), w);
    }
    if !Empty(cardNumber) {
      if AnyMatches(cat, m, cardNumber) {
        var j :| 0 <= j < |cat| && m(cat[j].regexpFull, cardNumber);
        assert cat[j] in ms;
      }
      match Select(cat, m, cardNumber)
      case None =>
      case Some(name) =>
        var k :| 0 <= k < |ms| && AsCandidates(ms)[k].name == name;
        assert ms[k] in ms;
        var i :| 0 <= i < |cat| && cat[i] == ms[k];
    }
  }

  /** `findBrand`: collect the matches in catalog order, return a single one
      as is, and otherwise apply the priority loop. */
  method FindBrand(cat: seq<Brand>, m: Matcher, cardNumber: string) returns (r: Option<string>)
    ensures r == Select(cat, m, cardNumber)
  {
    if cardNumber == "" || cardNumber == "0" {
      return None;
    }
    var matching: seq<Brand> := [];
    var i := 0;
    while i < |cat|
      invariant 0 <= i <= |cat|
      invariant matching == Matching(cat[..i], m, cardNumber)
    {
      assert cat[..i + 1][..i] == cat[..i];
      if m(cat[i].regexpFull, cardNumber) {
        matching := matching + [cat[i]];
      }
      i := i + 1;
    }
    assert cat[..|cat|] == cat;
    if |matching| == 0 {
      return None;
    }
    if |matching| == 1 {
      return Some(matching[0].name);
    }
    var cands := AsCandidates(matching);
    var names := NameSet(cands);
    r := PriorityScan(cands, names);
  }

  /** `isSupported`: whether `findBrand` finds a brand. */
  method IsSupported(cat: seq<Brand>, m: Matcher, cardNumber: string) returns (ok: bool)
    ensures ok <==> !Empty(cardNumber) && AnyMatches(cat, m, cardNumber)
  {
    var r := FindBrand(cat, m, cardNumber);
    SelectSpec(cat, m, cardNumber);
    ok := r.Some?;
  }

  /** `findBrandDetailed`: the first detailed record whose scheme is the
      name `findBrand` returns. */
  method FindBrandDetailed(cat: seq<Brand>, details: seq<DetailedBrand>, m: Matcher, cardNumber: string)
    returns (r: Option<DetailedBrand>)
    ensures Select(cat, m, cardNumber).None? ==> r.None?
    ensures Select(cat, m, cardNumber).Some? ==> r == DetailedNamed(details, Select(cat, m, cardNumber).value)
  {
    var name := FindBrand(cat, m, cardNumber);
    if name.None? {
      return None;
    }
    var i := 0;
    while i < |details|
      invariant 0 <= i <= |details|
      invariant forall j :: 0 <= j < i ==> details[j].scheme != name.value
    {
      if details[i].scheme == name.value {
        return Some(details[i]);
      }
      i := i + 1;
    }
    return None;
  }

  /** `validateCvv`: false for an `empty()` CVV (so also for "0") and for an
      unknown brand; otherwise the first brand of that name's CVV pattern
      decides. */
  function ValidateCvv(cat: seq<Brand>, m: Matcher, cvv: string, brandName: string): (ok: bool)
    ensures ok ==> !Empty(cvv) && BrandNamed(cat, brandName).Some?
    ensures !Empty(cvv) && BrandNamed(cat, brandName).Some? ==>
      (ok <==> CvvMatches(BeforeFinalNewline, m, BrandNamed(cat, brandName).value.regexpCvv, cvv))
  {
    if Empty(cvv) then false
    else match BrandNamed(cat, brandName)
      case None => false
      case Some(b) => CvvMatches(BeforeFinalNewline, m, b.regexpCvv, cvv)
  }

  /** For a brand whose CVV pattern is `^\d{n}$`, `validateCvv` accepts the
      runs of n ASCII digits, optionally followed by one newline (PCRE's `$`
      without the D modifier), except "0", which `empty()` rejects before the
      pattern is consulted. Without a newline that is exactly the non-empty
      runs of n digits other than "0". */
  lemma ValidateCvvSpec(cat: seq<Brand>, m: Matcher, cvv: string, brandName: string, n: nat)
    requires BrandNamed(cat, brandName).Some? && BrandNamed(cat, brandName).value.regexpCvv == CvvPattern(n)
    ensures ValidateCvv(cat, m, cvv, brandName) <==> !Empty(cvv) && AnchoredDigits(BeforeFinalNewline, n, cvv)
    ensures '\n' !in cvv ==>
      (ValidateCvv(cat, m, cvv, brandName) <==> |cvv| == n && n > 0 && AllDigits(cvv) && cvv != "0")
  {
    CvvPatternAccepts(BeforeFinalNewline, m, n, cvv);
    if '\n' !in cvv {
      AnchoringsAgreeWithoutNewline(BeforeFinalNewline, n, cvv);
    }
  }
}
