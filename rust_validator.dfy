/** libs/rust/src/lib.rs: the Rust port. It returns the first brand, in
    catalog order, whose full pattern matches; it has no length window and no
    priority rule. The compiled patterns are built once and kept, which
    changes nothing a caller can observe. */
module RustValidator {
  import opened Text
  import opened Catalog

  /** `find_brand`: `None` for the empty string, otherwise the first match. */
  function FindBrand(cat: seq<Brand>, m: Matcher, cardNumber: string): (r: Option<string>)
    ensures r.None? <==> cardNumber == "" || !AnyMatches(cat, m, cardNumber)
    ensures r.Some? ==> exists i :: 0 <= i < |cat| && cat[i].name == r.value && m(cat[i].regexpFull, cardNumber)
                                   && forall j :: 0 <= j < i ==> !m(cat[j].regexpFull, cardNumber)
  {
    if cardNumber == "" then None else FirstMatch(cat, m, cardNumber)
  }

  /** `find_brand_detailed`: the first detailed record whose scheme is the
      name `find_brand` returns. */
  function FindBrandDetailed(cat: seq<Brand>, details: seq<DetailedBrand>, m: Matcher, cardNumber: string)
    : (r: Option<DetailedBrand>)
    ensures r.Some? ==> FindBrand(cat, m, cardNumber).Some? && r.value.scheme == FindBrand(cat, m, cardNumber).value
    ensures r.None? <==> FindBrand(cat, m, cardNumber).None?
                         || forall j :: 0 <= j < |details| ==> details[j].scheme != FindBrand(cat, m, cardNumber).value
  {
    match FindBrand(cat, m, cardNumber)
    case None => None
    case Some(name) => DetailedNamed(details, name)
  }

  /** `is_supported`: a non-empty number that some full pattern matches. */
  function IsSupported(cat: seq<Brand>, m: Matcher, cardNumber: string): (ok: bool)
    ensures ok <==> cardNumber != "" && AnyMatches(cat, m, cardNumber)
  {
    FindBrand(cat, m, cardNumber).Some?
  }

  /** `validate_cvv`: false for an empty CVV or an unknown brand; otherwise
      the CVV pattern of the first brand of that name decides, with `$`
      matching only at the end of the text. */
  function ValidateCvv(cat: seq<Brand>, m: Matcher, cvv: string, brandName: string): (ok: bool)
    ensures ok ==> cvv != "" && BrandNamed(cat, brandName).Some?
    ensures cvv != "" && BrandNamed(cat, brandName).Some? ==>
      (ok <==> CvvMatches(EndOfText, m, BrandNamed(cat, brandName).value.regexpCvv, cvv))
  {
    if cvv == "" then false
    else match BrandNamed(cat, brandName)
      case None => false
      case Some(b) => CvvMatches(EndOfText, m, b.regexpCvv, cvv)
  }

  /** For a brand whose CVV pattern is `^\d{n}$`, `validate_cvv` accepts
      exactly the non-empty runs of n digits. */
  lemma ValidateCvvSpec(cat: seq<Brand>, m: Matcher, cvv: string, brandName: string, n: nat)
    requires BrandNamed(cat, brandName).Some? && BrandNamed(cat, brandName).value.regexpCvv == CvvPattern(n)
    ensures ValidateCvv(cat, m, cvv, brandName) <==> |cvv| == n && n > 0 && AllDigits(cvv)
  {
    CvvPatternAccepts(EndOfText, m, n, cvv);
  }
}
