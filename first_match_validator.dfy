/** The Python (libs/python/creditcard_identifier/validator.py), Ruby
    (libs/ruby/lib/creditcard_identifier.rb) and .NET
    (libs/dotnet/CreditCardIdentifier/Validator.cs) ports, which behave alike:
    a missing (null, None, nil) or empty number finds nothing, otherwise the
    first brand in catalog order whose full pattern matches wins; the CVV
    check has no emptiness guard. They differ only in how their regular
    expressions anchor `$`, which is a parameter here. Each also offers
    module-level shortcuts through one lazily created default validator. */
module FirstMatchValidator {
  import opened Text
  import opened Catalog

  /** `find_brand` / `FindBrand`: nothing for a missing or empty number,
      otherwise the first brand whose full pattern matches. */
  function FindBrand(cat: seq<Brand>, m: Matcher, cardNumber: Option<string>): (r: Option<string>)
    ensures r.None? <==> cardNumber.None? || cardNumber.value == "" || !AnyMatches(cat, m, cardNumber.value)
    ensures r.Some? ==> exists i :: 0 <= i < |cat| && cat[i].name == r.value && m(cat[i].regexpFull, cardNumber.value)
                                   && forall j :: 0 <= j < i ==> !m(cat[j].regexpFull, cardNumber.value)
  {
    match cardNumber
    case None => None
    case Some(n) => if n == "" then None else FirstMatch(cat, m, n)
  }

  /** `is_supported` / `supported?` / `IsSupported`: whether `FindBrand` finds a brand. */
  function IsSupported(cat: seq<Brand>, m: Matcher, cardNumber: Option<string>): (ok: bool)
    ensures ok <==> cardNumber.Some? && cardNumber.value != "" && AnyMatches(cat, m, cardNumber.value)
  {
    FindBrand(cat, m, cardNumber).Some?
  }

  /** `validate_cvv` / `ValidateCvv`: false for an unknown brand, otherwise
      the CVV pattern of the first brand of that name decides. */
  function ValidateCvv(a: Anchoring, cat: seq<Brand>, m: Matcher, cvv: string, brandName: string): (ok: bool)
    ensures ok ==> BrandNamed(cat, brandName).Some?
    ensures BrandNamed(cat, brandName).Some? ==>
      (ok <==> CvvMatches(a, m, BrandNamed(cat, brandName).value.regexpCvv, cvv))
  {
    match BrandNamed(cat, brandName)
    case None => false
    case Some(b) => CvvMatches(a, m, b.regexpCvv, cvv)
  }

  /** For a brand whose CVV pattern is `^\d{n}$`, the CVV check accepts what
      the engine's anchoring lets that pattern accept; on a CVV without a
      newline that is exactly the runs of n digits, the empty string
      included when n is 0. */
  lemma ValidateCvvSpec(a: Anchoring, cat: seq<Brand>, m: Matcher, cvv: string, brandName: string, n: nat)
    requires BrandNamed(cat, brandName).Some? && BrandNamed(cat, brandName).value.regexpCvv == CvvPattern(n)
    ensures ValidateCvv(a, cat, m, cvv, brandName) <==> AnchoredDigits(a, n, cvv)
    ensures '\n' !in cvv ==> (ValidateCvv(a, cat, m, cvv, brandName) <==> |cvv| == n && AllDigits(cvv))
  {
    CvvPatternAccepts(a, m, n, cvv);
    if '\n' !in cvv {
      AnchoringsAgreeWithoutNewline(a, n, cvv);
    }
  }

  /** The module-level default validator of the three ports (`_validator`,
      `@validator`, `CreditCard._validator`): created from the bundled
      catalog on first use and reused afterwards. */
  class DefaultValidator {
    /** The catalog of the validator created so far, if any. */
    var instance: Option<seq<Brand>>

    constructor()
      ensures instance.None?
    {
      instance := None;
    }

    /** `_get_validator` / `validator` / `GetValidator`: create the validator
        from `bundled` only when there is none yet. */
    method Get(bundled: seq<Brand>) returns (cat: seq<Brand>)
      modifies this
      ensures old(instance).Some? ==> instance == old(instance)
      ensures old(instance).None? ==> instance == Some(bundled)
      ensures instance == Some(cat)
    {
      if instance.None? {
        instance := Some(bundled);
      }
      cat := instance.value;
    }

    /** The module-level `find_brand` / `FindBrand`. */
    method FindBrandDefault(bundled: seq<Brand>, m: Matcher, cardNumber: Option<string>) returns (r: Option<string>)
      modifies this
      ensures old(instance).Some? ==> instance == old(instance)
      ensures old(instance).None? ==> instance == Some(bundled)
      ensures r == FindBrand(instance.value, m, cardNumber)
    {
      var cat := Get(bundled);
      r := FindBrand(cat, m, cardNumber);
    }

    /** The module-level `is_supported` / `supported?` / `IsSupported`. */
    method IsSupportedDefault(bundled: seq<Brand>, m: Matcher, cardNumber: Option<string>) returns (ok: bool)
      modifies this
      ensures old(instance).Some? ==> instance == old(instance)
      ensures old(instance).None? ==> instance == Some(bundled)
      ensures ok == IsSupported(instance.value, m, cardNumber)
    {
      var cat := Get(bundled);
      ok := IsSupported(cat, m, cardNumber);
    }
  }
}
