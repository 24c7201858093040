/** How the runtime ports relate to one another on the same catalog: where
    the priority rule, the length window, PHP's `empty()` and Java's hash
    order make their answers agree, and concrete inputs on which they
    differ. */
module CrossPort {
  import opened Text
  import opened Catalog
  import GoValidator
  import PhpValidator
  import JavaValidator
  import RustValidator
  import FirstMatchValidator
  import JsIdentifier
  import Json

  /** The two engines give the same verdict on every full pattern of the
      catalog for this number. PCRE's `$` also matches before a final line
      feed where RE2's and Rust's do not, so on "4111111111111111\n" they
      can disagree; the lemmas that compare ports on different engines take
      this agreement as a premise. */
  predicate Agree(cat: seq<Brand>, m1: Matcher, m2: Matcher, number: string)
  {
    forall i :: 0 <= i < |cat| ==> m1(cat[i].regexpFull, number) == m2(cat[i].regexpFull, number)
  }

  /** Engines that agree on the catalog's patterns select the same brands. */
  lemma {:induction false} MatchingAgrees(cat: seq<Brand>, m1: Matcher, m2: Matcher, number: string)
    requires Agree(cat, m1, m2, number)
    ensures Matching(cat, m1, number) == Matching(cat, m2, number)
  {
    if cat != [] {
      var init := cat[..|cat| - 1];
      assert Agree(init, m1, m2, number) by {
        assert forall i :: 0 <= i < |init| ==> init[i] == cat[i];
      }
      MatchingAgrees(init, m1, m2, number);
    }
  }

  /** Engines that agree on the catalog's patterns find the same first match. */
  lemma FirstMatchAgrees(cat: seq<Brand>, m1: Matcher, m2: Matcher, number: string)
    requires Agree(cat, m1, m2, number)
    ensures FirstMatch(cat, m1, number) == FirstMatch(cat, m2, number)
  {
    var r1, r2 := FirstMatchIndex(cat, m1, number), FirstMatchIndex(cat, m2, number);
    if r1.Some? && r2.Some? {
      assert r1.value == r2.value;
    }
  }

  /** When no brand declares `priorityOver`, the priority rule always falls
      back to the first match, so PHP answers like the first-match ports
      (apart from `empty("0")`), as long as PCRE and the other port's engine
      agree on the catalog's patterns. */
  lemma PriorityFreeIsFirstMatch(cat: seq<Brand>, pcre: Matcher, other: Matcher, number: string)
    requires forall i :: 0 <= i < |cat| ==> cat[i].priorityOver == []
    ensures PhpValidator.Select(cat, pcre, number) == if PhpValidator.Empty(number) then None else FirstMatch(cat, pcre, number)
    ensures number != "0" && Agree(cat, pcre, other, number) ==>
      PhpValidator.Select(cat, pcre, number) == RustValidator.FindBrand(cat, other, number)
  {
    var ms := Matching(cat, pcre, number);
    MatchingNonEmpty(cat, pcre, number);
    MatchingStartsWithFirstMatch(cat, pcre, number);
    if |ms| > 0 {
      var cs := AsCandidates(ms);
      forall i | 0 <= i < |cs|
        ensures !HasPriority(cs, i)
      {
        assert ms[i] in ms;
      }
      assert IsWinner(cs, 0);
      ResolvePicksWinner(cs, 0);
    }
    if Agree(cat, pcre, other, number) {
      FirstMatchAgrees(cat, pcre, other, number);
    }
  }

  lemma CandidatesAppend(a: seq<GoValidator.CompiledBrand>, b: seq<GoValidator.CompiledBrand>)
    ensures GoValidator.Candidates(a + b) == GoValidator.Candidates(a) + GoValidator.Candidates(b)
  {
    var l, r := GoValidator.Candidates(a + b), GoValidator.Candidates(a) + GoValidator.Candidates(b);
    assert |l| == |r|;
    forall i | 0 <= i < |l|
      ensures l[i] == r[i]
    {
      if i < |a| {
        assert (a + b)[i] == a[i];
      } else {
        assert (a + b)[i] == b[i - |a|];
      }
    }
  }

  lemma AsCandidatesAppend(a: seq<Brand>, b: seq<Brand>)
    ensures AsCandidates(a + b) == AsCandidates(a) + AsCandidates(b)
  {
    var l, r := AsCandidates(a + b), AsCandidates(a) + AsCandidates(b);
    assert |l| == |r|;
    forall i | 0 <= i < |l|
      ensures l[i] == r[i]
    {
      if i < |a| {
        assert (a + b)[i] == a[i];
      } else {
        assert (a + b)[i] == b[i - |a|];
      }
    }
  }

  /** Go compiles a pattern without a length lookahead into itself with no
      window, so the brand survives exactly when its pattern matches. */
  lemma CompileWithoutLookahead(b: Brand, m: Matcher, number: string)
    requires GoValidator.FirstLookahead(b.regexpFull).None?
    ensures GoValidator.Survives(GoValidator.Compile(b), m, number) == m(b.regexpFull, number)
    ensures GoValidator.Candidates([GoValidator.Compile(b)]) == AsCandidates([b])
  {
  }

  /** The candidate lists of Go's surviving brands and of the brands that
      match, when no full pattern carries a length lookahead. */
  lemma {:induction false} SurvivorsWithoutLookahead(cat: seq<Brand>, m: Matcher, number: string)
    requires forall i :: 0 <= i < |cat| ==> GoValidator.FirstLookahead(cat[i].regexpFull).None?
    ensures GoValidator.Candidates(GoValidator.Survivors(GoValidator.CompileAll(cat), m, number))
         == AsCandidates(Matching(cat, m, number))
  {
    if cat != [] {
      var init := cat[..|cat| - 1];
      var last := cat[|cat| - 1];
      SurvivorsWithoutLookahead(init, m, number);
      var cs := GoValidator.CompileAll(cat);
      assert cs[..|cs| - 1] == GoValidator.CompileAll(init);
      var c := cs[|cs| - 1];
      CompileWithoutLookahead(last, m, number);
      var s0 := GoValidator.Survivors(cs[..|cs| - 1], m, number);
      var tail := if m(last.regexpFull, number) then [c] else [];
      assert GoValidator.Survivors(cs, m, number) == s0 + tail;
      var ms0 := Matching(init, m, number);
      var mtail := if m(last.regexpFull, number) then [last] else [];
      assert Matching(cat, m, number) == ms0 + mtail;
      CandidatesAppend(s0, tail);
      AsCandidatesAppend(ms0, mtail);
    }
  }

  /** Without length lookaheads in the full patterns, Go and PHP give the
      same answer on every number other than "0" on which RE2 and PCRE
      agree about the catalog's patterns. */
  lemma GoAgreesWithPhpWithoutLookaheads(cat: seq<Brand>, re2: Matcher, pcre: Matcher, number: string)
    requires forall i :: 0 <= i < |cat| ==> GoValidator.FirstLookahead(cat[i].regexpFull).None?
    requires number != "0"
    requires Agree(cat, re2, pcre, number)
    ensures GoValidator.Select(cat, re2, number) == PhpValidator.Select(cat, pcre, number)
  {
    SurvivorsWithoutLookahead(cat, re2, number);
    MatchingAgrees(cat, re2, pcre, number);
  }

  /** A two-brand catalog in which every pattern matches: Visa first, then
      Elo declaring priority over Visa. */
  function VisaElo(): seq<Brand>
  {
    [Brand("visa", [], "^4", "^4[0-9]{15}$", "^\\d{3}$"),
     Brand("elo", ["visa"], "^4011", "^4011[0-9]{12}$", "^\\d{3}$")]
  }

  /** Every brand of `VisaElo` matches when every pattern does. */
  lemma AllMatch(number: string)
    ensures Matching(VisaElo(), (p, t) => true, number) == VisaElo()
  {
    var cat := VisaElo();
    assert cat[..1][..0] == [];
    assert cat[..1] == [cat[0]];
  }

  /** The priority rule changes the answer: PHP picks Elo where the
      first-match ports pick Visa. */
  lemma PhpPicksElo()
    ensures PhpValidator.Select(VisaElo(), (p, t) => true, "4011") == Some("elo")
  {
    var cat := VisaElo();
    AllMatch("4011");
    var cs := AsCandidates(cat);
    assert cs[0].name in CandidateNames(cs);
    assert cs[1].priorityOver[0] in CandidateNames(cs);
    assert HasPriority(cs, 1);
    assert !HasPriority(cs, 0);
    assert IsWinner(cs, 1);
    ResolvePicksWinner(cs, 1);
  }

  /** Rust, Python, Ruby, .NET and JavaScript all pick Visa, the first match. */
  lemma FirstMatchPortsPickVisa()
    ensures RustValidator.FindBrand(VisaElo(), (p, t) => true, "4011") == Some("visa")
    ensures FirstMatchValidator.FindBrand(VisaElo(), (p, t) => true, Some("4011")) == Some("visa")
    ensures JsIdentifier.FindBrand(VisaElo(), (p, t) => true, Json.Str("4011")) == JsIdentifier.Returns("visa")
  {
    AllMatch("4011");
  }

  /** Java's answer depends on the hash map's iteration order: over the same
      two brands one order yields Visa and the other Elo. */
  lemma JavaDependsOnOrder()
    ensures var m: Matcher := (p, t) => true;
      && IsOrder([0, 1], 2) && IsOrder([1, 0], 2)
      && JavaValidator.Select(VisaElo(), [0, 1], m, Some("4011")) == Some("visa")
      && JavaValidator.Select(VisaElo(), [1, 0], m, Some("4011")) == Some("elo")
  {
    assert Range(2) == [0, 1];
    assert multiset([1, 0]) == multiset([0, 1]);
  }

  /** "0" is the one non-empty number PHP refuses outright: a catalog whose
      pattern matches it gets a brand from Go and Rust, nothing from PHP. */
  lemma ZeroNumberOnlyRefusedByPhp()
    ensures var m: Matcher := (p, t) => true;
      && PhpValidator.Select(VisaElo(), m, "0") == None
      && RustValidator.FindBrand(VisaElo(), m, "0") == Some("visa")
  {
    var m: Matcher := (p, t) => true;
    assert FirstMatchIndex(VisaElo(), m, "0") == Some(0);
  }

  /** The ports agree on an empty CVV except where a CVV of length 0 is
      declared: then the Python, Ruby and .NET check accepts "", which Go,
      Rust and PHP refuse before consulting the pattern. */
  lemma EmptyCvvOnlyAcceptedWithoutGuard(a: Anchoring, cat: seq<Brand>, m: Matcher, brandName: string)
    requires BrandNamed(cat, brandName).Some? && BrandNamed(cat, brandName).value.regexpCvv == CvvPattern(0)
    ensures FirstMatchValidator.ValidateCvv(a, cat, m, "", brandName)
    ensures !RustValidator.ValidateCvv(cat, m, "", brandName)
    ensures !GoValidator.ValidateCvv(cat, m, "", brandName)
    ensures !PhpValidator.ValidateCvv(cat, m, "", brandName)
  {
    FirstMatchValidator.ValidateCvvSpec(a, cat, m, "", brandName, 0);
  }
}
