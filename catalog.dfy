/** The brand catalog every runtime port ships, and the selection rules the
    ports apply to it: name lookup, CVV patterns, first match in catalog order
    and the `priorityOver` rule of the Go and PHP ports.

    Regular-expression matching of the full and BIN patterns is a parameter,
    `m(pattern, text)`, about which nothing is assumed. CVV patterns are the
    exception: the build writes them as `^\d{n}$`, and such a pattern is read
    back and matched concretely. */
module Catalog {
  import opened Text
  import Json

  /** One simplified catalog record. */
  datatype Brand = Brand(
    name: string,
    priorityOver: seq<string>,
    regexpBin: string,
    regexpFull: string,
    regexpCvv: string)

  /** One detailed catalog record; the ports only compare its scheme. */
  datatype DetailedBrand = DetailedBrand(scheme: string, details: Json.Value)

  /** Regular-expression matching: `m(pattern, text)`. */
  type Matcher = (string, string) -> bool

  // ----- lookup by name -------------------------------------------------

  /** Position of the first brand named `name`. */
  function IndexOfName(cat: seq<Brand>, name: string): (r: Option<nat>)
    ensures r.Some? ==> r.value < |cat| && cat[r.value].name == name
    ensures r.Some? ==> forall j :: 0 <= j < r.value ==> cat[j].name != name
    ensures r.None? ==> forall j :: 0 <= j < |cat| ==> cat[j].name != name
  {
    if cat == [] then None
    else if cat[0].name == name then Some(0)
    else match IndexOfName(cat[1..], name)
      case None => None
      case Some(i) => Some(i + 1)
  }

  /** The first brand named `name`, as every port's brand-info lookup returns it. */
  function BrandNamed(cat: seq<Brand>, name: string): (r: Option<Brand>)
    ensures r.None? <==> forall j :: 0 <= j < |cat| ==> cat[j].name != name
    ensures r.Some? ==> exists i :: 0 <= i < |cat| && cat[i] == r.value && r.value.name == name
                                   && forall j :: 0 <= j < i ==> cat[j].name != name
  {
    match IndexOfName(cat, name)
    case None => None
    case Some(i) => Some(cat[i])
  }

  /** The first detailed record whose scheme is `scheme`. */
  function DetailedNamed(ds: seq<DetailedBrand>, scheme: string): (r: Option<DetailedBrand>)
    ensures r.None? <==> forall j :: 0 <= j < |ds| ==> ds[j].scheme != scheme
    ensures r.Some? ==> exists i :: 0 <= i < |ds| && ds[i] == r.value && r.value.scheme == scheme
                                   && forall j :: 0 <= j < i ==> ds[j].scheme != scheme
  {
    if ds == [] then None
    else if ds[0].scheme == scheme then Some(ds[0])
    else
      var r := DetailedNamed(ds[1..], scheme);
      assert forall j :: 1 <= j < |ds| ==> ds[j] == ds[1..][j - 1];
      r
  }

  /** The brand names, in catalog order. */
  function Names(cat: seq<Brand>): (r: seq<string>)
    ensures |r| == |cat|
    ensures forall i :: 0 <= i < |cat| ==> r[i] == cat[i].name
  {
    if cat == [] then [] else [cat[0].name] + Names(cat[1..])
  }

  // ----- CVV patterns ---------------------------------------------------

  /** The CVV pattern the build writes for a length given as text. */
  function CvvPatternText(len: string): string
  {
    "^\\d{" + len + "}$"
  }

  /** The CVV pattern for a CVV of `n` digits. */
  function CvvPattern(n: nat): string
  {
    CvvPatternText(NatToString(n))
  }

  /** Reads a pattern of the form `^\d{n}$` back into `n`. */
  function ParseCvvPattern(p: string): (r: Option<nat>)
    ensures r.Some? ==> exists t :: p == CvvPatternText(t) && |t| > 0 && AllDigits(t) && r.value == DigitsValue(t)
  {
    if |p| >= 6 && p[..4] == "^\\d{" && p[|p| - 2..] == "}$" && |p[4..|p| - 2]| > 0 && AllDigits(p[4..|p| - 2]) then
      assert p == CvvPatternText(p[4..|p| - 2]);
      Some(DigitsValue(p[4..|p| - 2]))
    else None
  }

  /** The CVV pattern of a length reads back as that length. */
  lemma ParseCvvPatternRoundTrip(n: nat)
    ensures ParseCvvPattern(CvvPattern(n)) == Some(n)
  {
    var t := NatToString(n);
    var p := CvvPattern(n);
    assert p[..4] == "^\\d{";
    assert p[|p| - 2..] == "}$";
    assert p[4..|p| - 2] == t;
    NatToStringValue(n);
  }

  /** How an engine reads the anchors of `^\d{n}$`. */
  datatype Anchoring =
    /** `$` only at the end of the text (Go, Rust, Java's `matches()`). */
    | EndOfText
    /** `$` also before one final newline (Python `re`, PCRE without the
        D modifier in PHP, .NET). */
    | BeforeFinalNewline
    /** `^` and `$` at every line boundary (Ruby). */
    | AnyLine

  /** `s` is a run of exactly `n` ASCII digits. */
  predicate DigitsOfLength(s: string, n: nat)
  {
    |s| == n && AllDigits(s)
  }

  /** Whether `^\d{n}$` matches `cvv` under the given anchoring. */
  predicate AnchoredDigits(a: Anchoring, n: nat, cvv: string)
  {
    match a
    case EndOfText => DigitsOfLength(cvv, n)
    case BeforeFinalNewline =>
      DigitsOfLength(cvv, n) || (|cvv| > 0 && cvv[|cvv| - 1] == '\n' && DigitsOfLength(cvv[..|cvv| - 1], n))
    case AnyLine => exists i :: 0 <= i < |Split(cvv, '\n')| && DigitsOfLength(Split(cvv, '\n')[i], n)
  }

  /** Whether `cvv` matches the CVV pattern `p`: a pattern `^\d{n}$` is read
      back and decided by the anchoring; any other pattern is left to `m`. */
  predicate CvvMatches(a: Anchoring, m: Matcher, p: string, cvv: string)
  {
    match ParseCvvPattern(p)
    case Some(n) => AnchoredDigits(a, n, cvv)
    case None => m(p, cvv)
  }

  /** The CVV pattern of length `n` accepts what the anchoring lets `^\d{n}$` accept. */
  lemma CvvPatternAccepts(a: Anchoring, m: Matcher, n: nat, cvv: string)
    ensures CvvMatches(a, m, CvvPattern(n), cvv) <==> AnchoredDigits(a, n, cvv)
    ensures a == EndOfText ==> (CvvMatches(a, m, CvvPattern(n), cvv) <==> DigitsOfLength(cvv, n))
  {
    ParseCvvPatternRoundTrip(n);
  }

  /** A run of exactly `n` digits is accepted under every anchoring: the
      engines disagree only on texts holding a newline. */
  lemma DigitsAcceptedEverywhere(a: Anchoring, n: nat, cvv: string)
    requires DigitsOfLength(cvv, n)
    ensures AnchoredDigits(a, n, cvv)
  {
    if a == AnyLine {
      assert '\n' !in cvv;
      SplitJoin([cvv], '\n');
      assert Join([cvv], "\n") == cvv;
      assert Split(cvv, '\n')[0] == cvv;
    }
  }

  /** Without a newline every anchoring accepts exactly the runs of `n` digits. */
  lemma AnchoringsAgreeWithoutNewline(a: Anchoring, n: nat, cvv: string)
    requires '\n' !in cvv
    ensures AnchoredDigits(a, n, cvv) <==> DigitsOfLength(cvv, n)
  {
    SplitJoin([cvv], '\n');
    assert Join([cvv], "\n") == cvv;
    assert Split(cvv, '\n') == [cvv];
  }

  /** With a newline they differ: "123\n" passes a three-digit CVV check in
      Python, PHP and .NET but not in Go; "12\n123" passes only in Ruby. */
  lemma AnchoringsDifferOnNewline()
    ensures AnchoredDigits(BeforeFinalNewline, 3, "123\n") && !AnchoredDigits(EndOfText, 3, "123\n")
    ensures AnchoredDigits(AnyLine, 3, "12\n123") && !AnchoredDigits(BeforeFinalNewline, 3, "12\n123")
  {
    assert "123\n"[..3] == "123";
    SplitJoin(["12", "123"], '\n');
    assert Join(["12", "123"], "\n") == "12\n123";
    assert Split("12\n123", '\n')[1] == "123";
    assert "12\n123"[..5] == "12\n12";
    assert !IsDigit("12\n12"[2]);
  }

  // ----- first match in catalog order -----------------------------------

  /** Position of the first brand whose full pattern matches `number`. */
  function FirstMatchIndex(cat: seq<Brand>, m: Matcher, number: string): (r: Option<nat>)
    ensures r.Some? ==> r.value < |cat| && m(cat[r.value].regexpFull, number)
    ensures r.Some? ==> forall j :: 0 <= j < r.value ==> !m(cat[j].regexpFull, number)
    ensures r.None? <==> forall j :: 0 <= j < |cat| ==> !m(cat[j].regexpFull, number)
  {
    if cat == [] then None
    else if m(cat[0].regexpFull, number) then Some(0)
    else match FirstMatchIndex(cat[1..], m, number)
      case None => None
      case Some(i) => Some(i + 1)
  }

  /** The name of the first brand, in catalog order, whose full pattern matches. */
  function FirstMatch(cat: seq<Brand>, m: Matcher, number: string): (r: Option<string>)
    ensures r.None? <==> forall j :: 0 <= j < |cat| ==> !m(cat[j].regexpFull, number)
    ensures r.Some? ==> exists i :: 0 <= i < |cat| && cat[i].name == r.value && m(cat[i].regexpFull, number)
                                   && forall j :: 0 <= j < i ==> !m(cat[j].regexpFull, number)
  {
    match FirstMatchIndex(cat, m, number)
    case None => None
    case Some(i) => Some(cat[i].name)
  }

  /** Some brand's full pattern matches. */
  predicate AnyMatches(cat: seq<Brand>, m: Matcher, number: string)
  {
    exists j :: 0 <= j < |cat| && m(cat[j].regexpFull, number)
  }

  /** The brands whose full pattern matches, in catalog order. */
  function Matching(cat: seq<Brand>, m: Matcher, number: string): (r: seq<Brand>)
    ensures |r| <= |cat|
    ensures forall b :: b in r <==> b in cat && m(b.regexpFull, number)
  {
    if cat == [] then []
    else
      var last := cat[|cat| - 1];
      Matching(cat[..|cat| - 1], m, number) + (if m(last.regexpFull, number) then [last] else [])
  }

  /** The positions of the brands whose full pattern matches: each matching
      position once, in increasing order. */
  function MatchingPositions(cat: seq<Brand>, m: Matcher, number: string): (r: seq<nat>)
    ensures forall k :: 0 <= k < |r| ==> r[k] < |cat| && m(cat[r[k]].regexpFull, number)
    ensures forall k, l :: 0 <= k < l < |r| ==> r[k] < r[l]
    ensures forall j :: 0 <= j < |cat| && m(cat[j].regexpFull, number) ==> j in r
  {
    if cat == [] then []
    else
      var n := |cat| - 1;
      var init := MatchingPositions(cat[..n], m, number);
      assert forall k :: 0 <= k < |init| ==> cat[..n][init[k]] == cat[init[k]];
      assert forall j :: 0 <= j < n ==> cat[..n][j] == cat[j];
      init + (if m(cat[n].regexpFull, number) then [n] else [])
  }

  /** The list of matches holds the brand of every matching position, one
      entry per position, in catalog order. */
  lemma {:induction false} MatchingInOrder(cat: seq<Brand>, m: Matcher, number: string)
    ensures |Matching(cat, m, number)| == |MatchingPositions(cat, m, number)|
    ensures forall k :: 0 <= k < |Matching(cat, m, number)| ==>
      Matching(cat, m, number)[k] == cat[MatchingPositions(cat, m, number)[k]]
  {
    if cat != [] {
      var n := |cat| - 1;
      var c := cat[..n];
      MatchingInOrder(c, m, number);
      var pi, init := MatchingPositions(c, m, number), Matching(c, m, number);
      var ms, ps := Matching(cat, m, number), MatchingPositions(cat, m, number);
      if m(cat[n].regexpFull, number) {
        assert ms == init + [cat[n]] && ps == pi + [n];
      } else {
        assert ms == init && ps == pi;
      }
      forall k | 0 <= k < |ms| ensures ms[k] == cat[ps[k]] {
        if k < |init| {
          assert ms[k] == init[k] == c[pi[k]] && ps[k] == pi[k];
        }
      }
    }
  }

  /** The first match is the one position that matches after a run of
      non-matching brands. */
  lemma FirstMatchIndexIs(cat: seq<Brand>, m: Matcher, number: string, g: nat)
    requires g < |cat| && m(cat[g].regexpFull, number)
    requires forall j :: 0 <= j < g ==> !m(cat[j].regexpFull, number)
    ensures FirstMatchIndex(cat, m, number) == Some(g)
  {
  }

  /** Some brand matches exactly when the list of matches is not empty. */
  lemma MatchingNonEmpty(cat: seq<Brand>, m: Matcher, number: string)
    ensures |Matching(cat, m, number)| > 0 <==> AnyMatches(cat, m, number)
  {
    var ms := Matching(cat, m, number);
    if AnyMatches(cat, m, number) {
      var j :| 0 <= j < |cat| && m(cat[j].regexpFull, number);
      assert cat[j] in ms;
    }
  }

  /** The list of matches starts with the first match in catalog order. */
  lemma {:induction false} MatchingStartsWithFirstMatch(cat: seq<Brand>, m: Matcher, number: string)
    ensures |Matching(cat, m, number)| > 0 ==>
      FirstMatchIndex(cat, m, number).Some? && Matching(cat, m, number)[0] == cat[FirstMatchIndex(cat, m, number).value]
  {
    if cat != [] {
      var ms := Matching(cat, m, number);
      var init := cat[..|cat| - 1];
      var last := cat[|cat| - 1];
      var mi := Matching(init, m, number);
      assert ms == mi + (if m(last.regexpFull, number) then [last] else []);
      MatchingStartsWithFirstMatch(init, m, number);
      if |mi| > 0 {
        var g := FirstMatchIndex(init, m, number).value;
        assert ms[0] == mi[0] == init[g] == cat[g];
        assert forall j :: 0 <= j < g ==> cat[j] == init[j];
        FirstMatchIndexIs(cat, m, number, g);
      } else if |ms| > 0 {
        MatchingNonEmpty(init, m, number);
        assert forall j :: 0 <= j < |cat| - 1 ==> cat[j] == init[j];
        FirstMatchIndexIs(cat, m, number, |cat| - 1);
      }
    }
  }

  // ----- the priority rule ----------------------------------------------

  /** What the priority rule looks at in a matching brand. */
  datatype Candidate = Candidate(name: string, priorityOver: seq<string>)

  function AsCandidate(b: Brand): Candidate
  {
    Candidate(b.name, b.priorityOver)
  }

  function AsCandidates(bs: seq<Brand>): (r: seq<Candidate>)
    ensures |r| == |bs|
    ensures forall i :: 0 <= i < |bs| ==> r[i] == AsCandidate(bs[i])
  {
    if bs == [] then [] else [AsCandidate(bs[0])] + AsCandidates(bs[1..])
  }

  /** The names among the candidates. */
  function CandidateNames(ms: seq<Candidate>): set<string>
  {
    set i | 0 <= i < |ms| :: ms[i].name
  }

  /** Candidate `i` declares priority over some matching brand (possibly itself). */
  predicate HasPriority(ms: seq<Candidate>, i: nat)
    requires i < |ms|
  {
    exists q :: 0 <= q < |ms[i].priorityOver| && ms[i].priorityOver[q] in CandidateNames(ms)
  }

  /** The first position at or after `from` whose candidate has priority. */
  function FirstWithPriority(ms: seq<Candidate>, from: nat): (r: Option<nat>)
    requires from <= |ms|
    ensures r.Some? ==> from <= r.value < |ms| && HasPriority(ms, r.value)
    ensures r.Some? ==> forall j :: from <= j < r.value ==> !HasPriority(ms, j)
    ensures r.None? ==> forall j :: from <= j < |ms| ==> !HasPriority(ms, j)
    decreases |ms| - from
  {
    if from == |ms| then None
    else if HasPriority(ms, from) then Some(from)
    else FirstWithPriority(ms, from + 1)
  }

  /** The selection of the Go and PHP ports among several matches: no match
      gives nothing, a single match is returned as it is, and otherwise the
      first candidate with priority over a matching brand wins, falling back
      to the first match. */
  function Resolve(ms: seq<Candidate>): (r: Option<string>)
    ensures r.None? <==> |ms| == 0
    ensures r.Some? ==> r.value in CandidateNames(ms)
  {
    if |ms| == 0 then None
    else if |ms| == 1 then Some(ms[0].name)
    else match FirstWithPriority(ms, 0)
      case Some(i) => Some(ms[i].name)
      case None => Some(ms[0].name)
  }

  /** The priority rule stated without the single-match shortcut: the winner
      is the earliest candidate with priority, or the first candidate when
      none has any. */
  predicate IsWinner(ms: seq<Candidate>, w: nat)
  {
    w < |ms| &&
    if exists i :: 0 <= i < |ms| && HasPriority(ms, i) then
      HasPriority(ms, w) && forall j :: 0 <= j < w ==> !HasPriority(ms, j)
    else w == 0
  }

  /** Every non-empty match list has a winner. */
  lemma WinnerExists(ms: seq<Candidate>)
    requires |ms| > 0
    ensures exists w :: IsWinner(ms, w)
  {
    match FirstWithPriority(ms, 0)
    case Some(i) =>
      assert IsWinner(ms, i);
    case None =>
      assert IsWinner(ms, 0);
  }

  /** `Resolve` returns the winner's name; in particular the single-match
      shortcut agrees with the general rule. */
  lemma ResolvePicksWinner(ms: seq<Candidate>, w: nat)
    requires IsWinner(ms, w)
    ensures Resolve(ms) == Some(ms[w].name)
  {
    if |ms| == 1 {
      assert w == 0;
    } else {
      match FirstWithPriority(ms, 0)
      case Some(i) =>
        assert HasPriority(ms, i) && HasPriority(ms, w);
      case None =>
    }
  }

  /** The winner is unique. */
  lemma WinnerUnique(ms: seq<Candidate>, v: nat, w: nat)
    requires IsWinner(ms, v) && IsWinner(ms, w)
    ensures v == w
  {
    if exists i :: 0 <= i < |ms| && HasPriority(ms, i) {
      assert HasPriority(ms, v) && HasPriority(ms, w);
    }
  }

  /** The set of matching names, built one candidate at a time (a map to
      `true` in Go, `array_flip` of the names in PHP). */
  method NameSet(ms: seq<Candidate>) returns (names: set<string>)
    ensures names == CandidateNames(ms)
  {
    names := {};
    var i := 0;
    while i < |ms|
      invariant 0 <= i <= |ms|
      invariant names == set j | 0 <= j < i :: ms[j].name
    {
      names := names + {ms[i].name};
      i := i + 1;
    }
  }

  /** The priority loop of the Go and PHP ports over two or more matches:
      scan the candidates in order and, within each, its `priorityOver`
      list; the first name found among the matches makes that candidate the
      answer; if none is found the first candidate is. */
  method PriorityScan(ms: seq<Candidate>, names: set<string>) returns (r: Option<string>)
    requires |ms| >= 2
    requires names == CandidateNames(ms)
    ensures r == Resolve(ms)
  {
    var i := 0;
    while i < |ms|
      invariant 0 <= i <= |ms|
      invariant forall j :: 0 <= j < i ==> !HasPriority(ms, j)
    {
      var candidate := ms[i];
      var k := 0;
      while k < |candidate.priorityOver|
        invariant 0 <= k <= |candidate.priorityOver|
        invariant forall q :: 0 <= q < k ==> candidate.priorityOver[q] !in names
      {
        if candidate.priorityOver[k] in names {
          assert HasPriority(ms, i);
          assert IsWinner(ms, i);
          ResolvePicksWinner(ms, i);
          return Some(candidate.name);
        }
        k := k + 1;
      }
      i := i + 1;
    }
    assert IsWinner(ms, 0);
    ResolvePicksWinner(ms, 0);
    return Some(ms[0].name);
  }

  // ----- orders over the catalog ----------------------------------------

  function Range(n: nat): (r: seq<nat>)
    ensures |r| == n
    ensures forall i :: 0 <= i < n ==> r[i] == i
  {
    if n == 0 then [] else Range(n - 1) + [n - 1]
  }

  /** `order` lists every position below `n` exactly once. */
  predicate IsOrder(order: seq<nat>, n: nat)
  {
    multiset(order) == multiset(Range(n))
  }

  lemma InRange(n: nat, k: nat)
    ensures k in multiset(Range(n)) <==> k < n
  {
    if k < n {
      assert Range(n)[k] == k;
    }
  }

  /** An order visits exactly the positions below `n`. */
  lemma OrderCovers(order: seq<nat>, n: nat)
    requires IsOrder(order, n)
    ensures |order| == n
    ensures forall i :: 0 <= i < |order| ==> order[i] < n
    ensures forall k :: 0 <= k < n ==> k in order
  {
    assert |multiset(order)| == |multiset(Range(n))|;
    forall i | 0 <= i < |order|
      ensures order[i] < n
    {
      assert order[i] in multiset(order);
      InRange(n, order[i]);
    }
    forall k | 0 <= k < n
      ensures k in order
    {
      InRange(n, k);
      assert k in multiset(order);
    }
  }
}
