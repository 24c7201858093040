/** The full pattern the catalog build writes (scripts/lib/transformers.js,
    `buildFullPattern`) and the length window the Go port reads back from it
    (libs/go/validator.go, `extractLengthFromRegex`) agree: the window is the
    least and greatest declared length, and the pattern left after the cut is
    the BIN alternatives followed by any digits. */
module PatternRoundTrip {
  import opened Text
  import Catalog
  import Transformers
  import GoValidator

  /** A lookahead on `lower` and, if present, `upper`, followed by `rest`,
      written opening first. */
  function Lead(lower: string, upper: Option<string>, rest: string): string
  {
    match upper
    case None => GoValidator.Opening + (lower + (GoValidator.Close + rest))
    case Some(u) => GoValidator.Opening + (lower + ("," + (u + (GoValidator.Close + rest))))
  }

  /** The length of the lookahead text on those bounds. */
  function LeadSize(lower: string, upper: Option<string>): nat
  {
    match upper
    case None => 5 + (|lower| + 3)
    case Some(u) => 5 + (|lower| + 1 + |u| + 3)
  }

  /** The part of a full pattern after its lookahead. */
  function Body(bins: string): string
  {
    "(?:" + bins + ")[0-9]*$"
  }

  /** The opening is cut off again at its own length. */
  lemma OpeningSplit(a: string)
    ensures GoValidator.Opens(GoValidator.Opening + a)
    ensures (GoValidator.Opening + a)[5..] == a
  {
  }

  /** Bounds read after the opening make a lookahead five characters
      longer. */
  lemma OpenReadBack(a: string, la: GoValidator.Lookahead)
    requires GoValidator.BoundsAt(a) == Some(la)
    ensures GoValidator.LookaheadAt(GoValidator.Opening + a) == Some(GoValidator.Lookahead(la.lower, la.upper, 5 + la.size))
  {
    OpeningSplit(a);
  }

  /** A run of digits followed by the close is read as the run, then the
      close. */
  lemma DigitsThenClose(u: string, rest: string)
    requires AllDigits(u)
    ensures var c := u + (GoValidator.Close + rest);
      DigitRun(c) == |u| && c[..|u|] == u && GoValidator.Closes(c[|u|..])
  {
    var c := u + (GoValidator.Close + rest);
    DigitRunOf(u, GoValidator.Close + rest);
    assert c[|u|..] == GoValidator.Close + rest && c[..|u|] == u;
  }

  /** The bounds are read as one digit run when the close follows it. */
  lemma BoundsAtSingle(a: string, k: nat)
    requires 0 < k == DigitRun(a) && GoValidator.Closes(a[k..])
    ensures GoValidator.BoundsAt(a) == Some(GoValidator.Lookahead(a[..k], None, k + 3))
  {
  }

  /** The bounds are read as two digit runs around a comma when the text
      has that shape. */
  lemma BoundsAtRange(a: string, k: nat, c: string, k2: nat)
    requires 0 < k == DigitRun(a) && k < |a| && a[k] == ',' && c == a[k + 1..]
    requires 0 < k2 == DigitRun(c) && GoValidator.Closes(c[k2..])
    ensures GoValidator.BoundsAt(a) == Some(GoValidator.Lookahead(a[..k], Some(c[..k2]), k + 1 + k2 + 3))
  {
    assert a[k..][1..] == c;
  }

  /** The bounds `d}$)` are read back in front of any text. */
  lemma SingleBoundsReadBack(d: string, rest: string)
    requires |d| > 0 && AllDigits(d)
    ensures GoValidator.BoundsAt(d + (GoValidator.Close + rest)) == Some(GoValidator.Lookahead(d, None, |d| + 3))
  {
    DigitsThenClose(d, rest);
    BoundsAtSingle(d + (GoValidator.Close + rest), |d|);
  }

  /** A digit run, a comma and any text are cut apart at the comma. */
  lemma CommaSplit(d: string, c: string)
    requires AllDigits(d)
    ensures var a := d + ("," + c);
      DigitRun(a) == |d| && |d| < |a| && a[..|d|] == d && a[|d|] == ',' && a[|d| + 1..] == c
  {
    DigitRunOf(d, "," + c);
    var a := d + ("," + c);
    assert a[|d|..] == "," + c;
  }

  /** The bounds `d,u}$)` are read back in front of any text. */
  lemma RangeBoundsReadBack(d: string, u: string, rest: string)
    requires |d| > 0 && AllDigits(d) && |u| > 0 && AllDigits(u)
    ensures GoValidator.BoundsAt(d + ("," + (u + (GoValidator.Close + rest))))
      == Some(GoValidator.Lookahead(d, Some(u), |d| + 1 + |u| + 3))
  {
    var c := u + (GoValidator.Close + rest);
    CommaSplit(d, c);
    DigitsThenClose(u, rest);
    BoundsAtRange(d + ("," + c), |d|, c, |u|);
  }

  /** A single-bound lookahead followed by any text is the opening, then
      the bounds and the text. */
  lemma SingleTextSplit(d: string, rest: string)
    ensures GoValidator.LookaheadText(d, None) + rest == GoValidator.Opening + (d + (GoValidator.Close + rest))
    ensures |GoValidator.LookaheadText(d, None)| == 5 + (|d| + 3)
  {
    AppendAssoc(GoValidator.Opening + d, GoValidator.Close, rest);
    AppendAssoc(GoValidator.Opening, d, GoValidator.Close + rest);
  }

  /** A range lookahead followed by any text is the opening, then the
      bounds and the text. */
  lemma RangeTextSplit(d: string, u: string, rest: string)
    ensures GoValidator.LookaheadText(d, Some(u)) + rest
      == GoValidator.Opening + (d + ("," + (u + (GoValidator.Close + rest))))
    ensures |GoValidator.LookaheadText(d, Some(u))| == 5 + (|d| + 1 + |u| + 3)
  {
    var o := GoValidator.Opening;
    var z := GoValidator.Close;
    AppendAssoc(o + d + "," + u, z, rest);
    AppendAssoc(o + d + ",", u, z + rest);
    AppendAssoc(o + d, ",", u + (z + rest));
    AppendAssoc(o, d, "," + (u + (z + rest)));
  }

  /** `(?=.{d}$)`, opening first, is read back at the front of any text. */
  lemma SingleOpenReadBack(d: string, rest: string)
    requires |d| > 0 && AllDigits(d)
    ensures GoValidator.LookaheadAt(Lead(d, None, rest)) == Some(GoValidator.Lookahead(d, None, LeadSize(d, None)))
  {
    var a := d + (GoValidator.Close + rest);
    SingleBoundsReadBack(d, rest);
    OpenReadBack(a, GoValidator.Lookahead(d, None, |d| + 3));
    assert Lead(d, None, rest) == GoValidator.Opening + a;
  }

  /** `(?=.{d,u}$)`, opening first, is read back at the front of any text. */
  lemma RangeOpenReadBack(d: string, u: string, rest: string)
    requires |d| > 0 && AllDigits(d) && |u| > 0 && AllDigits(u)
    ensures GoValidator.LookaheadAt(Lead(d, Some(u), rest)) == Some(GoValidator.Lookahead(d, Some(u), LeadSize(d, Some(u))))
  {
    var a := d + ("," + (u + (GoValidator.Close + rest)));
    RangeBoundsReadBack(d, u, rest);
    OpenReadBack(a, GoValidator.Lookahead(d, Some(u), |d| + 1 + |u| + 3));
    assert Lead(d, Some(u), rest) == GoValidator.Opening + a;
  }

  /** The lookahead text followed by `rest` is the lead, and the text is
      as long as the lead's size. */
  lemma LeadIsText(lower: string, upper: Option<string>, rest: string)
    ensures Lead(lower, upper, rest) == GoValidator.LookaheadText(lower, upper) + rest
    ensures |GoValidator.LookaheadText(lower, upper)| == LeadSize(lower, upper)
  {
    match upper
    case None => SingleTextSplit(lower, rest);
    case Some(u) => RangeTextSplit(lower, u, rest);
  }

  /** A lookahead on runs of digits is read back at the front of any text,
      with those bounds and its own length. */
  lemma LeadReadBack(lower: string, upper: Option<string>, rest: string)
    requires |lower| > 0 && AllDigits(lower)
    requires upper.Some? ==> |upper.value| > 0 && AllDigits(upper.value)
    ensures GoValidator.LookaheadAt(Lead(lower, upper, rest))
      == Some(GoValidator.Lookahead(lower, upper, LeadSize(lower, upper)))
  {
    match upper
    case None => SingleOpenReadBack(lower, rest);
    case Some(u) => RangeOpenReadBack(lower, u, rest);
  }

  /** What follows the lookahead in the lead is `rest`. */
  lemma LeadRest(lower: string, upper: Option<string>, rest: string)
    ensures LeadSize(lower, upper) <= |Lead(lower, upper, rest)|
    ensures Lead(lower, upper, rest)[LeadSize(lower, upper)..] == rest
  {
    LeadIsText(lower, upper, rest);
    var t := GoValidator.LookaheadText(lower, upper);
    assert (t + rest)[|t|..] == rest;
  }

  /** A full pattern text is `^`, its lookahead, and the body. */
  lemma FullPatternTextSplit(lower: string, upper: Option<string>, bins: string)
    ensures Transformers.FullPatternText(lower, upper, bins) == "^" + GoValidator.LookaheadText(lower, upper) + Body(bins)
  {
    assert "^(?=.{" == "^" + "(?=.{";
    match upper
    case None =>
      assert "}$)(?:" == "}$)" + "(?:";
      calc {
        Transformers.FullPatternText(lower, upper, bins);
        "^(?=.{" + lower + "}$)(?:" + bins + ")[0-9]*$";
        "^" + ("(?=.{" + lower + "}$)") + ("(?:" + bins + ")[0-9]*$");
      }
    case Some(u) =>
      assert "}$)(?:" == "}$)" + "(?:";
      calc {
        Transformers.FullPatternText(lower, upper, bins);
        "^(?=.{" + lower + "," + u + "}$)(?:" + bins + ")[0-9]*$";
        "^" + ("(?=.{" + lower + "," + u + "}$)") + ("(?:" + bins + ")[0-9]*$");
      }
  }

  /** The upper bound the build writes: none when both bounds agree. */
  function Upper(lo: nat, hi: nat): Option<string>
  {
    if lo == hi then None else Some(NatToString(hi))
  }

  /** The full pattern is `^`, then the lookahead on its bounds followed by
      the body. */
  lemma FullPatternShape(ps: seq<Transformers.SourcePattern>, lo: nat, hi: nat)
    requires Transformers.LengthBounds(ps) == Some((lo as int, hi as int))
    ensures Transformers.BuildFullPattern(ps) == "^" + Lead(NatToString(lo), Upper(lo, hi), Body(Transformers.AllBins(ps)))
  {
    var bins := Transformers.AllBins(ps);
    Transformers.BuildFullPatternSpec(ps);
    assert IntToString(lo) == NatToString(lo);
    assert IntToString(hi) == NatToString(hi);
    FullPatternTextSplit(NatToString(lo), Upper(lo, hi), bins);
    LeadIsText(NatToString(lo), Upper(lo, hi), Body(bins));
    AppendAssoc("^", GoValidator.LookaheadText(NatToString(lo), Upper(lo, hi)), Body(bins));
  }

  /** A leading `^` starts no lookahead, and is kept by the cut. */
  lemma AfterCaret(x: string)
    ensures GoValidator.FirstLookahead("^" + x) == GoValidator.FirstLookahead(x)
    ensures GoValidator.RemoveLookaheads("^" + x) == "^" + GoValidator.RemoveLookaheads(x)
  {
    var p := "^" + x;
    assert p[0] == '^' && p[1..] == x;
    assert GoValidator.LookaheadAt(p).None?;
  }

  /** Only the body's last character is a `$` when the BINs hold none. */
  lemma BodyDollars(bins: string)
    requires '$' !in bins
    ensures forall i :: 0 <= i < |Body(bins)| - 1 ==> Body(bins)[i] != '$'
  {
    var body := Body(bins);
    forall i | 0 <= i < |body| - 1 ensures body[i] != '$' {
      if 3 <= i < 3 + |bins| {
        assert body[i] == bins[i - 3];
      }
    }
  }

  /** Cutting a leading lookahead of size `n` leaves what follows it. */
  lemma CutLeading(t: string, n: nat)
    requires GoValidator.LookaheadAt(t).Some? && GoValidator.LookaheadAt(t).value.size == n
    ensures n <= |t|
    ensures GoValidator.RemoveLookaheads(t) == GoValidator.RemoveLookaheads(t[n..])
    ensures GoValidator.FirstLookahead(t) == GoValidator.LookaheadAt(t)
  {
  }

  /** A lookahead with decimal bounds within Go's int range yields those
      bounds. */
  lemma ExtractFound(p: string, lo: nat, hi: nat, size: nat)
    requires lo <= hi <= GoValidator.MaxInt
    requires GoValidator.FirstLookahead(p)
      == Some(GoValidator.Lookahead(NatToString(lo), if lo == hi then None else Some(NatToString(hi)), size))
    ensures GoValidator.ExtractLengthFromRegex(p) == GoValidator.Extracted(GoValidator.RemoveLookaheads(p), lo, hi)
  {
    NatToStringValue(lo);
    NatToStringValue(hi);
    assert GoValidator.Atoi(NatToString(lo)) == Some(lo);
    assert GoValidator.Atoi(NatToString(hi)) == Some(hi);
  }

  /** Reading the full pattern of a list of source patterns whose lengths
      lie between 0 and Go's largest int, and whose BINs hold no '$', gives
      the least and greatest length as the window and the pattern without
      its lookahead. */
  lemma BuildThenExtract(ps: seq<Transformers.SourcePattern>, lo: nat, hi: nat)
    requires Transformers.LengthBounds(ps) == Some((lo as int, hi as int))
    requires hi <= GoValidator.MaxInt
    requires '$' !in Transformers.AllBins(ps)
    ensures GoValidator.ExtractLengthFromRegex(Transformers.BuildFullPattern(ps))
      == GoValidator.Extracted("^" + Body(Transformers.AllBins(ps)), lo, hi)
  {
    var bins := Transformers.AllBins(ps);
    var body := Body(bins);
    var lower := NatToString(lo);
    var lead := Lead(lower, Upper(lo, hi), body);
    var n := LeadSize(lower, Upper(lo, hi));
    var p := Transformers.BuildFullPattern(ps);
    FullPatternShape(ps, lo, hi);
    AfterCaret(lead);
    LeadReadBack(lower, Upper(lo, hi), body);
    LeadRest(lower, Upper(lo, hi), body);
    CutLeading(lead, n);
    BodyDollars(bins);
    GoValidator.NoLookaheadBeforeFinalDollar(body);
    assert GoValidator.RemoveLookaheads(p) == "^" + body;
    assert GoValidator.FirstLookahead(p) == GoValidator.LookaheadAt(lead);
    ExtractFound(p, lo, hi, n);
  }

  /** A brand whose full pattern the build wrote from lengths between 1 and
      Go's largest int is kept by the Go port's length filter exactly for the
      numbers whose length lies between the least and greatest declared
      length, and is then matched against the pattern without its lookahead. */
  lemma BuiltBrandWindow(b: Catalog.Brand, ps: seq<Transformers.SourcePattern>, lo: nat, hi: nat, len: nat)
    requires b.regexpFull == Transformers.BuildFullPattern(ps)
    requires Transformers.LengthBounds(ps) == Some((lo as int, hi as int))
    requires 0 < lo && hi <= GoValidator.MaxInt
    requires '$' !in Transformers.AllBins(ps)
    ensures GoValidator.InWindow(GoValidator.Compile(b), len) <==> lo <= len <= hi
    ensures GoValidator.Compile(b).regexpFull == "^" + Body(Transformers.AllBins(ps))
  {
    BuildThenExtract(ps, lo, hi);
  }
}
